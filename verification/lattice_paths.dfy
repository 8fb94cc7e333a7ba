/**
 Lattice paths over a weight matrix: what the forward and backward tables of the
 ordered row matcher count.  A path walks from one grid corner to another by
 skipping a row, skipping a column, or matching a row with a column.
 */
module LatticePaths {

  /** A rectangular matrix of association weights. */
  type Weights = w: seq<seq<real>> | forall i :: 0 <= i < |w| ==> |w[i]| == |w[0]|

  datatype Step = SkipRow | SkipCol | Match

  type Path = seq<Step>

  function Rows(w: Weights): nat {
    |w|
  }

  function Cols(w: Weights): nat {
    if |w| == 0 then 0 else |w[0]|
  }

  /** The corners (a, b) and (c, d) span a rectangle inside the grid. */
  predicate InGrid(w: Weights, a: int, b: int, c: int, d: int) {
    0 <= a <= c <= Rows(w) && 0 <= b <= d <= Cols(w)
  }

  /** `p` leads from (a, b) to (c, d); a match step needs a non-zero weight. */
  predicate IsPath(w: Weights, a: int, b: int, c: int, d: int, p: Path)
    requires InGrid(w, a, b, c, d)
    decreases |p|
  {
    if p == [] then
      a == c && b == d
    else
      var q := p[..|p| - 1];
      match p[|p| - 1]
      case SkipRow => a < c && IsPath(w, a, b, c - 1, d, q)
      case SkipCol => b < d && IsPath(w, a, b, c, d - 1, q)
      case Match => a < c && b < d && w[c - 1][d - 1] != 0.0 && IsPath(w, a, b, c - 1, d - 1, q)
  }

  /** The total weight of the matches of a path that ends at (c, d). */
  function Value(w: Weights, a: int, b: int, c: int, d: int, p: Path): real
    requires InGrid(w, a, b, c, d) && IsPath(w, a, b, c, d, p)
    decreases |p|
  {
    if p == [] then
      0.0
    else
      var q := p[..|p| - 1];
      match p[|p| - 1]
      case SkipRow => Value(w, a, b, c - 1, d, q)
      case SkipCol => Value(w, a, b, c, d - 1, q)
      case Match => Value(w, a, b, c - 1, d - 1, q) + w[c - 1][d - 1]
  }

  function Max3(x: real, y: real, z: real): real {
    var m := if x < y then y else x;
    if m < z then z else m
  }

  /** The best value of a path from (a, b) to (c, d). */
  function Best(w: Weights, a: int, b: int, c: int, d: int): (best: real)
    requires InGrid(w, a, b, c, d)
    ensures best >= 0.0
    decreases c - a + d - b
  {
    if a == c || b == d then
      0.0
    else
      Max3(Best(w, a, b, c - 1, d), Best(w, a, b, c, d - 1),
           Best(w, a, b, c - 1, d - 1) + w[c - 1][d - 1])
  }

  function Extend(ps: set<Path>, s: Step): set<Path> {
    set p | p in ps :: p + [s]
  }

  /** All paths of best value from (a, b) to (c, d). */
  function BestPaths(w: Weights, a: int, b: int, c: int, d: int): set<Path>
    requires InGrid(w, a, b, c, d)
    decreases c - a + d - b
  {
    if a == c && b == d then
      {[]}
    else
      var best := Best(w, a, b, c, d);
      (if a < c && Best(w, a, b, c - 1, d) == best
       then Extend(BestPaths(w, a, b, c - 1, d), SkipRow) else {}) +
      (if b < d && Best(w, a, b, c, d - 1) == best
       then Extend(BestPaths(w, a, b, c, d - 1), SkipCol) else {}) +
      (if a < c && b < d && w[c - 1][d - 1] != 0.0
          && Best(w, a, b, c - 1, d - 1) + w[c - 1][d - 1] == best
       then Extend(BestPaths(w, a, b, c - 1, d - 1), Match) else {})
  }

  /** No path beats `Best`. */
  lemma {:induction false} BestIsUpperBound(w: Weights, a: int, b: int, c: int, d: int, p: Path)
    requires InGrid(w, a, b, c, d) && IsPath(w, a, b, c, d, p)
    ensures Value(w, a, b, c, d, p) <= Best(w, a, b, c, d)
    decreases |p|
  {
    if p != [] {
      var q := p[..|p| - 1];
      match p[|p| - 1]
      case SkipRow => BestIsUpperBound(w, a, b, c - 1, d, q);
      case SkipCol => BestIsUpperBound(w, a, b, c, d - 1, q);
      case Match => BestIsUpperBound(w, a, b, c - 1, d - 1, q);
    }
    BestOnBorder(w, a, b, c, d, p);
  }

  lemma {:induction false} BestOnBorder(w: Weights, a: int, b: int, c: int, d: int, p: Path)
    requires InGrid(w, a, b, c, d) && IsPath(w, a, b, c, d, p)
    ensures a == c || b == d ==> Value(w, a, b, c, d, p) == 0.0
    decreases |p|
  {
    if p != [] {
      var q := p[..|p| - 1];
      match p[|p| - 1]
      case SkipRow => BestOnBorder(w, a, b, c - 1, d, q);
      case SkipCol => BestOnBorder(w, a, b, c, d - 1, q);
      case Match =>
    }
  }

  lemma ExtendMember(ps: set<Path>, s: Step, p: Path)
    ensures p in Extend(ps, s) <==> p != [] && p[|p| - 1] == s && p[..|p| - 1] in ps
  {
    if p != [] && p[|p| - 1] == s && p[..|p| - 1] in ps {
      assert p == p[..|p| - 1] + [s];
    }
    forall q | q in ps && q + [s] == p
      ensures p[..|p| - 1] == q
    {
      assert (q + [s])[..|p| - 1] == q;
    }
  }

  predicate IsBest(w: Weights, a: int, b: int, c: int, d: int, p: Path)
    requires InGrid(w, a, b, c, d)
  {
    IsPath(w, a, b, c, d, p) && Value(w, a, b, c, d, p) == Best(w, a, b, c, d)
  }

  lemma BestEndingInSkipRow(w: Weights, a: int, b: int, c: int, d: int, p: Path)
    requires InGrid(w, a, b, c, d) && p != [] && p[|p| - 1] == SkipRow
    ensures IsBest(w, a, b, c, d, p) <==>
            a < c && Best(w, a, b, c - 1, d) == Best(w, a, b, c, d)
            && IsBest(w, a, b, c - 1, d, p[..|p| - 1])
    ensures p in BestPaths(w, a, b, c, d) <==>
            a < c && Best(w, a, b, c - 1, d) == Best(w, a, b, c, d)
            && p[..|p| - 1] in BestPaths(w, a, b, c - 1, d)
  {
    if a < c {
      var q := p[..|p| - 1];
      ExtendMember(BestPaths(w, a, b, c - 1, d), SkipRow, p);
      if IsPath(w, a, b, c - 1, d, q) {
        BestIsUpperBound(w, a, b, c - 1, d, q);
      }
    }
  }

  lemma BestEndingInSkipCol(w: Weights, a: int, b: int, c: int, d: int, p: Path)
    requires InGrid(w, a, b, c, d) && p != [] && p[|p| - 1] == SkipCol
    ensures IsBest(w, a, b, c, d, p) <==>
            b < d && Best(w, a, b, c, d - 1) == Best(w, a, b, c, d)
            && IsBest(w, a, b, c, d - 1, p[..|p| - 1])
    ensures p in BestPaths(w, a, b, c, d) <==>
            b < d && Best(w, a, b, c, d - 1) == Best(w, a, b, c, d)
            && p[..|p| - 1] in BestPaths(w, a, b, c, d - 1)
  {
    if b < d {
      var q := p[..|p| - 1];
      ExtendMember(BestPaths(w, a, b, c, d - 1), SkipCol, p);
      if IsPath(w, a, b, c, d - 1, q) {
        BestIsUpperBound(w, a, b, c, d - 1, q);
      }
    }
  }

  lemma BestEndingInMatch(w: Weights, a: int, b: int, c: int, d: int, p: Path)
    requires InGrid(w, a, b, c, d) && p != [] && p[|p| - 1] == Match
    ensures IsBest(w, a, b, c, d, p) <==>
            a < c && b < d && w[c - 1][d - 1] != 0.0
            && Best(w, a, b, c - 1, d - 1) + w[c - 1][d - 1] == Best(w, a, b, c, d)
            && IsBest(w, a, b, c - 1, d - 1, p[..|p| - 1])
    ensures p in BestPaths(w, a, b, c, d) <==>
            a < c && b < d && w[c - 1][d - 1] != 0.0
            && Best(w, a, b, c - 1, d - 1) + w[c - 1][d - 1] == Best(w, a, b, c, d)
            && p[..|p| - 1] in BestPaths(w, a, b, c - 1, d - 1)
  {
    if a < c && b < d {
      var q := p[..|p| - 1];
      ExtendMember(BestPaths(w, a, b, c - 1, d - 1), Match, p);
      if IsPath(w, a, b, c - 1, d - 1, q) {
        BestIsUpperBound(w, a, b, c - 1, d - 1, q);
      }
    }
  }

  lemma EmptyBestPath(w: Weights, a: int, b: int, c: int, d: int)
    requires InGrid(w, a, b, c, d)
    ensures [] in BestPaths(w, a, b, c, d) <==> IsBest(w, a, b, c, d, [])
  {
    if a < c {
      ExtendMember(BestPaths(w, a, b, c - 1, d), SkipRow, []);
    }
    if b < d {
      ExtendMember(BestPaths(w, a, b, c, d - 1), SkipCol, []);
    }
    if a < c && b < d {
      ExtendMember(BestPaths(w, a, b, c - 1, d - 1), Match, []);
    }
  }

  /** `BestPaths` holds exactly the paths whose value is `Best`. */
  lemma {:induction false} BestPathsCharacterized(w: Weights, a: int, b: int, c: int, d: int, p: Path)
    requires InGrid(w, a, b, c, d)
    ensures p in BestPaths(w, a, b, c, d) <==> IsBest(w, a, b, c, d, p)
    decreases |p|
  {
    hide BestPaths, IsBest, Best;
    if p == [] {
      EmptyBestPath(w, a, b, c, d);
    } else {
      var q := p[..|p| - 1];
      match p[|p| - 1]
      case SkipRow =>
        BestEndingInSkipRow(w, a, b, c, d, p);
        if a < c {
          BestPathsCharacterized(w, a, b, c - 1, d, q);
        }
      case SkipCol =>
        BestEndingInSkipCol(w, a, b, c, d, p);
        if b < d {
          BestPathsCharacterized(w, a, b, c, d - 1, q);
        }
      case Match =>
        BestEndingInMatch(w, a, b, c, d, p);
        if a < c && b < d {
          BestPathsCharacterized(w, a, b, c - 1, d - 1, q);
        }
    }
  }

  /** Skipping never costs anything. */
  lemma BestGrows(w: Weights, a: int, b: int, c: int, d: int)
    requires InGrid(w, a, b, c, d)
    ensures a < c ==> Best(w, a, b, c - 1, d) <= Best(w, a, b, c, d)
    ensures b < d ==> Best(w, a, b, c, d - 1) <= Best(w, a, b, c, d)
  {
  }

  /** `Best` is attained. */
  lemma {:induction false} BestIsAttained(w: Weights, a: int, b: int, c: int, d: int) returns (p: Path)
    requires InGrid(w, a, b, c, d)
    ensures IsBest(w, a, b, c, d, p)
    decreases c - a + d - b
  {
    if a == c && b == d {
      p := [];
    } else if a < c && Best(w, a, b, c - 1, d) == Best(w, a, b, c, d) {
      var q := BestIsAttained(w, a, b, c - 1, d);
      p := q + [SkipRow];
      assert p[..|p| - 1] == q;
    } else if b < d && Best(w, a, b, c, d - 1) == Best(w, a, b, c, d) {
      var q := BestIsAttained(w, a, b, c, d - 1);
      p := q + [SkipCol];
      assert p[..|p| - 1] == q;
    } else {
      BestGrows(w, a, b, c - 1, d);
      var q := BestIsAttained(w, a, b, c - 1, d - 1);
      p := q + [Match];
      assert p[..|p| - 1] == q;
    }
  }
}
