/**
 The ordered row matcher: only associations shared by every maximum-weight
 monotone matching survive.  The first half counts best lattice paths from
 either end and through an edge; the second half turns paths into matchings and
 back, and proves the table-filling code exact.
 */
module PathCounting {
  import opened LatticePaths

  /** Joining two paths adds their values. */
  lemma {:induction false} Concatenate(w: Weights, a: int, b: int, x: int, y: int, c: int, d: int, p: Path, q: Path)
    requires InGrid(w, a, b, x, y) && IsPath(w, a, b, x, y, p)
    requires InGrid(w, x, y, c, d) && IsPath(w, x, y, c, d, q)
    ensures IsPath(w, a, b, c, d, p + q)
    ensures Value(w, a, b, c, d, p + q) == Value(w, a, b, x, y, p) + Value(w, x, y, c, d, q)
    decreases |q|
  {
    if q == [] {
      assert p + q == p;
    } else {
      var r := q[..|q| - 1];
      assert (p + q)[..|p + q| - 1] == p + r;
      match q[|q| - 1]
      case SkipRow => Concatenate(w, a, b, x, y, c - 1, d, p, r);
      case SkipCol => Concatenate(w, a, b, x, y, c, d - 1, p, r);
      case Match => Concatenate(w, a, b, x, y, c - 1, d - 1, p, r);
    }
  }

  /** The corner a path has reached after its first `k` steps. */
  lemma {:induction false} Split(w: Weights, a: int, b: int, c: int, d: int, p: Path, k: nat) returns (x: int, y: int)
    requires InGrid(w, a, b, c, d) && IsPath(w, a, b, c, d, p) && k <= |p|
    ensures InGrid(w, a, b, x, y) && IsPath(w, a, b, x, y, p[..k])
    ensures InGrid(w, x, y, c, d) && IsPath(w, x, y, c, d, p[k..])
    decreases |p|
  {
    if k == |p| {
      x, y := c, d;
      assert p[..k] == p;
    } else {
      var q := p[..|p| - 1];
      match p[|p| - 1] {
        case SkipRow => x, y := Split(w, a, b, c - 1, d, q, k);
        case SkipCol => x, y := Split(w, a, b, c, d - 1, q, k);
        case Match => x, y := Split(w, a, b, c - 1, d - 1, q, k);
      }
      assert q[..k] == p[..k];
      assert p[k..][..|p[k..]| - 1] == q[k..];
    }
  }

  /** Optimal substructure: a joined path is best exactly when both halves are and the corner is on a best route. */
  lemma {:induction false} BestSubstructure(w: Weights, a: int, b: int, x: int, y: int, c: int, d: int, p: Path,
                                            q: Path)
    requires InGrid(w, a, b, x, y) && IsPath(w, a, b, x, y, p)
    requires InGrid(w, x, y, c, d) && IsPath(w, x, y, c, d, q)
    ensures IsBest(w, a, b, c, d, p + q) <==>
            IsBest(w, a, b, x, y, p) && IsBest(w, x, y, c, d, q)
            && Best(w, a, b, x, y) + Best(w, x, y, c, d) == Best(w, a, b, c, d)
  {
    hide Best, Value;
    Concatenate(w, a, b, x, y, c, d, p, q);
    BestIsUpperBound(w, a, b, x, y, p);
    BestIsUpperBound(w, x, y, c, d, q);
    BestThroughCorner(w, a, b, x, y, c, d);
  }

  lemma {:induction false} BestThroughCorner(w: Weights, a: int, b: int, x: int, y: int, c: int, d: int)
    requires InGrid(w, a, b, x, y) && InGrid(w, x, y, c, d)
    ensures Best(w, a, b, x, y) + Best(w, x, y, c, d) <= Best(w, a, b, c, d)
  {
    hide Best, Value;
    var p := BestIsAttained(w, a, b, x, y);
    var q := BestIsAttained(w, x, y, c, d);
    Concatenate(w, a, b, x, y, c, d, p, q);
    BestIsUpperBound(w, a, b, c, d, p + q);
  }

  predicate StepFits(w: Weights, a: int, b: int, c: int, d: int, s: Step)
    requires InGrid(w, a, b, c, d)
  {
    match s
    case SkipRow => a < c
    case SkipCol => b < d
    case Match => a < c && b < d && w[a][b] != 0.0
  }

  function RowAfter(a: int, s: Step): int {
    if s == SkipCol then a else a + 1
  }

  function ColAfter(b: int, s: Step): int {
    if s == SkipRow then b else b + 1
  }

  function Gain(w: Weights, a: int, b: int, s: Step): real
    requires s == Match ==> 0 <= a < Rows(w) && 0 <= b < Cols(w)
  {
    if s == Match then w[a][b] else 0.0
  }

  lemma SingleStep(w: Weights, a: int, b: int, s: Step)
    requires InGrid(w, a, b, RowAfter(a, s), ColAfter(b, s))
    ensures IsPath(w, a, b, RowAfter(a, s), ColAfter(b, s), [s]) <==> (s == Match ==> w[a][b] != 0.0)
    ensures IsPath(w, a, b, RowAfter(a, s), ColAfter(b, s), [s]) ==>
              Value(w, a, b, RowAfter(a, s), ColAfter(b, s), [s]) == Gain(w, a, b, s)
  {
    assert [s][..0] == [];
  }

  /** Only the step itself joins the two ends of a step. */
  lemma SingleStepEnds(w: Weights, a: int, b: int, x: int, y: int, s: Step)
    requires InGrid(w, a, b, x, y) && IsPath(w, a, b, x, y, [s])
    ensures x == RowAfter(a, s) && y == ColAfter(b, s)
  {
    assert [s][..0] == [];
  }

  /** Peeling the first step, where the definition peels the last. */
  lemma BestByFirstStep(w: Weights, a: int, b: int, c: int, d: int, p: Path)
    requires InGrid(w, a, b, c, d) && p != []
    ensures IsBest(w, a, b, c, d, p) <==>
            StepFits(w, a, b, c, d, p[0])
            && Gain(w, a, b, p[0]) + Best(w, RowAfter(a, p[0]), ColAfter(b, p[0]), c, d) == Best(w, a, b, c, d)
            && IsBest(w, RowAfter(a, p[0]), ColAfter(b, p[0]), c, d, p[1..])
  {
    hide Best, Value, IsPath;
    var s := p[0];
    var x, y := RowAfter(a, s), ColAfter(b, s);
    assert p == [s] + p[1..];
    if IsBest(w, a, b, c, d, p) {
      var u, v := Split(w, a, b, c, d, p, 1);
      assert p[..1] == [s];
      SingleStepEnds(w, a, b, u, v, s);
      SingleStep(w, a, b, s);
      BestSubstructure(w, a, b, x, y, c, d, [s], p[1..]);
      Concatenate(w, a, b, x, y, c, d, [s], p[1..]);
    }
    if StepFits(w, a, b, c, d, s) && IsBest(w, x, y, c, d, p[1..]) {
      SingleStep(w, a, b, s);
      Concatenate(w, a, b, x, y, c, d, [s], p[1..]);
    }
  }

  /** The backward table's recurrence. */
  lemma BestFromFirstStep(w: Weights, a: int, b: int, c: int, d: int)
    requires InGrid(w, a, b, c, d) && a < c && b < d
    ensures Best(w, a, b, c, d) ==
            Max3(Best(w, a + 1, b, c, d), Best(w, a, b + 1, c, d), Best(w, a + 1, b + 1, c, d) + w[a][b])
  {
    BestThroughCorner(w, a, b, a + 1, b, c, d);
    BestThroughCorner(w, a, b, a, b + 1, c, d);
    BestThroughCorner(w, a, b, a + 1, b + 1, c, d);
    var p := BestIsAttained(w, a, b, c, d);
    hide Best, IsPath, Value;
    assert p != [] by { BestEmpty(w, a, b, c, d); }
    BestByFirstStep(w, a, b, c, d, p);
  }

  lemma BestEmpty(w: Weights, a: int, b: int, c: int, d: int)
    requires InGrid(w, a, b, c, d)
    ensures IsBest(w, a, b, c, d, []) <==> a == c && b == d
  {
  }

  // Cardinalities.

  function Prepend(s: Step, ps: set<Path>): set<Path> {
    set p | p in ps :: [s] + p
  }

  /** Prefixes, one fixed step, suffixes. */
  function Join(us: set<Path>, s: Step, vs: set<Path>): set<Path> {
    set u, v | u in us && v in vs :: u + [s] + v
  }

  lemma {:induction false} ExtendCount(ps: set<Path>, s: Step)
    ensures |Extend(ps, s)| == |ps|
  {
    if ps != {} {
      var p :| p in ps;
      ExtendCount(ps - {p}, s);
      ExtendMember(ps - {p}, s, p + [s]);
      assert (p + [s])[..|p + [s]| - 1] == p;
      assert Extend(ps, s) == Extend(ps - {p}, s) + {p + [s]};
    }
  }

  lemma PrependMember(s: Step, ps: set<Path>, p: Path)
    ensures p in Prepend(s, ps) <==> p != [] && p[0] == s && p[1..] in ps
  {
    if p != [] && p[0] == s && p[1..] in ps {
      assert p == [s] + p[1..];
    }
    forall q | q in ps && [s] + q == p
      ensures p[1..] == q
    {
      assert ([s] + q)[1..] == q;
    }
  }

  lemma {:induction false} PrependCount(s: Step, ps: set<Path>)
    ensures |Prepend(s, ps)| == |ps|
  {
    if ps != {} {
      var p :| p in ps;
      PrependCount(s, ps - {p});
      PrependMember(s, ps - {p}, [s] + p);
      assert ([s] + p)[1..] == p;
      assert Prepend(s, ps) == Prepend(s, ps - {p}) + {[s] + p};
    }
  }

  /** Joining with one fixed prefix is one-to-one. */
  lemma {:induction false} JoinOneCount(u: Path, s: Step, vs: set<Path>)
    ensures |Join({u}, s, vs)| == |vs|
  {
    if vs == {} {
      assert Join({u}, s, vs) == {};
    } else {
      var v :| v in vs;
      JoinOneCount(u, s, vs - {v});
      forall v' | v' in vs - {v}
        ensures u + [s] + v' != u + [s] + v
      {
        assert (u + [s] + v')[|u| + 1..] == v';
        assert (u + [s] + v)[|u| + 1..] == v;
      }
      forall p
        ensures p in Join({u}, s, vs) <==> p in Join({u}, s, vs - {v}) + {u + [s] + v}
      {
        if p in Join({u}, s, vs) {
          var u', v' :| u' in {u} && v' in vs && p == u' + [s] + v';
          assert v' in vs - {v} || v' == v;
        }
      }
      assert Join({u}, s, vs) == Join({u}, s, vs - {v}) + {u + [s] + v};
    }
  }

  /** No prefix, extended by the step, begins another one. */
  predicate Separated(us: set<Path>, s: Step) {
    forall u, u' | u in us && u' in us :: !(u + [s] <= u')
  }

  lemma ShorterPrefixBegins(s: Step, u: Path, v: Path, u': Path, v': Path)
    requires u + [s] + v == u' + [s] + v' && |u| < |u'|
    ensures u + [s] <= u'
  {
    var p := u + [s] + v;
    assert u' == p[..|u'|];
    assert u + [s] == p[..|u| + 1];
  }

  lemma JoinUnique(us: set<Path>, s: Step, u: Path, v: Path, u': Path, v': Path)
    requires Separated(us, s) && u in us && u' in us && u + [s] + v == u' + [s] + v'
    ensures u == u' && v == v'
  {
    if |u| < |u'| {
      ShorterPrefixBegins(s, u, v, u', v');
    } else if |u'| < |u| {
      ShorterPrefixBegins(s, u', v', u, v);
    } else {
      var p := u + [s] + v;
      assert u == p[..|u|] == u';
      assert v == p[|u| + 1..] == v';
    }
  }

  lemma JoinSplit(us: set<Path>, u: Path, s: Step, vs: set<Path>)
    requires u in us
    ensures Join(us, s, vs) == Join(us - {u}, s, vs) + Join({u}, s, vs)
  {
    forall p
      ensures p in Join(us, s, vs) <==> p in Join(us - {u}, s, vs) + Join({u}, s, vs)
    {
      if p in Join(us, s, vs) {
        var u', v' :| u' in us && v' in vs && p == u' + [s] + v';
        assert u' in us - {u} || u' in {u};
      }
    }
  }

  lemma {:induction false} JoinCount(us: set<Path>, s: Step, vs: set<Path>)
    requires Separated(us, s)
    ensures |Join(us, s, vs)| == |us| * |vs|
  {
    if us == {} {
      assert Join(us, s, vs) == {};
    } else {
      var u :| u in us;
      var rest := us - {u};
      JoinCount(rest, s, vs);
      JoinOneCount(u, s, vs);
      JoinSplit(us, u, s, vs);
      JoinDisjoint(us, u, s, vs);
      calc {
        |rest| * |vs| + |vs|;
        (|rest| + 1) * |vs|;
        { assert |us| == |rest| + 1; }
        |us| * |vs|;
      }
    }
  }

  lemma JoinDisjoint(us: set<Path>, u: Path, s: Step, vs: set<Path>)
    requires Separated(us, s) && u in us
    ensures Join(us - {u}, s, vs) !! Join({u}, s, vs)
  {
    forall u', v', v | u' in us - {u} && v' in vs && v in vs
      ensures u' + [s] + v' != u + [s] + v
    {
      if u' + [s] + v' == u + [s] + v {
        JoinUnique(us, s, u, v, u', v');
      }
    }
  }

  lemma BestPathsUnfold(w: Weights, a: int, b: int, c: int, d: int)
    requires InGrid(w, a, b, c, d) && !(a == c && b == d)
    ensures BestPaths(w, a, b, c, d) ==
            (if a < c && Best(w, a, b, c - 1, d) == Best(w, a, b, c, d)
             then Extend(BestPaths(w, a, b, c - 1, d), SkipRow) else {}) +
            (if b < d && Best(w, a, b, c, d - 1) == Best(w, a, b, c, d)
             then Extend(BestPaths(w, a, b, c, d - 1), SkipCol) else {}) +
            (if a < c && b < d && w[c - 1][d - 1] != 0.0
                && Best(w, a, b, c - 1, d - 1) + w[c - 1][d - 1] == Best(w, a, b, c, d)
             then Extend(BestPaths(w, a, b, c - 1, d - 1), Match) else {})
  {
  }

  lemma ExtendDisjoint(ps: set<Path>, s: Step, qs: set<Path>, t: Step)
    requires s != t
    ensures Extend(ps, s) !! Extend(qs, t)
  {
    forall p
      ensures !(p in Extend(ps, s) && p in Extend(qs, t))
    {
      ExtendMember(ps, s, p);
      ExtendMember(qs, t, p);
    }
  }

  /** The forward table's count recurrence, border included. */
  lemma CountByLastStep(w: Weights, a: int, b: int, c: int, d: int)
    requires InGrid(w, a, b, c, d) && !(a == c && b == d)
    ensures |BestPaths(w, a, b, c, d)| ==
            (if a < c && Best(w, a, b, c - 1, d) == Best(w, a, b, c, d) then |BestPaths(w, a, b, c - 1, d)| else 0) +
            (if b < d && Best(w, a, b, c, d - 1) == Best(w, a, b, c, d) then |BestPaths(w, a, b, c, d - 1)| else 0) +
            (if a < c && b < d && w[c - 1][d - 1] != 0.0
                && Best(w, a, b, c - 1, d - 1) + w[c - 1][d - 1] == Best(w, a, b, c, d)
             then |BestPaths(w, a, b, c - 1, d - 1)| else 0)
  {
    hide BestPaths, Best, Extend;
    BestPathsUnfold(w, a, b, c, d);
    var best := Best(w, a, b, c, d);
    var up := if a < c then BestPaths(w, a, b, c - 1, d) else {};
    var left := if b < d then BestPaths(w, a, b, c, d - 1) else {};
    var diagonal := if a < c && b < d then BestPaths(w, a, b, c - 1, d - 1) else {};
    ExtendCount(up, SkipRow);
    ExtendCount(left, SkipCol);
    ExtendCount(diagonal, Match);
    ExtendDisjoint(up, SkipRow, left, SkipCol);
    ExtendDisjoint(up, SkipRow, diagonal, Match);
    ExtendDisjoint(left, SkipCol, diagonal, Match);
  }

  /** Membership by the first step. */
  lemma {:induction false} BestPathsByFirstStep(w: Weights, a: int, b: int, c: int, d: int, p: Path)
    requires InGrid(w, a, b, c, d) && a < c && b < d
    ensures p in BestPaths(w, a, b, c, d) <==>
            && p != [] && StepFits(w, a, b, c, d, p[0])
            && Gain(w, a, b, p[0]) + Best(w, RowAfter(a, p[0]), ColAfter(b, p[0]), c, d) == Best(w, a, b, c, d)
            && p[1..] in BestPaths(w, RowAfter(a, p[0]), ColAfter(b, p[0]), c, d)
  {
    hide BestPaths, Best, IsBest;
    BestPathsCharacterized(w, a, b, c, d, p);
    if p == [] {
      BestEmpty(w, a, b, c, d);
    } else {
      BestByFirstStep(w, a, b, c, d, p);
      BestPathsCharacterized(w, RowAfter(a, p[0]), ColAfter(b, p[0]), c, d, p[1..]);
    }
  }

  /** The paths of one group: those that begin with `s`. */
  function Beginning(w: Weights, a: int, b: int, c: int, d: int, s: Step): set<Path>
    requires InGrid(w, a, b, c, d) && a < c && b < d
  {
    if StepFits(w, a, b, c, d, s)
       && Gain(w, a, b, s) + Best(w, RowAfter(a, s), ColAfter(b, s), c, d) == Best(w, a, b, c, d)
    then Prepend(s, BestPaths(w, RowAfter(a, s), ColAfter(b, s), c, d)) else {}
  }

  lemma {:induction false} BeginningMember(w: Weights, a: int, b: int, c: int, d: int, s: Step, p: Path)
    requires InGrid(w, a, b, c, d) && a < c && b < d
    ensures p in Beginning(w, a, b, c, d, s) <==> p != [] && p[0] == s && p in BestPaths(w, a, b, c, d)
  {
    hide BestPaths, Best, Prepend;
    BestPathsByFirstStep(w, a, b, c, d, p);
    PrependMember(s, BestPaths(w, RowAfter(a, s), ColAfter(b, s), c, d), p);
  }

  lemma {:induction false} BeginningCount(w: Weights, a: int, b: int, c: int, d: int, s: Step)
    requires InGrid(w, a, b, c, d) && a < c && b < d
    ensures |Beginning(w, a, b, c, d, s)| ==
            if StepFits(w, a, b, c, d, s)
               && Gain(w, a, b, s) + Best(w, RowAfter(a, s), ColAfter(b, s), c, d) == Best(w, a, b, c, d)
            then |BestPaths(w, RowAfter(a, s), ColAfter(b, s), c, d)| else 0
  {
    hide BestPaths, Best, Prepend;
    PrependCount(s, BestPaths(w, RowAfter(a, s), ColAfter(b, s), c, d));
  }

  /** The backward table's count recurrence. */
  lemma CountByFirstStep(w: Weights, a: int, b: int, c: int, d: int)
    requires InGrid(w, a, b, c, d) && a < c && b < d
    ensures |BestPaths(w, a, b, c, d)| ==
            (if Best(w, a + 1, b, c, d) == Best(w, a, b, c, d) then |BestPaths(w, a + 1, b, c, d)| else 0) +
            (if Best(w, a, b + 1, c, d) == Best(w, a, b, c, d) then |BestPaths(w, a, b + 1, c, d)| else 0) +
            (if w[a][b] != 0.0 && Best(w, a + 1, b + 1, c, d) + w[a][b] == Best(w, a, b, c, d)
             then |BestPaths(w, a + 1, b + 1, c, d)| else 0)
  {
    hide BestPaths, Best, IsBest, Beginning;
    var all := BestPaths(w, a, b, c, d);
    var rows, cols, both := Beginning(w, a, b, c, d, SkipRow), Beginning(w, a, b, c, d, SkipCol),
                            Beginning(w, a, b, c, d, Match);
    forall p
      ensures p in rows <==> p != [] && p[0] == SkipRow && p in all
      ensures p in cols <==> p != [] && p[0] == SkipCol && p in all
      ensures p in both <==> p != [] && p[0] == Match && p in all
      ensures p in all ==> p != []
    {
      BeginningMember(w, a, b, c, d, SkipRow, p);
      BeginningMember(w, a, b, c, d, SkipCol, p);
      BeginningMember(w, a, b, c, d, Match, p);
      BestPathsByFirstStep(w, a, b, c, d, p);
    }
    assert all == rows + cols + both && rows !! cols && (rows + cols) !! both;
    BeginningCount(w, a, b, c, d, SkipRow);
    BeginningCount(w, a, b, c, d, SkipCol);
    BeginningCount(w, a, b, c, d, Match);
  }

  lemma BorderBest(w: Weights, a: int, b: int, c: int, d: int)
    requires InGrid(w, a, b, c, d) && (a == c || b == d)
    ensures Best(w, a, b, c, d) == 0.0
    ensures a == c && b == d ==> BestPaths(w, a, b, c, d) == {[]}
  {
  }

  /** Along a border there is one path, of value zero. */
  lemma {:induction false} BorderCount(w: Weights, a: int, b: int, c: int, d: int)
    requires InGrid(w, a, b, c, d) && (a == c || b == d)
    ensures Best(w, a, b, c, d) == 0.0 && |BestPaths(w, a, b, c, d)| == 1
    decreases c - a + d - b
  {
    hide Best, BestPaths;
    BorderBest(w, a, b, c, d);
    if a < c || b < d {
      CountByLastStep(w, a, b, c, d);
      if a == c {
        BorderCount(w, a, b, c, d - 1);
      } else {
        BorderCount(w, a, b, c - 1, d);
      }
    }
  }
}

module OrderedMatching {
  import opened FiniteSets
  import opened LatticePaths
  import opened PathCounting

  /** Row and column pairs, strictly increasing in both. */
  type Matching = seq<(int, int)>

  /** A monotone matching of the first `c` rows with the first `d` columns. */
  predicate IsMatching(m: Matching, c: int, d: int) {
    Within(m, c, d) && Increasing(m)
  }

  predicate Within(m: Matching, c: int, d: int) {
    forall k :: 0 <= k < |m| ==> 0 <= m[k].0 < c && 0 <= m[k].1 < d
  }

  predicate Increasing(m: Matching) {
    forall k, l :: 0 <= k < l < |m| ==> m[k].0 < m[l].0 && m[k].1 < m[l].1
  }

  function Weight(w: Weights, m: Matching): real
    requires Within(m, Rows(w), Cols(w))
  {
    if m == [] then 0.0
    else Weight(w, m[..|m| - 1]) + w[m[|m| - 1].0][m[|m| - 1].1]
  }

  ghost predicate IsMaximum(w: Weights, m: Matching) {
    && IsMatching(m, Rows(w), Cols(w))
    && forall m' | IsMatching(m', Rows(w), Cols(w)) :: Weight(w, m') <= Weight(w, m)
  }

  /** The documented promise: a weighted pair that no maximum-weight monotone matching omits. */
  ghost predicate Shared(w: Weights, i: int, j: int) {
    && 0 <= i < Rows(w) && 0 <= j < Cols(w) && w[i][j] != 0.0
    && forall m | IsMaximum(w, m) :: (i, j) in m
  }

  // Paths and matchings.

  /** The pairs a path ending at (c, d) matches. */
  function PairsOf(c: int, d: int, p: Path): Matching
    decreases |p|
  {
    if p == [] then []
    else
      var q := p[..|p| - 1];
      match p[|p| - 1]
      case SkipRow => PairsOf(c - 1, d, q)
      case SkipCol => PairsOf(c, d - 1, q)
      case Match => PairsOf(c - 1, d - 1, q) + [(c - 1, d - 1)]
  }

  lemma ExtendMatching(m: Matching, c: int, d: int)
    requires 0 < c && 0 < d && IsMatching(m, c - 1, d - 1)
    ensures IsMatching(m + [(c - 1, d - 1)], c, d)
  {
  }

  lemma ExtendWeight(w: Weights, m: Matching, c: int, d: int)
    requires 0 < c <= Rows(w) && 0 < d <= Cols(w)
    requires Within(m, Rows(w), Cols(w)) && Within(m + [(c - 1, d - 1)], Rows(w), Cols(w))
    ensures Weight(w, m + [(c - 1, d - 1)]) == Weight(w, m) + w[c - 1][d - 1]
  {
    hide Within;
    var m' := m + [(c - 1, d - 1)];
    assert m'[..|m'| - 1] == m && m'[|m'| - 1] == (c - 1, d - 1);
  }

  lemma EmptyMatching(w: Weights)
    ensures Increasing([]) && Weight(w, []) == 0.0
  {
  }

  lemma {:induction false} PathGivesMatching(w: Weights, c: int, d: int, p: Path)
    requires InGrid(w, 0, 0, c, d) && IsPath(w, 0, 0, c, d, p)
    ensures IsMatching(PairsOf(c, d, p), c, d)
    ensures Weight(w, PairsOf(c, d, p)) == Value(w, 0, 0, c, d, p)
    decreases |p|
  {
    hide Weight, Increasing;
    if p == [] {
      EmptyMatching(w);
    } else {
      var q := p[..|p| - 1];
      match p[|p| - 1]
      case SkipRow => PathGivesMatching(w, c - 1, d, q);
      case SkipCol => PathGivesMatching(w, c, d - 1, q);
      case Match =>
        PathGivesMatching(w, c - 1, d - 1, q);
        ExtendMatching(PairsOf(c - 1, d - 1, q), c, d);
        ExtendWeight(w, PairsOf(c - 1, d - 1, q), c, d);
    }
  }

  lemma AppendStep(w: Weights, c: int, d: int, q: Path, s: Step)
    requires InGrid(w, 0, 0, c, d)
    requires var x, y := if s == SkipCol then c else c - 1, if s == SkipRow then d else d - 1;
             x >= 0 && y >= 0 && IsPath(w, 0, 0, x, y, q) && (s == Match ==> w[x][y] != 0.0)
    ensures var x, y := if s == SkipCol then c else c - 1, if s == SkipRow then d else d - 1;
            && IsPath(w, 0, 0, c, d, q + [s])
            && Value(w, 0, 0, c, d, q + [s]) == Value(w, 0, 0, x, y, q) + (if s == Match then w[x][y] else 0.0)
            && PairsOf(c, d, q + [s]) == PairsOf(x, y, q) + if s == Match then [(x, y)] else []
  {
    assert (q + [s])[..|q + [s]| - 1] == q;
  }

  /** A path that matches the weighted pairs of `m` and nothing else. */
  lemma {:induction false} MatchingGivesPath(w: Weights, c: int, d: int, m: Matching) returns (p: Path)
    requires InGrid(w, 0, 0, c, d) && IsMatching(m, c, d)
    ensures IsPath(w, 0, 0, c, d, p) && Value(w, 0, 0, c, d, p) == Weight(w, m)
    ensures forall e | e in PairsOf(c, d, p) :: e in m
    decreases c + d, 1
  {
    if c == 0 && d == 0 {
      p := [];
    } else if m != [] && m[|m| - 1] == (c - 1, d - 1) {
      p := LastPairGivesPath(w, c, d, m);
    } else {
      hide IsPath, Value, PairsOf, Weight;
      if c > 0 && (m == [] || m[|m| - 1].0 < c - 1) {
        var q := MatchingGivesPath(w, c - 1, d, m);
        AppendStep(w, c, d, q, SkipRow);
        p := q + [SkipRow];
      } else {
        var q := MatchingGivesPath(w, c, d - 1, m);
        AppendStep(w, c, d, q, SkipCol);
        p := q + [SkipCol];
      }
    }
  }

  lemma {:induction false} LastPairGivesPath(w: Weights, c: int, d: int, m: Matching) returns (p: Path)
    requires InGrid(w, 0, 0, c, d) && IsMatching(m, c, d) && m != [] && m[|m| - 1] == (c - 1, d - 1)
    ensures IsPath(w, 0, 0, c, d, p) && Value(w, 0, 0, c, d, p) == Weight(w, m)
    ensures forall e | e in PairsOf(c, d, p) :: e in m
    decreases c + d, 0
  {
    hide IsPath, Value, PairsOf;
    var q := MatchingGivesPath(w, c - 1, d - 1, m[..|m| - 1]);
    if w[c - 1][d - 1] != 0.0 {
      AppendStep(w, c, d, q, Match);
      p := q + [Match];
    } else {
      AppendStep(w, c, d - 1, q, SkipRow);
      AppendStep(w, c, d, q + [SkipRow], SkipCol);
      p := q + [SkipRow] + [SkipCol];
    }
  }

  /** Maximum matchings are the matchings whose weight is the last forward table entry. */
  lemma MaximumIsBest(w: Weights, m: Matching)
    ensures IsMaximum(w, m) <==>
            IsMatching(m, Rows(w), Cols(w)) && Weight(w, m) == Best(w, 0, 0, Rows(w), Cols(w))
  {
    hide Weight, Best;
    var n, k := Rows(w), Cols(w);
    forall m' | IsMatching(m', n, k)
      ensures Weight(w, m') <= Best(w, 0, 0, n, k)
    {
      var p := MatchingGivesPath(w, n, k, m');
      BestIsUpperBound(w, 0, 0, n, k, p);
    }
    var p := BestIsAttained(w, 0, 0, n, k);
    PathGivesMatching(w, n, k, p);
  }

  // Paths through an edge.

  lemma EdgeOfPrefix(w: Weights, c: int, d: int, p: Path, i: int, j: int) returns (x: int, y: int)
    requires InGrid(w, 0, 0, c, d) && IsPath(w, 0, 0, c, d, p) && (i, j) in PairsOf(c, d, p)
    requires !(p[|p| - 1] == Match && i == c - 1 && j == d - 1)
    ensures InGrid(w, 0, 0, x, y) && IsPath(w, 0, 0, x, y, p[..|p| - 1]) && (i, j) in PairsOf(x, y, p[..|p| - 1])
    ensures x == (if p[|p| - 1] == SkipCol then c else c - 1) && y == (if p[|p| - 1] == SkipRow then d else d - 1)
    ensures p[|p| - 1] == Match ==> w[x][y] != 0.0
  {
    x := if p[|p| - 1] == SkipCol then c else c - 1;
    y := if p[|p| - 1] == SkipRow then d else d - 1;
  }

  lemma {:induction false} EdgeSplits(w: Weights, c: int, d: int, p: Path, i: int, j: int) returns (u: Path, v: Path)
    requires InGrid(w, 0, 0, c, d) && IsPath(w, 0, 0, c, d, p) && (i, j) in PairsOf(c, d, p)
    ensures InGrid(w, 0, 0, i, j) && InGrid(w, i + 1, j + 1, c, d) && w[i][j] != 0.0
    ensures p == u + [Match] + v
    ensures IsPath(w, 0, 0, i, j, u) && IsPath(w, i + 1, j + 1, c, d, v)
    decreases |p|
  {
    assert p != [];
    hide IsPath, PairsOf;
    var s := p[|p| - 1];
    if s == Match && i == c - 1 && j == d - 1 {
      u, v := p[..|p| - 1], [];
    } else {
      var x, y := EdgeOfPrefix(w, c, d, p, i, j);
      var r;
      u, r := EdgeSplits(w, x, y, p[..|p| - 1], i, j);
      v := r + [s];
      assert p == p[..|p| - 1] + [s];
      assert u + [Match] + v == u + [Match] + r + [s];
    }
  }

  lemma {:induction false} JoinedPathHasEdge(u: Path, v: Path, i: int, j: int, c: int, d: int, w: Weights)
    requires InGrid(w, 0, 0, i, j) && InGrid(w, i + 1, j + 1, c, d) && IsPath(w, i + 1, j + 1, c, d, v)
    ensures (i, j) in PairsOf(c, d, u + [Match] + v)
    decreases |v|
  {
    var p := u + [Match] + v;
    if v == [] {
      assert p[..|p| - 1] == u;
    } else {
      var r := v[..|v| - 1];
      assert p[..|p| - 1] == u + [Match] + r;
      match v[|v| - 1]
      case SkipRow => JoinedPathHasEdge(u, r, i, j, c - 1, d, w);
      case SkipCol => JoinedPathHasEdge(u, r, i, j, c, d - 1, w);
      case Match => JoinedPathHasEdge(u, r, i, j, c - 1, d - 1, w);
    }
  }

  /** The best paths that match row `i` with column `j`. */
  function BestThrough(w: Weights, i: int, j: int): set<Path> {
    set p | p in BestPaths(w, 0, 0, Rows(w), Cols(w)) && (i, j) in PairsOf(Rows(w), Cols(w), p)
  }

  /** A weighted edge lies on the best route: the code's second filter. */
  predicate OnBestRoute(w: Weights, i: int, j: int)
    requires 0 <= i < Rows(w) && 0 <= j < Cols(w)
  {
    Best(w, 0, 0, i, j) + w[i][j] + Best(w, i + 1, j + 1, Rows(w), Cols(w)) == Best(w, 0, 0, Rows(w), Cols(w))
  }

  /** A joined path is best exactly when its two halves are and the edge is on the best route. */
  lemma BestThroughEdge(w: Weights, i: int, j: int, u: Path, v: Path)
    requires 0 <= i < Rows(w) && 0 <= j < Cols(w) && w[i][j] != 0.0
    requires IsPath(w, 0, 0, i, j, u) && IsPath(w, i + 1, j + 1, Rows(w), Cols(w), v)
    ensures IsBest(w, 0, 0, Rows(w), Cols(w), u + [Match] + v) <==>
            OnBestRoute(w, i, j) && IsBest(w, 0, 0, i, j, u)
            && IsBest(w, i + 1, j + 1, Rows(w), Cols(w), v)
  {
    hide Best, Value, IsPath;
    var n, k := Rows(w), Cols(w);
    SingleStep(w, i, j, Match);
    BestIsUpperBound(w, i, j, i + 1, j + 1, [Match]);
    assert u + [Match] + v == u + ([Match] + v);
    Concatenate(w, i, j, i + 1, j + 1, n, k, [Match], v);
    Concatenate(w, 0, 0, i, j, n, k, u, [Match] + v);
    BestIsUpperBound(w, 0, 0, i, j, u);
    BestIsUpperBound(w, i + 1, j + 1, n, k, v);
    BestIsUpperBound(w, 0, 0, n, k, u + [Match] + v);
    BestThroughCorner(w, 0, 0, i, j, n, k);
    BestThroughCorner(w, i, j, i + 1, j + 1, n, k);
  }

  /** Rows consumed tell a prefix from its extensions. */
  function RowsIn(p: Path): nat {
    if p == [] then 0 else (if p[|p| - 1] == SkipCol then 0 else 1) + RowsIn(p[..|p| - 1])
  }

  lemma {:induction false} RowsInPath(w: Weights, a: int, b: int, c: int, d: int, p: Path)
    requires InGrid(w, a, b, c, d) && IsPath(w, a, b, c, d, p)
    ensures RowsIn(p) == c - a
    decreases |p|
  {
    if p != [] {
      var q := p[..|p| - 1];
      match p[|p| - 1]
      case SkipRow => RowsInPath(w, a, b, c - 1, d, q);
      case SkipCol => RowsInPath(w, a, b, c, d - 1, q);
      case Match => RowsInPath(w, a, b, c - 1, d - 1, q);
    }
  }

  lemma {:induction false} RowsInPrefix(p: Path, q: Path)
    requires p <= q
    ensures RowsIn(p) <= RowsIn(q)
    decreases |q|
  {
    if p != q {
      RowsInPrefix(p, q[..|q| - 1]);
    }
  }

  lemma BestPathsSeparated(w: Weights, i: int, j: int)
    requires 0 <= i < Rows(w) && 0 <= j < Cols(w)
    ensures Separated(BestPaths(w, 0, 0, i, j), Match)
  {
    hide BestPaths, Best;
    forall u, u' | u in BestPaths(w, 0, 0, i, j) && u' in BestPaths(w, 0, 0, i, j)
      ensures !(u + [Match] <= u')
    {
      BestPathsCharacterized(w, 0, 0, i, j, u);
      BestPathsCharacterized(w, 0, 0, i, j, u');
      RowsInPath(w, 0, 0, i, j, u);
      RowsInPath(w, 0, 0, i, j, u');
      assert (u + [Match])[..|u + [Match]| - 1] == u;
      if u + [Match] <= u' {
        RowsInPrefix(u + [Match], u');
      }
    }
  }

  /** Best paths through an edge number prefixes times suffixes. */
  lemma {:induction false} CountThroughEdge(w: Weights, i: int, j: int)
    requires 0 <= i < Rows(w) && 0 <= j < Cols(w) && w[i][j] != 0.0
    ensures |BestThrough(w, i, j)| ==
            if OnBestRoute(w, i, j)
            then |BestPaths(w, 0, 0, i, j)| * |BestPaths(w, i + 1, j + 1, Rows(w), Cols(w))|
            else 0
  {
    hide BestPaths, Best, IsPath, Value, OnBestRoute, IsBest;
    var n, k := Rows(w), Cols(w);
    var us, vs := BestPaths(w, 0, 0, i, j), BestPaths(w, i + 1, j + 1, n, k);
    var through := if OnBestRoute(w, i, j) then Join(us, Match, vs) else {};
    forall p
      ensures p in BestThrough(w, i, j) <==> p in through
    {
      if p in BestThrough(w, i, j) {
        EdgeMembership(w, i, j, p);
      }
      if p in through {
        var u, v :| u in us && v in vs && p == u + [Match] + v;
        JoinMembership(w, i, j, u, v);
      }
    }
    assert BestThrough(w, i, j) == through;
    BestPathsSeparated(w, i, j);
    JoinCount(us, Match, vs);
  }

  lemma {:induction false} EdgeMembership(w: Weights, i: int, j: int, p: Path)
    requires 0 <= i < Rows(w) && 0 <= j < Cols(w) && w[i][j] != 0.0 && p in BestThrough(w, i, j)
    ensures OnBestRoute(w, i, j)
    ensures p in Join(BestPaths(w, 0, 0, i, j), Match, BestPaths(w, i + 1, j + 1, Rows(w), Cols(w)))
  {
    hide BestPaths, Best, IsPath, Value, OnBestRoute;
    var n, k := Rows(w), Cols(w);
    BestPathsCharacterized(w, 0, 0, n, k, p);
    var u, v := EdgeSplits(w, n, k, p, i, j);
    BestThroughEdge(w, i, j, u, v);
    BestPathsCharacterized(w, 0, 0, i, j, u);
    BestPathsCharacterized(w, i + 1, j + 1, n, k, v);
  }

  lemma {:induction false} JoinMembership(w: Weights, i: int, j: int, u: Path, v: Path)
    requires 0 <= i < Rows(w) && 0 <= j < Cols(w) && w[i][j] != 0.0 && OnBestRoute(w, i, j)
    requires u in BestPaths(w, 0, 0, i, j) && v in BestPaths(w, i + 1, j + 1, Rows(w), Cols(w))
    ensures u + [Match] + v in BestThrough(w, i, j)
  {
    hide BestPaths, Best, IsPath, Value, OnBestRoute, PairsOf;
    var n, k := Rows(w), Cols(w);
    BestPathsCharacterized(w, 0, 0, i, j, u);
    BestPathsCharacterized(w, i + 1, j + 1, n, k, v);
    BestThroughEdge(w, i, j, u, v);
    BestPathsCharacterized(w, 0, 0, n, k, u + [Match] + v);
    JoinedPathHasEdge(u, v, i, j, n, k, w);
  }

  /** The code's whole filter: on the best route, and as many best paths through the edge as there are at all. */
  predicate PassesFilter(w: Weights, i: int, j: int)
    requires 0 <= i < Rows(w) && 0 <= j < Cols(w)
  {
    && w[i][j] != 0.0
    && OnBestRoute(w, i, j)
    && |BestPaths(w, 0, 0, i, j)| * |BestPaths(w, i + 1, j + 1, Rows(w), Cols(w))|
       == |BestPaths(w, 0, 0, Rows(w), Cols(w))|
  }

  /** Counting decides sharing: an edge passes the filter exactly when every maximum matching has it. */
  lemma FilterIsSharing(w: Weights, i: int, j: int)
    requires 0 <= i < Rows(w) && 0 <= j < Cols(w)
    ensures PassesFilter(w, i, j) <==> Shared(w, i, j)
  {
    hide BestPaths, Best, IsPath, Value, OnBestRoute, PairsOf, IsMaximum, BestThrough;
    if w[i][j] != 0.0 {
      var n, k := Rows(w), Cols(w);
      var all, through := BestPaths(w, 0, 0, n, k), BestThrough(w, i, j);
      ThroughIsSome(w, i, j);
      CountThroughEdge(w, i, j);
      if PassesFilter(w, i, j) {
        SubsetSize(through, all);
        forall m | IsMaximum(w, m)
          ensures (i, j) in m
        {
          SharedByMatching(w, i, j, m);
        }
      }
      if Shared(w, i, j) {
        SharedByPaths(w, i, j);
        var p := BestIsAttained(w, 0, 0, n, k);
        BestPathsCharacterized(w, 0, 0, n, k, p);
        assert p in through;
      }
    }
  }

  lemma ThroughIsSome(w: Weights, i: int, j: int)
    ensures BestThrough(w, i, j) <= BestPaths(w, 0, 0, Rows(w), Cols(w))
  {
  }

  /** When every best path has the edge, so has every maximum matching. */
  lemma SharedByMatching(w: Weights, i: int, j: int, m: Matching)
    requires BestThrough(w, i, j) == BestPaths(w, 0, 0, Rows(w), Cols(w)) && IsMaximum(w, m)
    ensures (i, j) in m
  {
    hide BestPaths, Best, IsPath, Value, PairsOf;
    var n, k := Rows(w), Cols(w);
    MaximumIsBest(w, m);
    var p := MatchingGivesPath(w, n, k, m);
    BestPathsCharacterized(w, 0, 0, n, k, p);
    assert p in BestThrough(w, i, j);
  }

  lemma SharedByPaths(w: Weights, i: int, j: int)
    requires Shared(w, i, j)
    ensures BestThrough(w, i, j) == BestPaths(w, 0, 0, Rows(w), Cols(w))
  {
    hide BestPaths, Best, IsPath, Value, PairsOf;
    var n, k := Rows(w), Cols(w);
    forall p | p in BestPaths(w, 0, 0, n, k)
      ensures p in BestThrough(w, i, j)
    {
      BestPathsCharacterized(w, 0, 0, n, k, p);
      PathGivesMatching(w, n, k, p);
      MaximumIsBest(w, PairsOf(n, k, p));
    }
  }

  /** Shared pairs do not cross: they all belong to one maximum matching. */
  lemma SharedPairsIncrease(w: Weights, i: int, j: int, i': int, j': int)
    requires Shared(w, i, j) && Shared(w, i', j')
    ensures (i < i' <==> j < j') && (i == i' <==> j == j')
  {
    hide Best, IsPath, Value, PairsOf;
    var n, k := Rows(w), Cols(w);
    var p := BestIsAttained(w, 0, 0, n, k);
    PathGivesMatching(w, n, k, p);
    var m := PairsOf(n, k, p);
    MaximumIsBest(w, m);
    assert (i, j) in m && (i', j') in m;
  }
}

/** The table-filling code itself. */
module RowMatcher {
  import opened LatticePaths
  import opened PathCounting
  import opened OrderedMatching

  /** The forward tables: optimum and number of optimal paths of every prefix. */
  method FillForward(w: Weights) returns (forward: array2<real>, prefixCount: array2<int>)
    ensures fresh(forward) && fresh(prefixCount)
    ensures forward.Length0 == prefixCount.Length0 == Rows(w) + 1
    ensures forward.Length1 == prefixCount.Length1 == Cols(w) + 1
    ensures forall x, y :: 0 <= x <= Rows(w) && 0 <= y <= Cols(w) ==>
              forward[x, y] == Best(w, 0, 0, x, y) && prefixCount[x, y] == |BestPaths(w, 0, 0, x, y)|
  {
    hide Best, BestPaths;
    var n, m := Rows(w), Cols(w);
    forward := new real[n + 1, m + 1]((_, _) => 0.0);
    prefixCount := new int[n + 1, m + 1]((_, _) => 1);
    forall x, y | 0 <= x <= n && 0 <= y <= m && (x == 0 || y == 0)
      ensures Best(w, 0, 0, x, y) == 0.0 && |BestPaths(w, 0, 0, x, y)| == 1
    {
      BorderCount(w, 0, 0, x, y);
    }
    for i := 0 to n
      invariant forall x, y :: 0 <= x <= n && 0 <= y <= m && (x <= i || y == 0) ==>
                  forward[x, y] == Best(w, 0, 0, x, y) && prefixCount[x, y] == |BestPaths(w, 0, 0, x, y)|
    {
      for j := 0 to m
        invariant forall x, y :: 0 <= x <= n && 0 <= y <= m && (x <= i || y == 0 || (x == i + 1 && y <= j)) ==>
                    forward[x, y] == Best(w, 0, 0, x, y) && prefixCount[x, y] == |BestPaths(w, 0, 0, x, y)|
      {
        var best := Max3(forward[i, j + 1], forward[i + 1, j], forward[i, j] + w[i][j]);
        forward[i + 1, j + 1] := best;
        prefixCount[i + 1, j + 1] := if forward[i, j + 1] == best then prefixCount[i, j + 1] else 0;
        prefixCount[i + 1, j + 1] := prefixCount[i + 1, j + 1]
          + if forward[i + 1, j] == best then prefixCount[i + 1, j] else 0;
        if w[i][j] != 0.0 && forward[i, j] + w[i][j] == best {
          prefixCount[i + 1, j + 1] := prefixCount[i + 1, j + 1] + prefixCount[i, j];
        }
        ForwardCell(w, i, j);
      }
    }
  }

  lemma ForwardCell(w: Weights, i: int, j: int)
    requires 0 <= i < Rows(w) && 0 <= j < Cols(w)
    ensures var best := Max3(Best(w, 0, 0, i, j + 1), Best(w, 0, 0, i + 1, j), Best(w, 0, 0, i, j) + w[i][j]);
            && Best(w, 0, 0, i + 1, j + 1) == best
            && |BestPaths(w, 0, 0, i + 1, j + 1)| ==
               (if Best(w, 0, 0, i, j + 1) == best then |BestPaths(w, 0, 0, i, j + 1)| else 0) +
               (if Best(w, 0, 0, i + 1, j) == best then |BestPaths(w, 0, 0, i + 1, j)| else 0) +
               (if w[i][j] != 0.0 && Best(w, 0, 0, i, j) + w[i][j] == best then |BestPaths(w, 0, 0, i, j)| else 0)
  {
    hide BestPaths;
    CountByLastStep(w, 0, 0, i + 1, j + 1);
  }

  /** The backward tables: optimum and number of optimal paths of every suffix. */
  method FillBackward(w: Weights) returns (backward: array2<real>, suffixCount: array2<int>)
    ensures fresh(backward) && fresh(suffixCount)
    ensures backward.Length0 == suffixCount.Length0 == Rows(w) + 1
    ensures backward.Length1 == suffixCount.Length1 == Cols(w) + 1
    ensures forall x, y :: 0 <= x <= Rows(w) && 0 <= y <= Cols(w) ==>
              && backward[x, y] == Best(w, x, y, Rows(w), Cols(w))
              && suffixCount[x, y] == |BestPaths(w, x, y, Rows(w), Cols(w))|
  {
    hide Best, BestPaths;
    var n, m := Rows(w), Cols(w);
    backward := new real[n + 1, m + 1]((_, _) => 0.0);
    suffixCount := new int[n + 1, m + 1]((_, _) => 1);
    forall x, y | 0 <= x <= n && 0 <= y <= m && (x == n || y == m)
      ensures Best(w, x, y, n, m) == 0.0 && |BestPaths(w, x, y, n, m)| == 1
    {
      BorderCount(w, x, y, n, m);
    }
    for i := n downto 0
      invariant forall x, y :: 0 <= x <= n && 0 <= y <= m && (x >= i || y == m) ==>
                  backward[x, y] == Best(w, x, y, n, m) && suffixCount[x, y] == |BestPaths(w, x, y, n, m)|
    {
      for j := m downto 0
        invariant forall x, y :: 0 <= x <= n && 0 <= y <= m && (x >= i + 1 || y == m || (x == i && y >= j)) ==>
                    backward[x, y] == Best(w, x, y, n, m) && suffixCount[x, y] == |BestPaths(w, x, y, n, m)|
      {
        var best := Max3(backward[i + 1, j], backward[i, j + 1], backward[i + 1, j + 1] + w[i][j]);
        backward[i, j] := best;
        suffixCount[i, j] := if backward[i + 1, j] == best then suffixCount[i + 1, j] else 0;
        suffixCount[i, j] := suffixCount[i, j] + if backward[i, j + 1] == best then suffixCount[i, j + 1] else 0;
        if w[i][j] != 0.0 && backward[i + 1, j + 1] + w[i][j] == best {
          suffixCount[i, j] := suffixCount[i, j] + suffixCount[i + 1, j + 1];
        }
        BestFromFirstStep(w, i, j, n, m);
        CountByFirstStep(w, i, j, n, m);
      }
    }
  }

  /** The matcher keeps exactly the pairs that every maximum-weight monotone matching contains. */
  method UniqueOrderedMatches(w: Weights) returns (matches: map<int, int>)
    ensures forall i, j :: (i in matches && matches[i] == j) <==> Shared(w, i, j)
  {
    hide Best, BestPaths, Shared;
    var n, m := Rows(w), Cols(w);
    var forward, prefixCount := FillForward(w);
    var backward, suffixCount := FillBackward(w);
    matches := map[];
    SharedInRange(w);
    for i := 0 to n
      modifies {}
      invariant forall x | x in matches :: x < i && Shared(w, x, matches[x])
      invariant forall x, y | Shared(w, x, y) && x < i :: x in matches && matches[x] == y
    {
      for j := 0 to m
        modifies {}
        invariant forall x | x in matches :: x <= i && (x == i ==> matches[x] < j) && Shared(w, x, matches[x])
        invariant forall x, y | Shared(w, x, y) && (x < i || (x == i && y < j)) :: x in matches && matches[x] == y
      {
        FilterIsSharing(w, i, j);
        if w[i][j] != 0.0
           && forward[i, j] + w[i][j] + backward[i + 1, j + 1] == forward[n, m]
           && prefixCount[i, j] * suffixCount[i + 1, j + 1] == prefixCount[n, m]
        {
          forall y | Shared(w, i, y)
            ensures y == j
          {
            SharedPairsIncrease(w, i, j, i, y);
          }
          matches := matches[i := j];
        }
      }
    }
  }

  lemma SharedInRange(w: Weights)
    ensures forall x, y :: Shared(w, x, y) ==> 0 <= x < Rows(w) && 0 <= y < Cols(w)
  {
  }

  /** The tables are filled from opposite corners, and meet in one optimum and one number of optimal paths. */
  method TablesAgree(w: Weights) returns (last: real, first: real, lastCount: int, firstCount: int)
    ensures last == first == Best(w, 0, 0, Rows(w), Cols(w))
    ensures lastCount == firstCount == |BestPaths(w, 0, 0, Rows(w), Cols(w))|
  {
    var forward, prefixCount := FillForward(w);
    var backward, suffixCount := FillBackward(w);
    last, first := forward[Rows(w), Cols(w)], backward[0, 0];
    lastCount, firstCount := prefixCount[Rows(w), Cols(w)], suffixCount[0, 0];
  }
}
