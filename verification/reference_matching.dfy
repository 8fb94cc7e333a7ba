/**
 Scoring a model's receipt rows against reference rows: augmenting-path bipartite
 matching.  `Matcher.Assign` is the recursive search over the shared `assignment`
 and `seen`; a set of rows that no augmenting path can ever leave certifies that
 the matching of every processed prefix of references is maximum.
 */
module ReferenceMatching {
  import opened FiniteSets

  /** For each reference, the actual rows it accepts, in order. */
  type Edges = seq<seq<nat>>

  /** Actual row to reference, one-to-one along edges. */
  predicate IsMatching(edges: Edges, m: map<nat, nat>) {
    && (forall a | a in m :: m[a] < |edges| && a in edges[m[a]])
    && (forall a, b | a in m && b in m && m[a] == m[b] :: a == b)
  }

  function MatchedBelow(m: map<nat, nat>, k: nat): set<nat> {
    set a | a in m && m[a] < k :: m[a]
  }

  /** No matching covers more of the first `k` references. */
  ghost predicate IsMaximumBelow(edges: Edges, m: map<nat, nat>, k: nat) {
    forall other | IsMatching(edges, other) :: |MatchedBelow(other, k)| <= |MatchedBelow(m, k)|
  }

  function Targets(edges: Edges, r: nat): set<nat>
    requires r < |edges|
  {
    set a | a in edges[r]
  }

  function AllTargets(edges: Edges): set<nat> {
    set r, a | 0 <= r < |edges| && a in edges[r] :: a
  }

  /** Every row of `dead` is taken by a reference that accepts no row outside `dead`. */
  predicate IsClosed(edges: Edges, m: map<nat, nat>, dead: set<nat>) {
    forall a | a in dead :: a in m && m[a] < |edges| && Targets(edges, m[a]) <= dead
  }

  /** After the first `k` references: each is matched, or accepts dead rows only. */
  predicate IsCertificate(edges: Edges, m: map<nat, nat>, dead: set<nat>, k: nat)
    requires k <= |edges|
  {
    && IsMatching(edges, m)
    && IsClosed(edges, m, dead)
    && (forall a | a in m :: m[a] < k)
    && (forall r | 0 <= r < k && r !in m.Values :: Targets(edges, r) <= dead)
  }

  /** The references trapped in a closed set outnumber its rows by the failed ones: no matching does better. */
  lemma CertificateIsMaximum(edges: Edges, m: map<nat, nat>, dead: set<nat>, k: nat)
    requires k <= |edges| && IsCertificate(edges, m, dead, k)
    ensures IsMaximumBelow(edges, m, k)
  {
    forall other | IsMatching(edges, other)
      ensures |MatchedBelow(other, k)| <= |MatchedBelow(m, k)|
    {
      CertificateBounds(edges, m, dead, k, other);
    }
  }

  lemma CertificateBounds(edges: Edges, m: map<nat, nat>, dead: set<nat>, k: nat, other: map<nat, nat>)
    requires k <= |edges| && IsCertificate(edges, m, dead, k) && IsMatching(edges, other)
    ensures |MatchedBelow(other, k)| <= |MatchedBelow(m, k)|
  {
    hide IsCertificate, IsMatching, MatchedBelow;
    var owners := DeadOwners(edges, m, dead, k);
    var mine, theirs := MatchedBelow(m, k), MatchedBelow(other, k);
    var trapped := set r | r in theirs && (r !in mine || r in owners);
    TrappedFit(edges, m, dead, k, other, trapped, owners);
    CompareParts(mine, owners, theirs, trapped);
  }

  lemma CompareParts(mine: set<nat>, owners: set<nat>, theirs: set<nat>, trapped: set<nat>)
    requires owners <= mine && trapped <= theirs && theirs - trapped <= mine - owners && |trapped| <= |owners|
    ensures |theirs| <= |mine|
  {
    SubsetSize(theirs - trapped, mine - owners);
    assert theirs == trapped + (theirs - trapped);
    assert mine == owners + (mine - owners);
  }

  lemma DeadOwners(edges: Edges, m: map<nat, nat>, dead: set<nat>, k: nat) returns (owners: set<nat>)
    requires k <= |edges| && IsCertificate(edges, m, dead, k)
    ensures dead <= m.Keys && owners == set a | a in dead :: m[a]
    ensures |owners| == |dead| && owners <= MatchedBelow(m, k)
  {
    owners := set a | a in dead :: m[a];
    InjectiveImage(m, dead);
  }

  /** References that accept dead rows only can be matched at most |dead| at a time. */
  lemma TrappedFit(edges: Edges, m: map<nat, nat>, dead: set<nat>, k: nat, other: map<nat, nat>,
                   trapped: set<nat>, owners: set<nat>)
    requires k <= |edges| && IsCertificate(edges, m, dead, k) && IsMatching(edges, other)
    requires dead <= m.Keys && owners == set a | a in dead :: m[a]
    requires trapped == set r | r in MatchedBelow(other, k) && (r !in MatchedBelow(m, k) || r in owners)
    ensures |trapped| <= |dead|
  {
    var rows := set a | a in other && other[a] in trapped;
    assert trapped == set a | a in rows :: other[a];
    InjectiveImage(other, rows);
    forall a | a in rows
      ensures a in dead
    {
      assert a in Targets(edges, other[a]);
      if other[a] in owners {
        var d :| d in dead && m[d] == other[a];
      } else {
        assert other[a] !in m.Values;
      }
    }
    SubsetSize(rows, dead);
  }

  class Matcher {
    const edges: Edges
    var assignment: map<nat, nat>
    var seen: set<nat>

    constructor (edges: Edges)
      ensures this.edges == edges && assignment == map[] && seen == {}
    {
      this.edges := edges;
      assignment := map[];
      seen := {};
    }

    /**
     Looks for an augmenting path from reference `r` over unseen rows.  `r` is free, or holds a seen
     row that its caller takes over on success.  `dead` is any closed set of rows.
     */
    method Assign(r: nat, ghost dead: set<nat>) returns (found: bool)
      requires r < |edges| && IsMatching(edges, assignment) && IsClosed(edges, assignment, dead)
      requires forall a | a in assignment && assignment[a] == r :: a in seen
      modifies `assignment, `seen
      ensures old(seen) <= seen
      // Failure: nothing changes and the rows seen meanwhile are a dead end.
      ensures !found ==> assignment == old(assignment) && Targets(edges, r) <= seen
      ensures !found ==> forall a | a in seen - old(seen) :: a in assignment && Targets(edges, assignment[a]) <= seen
      // Success: one more row is taken and `r` gains a row, while every other reference keeps one.
      ensures found ==> Augmented(edges, old(assignment), assignment, old(seen), r)
      // Closed sets are dead ends, and stay as they are.
      ensures Targets(edges, r) <= dead ==> !found
      ensures found ==> forall a | a in dead :: assignment[a] == old(assignment)[a]
      decreases AllTargets(edges) - seen
    {
      for k := 0 to |edges[r]|
        invariant assignment == old(assignment) && old(seen) <= seen
        invariant forall i | 0 <= i < k :: edges[r][i] in seen
        invariant forall a | a in seen - old(seen) :: a in assignment && Targets(edges, assignment[a]) <= seen
      {
        var a := edges[r][k];
        if a in seen {
          continue;
        }
        ghost var before := seen;
        seen := seen + {a};
        assert a in edges[r] && a in AllTargets(edges) - before;
        var free := a !in assignment;
        if !free {
          free := Assign(assignment[a], dead);
        }
        if free {
          assert a in Targets(edges, r);
          label freed:
          assignment := assignment[a := r];
          AugmentStep(edges, old(assignment), old@freed(assignment), old(seen), before, a, r);
          return true;
        }
      }
      return false;
    }

    /** Every prefix of the references ends up matched as completely as any matching could match it. */
    method MatchAll()
      requires assignment == map[]
      modifies `assignment, `seen
      ensures IsMatching(edges, assignment)
      ensures forall k | 0 <= k <= |edges| :: IsMaximumBelow(edges, assignment, k)
    {
      hide IsMaximumBelow, Augmented, MatchedBelow, IsMatching, IsClosed;
      NothingMatched(edges);
      ghost var dead: set<nat> := {};
      CertificateIsMaximum(edges, assignment, dead, 0);
      for r := 0 to |edges|
        invariant IsCertificate(edges, assignment, dead, r)
        invariant forall k | 0 <= k <= r :: IsMaximumBelow(edges, assignment, k)
      {
        ghost var before := assignment;
        seen := {};
        var found := Assign(r, dead);
        if found {
          CertificateAfterSuccess(edges, before, assignment, dead, r);
          AugmentedPrefixes(edges, before, assignment, r);
          SamePrefixes(edges, before, assignment, r);
        } else {
          CertificateAfterFailure(edges, assignment, dead, seen, r);
          dead := dead + seen;
        }
        CertificateIsMaximum(edges, assignment, dead, r + 1);
      }
    }
  }

  lemma NothingMatched(edges: Edges)
    ensures IsCertificate(edges, map[], {}, 0)
  {
  }

  lemma SamePrefixes(edges: Edges, m: map<nat, nat>, m': map<nat, nat>, r: nat)
    requires forall k | 0 <= k <= r :: MatchedBelow(m', k) == MatchedBelow(m, k)
    requires forall k | 0 <= k <= r :: IsMaximumBelow(edges, m, k)
    ensures forall k | 0 <= k <= r :: IsMaximumBelow(edges, m', k)
  {
    forall k | 0 <= k <= r
      ensures IsMaximumBelow(edges, m', k)
    {
      assert MatchedBelow(m', k) == MatchedBelow(m, k) && IsMaximumBelow(edges, m, k);
    }
  }

  /** The effect of a successful search for `r` that avoids the rows in `avoid`. */
  ghost predicate Augmented(edges: Edges, m: map<nat, nat>, m': map<nat, nat>, avoid: set<nat>, r: nat) {
    && (exists x :: x !in m && m'.Keys == m.Keys + {x})
    && m'.Values == m.Values + {r}
    && (forall a | a in m' :: m'[a] < |edges| && a in edges[m'[a]])
    && (forall a | a in avoid :: (a in m <==> a in m') && (a in m ==> m'[a] == m[a]))
    && (exists a :: a in m' && a !in avoid && m'[a] == r)
    && (forall a, b | a in m' && b in m' && a != b && m'[a] == m'[b] :: m'[a] == r && (a in avoid || b in avoid))
  }

  /** One level of the recursion: the freed row `a` passes to `r`. */
  lemma AugmentStep(edges: Edges, m: map<nat, nat>, m1: map<nat, nat>, avoid: set<nat>, before: set<nat>, a: nat,
                    r: nat)
    requires IsMatching(edges, m) && r < |edges| && a in edges[r]
    requires forall b | b in m && m[b] == r :: b in avoid
    requires avoid <= before && a !in before
    requires if a in m then Augmented(edges, m, m1, before + {a}, m[a]) else m1 == m
    ensures Augmented(edges, m, m1[a := r], avoid, r)
  {
    var m' := m1[a := r];
    assert m'[a] == r && a !in avoid;
    if a in m {
      AugmentTaken(edges, m, m1, avoid, before, a, r);
    } else {
      assert m'.Keys == m.Keys + {a};
    }
  }

  lemma AugmentTaken(edges: Edges, m: map<nat, nat>, m1: map<nat, nat>, avoid: set<nat>, before: set<nat>, a: nat,
                     r: nat)
    requires IsMatching(edges, m) && r < |edges| && a in edges[r]
    requires forall b | b in m && m[b] == r :: b in avoid
    requires avoid <= before && a !in before && a in m
    requires Augmented(edges, m, m1, before + {a}, m[a])
    ensures Augmented(edges, m, m1[a := r], avoid, r)
  {
    hide Augmented, IsMatching;
    AugmentOneToOne(edges, m, m1, avoid, before, a, r);
    AugmentCover(m, m1, a, r, before, edges);
    AugmentEdges(edges, m, m1, avoid, before, a, r);
    AugmentedFrom(edges, m, m1[a := r], avoid, r);
  }

  lemma AugmentedFrom(edges: Edges, m: map<nat, nat>, m': map<nat, nat>, avoid: set<nat>, r: nat)
    requires (exists x :: x !in m && m'.Keys == m.Keys + {x}) && m'.Values == m.Values + {r}
    requires forall a | a in m' :: m'[a] < |edges| && a in edges[m'[a]]
    requires forall a | a in avoid :: (a in m <==> a in m') && (a in m ==> m'[a] == m[a])
    requires exists a :: a in m' && a !in avoid && m'[a] == r
    requires forall a, b | a in m' && b in m' && a != b && m'[a] == m'[b] :: m'[a] == r && (a in avoid || b in avoid)
    ensures Augmented(edges, m, m', avoid, r)
  {
  }

  lemma AugmentEdges(edges: Edges, m: map<nat, nat>, m1: map<nat, nat>, avoid: set<nat>, before: set<nat>, a: nat,
                     r: nat)
    requires r < |edges| && a in edges[r] && avoid <= before && a !in before && a in m
    requires Augmented(edges, m, m1, before + {a}, m[a])
    ensures var m' := m1[a := r];
            && (forall b | b in m' :: m'[b] < |edges| && b in edges[m'[b]])
            && (forall b | b in avoid :: (b in m <==> b in m') && (b in m ==> m'[b] == m[b]))
            && (exists b :: b in m' && b !in avoid && m'[b] == r)
  {
    var m' := m1[a := r];
    assert a in m' && a !in avoid && m'[a] == r;
  }

  lemma AugmentCover(m: map<nat, nat>, m1: map<nat, nat>, a: nat, r: nat, before: set<nat>, edges: Edges)
    requires a in m && Augmented(edges, m, m1, before + {a}, m[a])
    ensures var m' := m1[a := r];
            (exists x :: x !in m && m'.Keys == m.Keys + {x}) && m'.Values == m.Values + {r}
  {
    var m' := m1[a := r];
    assert m1[a] == m[a];
    var x :| x !in m && m1.Keys == m.Keys + {x};
    assert m'.Keys == m.Keys + {x};
    var b :| b in m1 && b !in before + {a} && m1[b] == m[a];
    assert m1.Values == m.Values;
  }

  lemma AugmentOneToOne(edges: Edges, m: map<nat, nat>, m1: map<nat, nat>, avoid: set<nat>, before: set<nat>, a: nat,
                        r: nat)
    requires IsMatching(edges, m) && a in m && a !in before && avoid <= before
    requires forall b | b in m && m[b] == r :: b in avoid
    requires Augmented(edges, m, m1, before + {a}, m[a])
    ensures var m' := m1[a := r];
            forall b, c | b in m' && c in m' && b != c && m'[b] == m'[c] :: m'[b] == r && (b in avoid || c in avoid)
  {
    var m' := m1[a := r];
    hide Augmented, IsMatching;
    forall b, c | b in m' && c in m' && b != c && m'[b] == m'[c]
      ensures m'[b] == r && (b in avoid || c in avoid)
    {
      if b == a {
        OwnerIsAvoided(edges, m, m1, avoid, before, a, r, c);
      } else if c == a {
        OwnerIsAvoided(edges, m, m1, avoid, before, a, r, b);
      } else {
        OthersDiffer(edges, m, m1, before, a, b, c);
      }
    }
  }

  lemma OthersDiffer(edges: Edges, m: map<nat, nat>, m1: map<nat, nat>, before: set<nat>, a: nat, b: nat, c: nat)
    requires IsMatching(edges, m) && a in m && Augmented(edges, m, m1, before + {a}, m[a])
    requires b in m1 && c in m1 && b != c && b != a && c != a
    ensures m1[b] != m1[c]
  {
    assert m[a] == m1[a];
  }

  /** Another row of `r` is one its caller takes over: any other would repeat `r` in `m1`. */
  lemma OwnerIsAvoided(edges: Edges, m: map<nat, nat>, m1: map<nat, nat>, avoid: set<nat>, before: set<nat>,
                       a: nat, r: nat, c: nat)
    requires IsMatching(edges, m) && a in m && a !in before && avoid <= before
    requires forall b | b in m && m[b] == r :: b in avoid
    requires Augmented(edges, m, m1, before + {a}, m[a])
    requires c in m1 && c != a && m1[c] == r
    ensures c in avoid
  {
    assert m[a] in m.Values && r in m1.Values;
    var d :| d in m && m[d] == r;
    assert d in avoid && m1[d] == r;
  }

  /** After a successful search from a free reference nothing is shared: a matching again, one row larger. */
  lemma AugmentedIsMatching(edges: Edges, m: map<nat, nat>, m': map<nat, nat>, r: nat)
    requires IsMatching(edges, m) && Augmented(edges, m, m', {}, r)
    ensures IsMatching(edges, m') && |m'| == |m| + 1
  {
    var x :| x !in m && m'.Keys == m.Keys + {x};
    assert |m'| == |m'.Keys| && |m| == |m.Keys|;
  }

  lemma CertificateAfterSuccess(edges: Edges, m: map<nat, nat>, m': map<nat, nat>, dead: set<nat>, r: nat)
    requires r < |edges| && IsCertificate(edges, m, dead, r) && Augmented(edges, m, m', {}, r)
    requires forall a | a in dead :: m'[a] == m[a]
    ensures IsCertificate(edges, m', dead, r + 1)
  {
    hide Augmented, IsMatching, IsClosed;
    AugmentedIsMatching(edges, m, m', r);
    AugmentedCover(edges, m, m', r);
    ClosedAfterSuccess(edges, m, m', dead);
    forall a | a in m'
      ensures m'[a] < r + 1
    {
      assert m'[a] in m.Values + {r};
    }
  }

  lemma ClosedAfterSuccess(edges: Edges, m: map<nat, nat>, m': map<nat, nat>, dead: set<nat>)
    requires IsClosed(edges, m, dead) && m.Keys <= m'.Keys && forall a | a in dead :: m'[a] == m[a]
    ensures IsClosed(edges, m', dead)
  {
  }

  lemma AugmentedCover(edges: Edges, m: map<nat, nat>, m': map<nat, nat>, r: nat)
    requires Augmented(edges, m, m', {}, r)
    ensures m.Keys <= m'.Keys && m'.Values == m.Values + {r}
  {
  }

  lemma AugmentedPrefixes(edges: Edges, m: map<nat, nat>, m': map<nat, nat>, r: nat)
    requires Augmented(edges, m, m', {}, r)
    ensures forall k | 0 <= k <= r :: MatchedBelow(m', k) == MatchedBelow(m, k)
  {
    forall k | 0 <= k <= r
      ensures MatchedBelow(m', k) == MatchedBelow(m, k)
    {
      MatchedBelowValues(m, k);
      MatchedBelowValues(m', k);
    }
  }

  lemma MatchedBelowValues(m: map<nat, nat>, k: nat)
    ensures forall v: nat :: v in MatchedBelow(m, k) <==> v < k && v in m.Values
  {
  }

  lemma CertificateAfterFailure(edges: Edges, m: map<nat, nat>, dead: set<nat>, seen: set<nat>, r: nat)
    requires r < |edges| && IsCertificate(edges, m, dead, r) && Targets(edges, r) <= seen
    requires forall a | a in seen :: a in m && Targets(edges, m[a]) <= seen
    ensures IsCertificate(edges, m, dead + seen, r + 1)
  {
  }
}

/** `score`: references and rows become edges, the matching becomes the matched, missing and unexpected lists. */
module ReferenceScore {
  import opened FiniteSets
  import opened Options
  import opened Selections
  import opened ReferenceMatching

  /** A reference row: accepted normalized names, amount, and possibly a category label. */
  datatype Reference = Reference(names: set<string>, cents: Option<int>, labelled: bool, category: Option<string>)

  datatype Row = Row(name: string, cents: Option<int>, category: Option<string>)

  predicate Accepts(reference: Reference, row: Row) {
    row.name in reference.names && row.cents == reference.cents
  }

  function Keep(references: seq<Reference>, labelled: bool): (kept: seq<Reference>)
    ensures forall r | r in kept :: r.labelled == labelled
  {
    if references == [] then []
    else (if references[0].labelled == labelled then [references[0]] else []) + Keep(references[1..], labelled)
  }

  /** The stable sort by `'category' not in row`. */
  function LabelledFirst(references: seq<Reference>): seq<Reference> {
    Keep(references, true) + Keep(references, false)
  }

  lemma {:induction false} LabelledFirstPermutes(references: seq<Reference>)
    ensures multiset(LabelledFirst(references)) == multiset(references)
  {
    if references != [] {
      LabelledFirstPermutes(references[1..]);
      assert references == [references[0]] + references[1..];
    }
  }

  /** Within the labelled and within the other references the order stays as it was. */
  lemma {:induction false} LabelledFirstIsStable(references: seq<Reference>, labelled: bool)
    ensures Keep(LabelledFirst(references), labelled) == Keep(references, labelled)
  {
    KeepAgain(references, true, labelled);
    KeepAgain(references, false, labelled);
    KeepAppend(Keep(references, true), Keep(references, false), labelled);
  }

  lemma KeepCons(r: Reference, rest: seq<Reference>, labelled: bool)
    ensures Keep([r] + rest, labelled) == (if r.labelled == labelled then [r] else []) + Keep(rest, labelled)
  {
    assert ([r] + rest)[1..] == rest;
  }

  lemma {:induction false} KeepAppend(a: seq<Reference>, b: seq<Reference>, labelled: bool)
    ensures Keep(a + b, labelled) == Keep(a, labelled) + Keep(b, labelled)
  {
    if a == [] {
      assert a + b == b;
    } else {
      KeepAppend(a[1..], b, labelled);
      KeepCons(a[0], a[1..] + b, labelled);
      KeepCons(a[0], a[1..], labelled);
      hide Keep;
      assert a + b == [a[0]] + (a[1..] + b) && a == [a[0]] + a[1..];
      Associate(if a[0].labelled == labelled then [a[0]] else [], Keep(a[1..], labelled), Keep(b, labelled));
    }
  }

  lemma Associate<T>(a: seq<T>, b: seq<T>, c: seq<T>)
    ensures (a + b) + c == a + (b + c)
  {
  }

  lemma {:induction false} KeepAgain(references: seq<Reference>, first: bool, again: bool)
    ensures Keep(Keep(references, first), again) == if first == again then Keep(references, first) else []
  {
    if references != [] {
      KeepAgain(references[1..], first, again);
      var rest := Keep(references[1..], first);
      assert ([references[0]] + rest)[1..] == rest;
      assert [] + rest == rest;
    }
  }

  /** A one-to-one choice of accepted rows: row index to reference index. */
  predicate IsPairing(references: seq<Reference>, rows: seq<Row>, m: map<nat, nat>) {
    && (forall a | a in m :: a < |rows| && m[a] < |references| && Accepts(references[m[a]], rows[a]))
    && (forall a, b | a in m && b in m && m[a] == m[b] :: a == b)
  }

  /** The rows that a reference accepts. */
  ghost predicate AreTargets(targets: seq<nat>, reference: Reference, rows: seq<Row>) {
    forall a: nat :: a in targets <==> a < |rows| && Accepts(reference, rows[a])
  }

  ghost predicate AreEdges(references: seq<Reference>, rows: seq<Row>, edges: Edges) {
    && |edges| == |references|
    && forall r | 0 <= r < |references| :: AreTargets(edges[r], references[r], rows)
  }

  lemma PairingIsMatching(references: seq<Reference>, rows: seq<Row>, edges: Edges, m: map<nat, nat>)
    requires AreEdges(references, rows, edges)
    ensures IsPairing(references, rows, m) <==> IsMatching(edges, m)
  {
    hide Accepts;
    forall a | a in m && m[a] < |references|
      ensures a in edges[m[a]] <==> a < |rows| && Accepts(references[m[a]], rows[a])
    {
      assert AreTargets(edges[m[a]], references[m[a]], rows);
    }
  }

  method BuildEdges(references: seq<Reference>, rows: seq<Row>) returns (edges: Edges)
    ensures AreEdges(references, rows, edges)
  {
    edges := [];
    for r := 0 to |references|
      invariant |edges| == r
      invariant forall q | 0 <= q < r :: AreTargets(edges[q], references[q], rows)
    {
      var accepted: seq<nat> := [];
      for index := 0 to |rows|
        invariant forall a: nat :: a in accepted <==> a < index && Accepts(references[r], rows[a])
      {
        if Accepts(references[r], rows[index]) {
          accepted := accepted + [index];
        }
      }
      assert AreTargets(accepted, references[r], rows);
      edges := edges + [accepted];
    }
  }

  // The lists of the report.

  function Inverse(m: map<nat, nat>): map<nat, nat>
    requires forall a, b | a in m && b in m && m[a] == m[b] :: a == b
  {
    map a | a in m :: m[a] := a
  }

  function References(matched: seq<(Reference, Row)>): seq<Reference> {
    seq(|matched|, i requires 0 <= i < |matched| => matched[i].0)
  }

  function RowsOf(matched: seq<(Reference, Row)>): seq<Row> {
    seq(|matched|, i requires 0 <= i < |matched| => matched[i].1)
  }

  /** `matched` lists the pairing, in the order of the references; `at` are the indexes of its rows. */
  predicate ListsPairing(matched: seq<(Reference, Row)>, references: seq<Reference>, rows: seq<Row>, m: map<nat, nat>,
                         at: seq<nat>)
  {
    && |matched| == |at|
    && (forall i | 0 <= i < |at| ::
          && at[i] in m && at[i] < |rows| && m[at[i]] < |references|
          && matched[i] == (references[m[at[i]]], rows[at[i]]))
    && (forall i, j | 0 <= i < j < |at| :: m[at[i]] < m[at[j]])
    && (forall a | a in m :: a in at)
  }

  /** `part` lists what is left of `all`, in order; `at` are the indexes. */
  predicate ListsOthers<T(==)>(part: seq<T>, all: seq<T>, taken: set<nat>, at: seq<nat>) {
    ListsRest(at, taken, |all|) && part == Pick(all, at)
  }

  /** References and rows that are not listed as matched are listed as missing and unexpected, each once. */
  lemma ListsPartition(references: seq<Reference>, rows: seq<Row>, m: map<nat, nat>, matched: seq<(Reference, Row)>,
                       missing: seq<Reference>, unexpected: seq<Row>, at: seq<nat>, gaps: seq<nat>, spare: seq<nat>)
    requires IsPairing(references, rows, m) && ListsPairing(matched, references, rows, m, at)
    requires ListsOthers(missing, references, m.Values, gaps) && ListsOthers(unexpected, rows, m.Keys, spare)
    ensures multiset(References(matched)) + multiset(missing) == multiset(references)
    ensures multiset(RowsOf(matched)) + multiset(unexpected) == multiset(rows)
    ensures |matched| == |m|
  {
    hide Accepts;
    var targets: seq<nat> := seq(|at|, i requires 0 <= i < |at| && at[i] in m => m[at[i]]);
    assert m.Values == Members(targets) by {
      forall x | x in m.Values
        ensures x in targets
      {
        var a :| a in m && m[a] == x;
        var i :| 0 <= i < |at| && at[i] == a;
        assert targets[i] == x;
      }
    }
    assert m.Keys == Members(at);
    PickAndRest(references, targets, gaps);
    assert References(matched) == Pick(references, targets);
    PickAndRest(rows, at, spare);
    assert RowsOf(matched) == Pick(rows, at);
    SizeOfList(at);
    assert |m| == |m.Keys|;
  }

  function CountLabelled(found: seq<(Reference, Row)>): nat {
    if found == [] then 0
    else CountLabelled(found[..|found| - 1]) + if found[|found| - 1].0.labelled then 1 else 0
  }

  function LabelledBelow(matched: seq<(Reference, Row)>, k: nat): set<nat>
    requires k <= |matched|
  {
    set i | 0 <= i < k && matched[i].0.labelled
  }

  lemma {:induction false} LabelledCount(matched: seq<(Reference, Row)>, k: nat)
    requires k <= |matched|
    ensures CountLabelled(matched[..k]) == |LabelledBelow(matched, k)|
  {
    if k > 0 {
      LabelledCount(matched, k - 1);
      assert matched[..k][..k - 1] == matched[..k - 1];
      assert LabelledBelow(matched, k) ==
             LabelledBelow(matched, k - 1) + if matched[k - 1].0.labelled then {k - 1} else {};
    }
  }

  lemma AllLabelledCount(references: seq<Reference>, rows: seq<Row>, m: map<nat, nat>, matched: seq<(Reference, Row)>,
                         at: seq<nat>)
    requires IsPairing(references, rows, m) && ListsPairing(matched, references, rows, m, at)
    ensures CountLabelled(matched) == |LabelledRows(references, m)|
  {
    LabelledCount(matched, |matched|);
    assert matched[..|matched|] == matched;
    var listed := LabelledBelow(matched, |matched|);
    var rowAt := LabelledImage(references, rows, m, matched, at);
    hide *;
    InjectiveImage(rowAt, listed);
  }

  lemma LabelledImage(references: seq<Reference>, rows: seq<Row>, m: map<nat, nat>, matched: seq<(Reference, Row)>,
                      at: seq<nat>) returns (rowAt: map<nat, nat>)
    requires IsPairing(references, rows, m) && ListsPairing(matched, references, rows, m, at)
    ensures rowAt.Keys == LabelledBelow(matched, |matched|)
    ensures forall i, j | i in rowAt && j in rowAt && rowAt[i] == rowAt[j] :: i == j
    ensures LabelledRows(references, m) == set i | i in rowAt.Keys :: rowAt[i]
  {
    hide Accepts;
    rowAt := map i | i in LabelledBelow(matched, |matched|) :: at[i];
    forall a | a in LabelledRows(references, m)
      ensures exists i :: i in rowAt.Keys && rowAt[i] == a
    {
      var i: nat :| i < |at| && at[i] == a;
      assert i in rowAt.Keys;
    }
    forall i | i in rowAt.Keys
      ensures rowAt[i] in LabelledRows(references, m)
    {
    }
  }

  /** The rows that a choice gives to labelled references. */
  function LabelledRows(references: seq<Reference>, m: map<nat, nat>): set<nat>
    requires forall a | a in m :: m[a] < |references|
  {
    set a | a in m && references[m[a]].labelled
  }

  lemma LabelledRowsCount(references: seq<Reference>, rows: seq<Row>, m: map<nat, nat>, l: nat)
    requires IsPairing(references, rows, m)
    requires forall r | 0 <= r < |references| :: references[r].labelled <==> r < l
    ensures |LabelledRows(references, m)| == |MatchedBelow(m, l)|
  {
    var chosen := LabelledRows(references, m);
    InjectiveImage(m, chosen);
    assert MatchedBelow(m, l) == set a | a in chosen :: m[a];
  }

  lemma PairingSize(references: seq<Reference>, rows: seq<Row>, m: map<nat, nat>)
    requires IsPairing(references, rows, m)
    ensures |m| == |MatchedBelow(m, |references|)|
  {
    InjectiveImage(m, m.Keys);
    assert MatchedBelow(m, |references|) == set a | a in m.Keys :: m[a];
  }

  lemma PairingFacts(references: seq<Reference>, rows: seq<Row>, m: map<nat, nat>)
    requires IsPairing(references, rows, m)
    ensures forall a, b | a in m && b in m && m[a] == m[b] :: a == b
    ensures forall a | a in m :: a < |rows| && m[a] < |references|
  {
  }

  /** The pairs of the references below `k`. */
  predicate ListsBelow(matched: seq<(Reference, Row)>, references: seq<Reference>, rows: seq<Row>, m: map<nat, nat>,
                       at: seq<nat>, k: nat)
  {
    && |matched| == |at|
    && (forall i | 0 <= i < |at| ::
          && at[i] in m && at[i] < |rows| && m[at[i]] < k && m[at[i]] < |references|
          && matched[i] == (references[m[at[i]]], rows[at[i]]))
    && (forall i, j | 0 <= i < j < |at| :: m[at[i]] < m[at[j]])
    && (forall a | a in m && m[a] < k :: a in at)
  }

  lemma NothingListed(references: seq<Reference>, rows: seq<Row>, m: map<nat, nat>)
    ensures ListsBelow([], references, rows, m, [], 0) && ListsRest([], m.Values, 0) && ListsRest([], m.Keys, 0)
    ensures Pick(references, []) == [] && Pick(rows, []) == []
  {
  }

  lemma AllListed(matched: seq<(Reference, Row)>, references: seq<Reference>, rows: seq<Row>, m: map<nat, nat>,
                  at: seq<nat>)
    requires ListsBelow(matched, references, rows, m, at, |references|)
    requires forall a | a in m :: m[a] < |references|
    ensures ListsPairing(matched, references, rows, m, at)
  {
  }

  lemma OneMoreListed(matched: seq<(Reference, Row)>, references: seq<Reference>, rows: seq<Row>, m: map<nat, nat>,
                      at: seq<nat>, k: nat)
    requires ListsBelow(matched, references, rows, m, at, k) && k < |references|
    requires forall a, b | a in m && b in m && m[a] == m[b] :: a == b
    ensures k !in m.Values ==> ListsBelow(matched, references, rows, m, at, k + 1)
    ensures forall a | a in m && m[a] == k && a < |rows| ::
              ListsBelow(matched + [(references[k], rows[a])], references, rows, m, at + [a], k + 1)
  {
    forall a | a in m && m[a] == k && a < |rows|
      ensures ListsBelow(matched + [(references[k], rows[a])], references, rows, m, at + [a], k + 1)
    {
      forall b | b in m && m[b] < k + 1
        ensures b in at + [a]
      {
        assert m[b] == k ==> b == a;
      }
    }
  }

  /** What the pass over the references has listed before `k`. */
  predicate AreListed(matched: seq<(Reference, Row)>, missing: seq<Reference>, references: seq<Reference>,
                      rows: seq<Row>, m: map<nat, nat>, at: seq<nat>, gaps: seq<nat>, k: nat)
  {
    && k <= |references| && ListsBelow(matched, references, rows, m, at, k)
    && ListsRest(gaps, m.Values, k) && missing == Pick(references, gaps)
  }

  lemma NextMissing(matched: seq<(Reference, Row)>, missing: seq<Reference>, references: seq<Reference>,
                    rows: seq<Row>, m: map<nat, nat>, at: seq<nat>, gaps: seq<nat>, k: nat)
    requires AreListed(matched, missing, references, rows, m, at, gaps, k) && k < |references| && k !in m.Values
    requires forall a, b | a in m && b in m && m[a] == m[b] :: a == b
    ensures AreListed(matched, missing + [references[k]], references, rows, m, at, gaps + [k], k + 1)
  {
    OneMoreListed(matched, references, rows, m, at, k);
    RestOneMore(gaps, m.Values, k);
    PickAppend(references, gaps, k);
    hide Pick, ListsBelow;
  }

  lemma NextFound(matched: seq<(Reference, Row)>, missing: seq<Reference>, references: seq<Reference>,
                  rows: seq<Row>, m: map<nat, nat>, at: seq<nat>, gaps: seq<nat>, k: nat, a: nat)
    requires AreListed(matched, missing, references, rows, m, at, gaps, k) && k < |references|
    requires a in m && m[a] == k && a < |rows|
    requires forall a, b | a in m && b in m && m[a] == m[b] :: a == b
    ensures AreListed(matched + [(references[k], rows[a])], missing, references, rows, m, at + [a], gaps, k + 1)
  {
    OneMoreListed(matched, references, rows, m, at, k);
    RestOneMore(gaps, m.Values, k);
    hide Pick, ListsBelow;
  }

  /** The pass over the references. */
  method ListReferences(references: seq<Reference>, rows: seq<Row>, pairing: map<nat, nat>)
    returns (matched: seq<(Reference, Row)>, missing: seq<Reference>, ghost at: seq<nat>, ghost gaps: seq<nat>)
    requires forall a, b | a in pairing && b in pairing && pairing[a] == pairing[b] :: a == b
    requires forall a | a in pairing :: a < |rows| && pairing[a] < |references|
    ensures ListsPairing(matched, references, rows, pairing, at)
    ensures ListsOthers(missing, references, pairing.Values, gaps)
  {
    var rowOf := Inverse(pairing);
    matched, missing, at, gaps := [], [], [], [];
    NothingListed(references, rows, pairing);
    for index := 0 to |references|
      invariant AreListed(matched, missing, references, rows, pairing, at, gaps, index)
    {
      hide AreListed;
      if index !in rowOf {
        NextMissing(matched, missing, references, rows, pairing, at, gaps, index);
        missing, gaps := missing + [references[index]], gaps + [index];
      } else {
        NextFound(matched, missing, references, rows, pairing, at, gaps, index, rowOf[index]);
        matched, at := matched + [(references[index], rows[rowOf[index]])], at + [rowOf[index]];
      }
    }
    hide ListsBelow, ListsPairing, Pick, ListsRest;
    AllListed(matched, references, rows, pairing, at);
  }

  /** The pass over the rows. */
  method ListUnexpected(rows: seq<Row>, pairing: map<nat, nat>) returns (unexpected: seq<Row>, ghost spare: seq<nat>)
    ensures ListsOthers(unexpected, rows, pairing.Keys, spare)
  {
    hide Pick;
    unexpected, spare := [], [];
    NothingListed([], rows, pairing);
    for index := 0 to |rows|
      invariant ListsRest(spare, pairing.Keys, index) && unexpected == Pick(rows, spare)
    {
      RestOneMore(spare, pairing.Keys, index);
      if index !in pairing {
        PickAppend(rows, spare, index);
        unexpected, spare := unexpected + [rows[index]], spare + [index];
      }
    }
  }

  /**
   Every list of the report at once.  The pairing behind it is one-to-one, and no other one matches more
   references, or more category-labelled references.  `at`, `gaps` and `spare` are the indexes of the listed rows
   and references.
   */
  method Score(rows: seq<Row>, expected: seq<Reference>)
    returns (matched: seq<(Reference, Row)>, missing: seq<Reference>, unexpected: seq<Row>, pairing: map<nat, nat>,
             ghost at: seq<nat>, ghost gaps: seq<nat>, ghost spare: seq<nat>)
    ensures IsPairing(LabelledFirst(expected), rows, pairing)
    ensures ListsPairing(matched, LabelledFirst(expected), rows, pairing, at) && |matched| == |pairing|
    ensures ListsOthers(missing, LabelledFirst(expected), pairing.Values, gaps)
    ensures ListsOthers(unexpected, rows, pairing.Keys, spare)
    ensures multiset(References(matched)) + multiset(missing) == multiset(expected)
    ensures multiset(RowsOf(matched)) + multiset(unexpected) == multiset(rows)
    ensures forall f | f in matched :: f.1.name in f.0.names && f.1.cents == f.0.cents
    ensures forall other | IsPairing(LabelledFirst(expected), rows, other) :: |other| <= |matched|
    ensures forall other | IsPairing(LabelledFirst(expected), rows, other) ::
              |LabelledRows(LabelledFirst(expected), other)| <= CountLabelled(matched)
  {
    hide LabelledFirst, AreEdges, IsMatching, IsMaximumBelow, LabelledRows, References, RowsOf, Pick, ListsRest;
    var references := LabelledFirst(expected);
    var edges := BuildEdges(references, rows);
    var matcher := new Matcher(edges);
    matcher.MatchAll();
    pairing := matcher.assignment;
    PairingIsMatching(references, rows, edges, pairing);
    PairingFacts(references, rows, pairing);
    matched, missing, at, gaps := ListReferences(references, rows, pairing);
    unexpected, spare := ListUnexpected(rows, pairing);
    hide IsPairing, ListsPairing, ListsOthers;
    ListedAreAccepted(references, rows, pairing, matched, at);
    ListsPartition(references, rows, pairing, matched, missing, unexpected, at, gaps, spare);
    LabelledFirstPermutes(expected);
    AllLabelledCount(references, rows, pairing, matched, at);
    PairingIsBest(expected, rows, edges, pairing);
  }

  lemma ListedAreAccepted(references: seq<Reference>, rows: seq<Row>, m: map<nat, nat>, matched: seq<(Reference, Row)>,
                          at: seq<nat>)
    requires IsPairing(references, rows, m) && ListsPairing(matched, references, rows, m, at)
    ensures forall f | f in matched :: f.1.name in f.0.names && f.1.cents == f.0.cents
  {
  }

  lemma PairingIsBest(expected: seq<Reference>, rows: seq<Row>, edges: Edges, m: map<nat, nat>)
    requires AreEdges(LabelledFirst(expected), rows, edges) && IsMatching(edges, m)
    requires forall k | 0 <= k <= |edges| :: IsMaximumBelow(edges, m, k)
    ensures var references := LabelledFirst(expected);
            && IsPairing(references, rows, m)
            && forall other | IsPairing(references, rows, other) ::
                 |other| <= |m| && |LabelledRows(references, other)| <= |LabelledRows(references, m)|
  {
    var references := LabelledFirst(expected);
    var n, l := |references|, |Keep(expected, true)|;
    PairingIsMatching(references, rows, edges, m);
    LabelledComeFirst(expected);
    hide LabelledFirst, MatchedBelow, LabelledRows, Accepts;
    PairingSize(references, rows, m);
    LabelledRowsCount(references, rows, m, l);
    forall other | IsPairing(references, rows, other)
      ensures |other| <= |m| && |LabelledRows(references, other)| <= |LabelledRows(references, m)|
    {
      PairingIsMatching(references, rows, edges, other);
      PairingSize(references, rows, other);
      LabelledRowsCount(references, rows, other, l);
      assert IsMaximumBelow(edges, m, n) && IsMaximumBelow(edges, m, l);
    }
  }

  lemma LabelledComeFirst(expected: seq<Reference>)
    ensures var references, l := LabelledFirst(expected), |Keep(expected, true)|;
            l <= |references| && forall r | 0 <= r < |references| :: references[r].labelled <==> r < l
  {
  }
}
