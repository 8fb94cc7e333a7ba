/** Counting arguments over finite sets, and lists of indexes. */
module FiniteSets {

  /** A map that is one-to-one on `dom` has an image of the same size. */
  lemma {:induction false} InjectiveImage(f: map<nat, int>, dom: set<nat>)
    requires dom <= f.Keys && forall a, b | a in dom && b in dom && f[a] == f[b] :: a == b
    ensures |set a | a in dom :: f[a]| == |dom|
  {
    if a :| a in dom {
      InjectiveImage(f, dom - {a});
      assert (set x | x in dom :: f[x]) == (set x | x in dom - {a} :: f[x]) + {f[a]};
    }
  }

  lemma PartsAddUp<T>(part: set<T>, whole: set<T>)
    requires part <= whole
    ensures |whole| == |part| + |whole - part|
  {
    assert whole == part + (whole - part);
  }

  /** A part is no larger than the whole, and as large only if it is the whole. */
  lemma SubsetSize<T>(part: set<T>, whole: set<T>)
    requires part <= whole
    ensures |part| <= |whole| && (|part| == |whole| ==> part == whole)
  {
    PartsAddUp(part, whole);
  }
}

/** Lists that are picked from another list by their indexes. */
module Selections {

  function Pick<T>(all: seq<T>, at: seq<nat>): seq<T>
    requires forall i | 0 <= i < |at| :: at[i] < |all|
  {
    seq(|at|, i requires 0 <= i < |at| => all[at[i]])
  }

  predicate AllDifferent(at: seq<nat>) {
    forall i, j | 0 <= i < j < |at| :: at[i] != at[j]
  }

  function Members(at: seq<nat>): set<nat> {
    set x | x in at
  }

  lemma {:induction false} SizeOfList(at: seq<nat>)
    requires AllDifferent(at)
    ensures |Members(at)| == |at|
  {
    if at != [] {
      var n := |at| - 1;
      SizeOfList(at[..n]);
      assert at == at[..n] + [at[n]];
      assert Members(at) == Members(at[..n]) + {at[n]};
    }
  }

  /** The indexes below `n` that are not in `taken`, in order. */
  predicate ListsRest(at: seq<nat>, taken: set<nat>, n: nat) {
    && (forall i | 0 <= i < |at| :: at[i] < n && at[i] !in taken)
    && (forall i, j | 0 <= i < j < |at| :: at[i] < at[j])
    && (forall x: nat | x < n && x !in taken :: x in at)
  }

  lemma RestOneMore(at: seq<nat>, taken: set<nat>, n: nat)
    requires ListsRest(at, taken, n)
    ensures ListsRest(if n in taken then at else at + [n], taken, n + 1)
  {
  }

  lemma PickAppend<T>(all: seq<T>, at: seq<nat>, x: nat)
    requires x < |all| && forall i | 0 <= i < |at| :: at[i] < |all|
    ensures Pick(all, at + [x]) == Pick(all, at) + [all[x]]
  {
  }

  lemma {:induction false} DifferentOnce(at: seq<nat>, x: nat)
    requires AllDifferent(at)
    ensures multiset(at)[x] == if x in at then 1 else 0
  {
    if at != [] {
      DifferentOnce(at[..|at| - 1], x);
      assert at == at[..|at| - 1] + [at[|at| - 1]];
    }
  }

  lemma SameMembers(a: seq<nat>, b: seq<nat>)
    requires AllDifferent(a) && AllDifferent(b) && forall x: nat :: x in a <==> x in b
    ensures multiset(a) == multiset(b)
  {
    forall x: nat
      ensures multiset(a)[x] == multiset(b)[x]
    {
      DifferentOnce(a, x);
      DifferentOnce(b, x);
    }
  }

  function Without(at: seq<nat>, j: nat): seq<nat>
    requires j < |at|
  {
    at[..j] + at[j + 1..]
  }

  lemma WithoutOne(at: seq<nat>, j: nat)
    requires j < |at|
    ensures multiset(at) == multiset(Without(at, j)) + multiset{at[j]}
  {
    assert at == at[..j] + [at[j]] + at[j + 1..];
  }

  lemma PickWithout<T>(all: seq<T>, at: seq<nat>, j: nat)
    requires j < |at| && forall i | 0 <= i < |at| :: at[i] < |all|
    ensures forall i | 0 <= i < |Without(at, j)| :: Without(at, j)[i] < |all|
    ensures multiset(Pick(all, at)) == multiset(Pick(all, Without(at, j))) + multiset{all[at[j]]}
  {
    var before, after := Pick(all, at[..j]), Pick(all, at[j + 1..]);
    assert Pick(all, at) == before + [all[at[j]]] + after;
    assert Pick(all, Without(at, j)) == before + after;
  }

  /** Picking in another order gives the same elements. */
  lemma {:induction false} PickPermuted<T>(all: seq<T>, a: seq<nat>, b: seq<nat>)
    requires multiset(a) == multiset(b) && (forall i | 0 <= i < |a| :: a[i] < |all|)
    requires forall i | 0 <= i < |b| :: b[i] < |all|
    ensures multiset(Pick(all, a)) == multiset(Pick(all, b))
    decreases |a|
  {
    SameLength(a, b);
    if a != [] {
      hide Pick, Without;
      assert a[0] in multiset(b);
      var j :| 0 <= j < |b| && b[j] == a[0];
      WithoutOne(a, 0);
      WithoutOne(b, j);
      PickWithout(all, a, 0);
      PickWithout(all, b, j);
      Shorter(a, 0);
      CancelOne(multiset(Without(a, 0)), multiset(Without(b, j)), a[0]);
      PickPermuted(all, Without(a, 0), Without(b, j));
    }
  }

  lemma CancelOne(a: multiset<nat>, b: multiset<nat>, x: nat)
    requires a + multiset{x} == b + multiset{x}
    ensures a == b
  {
    assert a == a + multiset{x} - multiset{x} && b == b + multiset{x} - multiset{x};
  }

  lemma Shorter(at: seq<nat>, j: nat)
    requires j < |at|
    ensures |Without(at, j)| == |at| - 1
  {
  }

  lemma SameLength(a: seq<nat>, b: seq<nat>)
    requires multiset(a) == multiset(b)
    ensures |a| == |b|
  {
    assert |multiset(a)| == |a| && |multiset(b)| == |b|;
  }

  /** Picked elements and the rest together are all of them. */
  lemma PickAndRest<T>(all: seq<T>, at: seq<nat>, rest: seq<nat>)
    requires AllDifferent(at) && (forall i | 0 <= i < |at| :: at[i] < |all|)
    requires ListsRest(rest, Members(at), |all|)
    ensures multiset(Pick(all, at)) + multiset(Pick(all, rest)) == multiset(all)
  {
    var whole: seq<nat> := seq(|all|, i requires 0 <= i < |all| => i);
    var both: seq<nat> := at + rest;
    assert AllDifferent(both) && AllDifferent(whole);
    forall x: nat
      ensures x in both <==> x in whole
    {
      assert x < |all| ==> whole[x] == x;
    }
    SameMembers(both, whole);
    PickPermuted(all, both, whole);
    assert Pick(all, whole) == all;
    assert Pick(all, both) == Pick(all, at) + Pick(all, rest);
  }
}
