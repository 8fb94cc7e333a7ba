/**
 Packing OCR observations into a prompt.  Sources are taken round-robin across
 the engines that produced them, and then packed greedily under a budget, with
 equal readings sharing one entry.
 */
module RoundRobin {
  import opened Options

  datatype Engine = Engine(name: string)

  datatype Source = Source(id: string, kind: string, engine: Option<string>, text: string)

  /** Sources without an engine are grouped by their kind. */
  function EngineOf(s: Source): (engine: Engine)
    ensures s.engine.Some? ==> engine.name == s.engine.value
    ensures s.engine == None ==> engine.name == s.kind
  {
    Engine(if s.engine.Some? then s.engine.value else s.kind)
  }

  /** The sources of one engine, in order. */
  function Of(sources: seq<Source>, engine: Engine): seq<Source> {
    if sources == [] then []
    else
      var last := sources[|sources| - 1];
      Of(sources[..|sources| - 1], engine) + if EngineOf(last) == engine then [last] else []
  }

  /** The engines, in order of first appearance. */
  function Engines(sources: seq<Source>): seq<Engine> {
    if sources == [] then []
    else
      var before, last := Engines(sources[..|sources| - 1]), EngineOf(sources[|sources| - 1]);
      if last in before then before else before + [last]
  }

  predicate Distinct(names: seq<Engine>) {
    forall i, j | 0 <= i < j < |names| :: names[i] != names[j]
  }

  function Min(a: int, b: int): int {
    if a <= b then a else b
  }

  lemma OfNone(engine: Engine)
    ensures Of([], engine) == []
  {
  }

  lemma OfLast(sources: seq<Source>, last: Source, engine: Engine)
    ensures Of(sources + [last], engine) == Of(sources, engine) + if EngineOf(last) == engine then [last] else []
  {
    assert (sources + [last])[..|sources|] == sources;
  }

  lemma {:induction false} OfAppend(a: seq<Source>, b: seq<Source>, engine: Engine)
    ensures Of(a + b, engine) == Of(a, engine) + Of(b, engine)
  {
    hide Of;
    if b == [] {
      assert a + b == a;
      OfNone(engine);
    } else {
      var most, last := b[..|b| - 1], b[|b| - 1];
      OfAppend(a, most, engine);
      OfLast(a + most, last, engine);
      OfLast(most, last, engine);
      assert a + b == a + most + [last] && b == most + [last];
    }
  }

  lemma {:induction false} OfElements(sources: seq<Source>, engine: Engine)
    ensures |Of(sources, engine)| <= |sources|
    ensures forall s | s in Of(sources, engine) :: EngineOf(s) == engine
    ensures multiset(Of(sources, engine)) <= multiset(sources)
    ensures forall s | EngineOf(s) == engine :: multiset(Of(sources, engine))[s] == multiset(sources)[s]
  {
    if sources != [] {
      OfElements(sources[..|sources| - 1], engine);
      assert sources == sources[..|sources| - 1] + [sources[|sources| - 1]];
    }
  }

  lemma {:induction false} EnginesAreDistinct(sources: seq<Source>)
    ensures Distinct(Engines(sources))
    ensures forall engine :: engine in Engines(sources) <==> Of(sources, engine) != []
  {
    if sources != [] {
      EnginesAreDistinct(sources[..|sources| - 1]);
    }
  }

  /** Engines come in the order in which they first appear. */
  lemma EnginesInOrder(sources: seq<Source>, n: nat)
    requires n <= |sources|
    ensures Engines(sources[..n]) <= Engines(sources)
    ensures n > 0 ==> [EngineOf(sources[0])] <= Engines(sources)
  {
    EnginesGrow(sources, n);
    if n > 0 {
      EnginesGrow(sources, 1);
      assert sources[..1][..0] == [];
      assert Engines(sources[..1]) == [EngineOf(sources[0])];
    }
  }

  lemma {:induction false} EnginesGrow(sources: seq<Source>, n: nat)
    requires n <= |sources|
    ensures Engines(sources[..n]) <= Engines(sources)
  {
    hide EngineOf;
    if n == |sources| {
      assert sources[..n] == sources;
    } else {
      var before := sources[..|sources| - 1];
      EnginesGrow(before, n);
      assert before[..n] == sources[..n];
    }
  }

  // The order produced by one pass after another over the engines.

  /** What one engine gives in round `k`: nothing once it has run out. */
  function Turn(sources: seq<Source>, engine: Engine, k: nat): (turn: seq<Source>)
    ensures |turn| <= 1
  {
    if k < |Of(sources, engine)| then [Of(sources, engine)[k]] else []
  }

  /** The sources that `engines` contribute to round `k`. */
  function Round(sources: seq<Source>, engines: seq<Engine>, k: nat): seq<Source> {
    if engines == [] then []
    else
      Round(sources, engines[..|engines| - 1], k) + Turn(sources, engines[|engines| - 1], k)
  }

  /** The first `k` rounds. */
  function Rounds(sources: seq<Source>, k: nat): seq<Source> {
    if k == 0 then [] else Rounds(sources, k - 1) + Round(sources, Engines(sources), k - 1)
  }

  ghost predicate Exhausted(sources: seq<Source>, k: nat) {
    forall engine :: |Of(sources, engine)| <= k
  }

  lemma OfTurn(sources: seq<Source>, giver: Engine, k: nat, engine: Engine)
    ensures Of(Turn(sources, giver, k), engine) == if giver == engine then Turn(sources, giver, k) else []
  {
    OfElements(sources, giver);
    var turn := Turn(sources, giver, k);
    assert turn != [] ==> EngineOf(turn[0]) == giver && turn[..0] == [];
  }

  /** In one round every listed engine gives its next source, if it has one, and no other engine gives any. */
  lemma {:induction false} RoundOf(sources: seq<Source>, engines: seq<Engine>, k: nat, engine: Engine)
    requires Distinct(engines)
    ensures Of(Round(sources, engines, k), engine) == if engine in engines then Turn(sources, engine, k) else []
  {
    hide Turn;
    if engines == [] {
      assert Of([], engine) == [];
    } else {
      hide Of;
      var fewer, last := engines[..|engines| - 1], engines[|engines| - 1];
      RoundOf(sources, fewer, k, engine);
      OfAppend(Round(sources, fewer, k), Turn(sources, last, k), engine);
      OfTurn(sources, last, k, engine);
    }
  }

  /** After `k` rounds every engine has given its first `min(k, size)` sources, in its own order. */
  lemma {:induction false} RoundsOf(sources: seq<Source>, k: nat, engine: Engine)
    ensures Of(Rounds(sources, k), engine) == Of(sources, engine)[..Min(k, |Of(sources, engine)|)]
  {
    hide Engines, Round, Distinct, Of;
    OfNone(engine);
    if k > 0 {
      hide Min;
      RoundsOf(sources, k - 1, engine);
      EnginesAreDistinct(sources);
      RoundOf(sources, Engines(sources), k - 1, engine);
      OfAppend(Rounds(sources, k - 1), Round(sources, Engines(sources), k - 1), engine);
    }
  }

  /** Orders that agree engine by engine hold the same sources. */
  lemma SameSources(a: seq<Source>, b: seq<Source>)
    requires forall engine :: Of(a, engine) == Of(b, engine)
    ensures multiset(a) == multiset(b)
  {
    forall s: Source
      ensures multiset(a)[s] == multiset(b)[s]
    {
      OfElements(a, EngineOf(s));
      OfElements(b, EngineOf(s));
    }
  }

  /** The full order is a permutation that keeps every engine's own order. */
  lemma {:induction false} OrderIsPermutation(sources: seq<Source>, k: nat)
    requires Exhausted(sources, k)
    ensures multiset(Rounds(sources, k)) == multiset(sources)
    ensures forall engine :: Of(Rounds(sources, k), engine) == Of(sources, engine)
  {
    forall engine
      ensures Of(Rounds(sources, k), engine) == Of(sources, engine)
    {
      RoundsOf(sources, k, engine);
    }
    SameSources(Rounds(sources, k), sources);
  }

  lemma {:induction false} RoundPrefix(sources: seq<Source>, engines: seq<Engine>, k: nat, n: nat) returns (i: nat)
    requires n <= |Round(sources, engines, k)|
    ensures i <= |engines| && Round(sources, engines, k)[..n] == Round(sources, engines[..i], k)
  {
    hide Turn;
    if n == |Round(sources, engines, k)| {
      i := |engines|;
      assert engines[..i] == engines;
    } else {
      var fewer := engines[..|engines| - 1];
      i := RoundPrefix(sources, fewer, k, n);
      assert fewer[..i] == engines[..i];
    }
  }

  lemma {:induction false} PrefixOfRounds(sources: seq<Source>, k: nat, n: nat) returns (r: nat, i: nat)
    requires n <= |Rounds(sources, k)|
    ensures i <= |Engines(sources)|
    ensures Rounds(sources, k)[..n] == Rounds(sources, r) + Round(sources, Engines(sources)[..i], r)
  {
    hide Engines;
    if n == |Rounds(sources, k)| {
      r, i := k, 0;
      assert Engines(sources)[..0] == [];
    } else {
      hide Round;
      if n < |Rounds(sources, k - 1)| {
        r, i := PrefixOfRounds(sources, k - 1, n);
      } else {
        r := k - 1;
        i := RoundPrefix(sources, Engines(sources), r, n - |Rounds(sources, r)|);
      }
    }
  }

  /**
   However the order is cut off, an engine is at most one source ahead of another one, unless that one has no
   sources left: repeated passes of one engine cannot crowd out the others.
   */
  lemma EveryPrefixIsFair(sources: seq<Source>, k: nat, n: nat, ahead: Engine, behind: Engine)
    requires n <= |Rounds(sources, k)|
    ensures var prefix := Rounds(sources, k)[..n];
            || |Of(prefix, ahead)| <= |Of(prefix, behind)| + 1
            || Of(prefix, behind) == Of(sources, behind)
  {
    var r, i := PrefixOfRounds(sources, k, n);
    CutRound(sources, r, i, ahead);
    CutRound(sources, r, i, behind);
    assert Of(sources, behind)[..|Of(sources, behind)|] == Of(sources, behind);
  }

  lemma CutRound(sources: seq<Source>, r: nat, i: nat, engine: Engine)
    requires i <= |Engines(sources)|
    ensures var own := Of(Rounds(sources, r) + Round(sources, Engines(sources)[..i], r), engine);
            && Min(r, |Of(sources, engine)|) <= |own| <= Min(r + 1, |Of(sources, engine)|)
            && own == Of(sources, engine)[..|own|]
  {
    hide Of, Engines, Rounds, Round;
    EnginesAreDistinct(sources);
    RoundsOf(sources, r, engine);
    RoundOf(sources, Engines(sources)[..i], r, engine);
    OfAppend(Rounds(sources, r), Round(sources, Engines(sources)[..i], r), engine);
  }

  /** Group by engine, then pop one source per group in turn until all groups are empty. */
  method Interleave(sources: seq<Source>) returns (ordered: seq<Source>, ghost rounds: nat)
    ensures Exhausted(sources, rounds) && ordered == Rounds(sources, rounds)
    ensures multiset(ordered) == multiset(sources) && forall engine :: Of(ordered, engine) == Of(sources, engine)
  {
    hide Of, Engines, Distinct, Round;
    var names, groups := Group(sources);
    EnginesAreDistinct(sources);
    ordered, rounds := [], 0;
    while exists name | name in names :: groups[name] != []
      invariant forall name | name in names :: name in groups
      invariant forall name | name in names :: groups[name] == Left(sources, name, rounds)
      invariant ordered == Rounds(sources, rounds)
      decreases |sources| - rounds
    {
      ghost var open: Engine :| open in names && groups[open] != [];
      OfElements(sources, open);
      groups, ordered := PopRound(sources, names, groups, ordered, rounds);
      rounds := rounds + 1;
    }
    forall name
      ensures |Of(sources, name)| <= rounds
    {
      if name in names {
        assert groups[name] == [];
      }
    }
    OrderIsPermutation(sources, rounds);
  }

  /** What is left of a group after `k` rounds. */
  function Left(sources: seq<Source>, engine: Engine, k: nat): seq<Source> {
    Of(sources, engine)[Min(k, |Of(sources, engine)|)..]
  }

  lemma LeftPops(sources: seq<Source>, engine: Engine, k: nat)
    ensures var left := Left(sources, engine, k);
            if left == [] then Turn(sources, engine, k) == [] && Left(sources, engine, k + 1) == []
            else Turn(sources, engine, k) == [left[0]] && Left(sources, engine, k + 1) == left[1..]
  {
  }

  method Group(sources: seq<Source>) returns (names: seq<Engine>, groups: map<Engine, seq<Source>>)
    ensures names == Engines(sources)
    ensures forall name | name in names :: name in groups && groups[name] == Of(sources, name)
  {
    names, groups := [], map[];
    for i := 0 to |sources|
      invariant names == Engines(sources[..i])
      invariant forall name :: name in groups <==> name in names
      invariant forall name | name in groups :: groups[name] == Of(sources[..i], name)
    {
      var name := EngineOf(sources[i]);
      assert sources[..i + 1][..i] == sources[..i];
      EnginesAreDistinct(sources[..i]);
      if name !in groups {
        names, groups := names + [name], groups[name := []];
      }
      groups := groups[name := groups[name] + [sources[i]]];
    }
    assert sources[..|sources|] == sources;
  }

  method PopRound(sources: seq<Source>, names: seq<Engine>, groups: map<Engine, seq<Source>>, ordered: seq<Source>,
                  ghost k: nat)
    returns (rest: map<Engine, seq<Source>>, longer: seq<Source>)
    requires names == Engines(sources) && Distinct(names)
    requires forall name | name in names :: name in groups && groups[name] == Left(sources, name, k)
    ensures forall name | name in names :: name in rest && rest[name] == Left(sources, name, k + 1)
    ensures longer == ordered + Round(sources, names, k)
  {
    hide Of, Engines, Left, Turn;
    rest, longer := groups, ordered;
    for i := 0 to |names|
      invariant forall name | name in names :: name in rest
      invariant forall j | 0 <= j < |names| ::
                  rest[names[j]] == Left(sources, names[j], if j < i then k + 1 else k)
      invariant longer == ordered + Round(sources, names[..i], k)
    {
      assert names[..i + 1][..i] == names[..i];
      var group := rest[names[i]];
      assert group == Left(sources, names[i], k);
      LeftPops(sources, names[i], k);
      if group != [] {
        longer, rest := longer + [group[0]], rest[names[i] := group[1..]];
      }
    }
    assert names[..|names|] == names;
  }
}

/** Greedy packing of the ordered sources under a character budget. */
module SourcePacking {
  import opened RoundRobin

  /** One distinct reading with the observations that support it. */
  datatype Reading = Reading(text: string, observations: seq<Source>)

  /** Serialised sizes: of a reading with its first observation, and of one more observation. */
  datatype Sizes = Sizes(reading: Source -> nat, observation: Source -> nat)

  predicate Retained(sources: seq<Source>, text: string) {
    exists s :: s in sources && s.text == text
  }

  /** The sources kept by the decisions made so far. */
  function Kept(ordered: seq<Source>, kept: seq<bool>): (sources: seq<Source>)
    requires |kept| <= |ordered|
    ensures |sources| <= |kept|
  {
    if kept == [] then []
    else
      var n := |kept| - 1;
      Kept(ordered, kept[..n]) + if kept[n] then [ordered[n]] else []
  }

  /** What the next source costs: its observation alone when its text is already retained. */
  function Cost(before: seq<Source>, next: Source, sizes: Sizes): (cost: nat)
    ensures (exists s :: s in before && s.text == next.text) ==> cost == sizes.observation(next)
    ensures (forall s | s in before :: s.text != next.text) ==> cost == sizes.reading(next)
  {
    if Retained(before, next.text) then sizes.observation(next) else sizes.reading(next)
  }

  function Used(ordered: seq<Source>, kept: seq<bool>, sizes: Sizes): nat
    requires |kept| <= |ordered|
  {
    if kept == [] then 0
    else
      var n := |kept| - 1;
      Used(ordered, kept[..n], sizes) + if kept[n] then Cost(Kept(ordered, kept[..n]), ordered[n], sizes) else 0
  }

  /** A source is kept exactly when its cost still fits. */
  predicate IsGreedy(ordered: seq<Source>, kept: seq<bool>, budget: int, sizes: Sizes)
    requires |kept| <= |ordered|
  {
    forall n | 0 <= n < |kept| ::
      kept[n] <==> Used(ordered, kept[..n], sizes) + Cost(Kept(ordered, kept[..n]), ordered[n], sizes) <= budget
  }

  /** The budget fixes every decision. */
  lemma {:induction false} GreedyIsUnique(ordered: seq<Source>, a: seq<bool>, b: seq<bool>, budget: int, sizes: Sizes)
    requires |a| == |b| <= |ordered|
    requires IsGreedy(ordered, a, budget, sizes) && IsGreedy(ordered, b, budget, sizes)
    ensures a == b
  {
    hide Used, Cost, Kept;
    if a != [] {
      var n := |a| - 1;
      GreedyPrefix(ordered, a, n, budget, sizes);
      GreedyPrefix(ordered, b, n, budget, sizes);
      GreedyIsUnique(ordered, a[..n], b[..n], budget, sizes);
      assert a == a[..n] + [a[n]] && b == b[..n] + [b[n]];
    }
  }

  lemma GreedyPrefix(ordered: seq<Source>, kept: seq<bool>, n: nat, budget: int, sizes: Sizes)
    requires n <= |kept| <= |ordered| && IsGreedy(ordered, kept, budget, sizes)
    ensures IsGreedy(ordered, kept[..n], budget, sizes)
  {
    hide Used, Cost, Kept;
    forall i | 0 <= i < n
      ensures kept[..n][..i] == kept[..i]
    {
    }
  }

  /** The counted cost exceeds the budget only when the budget is negative, and then it is zero. */
  lemma {:induction false} UsedFits(ordered: seq<Source>, kept: seq<bool>, budget: int, sizes: Sizes)
    requires |kept| <= |ordered| && IsGreedy(ordered, kept, budget, sizes)
    ensures Used(ordered, kept, sizes) <= budget || Used(ordered, kept, sizes) == 0
    ensures Used(ordered, kept, sizes) <= budget <==> 0 <= budget
  {
    hide Cost, Kept, IsGreedy;
    if kept != [] {
      GreedyPrefix(ordered, kept, |kept| - 1, budget, sizes);
      UsedFits(ordered, kept[..|kept| - 1], budget, sizes);
      LastDecision(ordered, kept, budget, sizes);
    }
  }

  /** The cost of everything. */
  function FullCost(ordered: seq<Source>, sizes: Sizes): nat {
    if ordered == [] then 0
    else
      var n := |ordered| - 1;
      FullCost(ordered[..n], sizes) + Cost(ordered[..n], ordered[n], sizes)
  }

  lemma FullCostStep(ordered: seq<Source>, n: nat, sizes: Sizes)
    requires n < |ordered|
    ensures FullCost(ordered[..n + 1], sizes) == FullCost(ordered[..n], sizes) + Cost(ordered[..n], ordered[n], sizes)
  {
    assert ordered[..n + 1][..n] == ordered[..n];
  }

  /** As long as nothing is dropped, what is kept is what came, at full cost. */
  lemma {:induction false} AllKept(ordered: seq<Source>, kept: seq<bool>, sizes: Sizes)
    requires |kept| <= |ordered| && |Kept(ordered, kept)| == |kept|
    ensures Kept(ordered, kept) == ordered[..|kept|]
    ensures Used(ordered, kept, sizes) == FullCost(ordered[..|kept|], sizes)
  {
    hide Cost, FullCost;
    if kept == [] {
      NoCost(sizes);
    } else {
      var n := |kept| - 1;
      assert kept[n] && |Kept(ordered, kept[..n])| == n;
      AllKept(ordered, kept[..n], sizes);
      FullCostStep(ordered, n, sizes);
    }
  }

  lemma NoCost(sizes: Sizes)
    ensures FullCost([], sizes) == 0
  {
  }

  /** Nothing is dropped when everything fits. */
  lemma {:induction false} KeptWhenItFits(ordered: seq<Source>, kept: seq<bool>, budget: int, sizes: Sizes)
    requires |kept| <= |ordered| && IsGreedy(ordered, kept, budget, sizes)
    requires FullCost(ordered[..|kept|], sizes) <= budget
    ensures |Kept(ordered, kept)| == |kept|
  {
    hide Cost, FullCost, IsGreedy, Used;
    if kept != [] {
      var n := |kept| - 1;
      GreedyPrefix(ordered, kept, n, budget, sizes);
      FullCostStep(ordered, n, sizes);
      KeptWhenItFits(ordered, kept[..n], budget, sizes);
      AllKept(ordered, kept[..n], sizes);
      LastDecision(ordered, kept, budget, sizes);
    }
  }

  /** Nothing is dropped exactly when everything fits. */
  lemma {:induction false} AllKeptExactlyWhen(ordered: seq<Source>, kept: seq<bool>, budget: int, sizes: Sizes)
    requires |kept| <= |ordered| && IsGreedy(ordered, kept, budget, sizes)
    ensures |Kept(ordered, kept)| == |kept| <==> kept == [] || FullCost(ordered[..|kept|], sizes) <= budget
  {
    hide Cost, FullCost, IsGreedy, Used;
    if kept != [] {
      if |Kept(ordered, kept)| == |kept| {
        AllKept(ordered, kept, sizes);
        UsedStep(ordered, kept, sizes);
        LastDecision(ordered, kept, budget, sizes);
      }
      if FullCost(ordered[..|kept|], sizes) <= budget {
        KeptWhenItFits(ordered, kept, budget, sizes);
      }
    }
  }

  lemma UsedStep(ordered: seq<Source>, kept: seq<bool>, sizes: Sizes)
    requires 0 < |kept| <= |ordered|
    ensures var n := |kept| - 1;
            Used(ordered, kept, sizes)
            == Used(ordered, kept[..n], sizes)
              + if kept[n] then Cost(Kept(ordered, kept[..n]), ordered[n], sizes) else 0
  {
  }

  lemma LastDecision(ordered: seq<Source>, kept: seq<bool>, budget: int, sizes: Sizes)
    requires 0 < |kept| <= |ordered| && IsGreedy(ordered, kept, budget, sizes)
    ensures var n := |kept| - 1;
            kept[n] <==> Used(ordered, kept[..n], sizes) + Cost(Kept(ordered, kept[..n]), ordered[n], sizes) <= budget
  {
  }

  // The readings.

  function WithText(sources: seq<Source>, text: string): seq<Source> {
    if sources == [] then []
    else
      var last := sources[|sources| - 1];
      WithText(sources[..|sources| - 1], text) + if last.text == text then [last] else []
  }

  /** The distinct texts, in order of first appearance. */
  function Texts(sources: seq<Source>): seq<string> {
    if sources == [] then []
    else
      var before, last := Texts(sources[..|sources| - 1]), sources[|sources| - 1].text;
      if last in before then before else before + [last]
  }

  /** One reading per distinct text, with all its sources in order. */
  predicate Describes(readings: seq<Reading>, sources: seq<Source>) {
    && |readings| == |Texts(sources)|
    && forall i | 0 <= i < |readings| ::
         readings[i] == Reading(Texts(sources)[i], WithText(sources, Texts(sources)[i]))
  }

  lemma {:induction false} TextsAreDistinct(sources: seq<Source>)
    ensures forall i, j | 0 <= i < j < |Texts(sources)| :: Texts(sources)[i] != Texts(sources)[j]
    ensures forall text :: text in Texts(sources) <==> Retained(sources, text)
    ensures forall text :: text in Texts(sources) <==> WithText(sources, text) != []
  {
    if sources != [] {
      var before, last := sources[..|sources| - 1], sources[|sources| - 1];
      TextsAreDistinct(before);
      assert sources == before + [last];
      forall text
        ensures Retained(sources, text) <==> Retained(before, text) || text == last.text
      {
        if Retained(before, text) {
          var s :| s in before && s.text == text;
          assert s in sources;
        } else if text == last.text {
          assert last in sources;
        }
      }
    }
  }

  /** A source with a new text opens a reading; another one joins the reading of its text. */
  lemma OneMoreSource(readings: seq<Reading>, sources: seq<Source>, next: Source)
    requires Describes(readings, sources)
    ensures !Retained(sources, next.text)
            ==> Describes(readings + [Reading(next.text, [next])], sources + [next])
    ensures forall i | 0 <= i < |readings| && readings[i].text == next.text ::
              Describes(readings[i := Reading(next.text, readings[i].observations + [next])], sources + [next])
  {
    hide Retained;
    assert (sources + [next])[..|sources|] == sources;
    TextsAreDistinct(sources);
  }

  function Observations(readings: seq<Reading>): seq<Source> {
    if readings == [] then []
    else Observations(readings[..|readings| - 1]) + readings[|readings| - 1].observations
  }

  function ReadingsOf(sources: seq<Source>): (readings: seq<Reading>)
    ensures Describes(readings, sources)
  {
    seq(|Texts(sources)|, i requires 0 <= i < |Texts(sources)| =>
      Reading(Texts(sources)[i], WithText(sources, Texts(sources)[i])))
  }

  lemma LastObservations(readings: seq<Reading>)
    requires readings != []
    ensures multiset(Observations(readings))
         == multiset(Observations(readings[..|readings| - 1])) + multiset(readings[|readings| - 1].observations)
  {
  }

  lemma {:induction false} ObservationJoins(readings: seq<Reading>, i: nat, next: Source)
    requires i < |readings|
    ensures multiset(Observations(readings[i := readings[i].(observations := readings[i].observations + [next])]))
         == multiset(Observations(readings)) + multiset{next}
  {
    hide Observations;
    var n, joined := |readings| - 1, readings[i].(observations := readings[i].observations + [next]);
    LastObservations(readings);
    LastObservations(readings[i := joined]);
    if i == n {
      assert readings[i := joined][..n] == readings[..n];
    } else {
      ObservationJoins(readings[..n], i, next);
      assert readings[i := joined][..n] == readings[..n][i := joined];
    }
  }

  /** Every source is the observation of exactly one reading. */
  lemma {:induction false} ObservationsAreSources(readings: seq<Reading>, sources: seq<Source>)
    requires Describes(readings, sources)
    ensures multiset(Observations(readings)) == multiset(sources)
    ensures forall i, j | 0 <= i < j < |readings| :: readings[i].text != readings[j].text
    decreases |sources|
  {
    TextsAreDistinct(sources);
    if sources != [] {
      var before, next := sources[..|sources| - 1], sources[|sources| - 1];
      assert sources == before + [next];
      var earlier := ReadingsOf(before);
      ObservationsAreSources(earlier, before);
      OneMoreSource(earlier, before, next);
      TextsAreDistinct(before);
      hide Retained, WithText, Texts;
      if Retained(before, next.text) {
        var i :| 0 <= i < |earlier| && earlier[i].text == next.text;
        ObservationJoins(earlier, i, next);
        SameReadings(readings, earlier[i := Reading(next.text, earlier[i].observations + [next])], sources);
      } else {
        var longer := earlier + [Reading(next.text, [next])];
        assert longer[..|earlier|] == earlier;
        SameReadings(readings, longer, sources);
      }
    }
  }

  /** A reading's observations all read its text, and it has one at least. */
  lemma {:induction false} ReadingsShareText(readings: seq<Reading>, sources: seq<Source>)
    requires Describes(readings, sources)
    ensures forall i | 0 <= i < |readings| ::
              readings[i].observations != [] && forall s | s in readings[i].observations :: s.text == readings[i].text
  {
    TextsAreDistinct(sources);
    forall i | 0 <= i < |readings|
      ensures forall s | s in readings[i].observations :: s.text == readings[i].text
    {
      TextIsShared(sources, readings[i].text);
    }
  }

  lemma {:induction false} TextIsShared(sources: seq<Source>, text: string)
    ensures forall s | s in WithText(sources, text) :: s.text == text
  {
    if sources != [] {
      TextIsShared(sources[..|sources| - 1], text);
    }
  }

  lemma SameReadings(a: seq<Reading>, b: seq<Reading>, sources: seq<Source>)
    requires Describes(a, sources) && Describes(b, sources)
    ensures a == b
  {
  }

  lemma {:induction false} KeptAreSources(ordered: seq<Source>, kept: seq<bool>)
    requires |kept| <= |ordered|
    ensures multiset(Kept(ordered, kept)) <= multiset(ordered[..|kept|])
  {
    if kept == [] {
      assert Kept(ordered, kept) == [];
    } else {
      hide *;
      var n := |kept| - 1;
      KeptAreSources(ordered, kept[..n]);
      KeptAppend(ordered, kept[..n], kept[n]);
      assert kept == kept[..n] + [kept[n]];
      assert ordered[..|kept|] == ordered[..n] + [ordered[n]];
      KeepOneMore(Kept(ordered, kept[..n]), ordered[..n], ordered[n], kept[n]);
    }
  }

  lemma KeptAppend(ordered: seq<Source>, kept: seq<bool>, last: bool)
    requires |kept| < |ordered|
    ensures Kept(ordered, kept + [last]) == Kept(ordered, kept) + if last then [ordered[|kept|]] else []
  {
    assert (kept + [last])[..|kept|] == kept;
  }

  lemma KeepOneMore<T>(part: seq<T>, whole: seq<T>, t: T, keep: bool)
    requires multiset(part) <= multiset(whole)
    ensures multiset(part + if keep then [t] else []) <= multiset(whole + [t])
  {
    assert part + [] == part;
  }

  /** What packing promises about its result. */
  ghost predicate PackedBy(sources: seq<Source>, budget: int, sizes: Sizes, readings: seq<Reading>, included: nat,
                           used: nat, rounds: nat, kept: seq<bool>) {
    var ordered := Rounds(sources, rounds);
    && Exhausted(sources, rounds) && |kept| == |ordered|
    && IsGreedy(ordered, kept, budget, sizes)
    && Describes(readings, Kept(ordered, kept))
    && included == |Observations(readings)|
    && used == Used(ordered, kept, sizes)
  }

  /**
   No source is included twice, texts are distinct, the counted cost respects every budget that is not negative,
   and everything available is included exactly when the cost of everything fits.
   */
  lemma PackingIsSound(sources: seq<Source>, budget: int, sizes: Sizes, readings: seq<Reading>, included: nat,
                       used: nat, rounds: nat, kept: seq<bool>)
    requires PackedBy(sources, budget, sizes, readings, included, used, rounds, kept)
    ensures multiset(Observations(readings)) <= multiset(sources)
    ensures forall i, j | 0 <= i < j < |readings| :: readings[i].text != readings[j].text
    ensures forall i | 0 <= i < |readings| ::
              readings[i].observations != [] && forall s | s in readings[i].observations :: s.text == readings[i].text
    ensures used <= budget <==> 0 <= budget
    ensures included == |sources| <==> sources == [] || FullCost(Rounds(sources, rounds), sizes) <= budget
    ensures included == |sources| <==> multiset(Observations(readings)) == multiset(sources)
  {
    hide Exhausted, Describes, IsGreedy, Used, Kept, Rounds, Observations, FullCost;
    var ordered := Rounds(sources, rounds);
    OrderIsPermutation(sources, rounds);
    assert |multiset(ordered)| == |ordered| && |multiset(sources)| == |sources|;
    ObservationsAreSources(readings, Kept(ordered, kept));
    ReadingsShareText(readings, Kept(ordered, kept));
    assert |multiset(Observations(readings))| == |multiset(Kept(ordered, kept))|;
    assert ordered[..|kept|] == ordered;
    KeptAreSources(ordered, kept);
    UsedFits(ordered, kept, budget, sizes);
    AllKeptExactlyWhen(ordered, kept, budget, sizes);
    var shown := multiset(Observations(readings));
    assert multiset(sources) == shown + (multiset(sources) - shown);
  }

  /** The readings can be found by their text. */
  predicate IsIndex(seen: map<string, nat>, readings: seq<Reading>) {
    && (forall i | 0 <= i < |readings| :: readings[i].text in seen && seen[readings[i].text] == i)
    && (forall text | text in seen :: seen[text] < |readings| && readings[seen[text]].text == text)
  }

  lemma IndexFindsRetained(seen: map<string, nat>, readings: seq<Reading>, sources: seq<Source>, text: string)
    requires Describes(readings, sources) && IsIndex(seen, readings)
    ensures text in seen <==> Retained(sources, text)
  {
    hide Retained, WithText;
    TextsAreDistinct(sources);
    if text in Texts(sources) {
      var i :| 0 <= i < |Texts(sources)| && Texts(sources)[i] == text;
      assert readings[i].text == text;
    }
  }

  lemma {:induction false} OneMoreDecision(ordered: seq<Source>, kept: seq<bool>, budget: int, sizes: Sizes, fits: bool)
    requires |kept| < |ordered| && IsGreedy(ordered, kept, budget, sizes)
    requires fits <==> Used(ordered, kept, sizes) + Cost(Kept(ordered, kept), ordered[|kept|], sizes) <= budget
    ensures IsGreedy(ordered, kept + [fits], budget, sizes)
    ensures Kept(ordered, kept + [fits]) ==
            if fits then Kept(ordered, kept) + [ordered[|kept|]] else Kept(ordered, kept)
    ensures Used(ordered, kept + [fits], sizes)
         == Used(ordered, kept, sizes) + if fits then Cost(Kept(ordered, kept), ordered[|kept|], sizes) else 0
  {
    var more := kept + [fits];
    assert more[..|kept|] == kept;
    hide Used, Kept, Cost;
    forall n | 0 <= n < |kept|
      ensures more[..n] == kept[..n]
    {
    }
  }

  /** `pack_sources`: the readings and the coverage report. */
  method Pack(sources: seq<Source>, budget: int, sizes: Sizes)
    returns (readings: seq<Reading>, available: nat, included: nat, used: nat, ghost rounds: nat, ghost kept: seq<bool>)
    ensures available == |sources|
    ensures PackedBy(sources, budget, sizes, readings, included, used, rounds, kept)
  {
    hide Texts, WithText, Retained, Rounds, IsGreedy, Used, Kept, Observations, Exhausted, Describes, IsIndex;
    var ordered;
    ordered, rounds := Interleave(sources);
    readings, used, kept := [], 0, [];
    var seen: map<string, nat> := map[];
    NothingPacked(ordered, budget, sizes);
    for n := 0 to |ordered|
      invariant |kept| == n && IsGreedy(ordered, kept, budget, sizes)
      invariant Describes(readings, Kept(ordered, kept)) && IsIndex(seen, readings)
      invariant used == Used(ordered, kept, sizes)
    {
      var source := ordered[n];
      ghost var before := Kept(ordered, kept);
      IndexFindsRetained(seen, readings, before, source.text);
      var cost := if source.text in seen then sizes.observation(source) else sizes.reading(source);
      var fits := used + cost <= budget;
      OneMoreDecision(ordered, kept, budget, sizes, fits);
      if fits {
        readings, seen := Include(readings, seen, source, before);
        used := used + cost;
      }
      kept := kept + [fits];
    }
    available, included := |sources|, 0;
    for i := 0 to |readings|
      invariant included == |Observations(readings[..i])|
    {
      ObservationsOfPrefix(readings, i);
      included := included + |readings[i].observations|;
    }
    assert readings[..|readings|] == readings;
  }

  lemma NothingPacked(ordered: seq<Source>, budget: int, sizes: Sizes)
    ensures IsGreedy(ordered, [], budget, sizes) && Used(ordered, [], sizes) == 0
    ensures Describes([], Kept(ordered, [])) && IsIndex(map[], [])
    ensures Observations([]) == []
  {
  }

  lemma ObservationsOfPrefix(readings: seq<Reading>, i: nat)
    requires i < |readings|
    ensures Observations(readings[..i + 1]) == Observations(readings[..i]) + readings[i].observations
  {
    assert readings[..i + 1][..i] == readings[..i];
  }

  /** Appends the observation to the reading of its text, or opens a new reading. */
  method Include(readings: seq<Reading>, seen: map<string, nat>, source: Source, ghost before: seq<Source>)
    returns (readings': seq<Reading>, seen': map<string, nat>)
    requires Describes(readings, before) && IsIndex(seen, readings)
    ensures Describes(readings', before + [source]) && IsIndex(seen', readings')
  {
    hide Describes, Texts, WithText, Retained;
    OneMoreSource(readings, before, source);
    IndexFindsRetained(seen, readings, before, source.text);
    readings', seen' := readings, seen;
    if source.text in seen {
      var i := seen[source.text];
      readings' := readings[i := Reading(source.text, readings[i].observations + [source])];
    } else {
      seen' := seen[source.text := |readings|];
      readings' := readings + [Reading(source.text, [source])];
    }
  }
}
