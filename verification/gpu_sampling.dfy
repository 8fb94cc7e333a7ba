/** GPU activity during one request: every sample speaks for at most one interval, and gaps stay unobserved. */
module GpuSampling {
  import opened Options

  /** A utilisation reading at an offset from the start. */
  datatype Sample = Sample(offset: real, percent: real)

  predicate InOrder(samples: seq<Sample>) {
    && (forall i | 0 <= i < |samples| :: samples[i].offset >= 0.0)
    && (forall i, j | 0 <= i < j < |samples| :: samples[i].offset <= samples[j].offset)
  }

  function Min(a: real, b: real): real {
    if a < b then a else b
  }

  function Max(a: real, b: real): real {
    if a < b then b else a
  }

  /** For how long the first sample is taken to be valid. */
  function Weight(samples: seq<Sample>, elapsed: real, interval: real): real
    requires samples != []
  {
    Max(0.0, Min(interval, Min(elapsed - samples[0].offset,
                               if |samples| > 1 then samples[1].offset - samples[0].offset else interval)))
  }

  function Covered(samples: seq<Sample>, elapsed: real, interval: real): real {
    if samples == [] then 0.0 else Weight(samples, elapsed, interval) + Covered(samples[1..], elapsed, interval)
  }

  function Active(samples: seq<Sample>, elapsed: real, interval: real): real {
    if samples == [] then 0.0
    else (if samples[0].percent > 0.0 then Weight(samples, elapsed, interval) else 0.0)
         + Active(samples[1..], elapsed, interval)
  }

  function Work(samples: seq<Sample>, elapsed: real, interval: real): real {
    if samples == [] then 0.0
    else Weight(samples, elapsed, interval) * samples[0].percent + Work(samples[1..], elapsed, interval)
  }

  lemma WeightBounds(samples: seq<Sample>, elapsed: real, interval: real)
    requires samples != [] && InOrder(samples) && interval >= 0.0
    ensures 0.0 <= Weight(samples, elapsed, interval) <= interval
    ensures Weight(samples, elapsed, interval) <= Max(0.0, elapsed - samples[0].offset)
    ensures |samples| > 1 ==> Weight(samples, elapsed, interval) <= samples[1].offset - samples[0].offset
  {
  }

  lemma {:induction false} CoveredSpan(samples: seq<Sample>, elapsed: real, interval: real)
    requires samples != [] && InOrder(samples) && interval >= 0.0
    ensures 0.0 <= Covered(samples, elapsed, interval) <= Max(0.0, elapsed - samples[0].offset)
  {
    hide Weight;
    WeightBounds(samples, elapsed, interval);
    if |samples| > 1 {
      CoveredSpan(samples[1..], elapsed, interval);
    }
  }

  lemma {:induction false} CoveredCount(samples: seq<Sample>, elapsed: real, interval: real)
    requires InOrder(samples) && interval >= 0.0
    ensures 0.0 <= Active(samples, elapsed, interval) <= Covered(samples, elapsed, interval)
    ensures Covered(samples, elapsed, interval) <= |samples| as real * interval
  {
    hide Weight;
    if samples != [] {
      WeightBounds(samples, elapsed, interval);
      CoveredCount(samples[1..], elapsed, interval);
      Distributed(interval, 1.0, |samples[1..]| as real);
    }
  }

  /**
   Sampled time fits the request, even when a sample lands after its end, and one interval per sample; active time
   fits sampled time.
   */
  lemma {:induction false} CoverageIsBounded(samples: seq<Sample>, elapsed: real, interval: real)
    requires InOrder(samples) && interval >= 0.0 && elapsed >= 0.0
    ensures 0.0 <= Covered(samples, elapsed, interval) <= elapsed
    ensures Covered(samples, elapsed, interval) <= |samples| as real * interval
    ensures 0.0 <= Active(samples, elapsed, interval) <= Covered(samples, elapsed, interval)
  {
    CoveredCount(samples, elapsed, interval);
    if samples != [] {
      CoveredSpan(samples, elapsed, interval);
    }
  }

  lemma FullWeight(samples: seq<Sample>, elapsed: real, interval: real)
    requires samples != [] && interval >= 0.0 && samples[0].offset + interval <= elapsed
    requires |samples| > 1 ==> samples[1].offset - samples[0].offset >= interval
    ensures Weight(samples, elapsed, interval) == interval
  {
  }

  /** Samples that come at least once an interval, up to the end, cover the request from the first of them on. */
  lemma {:induction false} DenseSamplesCover(samples: seq<Sample>, elapsed: real, interval: real)
    requires samples != [] && InOrder(samples) && interval >= 0.0
    requires forall i, j | 0 <= i && j == i + 1 < |samples| :: samples[j].offset - samples[i].offset <= interval
    requires samples[|samples| - 1].offset <= elapsed <= samples[|samples| - 1].offset + interval
    ensures Covered(samples, elapsed, interval) == elapsed - samples[0].offset
  {
    if |samples| == 1 {
      assert samples[1..] == [];
    } else {
      assert samples[1].offset <= samples[|samples| - 1].offset;
      DenseSamplesCover(samples[1..], elapsed, interval);
    }
  }

  /** Samples that lie at least an interval apart, and before the end, cover one interval each. */
  lemma {:induction false} SparseSamplesCover(samples: seq<Sample>, elapsed: real, interval: real)
    requires InOrder(samples) && interval >= 0.0
    requires forall i, j | 0 <= i && j == i + 1 < |samples| :: samples[j].offset - samples[i].offset >= interval
    requires samples != [] ==> samples[|samples| - 1].offset + interval <= elapsed
    ensures Covered(samples, elapsed, interval) == |samples| as real * interval
  {
    hide Covered, Weight;
    if samples == [] {
      NoWork(elapsed, interval);
    } else {
      FirstSample(samples, elapsed, interval);
      assert samples[0].offset <= samples[|samples| - 1].offset;
      FullWeight(samples, elapsed, interval);
      SparseSamplesCover(samples[1..], elapsed, interval);
      var n := |samples[1..]| as real;
      assert |samples| as real == n + 1.0;
      Distributed(interval, n, 1.0);
    }
  }

  lemma Distributed(x: real, a: real, b: real)
    ensures x * (a + b) == x * a + x * b
  {
  }

  lemma FirstSample(samples: seq<Sample>, elapsed: real, interval: real)
    requires samples != []
    ensures Covered(samples, elapsed, interval) ==
            Weight(samples, elapsed, interval) + Covered(samples[1..], elapsed, interval)
    ensures Work(samples, elapsed, interval)
         == Weight(samples, elapsed, interval) * samples[0].percent + Work(samples[1..], elapsed, interval)
  {
  }

  lemma NoWork(elapsed: real, interval: real)
    ensures Covered([], elapsed, interval) == 0.0 && Work([], elapsed, interval) == 0.0
  {
  }

  /** The weighted sum is at least any lower bound of the readings, times the covered time. */
  lemma {:induction false} WorkIsAtLeast(samples: seq<Sample>, elapsed: real, interval: real, low: real)
    requires InOrder(samples) && interval >= 0.0 && forall s | s in samples :: low <= s.percent
    ensures low * Covered(samples, elapsed, interval) <= Work(samples, elapsed, interval)
  {
    hide Weight, Covered, Work;
    if samples == [] {
      NoWork(elapsed, interval);
    } else {
      WeightBounds(samples, elapsed, interval);
      FirstSample(samples, elapsed, interval);
      WorkIsAtLeast(samples[1..], elapsed, interval, low);
      OneMoreWeight(Weight(samples, elapsed, interval), low, samples[0].percent,
                    Covered(samples[1..], elapsed, interval), Work(samples[1..], elapsed, interval));
    }
  }

  lemma {:induction false} WorkIsAtMost(samples: seq<Sample>, elapsed: real, interval: real, high: real)
    requires InOrder(samples) && interval >= 0.0 && forall s | s in samples :: s.percent <= high
    ensures Work(samples, elapsed, interval) <= high * Covered(samples, elapsed, interval)
  {
    hide Weight, Covered, Work;
    if samples == [] {
      NoWork(elapsed, interval);
    } else {
      WeightBounds(samples, elapsed, interval);
      FirstSample(samples, elapsed, interval);
      WorkIsAtMost(samples[1..], elapsed, interval, high);
      OneLessWeight(Weight(samples, elapsed, interval), high, samples[0].percent,
                    Covered(samples[1..], elapsed, interval), Work(samples[1..], elapsed, interval));
    }
  }

  lemma OneMoreWeight(w: real, low: real, p: real, rest: real, work: real)
    requires w >= 0.0 && low <= p && low * rest <= work
    ensures low * (w + rest) <= w * p + work
  {
    Distributed(w, p - low, low);
    assert w * (p - low) >= 0.0;
  }

  lemma OneLessWeight(w: real, high: real, p: real, rest: real, work: real)
    requires w >= 0.0 && p <= high && work <= high * rest
    ensures w * p + work <= high * (w + rest)
  {
    Distributed(w, high - p, p);
    assert w * (high - p) >= 0.0;
  }

  datatype Summary = Summary(count: nat, errors: nat, sampled: real, average: Option<real>, maximum: Option<real>,
                             active: Option<real>)

  class Sampler {
    const interval: real
    var samples: seq<Sample>
    var errors: nat
    var elapsed: real

    predicate Valid()
      reads this
    {
      interval >= 0.2 && InOrder(samples) && elapsed >= 0.0
    }

    constructor (configured: real)
      ensures Valid() && samples == [] && errors == 0 && elapsed == 0.0 && interval == Max(0.2, configured)
    {
      interval, samples, errors, elapsed := Max(0.2, configured), [], 0, 0.0;
    }

    /** One poll: a reading, or an error that leaves the interval unobserved. */
    method Poll(offset: real, percent: Option<real>)
      requires Valid() && offset >= 0.0 && forall s | s in samples :: s.offset <= offset
      modifies this`samples, this`errors
      ensures Valid()
      ensures samples == old(samples) + if percent.Some? then [Sample(offset, percent.value)] else []
      ensures errors == old(errors) + if percent.Some? then 0 else 1
    {
      if percent.Some? {
        samples := samples + [Sample(offset, percent.value)];
      } else {
        errors := errors + 1;
      }
    }

    method Stop(time: real)
      requires Valid() && time >= 0.0
      modifies this`elapsed
      ensures Valid() && elapsed == time
    {
      elapsed := time;
    }

    /**
     `summary`: sampled time never exceeds the request or one interval per sample, active time never exceeds
     sampled time, and the average lies between any bounds of the readings.
     */
    method Summarize() returns (s: Summary)
      requires Valid()
      ensures s.count == |samples| && s.errors == errors
      ensures s.sampled == Covered(samples, elapsed, interval)
      ensures 0.0 <= s.sampled <= elapsed && s.sampled <= |samples| as real * interval
      ensures (s.average.Some? <==> s.sampled != 0.0) && (s.active.Some? <==> s.sampled != 0.0)
      ensures s.active.Some? ==>
                s.active.value == Active(samples, elapsed, interval) && 0.0 <= s.active.value <= s.sampled
      ensures s.average.Some? ==> s.average.value * s.sampled == Work(samples, elapsed, interval)
      ensures forall low, high | s.average.Some? && IsBound(low, high) :: low <= s.average.value <= high
      ensures s.maximum == None <==> samples == []
      ensures s.maximum.Some? ==> (exists x :: x in samples && x.percent == s.maximum.value)
                                  && forall x | x in samples :: x.percent <= s.maximum.value
    {
      hide InOrder, Work, Covered, Active;
      CoverageIsBounded(samples, elapsed, interval);
      var covered, work := Covered(samples, elapsed, interval), Work(samples, elapsed, interval);
      var maximum := MaximumPercent(samples);
      if covered == 0.0 {
        return Summary(|samples|, errors, covered, None, maximum, None);
      }
      var average := work / covered;
      forall low, high | IsBound(low, high)
        ensures low <= average <= high
      {
        AverageIsBetween(samples, elapsed, interval, low, high);
      }
      s := Summary(|samples|, errors, covered, Some(average), maximum, Some(Active(samples, elapsed, interval)));
    }

    predicate IsBound(low: real, high: real)
      reads this
    {
      forall s | s in samples :: low <= s.percent <= high
    }
  }

  datatype Attempt = Attempt(offset: real, percent: Option<real>)

  /** The attempts that gave a reading. */
  function Readings(attempts: seq<Attempt>): seq<Sample> {
    if attempts == [] then []
    else
      var last := attempts[|attempts| - 1];
      Readings(attempts[..|attempts| - 1])
      + if last.percent.Some? then [Sample(last.offset, last.percent.value)] else []
  }

  predicate AttemptsInOrder(attempts: seq<Attempt>) {
    && (forall i | 0 <= i < |attempts| :: attempts[i].offset >= 0.0)
    && (forall i, j | 0 <= i < j < |attempts| :: attempts[i].offset <= attempts[j].offset)
  }

  lemma NoReadings()
    ensures Readings([]) == []
  {
  }

  lemma {:induction false} ReadingsBefore(attempts: seq<Attempt>, before: seq<Attempt>, offset: real, i: nat)
    requires AttemptsInOrder(attempts) && i < |attempts| && offset == attempts[i].offset
    requires |before| <= i && before == attempts[..|before|]
    ensures offset >= 0.0 && forall x | x in Readings(before) :: x.offset <= offset
    ensures before == attempts[..i] ==>
              Readings(attempts[..i + 1]) ==
              Readings(before) + if attempts[i].percent.Some? then [Sample(offset, attempts[i].percent.value)] else []
  {
    if before != [] {
      ReadingsBefore(attempts, before[..|before| - 1], offset, i);
    }
    assert attempts[..i + 1][..i] == attempts[..i];
  }

  /** A whole request: every attempt is a sample or an error, and attempts that fail leave their time unobserved. */
  method Measure(configured: real, attempts: seq<Attempt>, time: real) returns (s: Summary)
    requires AttemptsInOrder(attempts) && time >= 0.0
    ensures s.count == |Readings(attempts)| && s.count + s.errors == |attempts|
    ensures s.sampled == Covered(Readings(attempts), time, Max(0.2, configured))
    ensures 0.0 <= s.sampled <= time && s.sampled <= s.count as real * Max(0.2, configured)
    ensures (s.average.Some? <==> s.sampled != 0.0) && (s.active.Some? <==> s.sampled != 0.0)
    ensures s.average.Some? ==> s.average.value * s.sampled == Work(Readings(attempts), time, Max(0.2, configured))
    ensures s.active.Some? ==>
              && s.active.value == Active(Readings(attempts), time, Max(0.2, configured))
              && 0.0 <= s.active.value <= s.sampled
    ensures s.maximum == None <==> Readings(attempts) == []
    ensures s.maximum.Some? ==> (exists x :: x in Readings(attempts) && x.percent == s.maximum.value)
                                && forall x | x in Readings(attempts) :: x.percent <= s.maximum.value
  {
    hide Covered, InOrder, Active, Work, AttemptsInOrder, Readings, Max;
    NoReadings();
    var sampler := new Sampler(configured);
    assert attempts[..0] == [];
    for i := 0 to |attempts|
      invariant sampler.Valid() && fresh(sampler) && sampler.interval == Max(0.2, configured)
      invariant sampler.samples == Readings(attempts[..i]) && |sampler.samples| + sampler.errors == i
    {
      ReadingsBefore(attempts, attempts[..i], attempts[i].offset, i);
      sampler.Poll(attempts[i].offset, attempts[i].percent);
    }
    assert attempts[..|attempts|] == attempts;
    sampler.Stop(time);
    s := sampler.Summarize();
  }

  lemma {:induction false} AverageIsBetween(samples: seq<Sample>, elapsed: real, interval: real, low: real, high: real)
    requires InOrder(samples) && interval >= 0.0 && Covered(samples, elapsed, interval) > 0.0
    requires forall s | s in samples :: low <= s.percent <= high
    ensures low <= Work(samples, elapsed, interval) / Covered(samples, elapsed, interval) <= high
  {
    hide Work, Covered;
    WorkIsAtLeast(samples, elapsed, interval, low);
    WorkIsAtMost(samples, elapsed, interval, high);
    Quotient(low, Work(samples, elapsed, interval), Covered(samples, elapsed, interval), high);
  }

  lemma Quotient(low: real, total: real, weight: real, high: real)
    requires weight > 0.0 && low * weight <= total <= high * weight
    ensures low <= total / weight <= high
  {
    var q := total / weight;
    assert q * weight == total;
    if q < low { Less(q, low, weight); }
    if high < q { Less(high, q, weight); }
  }

  lemma Less(a: real, b: real, weight: real)
    requires weight > 0.0 && a < b
    ensures a * weight < b * weight
  {
    var d := b - a;
    Distributed(weight, a, d);
    assert b == a + d;
    assert weight * d > 0.0;
    assert weight * b == weight * a + weight * d;
  }

  method MaximumPercent(samples: seq<Sample>) returns (maximum: Option<real>)
    ensures maximum == None <==> samples == []
    ensures maximum.Some? ==> (exists x :: x in samples && x.percent == maximum.value)
                              && forall x | x in samples :: x.percent <= maximum.value
  {
    maximum := None;
    for i := 0 to |samples|
      invariant maximum == None <==> i == 0
      invariant maximum.Some? ==> (exists x :: x in samples && x.percent == maximum.value)
                                  && forall j | 0 <= j < i :: samples[j].percent <= maximum.value
    {
      if maximum == None || samples[i].percent > maximum.value {
        maximum := Some(samples[i].percent);
        assert samples[i] in samples;
      }
    }
  }
}
