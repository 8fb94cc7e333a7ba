/** Heartbeats and statuses read from worker logs, in time order. */
module WorkerLogs {
  import opened Options

  /** Which worker host works on which receipt. */
  datatype Place = Place(host: string, reference: string)

  /**
   A log record, as far as it could be read: the request and status it names, the place it reports from (only
   for records that carry status, host and reference), and the place of a processing heartbeat.
   */
  datatype Record = Record(when: real, request: Option<string>, status: Option<string>, place: Option<Place>,
                           heartbeat: Option<Place>)

  datatype Observation = Observation(when: real, request: string, status: string)

  // The records are sorted by time; records of one time keep their order.

  function Inserted(r: Record, sorted: seq<Record>): seq<Record> {
    if sorted == [] then [r]
    else if sorted[|sorted| - 1].when <= r.when then sorted + [r]
    else Inserted(r, sorted[..|sorted| - 1]) + [sorted[|sorted| - 1]]
  }

  function Sorted(records: seq<Record>): seq<Record> {
    if records == [] then [] else Inserted(records[|records| - 1], Sorted(records[..|records| - 1]))
  }

  function At(records: seq<Record>, when: real): seq<Record> {
    if records == [] then []
    else
      var last := records[|records| - 1];
      At(records[..|records| - 1], when) + if last.when == when then [last] else []
  }

  predicate InOrder(records: seq<Record>) {
    forall i, j | 0 <= i < j < |records| :: records[i].when <= records[j].when
  }

  lemma {:induction false} InsertedRecords(r: Record, sorted: seq<Record>)
    ensures multiset(Inserted(r, sorted)) == multiset(sorted) + multiset{r}
  {
    if sorted != [] && sorted[|sorted| - 1].when > r.when {
      InsertedRecords(r, sorted[..|sorted| - 1]);
      assert sorted == sorted[..|sorted| - 1] + [sorted[|sorted| - 1]];
    }
  }

  lemma {:induction false} InsertedInOrder(r: Record, sorted: seq<Record>)
    requires InOrder(sorted)
    ensures InOrder(Inserted(r, sorted))
    ensures forall x | x in Inserted(r, sorted) :: x == r || x in sorted
  {
    if sorted != [] && sorted[|sorted| - 1].when > r.when {
      var before, last := sorted[..|sorted| - 1], sorted[|sorted| - 1];
      InsertedInOrder(r, before);
      LastInOrder(Inserted(r, before), last);
    }
  }

  lemma LastInOrder(records: seq<Record>, last: Record)
    requires InOrder(records) && forall x | x in records :: x.when <= last.when
    ensures InOrder(records + [last])
  {
  }

  lemma {:induction false} InsertedIsStable(r: Record, sorted: seq<Record>, when: real)
    ensures At(Inserted(r, sorted), when) == At(sorted, when) + if r.when == when then [r] else []
  {
    if sorted == [] {
      assert [] + [r] == [r];
    } else {
      var before, last := sorted[..|sorted| - 1], sorted[|sorted| - 1];
      hide At;
      assert sorted == before + [last];
      if last.when > r.when {
        InsertedIsStable(r, before, when);
      }
    }
  }

  /** Sorting is a stable permutation into time order. */
  lemma {:induction false} SortedIsStable(records: seq<Record>, when: real)
    ensures InOrder(Sorted(records)) && multiset(Sorted(records)) == multiset(records)
    ensures At(Sorted(records), when) == At(records, when)
  {
    if records != [] {
      var before, last := records[..|records| - 1], records[|records| - 1];
      assert records == before + [last];
      SortedIsStable(before, when);
      InsertedInOrder(last, Sorted(before));
      InsertedRecords(last, Sorted(before));
      InsertedIsStable(last, Sorted(before), when);
    }
  }

  /** The request that was last marked active at a place, unless a later record from there says otherwise. */
  function ActiveAt(records: seq<Record>, place: Place, known: set<string>): Option<string> {
    if records == [] then None
    else
      var last := records[|records| - 1];
      if last.place == Some(place) then
        if last.status == Some("active") && last.request.Some? && last.request.value in known
        then last.request
        else None
      else ActiveAt(records[..|records| - 1], place, known)
  }

  /**
   What the last of the records shows: a status it names itself, or a heartbeat of the request active at its place.
   */
  function Shown(records: seq<Record>, known: set<string>): seq<Observation>
    requires records != []
  {
    var last := records[|records| - 1];
    if last.request.Some? && last.status.Some? && last.request.value in known then
      [Observation(last.when, last.request.value, last.status.value)]
    else if last.heartbeat.Some? then
      var active := ActiveAt(records, last.heartbeat.value, known);
      if active.Some? then [Observation(last.when, active.value, "heartbeat")] else []
    else []
  }

  function Observed(records: seq<Record>, known: set<string>): seq<Observation> {
    if records == [] then [] else Observed(records[..|records| - 1], known) + Shown(records, known)
  }

  /** `worker_observations`, keeping one table of active requests. */
  method WorkerObservations(records: seq<Record>, known: set<string>) returns (observations: seq<Observation>)
    ensures observations == Observed(Sorted(records), known)
  {
    var sorted := Sorted(records);
    var active: map<Place, string> := map[];
    observations := [];
    for i := 0 to |sorted|
      invariant observations == Observed(sorted[..i], known)
      invariant forall place: Place ::
                  ActiveAt(sorted[..i], place, known) == if place in active then Some(active[place]) else None
    {
      var r := sorted[i];
      assert sorted[..i + 1][..i] == sorted[..i];
      if r.place.Some? {
        if r.status == Some("active") && r.request.Some? && r.request.value in known {
          active := active[r.place.value := r.request.value];
        } else {
          active := active - {r.place.value};
        }
      }
      if r.request.Some? && r.status.Some? && r.request.value in known {
        observations := observations + [Observation(r.when, r.request.value, r.status.value)];
      } else if r.heartbeat.Some? {
        if r.heartbeat.value in active {
          observations := observations + [Observation(r.when, active[r.heartbeat.value], "heartbeat")];
        }
      }
    }
    assert sorted[..|sorted|] == sorted;
  }

  predicate ObservationsInOrder(observations: seq<Observation>) {
    forall i, j | 0 <= i < j < |observations| :: observations[i].when <= observations[j].when
  }

  /**
   Observations are in time order and only about known requests.  A heartbeat is credited to a request that an
   earlier or equal record marked active at the very place that reports it, with no other status from there since.
   */
  lemma {:induction false} ObservationsAreCredited(records: seq<Record>, known: set<string>)
    requires InOrder(records)
    ensures ObservationsInOrder(Observed(records, known))
    ensures forall o | o in Observed(records, known) :: o.request in known && Credited(records, o)
  {
    if records != [] {
      var before, last := records[..|records| - 1], records[|records| - 1];
      ObservationsAreCredited(before, known);
      forall o | o in Observed(before, known)
        ensures Credited(records, o) && o.when <= last.when
      {
        CreditedLater(records, o);
      }
      forall o | o in Shown(records, known)
        ensures o.request in known && Credited(records, o) && o.when == last.when
      {
        if !(last.request.Some? && last.status.Some? && last.request.value in known) {
          var j := ActiveWasMarked(records, last.heartbeat.value, known);
        }
        assert ShownBy(records, |records| - 1, o);
      }
    }
  }

  /** The record that shows the observation, and for a heartbeat the record that marked its request active. */
  predicate Credited(records: seq<Record>, o: Observation) {
    exists i | 0 <= i < |records| :: records[i].when == o.when && ShownBy(records, i, o)
  }

  predicate ShownBy(records: seq<Record>, i: nat, o: Observation)
    requires i < |records|
  {
    || (records[i].request == Some(o.request) && records[i].status == Some(o.status))
    || (records[i].heartbeat.Some? && o.status == "heartbeat"
        && exists j | 0 <= j <= i :: MarksLast(records, j, i, records[i].heartbeat.value, o.request))
  }

  /** Record `j` marked the request active at the place, and none up to `i` reported from there since. */
  predicate MarksLast(records: seq<Record>, j: nat, i: nat, place: Place, request: string)
    requires j <= i < |records|
  {
    && records[j].place == Some(place) && records[j].status == Some("active") && records[j].request == Some(request)
    && forall l | j < l <= i :: records[l].place != Some(place)
  }

  lemma {:induction false} ActiveWasMarked(records: seq<Record>, place: Place, known: set<string>) returns (j: nat)
    requires records != [] && ActiveAt(records, place, known).Some?
    ensures ActiveAt(records, place, known).value in known && j < |records|
    ensures MarksLast(records, j, |records| - 1, place, ActiveAt(records, place, known).value)
  {
    var n := |records| - 1;
    var request := ActiveAt(records, place, known).value;
    if records[n].place == Some(place) {
      j := n;
    } else {
      j := ActiveWasMarked(records[..n], place, known);
      assert MarksLast(records[..n], j, n - 1, place, request);
    }
  }

  /**
   Nothing is missed: a record that names a known request and a status shows it, and any other heartbeat is credited
   to the request that was last marked active at its place.
   */
  lemma {:induction false} NothingIsMissed(records: seq<Record>, known: set<string>, i: nat)
    requires i < |records|
    ensures var r := records[i];
            r.request.Some? && r.status.Some? && r.request.value in known ==>
              Observation(r.when, r.request.value, r.status.value) in Observed(records, known)
    ensures var r := records[i];
            !(r.request.Some? && r.status.Some? && r.request.value in known) && r.heartbeat.Some? ==>
              forall j, request | 0 <= j <= i && request in known
                                  && MarksLast(records, j, i, r.heartbeat.value, request) ::
                Observation(r.when, request, "heartbeat") in Observed(records, known)
    ensures |Observed(records, known)| <= |records|
  {
    var n := |records| - 1;
    if i < n {
      NothingIsMissed(records[..n], known, i);
      forall j, request, place | 0 <= j <= i && MarksLast(records, j, i, place, request)
        ensures MarksLast(records[..n], j, i, place, request)
      {
      }
    } else {
      if n > 0 {
        NothingIsMissed(records[..n], known, n - 1);
      }
      forall j, request, place | 0 <= j <= i && request in known && MarksLast(records, j, i, place, request)
        ensures ActiveAt(records, place, known) == Some(request)
      {
        MarkedIsActive(records, known, j, place, request);
      }
    }
  }

  lemma {:induction false} MarkedIsActive(records: seq<Record>, known: set<string>, j: nat, place: Place,
                                          request: string)
    requires j < |records| && request in known && MarksLast(records, j, |records| - 1, place, request)
    ensures ActiveAt(records, place, known) == Some(request)
  {
    var n := |records| - 1;
    if j < n {
      assert records[n].place != Some(place);
      assert MarksLast(records[..n], j, n - 1, place, request);
      MarkedIsActive(records[..n], known, j, place, request);
    }
  }

  lemma CreditedLater(records: seq<Record>, o: Observation)
    requires records != [] && InOrder(records) && Credited(records[..|records| - 1], o)
    ensures Credited(records, o) && o.when <= records[|records| - 1].when
  {
    var n := |records| - 1;
    var before := records[..n];
    var i :| 0 <= i < n && before[i].when == o.when && ShownBy(before, i, o);
    if !(before[i].request == Some(o.request) && before[i].status == Some(o.status)) {
      var j :| 0 <= j <= i && MarksLast(before, j, i, before[i].heartbeat.value, o.request);
      assert MarksLast(records, j, i, records[i].heartbeat.value, o.request);
    }
    assert ShownBy(records, i, o);
  }
}

/** The batch progress report: every request is counted once, and completion is claimed only on durable evidence. */
module Progress {
  import opened FiniteSets
  import opened Options
  import opened WorkerLogs

  datatype Row = Row(status: string, when: real)

  datatype Bucket = Completed | Failed | Running | Waiting | Unknown

  const SUCCESS := {"cache_results_published", "cache_results_republished", "results_published",
                    "review_results_published", "persisted"}

  function BucketOf(row: Row, now: real): Bucket {
    if row.status in SUCCESS then Completed
    else if row.status == "failed" then Failed
    else if row.status in {"active", "heartbeat"} then if now - row.when <= 90.0 then Running else Unknown
    else if row.status in {"queued", "retried"} then Waiting
    else Unknown
  }

  /** Only publication and durable evidence count as completed, and a worker only runs while it is heard of. */
  lemma BucketsAreExact(row: Row, now: real)
    ensures BucketOf(row, now) == Completed <==>
            || row.status == "cache_results_published" || row.status == "cache_results_republished"
            || row.status == "results_published" || row.status == "review_results_published"
            || row.status == "persisted"
    ensures BucketOf(row, now) == Failed <==> row.status == "failed"
    ensures BucketOf(row, now) == Waiting <==> row.status == "queued" || row.status == "retried"
    ensures BucketOf(row, now) == Running <==>
            (row.status == "active" || row.status == "heartbeat") && now - row.when <= 90.0
    ensures forall later | now <= later ::
              BucketOf(row, later) == BucketOf(row, now)
              || (BucketOf(row, now) == Running && BucketOf(row, later) == Unknown)
  {
  }

  function In(rows: map<string, Row>, now: real, bucket: Bucket): set<string> {
    set id | id in rows && BucketOf(rows[id], now) == bucket
  }

  datatype Counts = Counts(total: nat, waiting: nat, running: nat, completed: nat, failed: nat, unknown: nat)

  predicate AreCounts(c: Counts, rows: map<string, Row>, now: real) {
    && c.total == |rows|
    && c.waiting == |In(rows, now, Waiting)| && c.running == |In(rows, now, Running)|
    && c.completed == |In(rows, now, Completed)| && c.failed == |In(rows, now, Failed)|
    && c.unknown == |In(rows, now, Unknown)|
  }

  lemma BucketsCover(rows: map<string, Row>, now: real)
    ensures rows.Keys == In(rows, now, Waiting) + In(rows, now, Running) + In(rows, now, Completed)
                         + In(rows, now, Failed) + In(rows, now, Unknown)
  {
    hide BucketOf;
    forall id | id in rows
      ensures id in In(rows, now, Waiting) + In(rows, now, Running) + In(rows, now, Completed)
                    + In(rows, now, Failed) + In(rows, now, Unknown)
    {
      match BucketOf(rows[id], now)
      case Waiting =>
      case Running =>
      case Completed =>
      case Failed =>
      case Unknown =>
    }
  }

  /** Every request is in exactly one bucket. */
  lemma BucketsPartition(rows: map<string, Row>, now: real)
    ensures |In(rows, now, Waiting)| + |In(rows, now, Running)| + |In(rows, now, Completed)|
            + |In(rows, now, Failed)| + |In(rows, now, Unknown)| == |rows|
  {
    BucketsCover(rows, now);
    forall a: Bucket, b: Bucket | a != b
      ensures In(rows, now, a) !! In(rows, now, b)
    {
    }
    hide In;
    var a, b, c := In(rows, now, Waiting), In(rows, now, Running), In(rows, now, Completed);
    var d, e := In(rows, now, Failed), In(rows, now, Unknown);
    assert |rows.Keys| == |rows|;
  }

  function Counted(c: Counts, bucket: Bucket): Counts {
    match bucket
    case Waiting => c.(waiting := c.waiting + 1)
    case Running => c.(running := c.running + 1)
    case Completed => c.(completed := c.completed + 1)
    case Failed => c.(failed := c.failed + 1)
    case Unknown => c.(unknown := c.unknown + 1)
  }

  /** `summarize`. */
  method Summarize(rows: map<string, Row>, now: real) returns (counts: Counts)
    ensures AreCounts(counts, rows, now)
    ensures counts.waiting + counts.running + counts.completed + counts.failed + counts.unknown == counts.total
  {
    hide BucketOf, In;
    counts := Counts(|rows|, 0, 0, 0, 0, 0);
    EmptyBuckets(now);
    var todo := rows.Keys;
    ghost var done := map[];
    assert rows == map id | id in rows :: rows[id];
    while todo != {}
      invariant todo <= rows.Keys && done == map id | id in rows && id !in todo :: rows[id]
      invariant AreCounts(counts.(total := |done|), done, now) && counts.total == |rows|
      decreases |todo|
    {
      var id :| id in todo;
      counts := Counted(counts, BucketOf(rows[id], now));
      todo := todo - {id};
      OneMoreRow(done, id, rows[id], now);
      done := done[id := rows[id]];
    }
    assert done == rows;
    BucketsPartition(rows, now);
  }

  lemma EmptyBuckets(now: real)
    ensures AreCounts(Counts(0, 0, 0, 0, 0, 0), map[], now)
  {
    assert forall bucket :: In(map[], now, bucket) == {};
  }

  lemma OneMoreRow(rows: map<string, Row>, id: string, row: Row, now: real)
    requires id !in rows
    ensures forall bucket :: |In(rows[id := row], now, bucket)|
                          == |In(rows, now, bucket)| + if BucketOf(row, now) == bucket then 1 else 0
  {
    hide BucketOf;
    forall bucket
      ensures |In(rows[id := row], now, bucket)|
           == |In(rows, now, bucket)| + if BucketOf(row, now) == bucket then 1 else 0
    {
      assert In(rows[id := row], now, bucket)
          == In(rows, now, bucket) + if BucketOf(row, now) == bucket then {id} else {};
    }
  }

  // Worker observations and durable evidence, request by request.

  /** The last observation of a request that is not older than what is already known. */
  function Latest(observations: seq<Observation>, id: string, since: real): Option<Observation> {
    if observations == [] then None
    else
      var last := observations[|observations| - 1];
      if last.request == id && last.when >= since then Some(last)
      else Latest(observations[..|observations| - 1], id, since)
  }

  function Updated(row: Row, latest: Option<Observation>): Row {
    if latest.Some? then Row(latest.value.status, latest.value.when) else row
  }

  lemma {:induction false} LatestIsOneOf(observations: seq<Observation>, id: string, since: real)
    ensures var latest := Latest(observations, id, since);
            && (latest.Some? ==>
                  latest.value in observations && latest.value.request == id && latest.value.when >= since)
            && (latest == None ==> forall o | o in observations && o.request == id :: o.when < since)
  {
    if observations != [] {
      var before, last := observations[..|observations| - 1], observations[|observations| - 1];
      assert observations == before + [last];
      LatestIsOneOf(before, id, since);
    }
  }

  /** Observation `i` is the last one about the request, and not older than what was known. */
  predicate IsLatest(observations: seq<Observation>, id: string, since: real, i: nat)
    requires i < |observations|
  {
    && observations[i].request == id && observations[i].when >= since
    && forall j | i < j < |observations| :: !(observations[j].request == id && observations[j].when >= since)
  }

  lemma {:induction false} LatestIsLast(observations: seq<Observation>, id: string, since: real)
    requires Latest(observations, id, since).Some?
    ensures exists i :: 0 <= i < |observations| && IsLatest(observations, id, since, i)
                        && observations[i] == Latest(observations, id, since).value
  {
    var n := |observations| - 1;
    if observations[n].request == id && observations[n].when >= since {
      assert IsLatest(observations, id, since, n);
    } else {
      LatestIsLast(observations[..n], id, since);
      var i :| 0 <= i < n && IsLatest(observations[..n], id, since, i)
               && observations[..n][i] == Latest(observations[..n], id, since).value;
      assert IsLatest(observations, id, since, i);
    }
  }

  predicate AreUpdated(rows: map<string, Row>, original: map<string, Row>, observations: seq<Observation>) {
    && rows.Keys == original.Keys
    && forall id | id in original :: rows[id] == Updated(original[id], Latest(observations, id, original[id].when))
  }

  /** One pass in time order leaves every request at its latest observation. */
  method ApplyObservations(original: map<string, Row>, observations: seq<Observation>)
    returns (rows: map<string, Row>, seen: set<string>)
    requires ObservationsInOrder(observations)
    ensures AreUpdated(rows, original, observations)
    ensures forall id :: id in seen <==> id in original && Latest(observations, id, original[id].when).Some?
    ensures forall id | id in rows ::
              if exists i :: 0 <= i < |observations| && IsLatest(observations, id, original[id].when, i)
              then exists i :: 0 <= i < |observations| && IsLatest(observations, id, original[id].when, i)
                               && rows[id] == Row(observations[i].status, observations[i].when)
              else rows[id] == original[id]
  {
    hide ObservationsInOrder, AreUpdated;
    rows, seen := original, {};
    Unobserved(original);
    for i := 0 to |observations|
      invariant AreUpdated(rows, original, observations[..i]) && rows.Keys == original.Keys
      invariant forall id :: id in seen <==> id in original && Latest(observations[..i], id, original[id].when).Some?
    {
      var o := observations[i];
      OneMoreObservation(rows, original, observations, i);
      if o.request in rows && o.when >= rows[o.request].when {
        rows, seen := rows[o.request := Row(o.status, o.when)], seen + {o.request};
      }
    }
    assert observations[..|observations|] == observations;
    LatestIsApplied(rows, original, observations);
  }

  lemma LatestIsApplied(rows: map<string, Row>, original: map<string, Row>, observations: seq<Observation>)
    requires AreUpdated(rows, original, observations)
    ensures rows.Keys == original.Keys
    ensures forall id | id in rows ::
              if exists i :: 0 <= i < |observations| && IsLatest(observations, id, original[id].when, i)
              then exists i :: 0 <= i < |observations| && IsLatest(observations, id, original[id].when, i)
                               && rows[id] == Row(observations[i].status, observations[i].when)
              else rows[id] == original[id]
  {
    forall id | id in rows
      ensures if exists i :: 0 <= i < |observations| && IsLatest(observations, id, original[id].when, i)
              then exists i :: 0 <= i < |observations| && IsLatest(observations, id, original[id].when, i)
                               && rows[id] == Row(observations[i].status, observations[i].when)
              else rows[id] == original[id]
    {
      var since := original[id].when;
      LatestIsOneOf(observations, id, since);
      if Latest(observations, id, since).Some? {
        LatestIsLast(observations, id, since);
      }
    }
  }

  lemma Unobserved(original: map<string, Row>)
    ensures AreUpdated(original, original, [])
  {
  }

  lemma OneMoreObservation(rows: map<string, Row>, original: map<string, Row>, observations: seq<Observation>, i: nat)
    requires i < |observations| && ObservationsInOrder(observations) && AreUpdated(rows, original, observations[..i])
    ensures var o := observations[i];
            var fits := o.request in rows && o.when >= rows[o.request].when;
            && AreUpdated(if fits then rows[o.request := Row(o.status, o.when)] else rows, original,
                          observations[..i + 1])
            && forall id | id in original ::
                 Latest(observations[..i + 1], id, original[id].when)
                 == if fits && id == o.request then Some(o) else Latest(observations[..i], id, original[id].when)
  {
    var o := observations[i];
    assert observations[..i + 1][..i] == observations[..i];
    if o.request in original {
      LatestIsOneOf(observations[..i], o.request, original[o.request].when);
    }
  }

  predicate IsStale(row: Row, now: real) {
    row.status == "queued" && now - row.when > 90.0
  }

  /** What a request finally counts as. */
  function FinalRow(id: string, original: Row, observations: seq<Observation>, persisted: map<string, real>,
                    trusted: bool, now: real): Row
  {
    var latest := Latest(observations, id, original.when);
    if id in persisted then Row("persisted", persisted[id])
    else if !trusted && latest == None && IsStale(original, now) then original.(status := "unknown")
    else Updated(original, latest)
  }

  /** Without complete observations, old requests nobody reported on are unknown. */
  method MarkUnknown(known: map<string, Row>, seen: set<string>, now: real) returns (rows: map<string, Row>)
    ensures rows.Keys == known.Keys
    ensures forall id | id in rows :: rows[id] == if id !in seen && IsStale(known[id], now)
                                                  then known[id].(status := "unknown") else known[id]
  {
    hide IsStale;
    rows := known;
    var todo := rows.Keys;
    while todo != {}
      invariant todo <= rows.Keys == known.Keys
      invariant forall id | id in rows :: rows[id] == if id !in todo && id !in seen && IsStale(known[id], now)
                                                      then known[id].(status := "unknown") else known[id]
      decreases |todo|
    {
      var id :| id in todo;
      if id !in seen && IsStale(rows[id], now) {
        rows := rows[id := rows[id].(status := "unknown")];
      }
      todo := todo - {id};
    }
  }

  method MarkPersisted(known: map<string, Row>, persisted: map<string, real>) returns (rows: map<string, Row>)
    ensures rows.Keys == known.Keys
    ensures forall id | id in rows :: rows[id] == if id in persisted then Row("persisted", persisted[id]) else known[id]
  {
    rows := known;
    var todo := persisted.Keys;
    while todo != {}
      invariant todo <= persisted.Keys && rows.Keys == known.Keys
      invariant forall id | id in rows :: rows[id] == if id in persisted && id !in todo
                                                      then Row("persisted", persisted[id]) else known[id]
      decreases |todo|
    {
      var id :| id in todo;
      if id in rows {
        rows := rows[id := Row("persisted", persisted[id])];
      }
      todo := todo - {id};
    }
  }

  predicate AreFinal(rows: map<string, Row>, original: map<string, Row>, observations: seq<Observation>,
                     persisted: map<string, real>, trusted: bool, now: real)
  {
    && rows.Keys == original.Keys
    && forall id | id in rows :: rows[id] == FinalRow(id, original[id], observations, persisted, trusted, now)
  }

  method FinalRows(original: map<string, Row>, observations: seq<Observation>, persisted: map<string, real>,
                   trusted: bool, now: real) returns (rows: map<string, Row>)
    requires ObservationsInOrder(observations)
    ensures AreFinal(rows, original, observations, persisted, trusted, now)
  {
    hide ObservationsInOrder, Latest, IsStale;
    var seen;
    rows, seen := ApplyObservations(original, observations);
    if !trusted {
      rows := MarkUnknown(rows, seen, now);
    }
    rows := MarkPersisted(rows, persisted);
  }

  /** Requests with durable evidence count as completed, whatever the workers reported. */
  lemma PersistedAreCompleted(rows: map<string, Row>, original: map<string, Row>, observations: seq<Observation>,
                              persisted: map<string, real>, trusted: bool, now: real)
    requires AreFinal(rows, original, observations, persisted, trusted, now)
    ensures original.Keys * persisted.Keys <= In(rows, now, Completed)
    ensures |original.Keys * persisted.Keys| <= |In(rows, now, Completed)|
  {
    hide Latest, IsStale;
    assert "persisted" in SUCCESS;
    SubsetSize(original.Keys * persisted.Keys, In(rows, now, Completed));
  }

  /** Without complete observations, a request queued long ago that nobody reported on is unknown, not waiting. */
  lemma SilenceIsUnknown(rows: map<string, Row>, original: map<string, Row>, observations: seq<Observation>,
                         persisted: map<string, real>, now: real, id: string)
    requires AreFinal(rows, original, observations, persisted, false, now) && id in original && id !in persisted
    requires original[id].status == "queued" && now - original[id].when > 90.0
    requires forall o | o in observations && o.request == id :: o.when < original[id].when
    ensures id in In(rows, now, Unknown)
  {
    LatestIsOneOf(observations, id, original[id].when);
  }

  lemma SortedObservations(records: seq<Record>, known: set<string>)
    ensures ObservationsInOrder(Observed(Sorted(records), known))
  {
    SortedIsStable(records, 0.0);
    ObservationsAreCredited(Sorted(records), known);
  }

  lemma FinalKeys(rows: map<string, Row>, original: map<string, Row>, observations: seq<Observation>,
                  persisted: map<string, real>, trusted: bool, now: real)
    requires AreFinal(rows, original, observations, persisted, trusted, now)
    ensures rows.Keys == original.Keys && |rows| == |original|
  {
    assert |rows.Keys| == |rows| && |original.Keys| == |original|;
  }

  method ObservedRows(records: seq<Record>, original: map<string, Row>, persisted: map<string, real>, trusted: bool,
                      now: real)
    returns (rows: map<string, Row>)
    ensures AreFinal(rows, original, Observed(Sorted(records), original.Keys), persisted, trusted, now)
    ensures |rows| == |original|
  {
    hide Observed, Sorted, AreFinal, ObservationsInOrder;
    var observations := WorkerObservations(records, original.Keys);
    SortedObservations(records, original.Keys);
    rows := FinalRows(original, observations, persisted, trusted, now);
    FinalKeys(rows, original, observations, persisted, trusted, now);
  }

  lemma CountsTotal(counts: Counts, rows: map<string, Row>, now: real)
    requires AreCounts(counts, rows, now)
    ensures counts.total == |rows|
  {
  }

  /** The time of the newest row. */
  method Newest(rows: map<string, Row>) returns (newest: real)
    requires rows != map[]
    ensures exists id :: id in rows && rows[id].when == newest
    ensures forall id | id in rows :: rows[id].when <= newest
  {
    var first :| first in rows;
    newest := rows[first].when;
    var todo := rows.Keys;
    while todo != {}
      invariant todo <= rows.Keys
      invariant exists id :: id in rows && rows[id].when == newest
      invariant forall id | id in rows && id !in todo :: rows[id].when <= newest
      decreases |todo|
    {
      var id :| id in todo;
      newest := if rows[id].when > newest then rows[id].when else newest;
      todo := todo - {id};
    }
  }

  // The report.

  function Get(count: Option<nat>): nat {
    if count.Some? then count.value else 0
  }

  datatype State =
    | NoBatch | QueueUnavailable | Historical | PublicationIncomplete | Active | IncompleteObservations | SavingResults
    | FinishedWithFailures | Complete | Idle

  /** Message counts of the work and retry queues, when the broker answered. */
  datatype Queue = Queue(waiting: nat, retry: nat)

  class Report {
    var requests: map<string, Row>
    var persisted: map<string, real>
    var waiting: Option<nat>
    var running: Option<nat>
    var completed: Option<nat>
    var failed: Option<nat>
    var unknown: Option<nat>
    var total: Option<nat>
    var unconfirmed: Option<nat>
    var persistedCount: Option<nat>
    var started: Option<real>
    var lastObserved: Option<real>
    var queue: Option<Queue>
    var state: Option<State>

    /** The five counts together; a missing count is zero. */
    ghost function Sum(): nat
      reads this
    {
      Get(waiting) + Get(running) + Get(completed) + Get(failed) + Get(unknown)
    }

    /** Waiting is only counted together with unknown. */
    ghost predicate Valid()
      reads this
    {
      waiting.Some? ==> unknown.Some?
    }

    /** `database_snapshot` without a recorded batch. */
    constructor Empty()
      ensures Valid() && requests == map[] && persisted == map[] && Sum() == 0 && unconfirmed == None
      ensures started == None && lastObserved == None && persistedCount == None && total == None
    {
      requests, persisted := map[], map[];
      waiting, running, completed, failed, unknown, total := None, None, None, None, None, None;
      unconfirmed, persistedCount, started, lastObserved, queue, state := None, None, None, None, None, None;
    }

    /**
     `database_snapshot` of a batch: its requests, how many were planned, and the requests among them with durable
     completion evidence.
     */
    constructor OfBatch(rows: map<string, Row>, planned: nat, evidence: map<string, real>, begun: real, now: real)
      ensures Valid() && requests == rows && persisted == evidence && started == Some(begun) && persistedCount == None
      ensures total == Some(|rows|) && Sum() == |rows|
      ensures |rows| + Get(unconfirmed) == if planned > |rows| then planned else |rows|
      ensures lastObserved.Some?
    {
      var counts := Summarize(rows, now);
      requests, persisted := rows, evidence;
      waiting, running, completed := Some(counts.waiting), Some(counts.running), Some(counts.completed);
      failed, unknown, total := Some(counts.failed), Some(counts.unknown), Some(counts.total);
      started, persistedCount, queue, state := Some(begun), None, None, None;
      unconfirmed := Some(if planned > |rows| then planned - |rows| else 0);
      var newest := begun;
      if rows != map[] {
        newest := Newest(rows);
      }
      lastObserved := Some(newest);
    }

    /** Replace the counts by those of these rows. */
    method Recount(rows: map<string, Row>, now: real) returns (ghost counts: Counts)
      requires rows != map[]
      modifies this`waiting, this`running, this`completed, this`failed, this`unknown, this`lastObserved
      ensures AreCounts(counts, rows, now)
      ensures waiting == Some(counts.waiting) && running == Some(counts.running) && completed == Some(counts.completed)
      ensures failed == Some(counts.failed) && unknown == Some(counts.unknown) && Sum() == |rows|
    {
      hide AreCounts;
      var c := Summarize(rows, now);
      CountsTotal(c, rows, now);
      waiting, running, completed := Some(c.waiting), Some(c.running), Some(c.completed);
      failed, unknown := Some(c.failed), Some(c.unknown);
      var newest := Newest(rows);
      lastObserved := Some(newest);
      counts := c;
    }

    method AddUnconfirmed(size: nat)
      modifies this`unknown, this`total, this`persistedCount
      ensures total == Some(size + Get(unconfirmed)) && persistedCount == Some(|persisted|)
      ensures unknown == Some(old(Get(unknown)) + Get(unconfirmed)) && Sum() == old(Sum()) + Get(unconfirmed)
    {
      unknown := Some(Get(unknown) + Get(unconfirmed));
      total := Some(size + Get(unconfirmed));
      persistedCount := Some(|persisted|);
    }

    /** The counts of the final rows, when there are any; the rows themselves are dropped from the report. */
    method CountRows(rows: map<string, Row>, now: real) returns (ghost counts: Counts)
      requires Valid() && |rows| == |requests|
      modifies this
      ensures Valid() && requests == map[] && persisted == map[]
      ensures total == Some(|rows| + Get(unconfirmed)) && unconfirmed == old(unconfirmed)
      ensures persistedCount == Some(|old(persisted)|) && queue == old(queue) && started == old(started)
      ensures Sum() == (if |rows| > 0 then |rows| else old(Sum())) + Get(unconfirmed)
      ensures |rows| > 0 ==>
                && AreCounts(counts, rows, now)
                && waiting == Some(counts.waiting) && running == Some(counts.running)
                && completed == Some(counts.completed)
                && failed == Some(counts.failed) && unknown == Some(counts.unknown + Get(unconfirmed))
    {
      hide AreCounts;
      counts := Counts(0, 0, 0, 0, 0, 0);
      if |rows| > 0 {
        counts := Recount(rows, now);
      }
      AddUnconfirmed(|rows|);
      requests, persisted := map[], map[];
    }

    /** `apply_worker_observations`. */
    method ApplyWorkers(records: seq<Record>, available: bool, full: bool, now: real)
      returns (ghost rows: map<string, Row>, ghost counts: Counts)
      requires Valid()
      modifies this
      ensures Valid() && requests == map[] && persisted == map[]
      ensures total == Some(|old(requests)| + Get(unconfirmed)) && unconfirmed == old(unconfirmed)
      ensures persistedCount == Some(|old(persisted)|)
      ensures queue == old(queue) && started == old(started)
      // The counts are conserved: they add up to the total.
      ensures Sum() == total.value <==> |old(requests)| > 0 || old(Sum()) == 0
      ensures AreFinal(rows, old(requests), Observed(Sorted(records), old(requests).Keys), old(persisted),
                       available && full, now)
      // Durable evidence is never undercounted, whatever the workers reported.
      ensures old(requests).Keys * old(persisted).Keys <= In(rows, now, Completed)
      ensures |old(requests)| > 0 ==> |old(requests).Keys * old(persisted).Keys| <= Get(completed)
      ensures |old(requests)| > 0 ==>
                && AreCounts(counts, rows, now)
                && waiting == Some(counts.waiting) && running == Some(counts.running)
                && completed == Some(counts.completed)
                && failed == Some(counts.failed) && unknown == Some(counts.unknown + Get(unconfirmed))
    {
      hide Observed, Sorted, AreFinal, In, Sum, Valid;
      var final := ObservedRows(records, requests, persisted, available && full, now);
      PersistedAreCompleted(final, requests, Observed(Sorted(records), requests.Keys), persisted, available && full,
                            now);
      rows := final;
      counts := CountRows(final, now);
    }

    /** An old publication is no proof that a request still waits in an empty broker. */
    predicate WaitingLost(now: real)
      reads this
    {
      && started.Some? && now - started.value > 90.0
      && queue == Some(Queue(0, 0)) && Get(waiting) > 0 && Get(running) == 0
    }

    function LastSeen(): Option<real>
      reads this
    {
      if lastObserved.Some? then lastObserved else started
    }

    method LoseWaiting(now: real)
      requires Valid()
      modifies this`waiting, this`unknown
      ensures Valid() && Get(waiting) + Get(unknown) == old(Get(waiting) + Get(unknown))
      ensures Get(waiting) == if old(WaitingLost(now)) then 0 else old(Get(waiting))
    {
      if WaitingLost(now) {
        unknown, waiting := Some(unknown.value + waiting.value), Some(0);
      }
    }

    /** `reconcile_queue_snapshot`: the counts keep their sum, and completion needs every request accounted for. */
    method Reconcile(now: real)
      requires Valid()
      modifies this`waiting, this`unknown, this`completed, this`failed, this`state
      ensures Valid() && Sum() == old(Sum())
      ensures running == old(running) && Get(completed) == old(Get(completed)) && Get(failed) == old(Get(failed))
      ensures Get(waiting) == if old(WaitingLost(now)) || state == Some(Historical) then 0 else old(Get(waiting))
      ensures old(started).Some? && now - old(started).value > 90.0 && queue == Some(Queue(0, 0))
              && old(Get(running)) == 0 ==>
                Get(waiting) == 0
      ensures state != Some(Historical)
              && (queue != Some(Queue(0, 0)) || old(Get(running)) > 0 || old(started) == None) ==>
                Get(waiting) == old(Get(waiting)) && Get(unknown) == old(Get(unknown))
      ensures state == Some(Complete)
         <==> && old(LastSeen()).Some? && now - old(LastSeen()).value <= 86400.0 && queue.Some?
              && Get(unconfirmed) == 0 && Get(total) > 0 && old(Get(completed)) == Get(total) && old(Get(failed)) == 0
              && Get(running) == 0 && old(Get(waiting)) == 0 && old(Get(unknown)) == 0
              && (persistedCount.Some? ==> old(Get(completed)) <= persistedCount.value)
      ensures state == Some(Historical) <==>
              old(LastSeen()).Some? && queue.Some? && now - old(LastSeen()).value > 86400.0
      ensures state == Some(Historical) && Get(unknown) > 0 ==> completed != Some(0) && failed != Some(0)
      // The other states, over the reconciled counts: each only when none before it applies.
      ensures state == Some(NoBatch) <==> old(LastSeen()) == None
      ensures state == Some(QueueUnavailable) <==> old(LastSeen()).Some? && queue == None
      ensures state == Some(PublicationIncomplete) <==> IsKnown(state) && Get(unconfirmed) > 0
      ensures state == Some(Active) <==>
              IsKnown(state) && Get(unconfirmed) == 0 && (Get(running) > 0 || Get(waiting) > 0)
      ensures state == Some(IncompleteObservations) <==>
              && IsKnown(state) && Get(unconfirmed) == 0 && Get(running) == 0 && Get(waiting) == 0
              && Get(unknown) > 0
      ensures state == Some(SavingResults) <==>
              && IsKnown(state) && Get(unconfirmed) == 0 && Get(running) == 0 && Get(waiting) == 0 && Get(unknown) == 0
              && persistedCount.Some? && Get(completed) > persistedCount.value
      ensures state == Some(FinishedWithFailures) <==>
              && IsKnown(state) && Get(unconfirmed) == 0 && Get(running) == 0 && Get(waiting) == 0 && Get(unknown) == 0
              && (persistedCount.Some? ==> Get(completed) <= persistedCount.value)
              && Get(total) > 0 && Get(completed) + Get(failed) == Get(total) && Get(failed) > 0
    {
      LoseWaiting(now);
      var observed := LastSeen();
      if observed.Some? && queue.Some? && now - observed.value > 86400.0 {
        GiveUp();
        state := Some(Historical);
      } else {
        var current := CurrentState();
        state := Some(current);
      }
    }

    /** In an old batch, what still waits is unknown, and then missing outcomes are no evidence of zero completions. */
    method GiveUp()
      modifies this`waiting, this`unknown, this`completed, this`failed
      ensures Get(waiting) == 0 && unknown == Some(old(Get(unknown) + Get(waiting)))
      ensures Get(completed) == old(Get(completed)) && Get(failed) == old(Get(failed))
      ensures Get(unknown) > 0 ==> completed != Some(0) && failed != Some(0)
    {
      unknown, waiting := Some(Get(unknown) + Get(waiting)), Some(0);
      if Get(unknown) > 0 {
        if completed == Some(0) { completed := None; }
        if failed == Some(0) { failed := None; }
      }
    }

    /** There is a batch, the broker answered, and the batch is not historical. */
    predicate IsKnown(s: Option<State>)
      reads this
    {
      LastSeen().Some? && queue.Some? && s != Some(Historical)
    }

    /** Nothing is missing, open or unknown. */
    predicate IsSettled()
      reads this
    {
      && LastSeen().Some? && queue.Some? && Get(unconfirmed) == 0
      && Get(running) == 0 && Get(waiting) == 0 && Get(unknown) == 0
    }

    /** The state of a batch that is not historical. */
    method CurrentState() returns (s: State)
      ensures s == NoBatch <==> LastSeen() == None
      ensures s == QueueUnavailable <==> LastSeen().Some? && queue == None
      ensures s == PublicationIncomplete <==> LastSeen().Some? && queue.Some? && Get(unconfirmed) > 0
      ensures s == Active <==>
              LastSeen().Some? && queue.Some? && Get(unconfirmed) == 0 && (Get(running) > 0 || Get(waiting) > 0)
      ensures s == IncompleteObservations <==>
              && LastSeen().Some? && queue.Some? && Get(unconfirmed) == 0 && Get(running) == 0 && Get(waiting) == 0
              && Get(unknown) > 0
      ensures s == SavingResults <==>
              IsSettled() && persistedCount.Some? && Get(completed) > persistedCount.value
      ensures s == FinishedWithFailures <==>
              && IsSettled() && (persistedCount.Some? ==> Get(completed) <= persistedCount.value)
              && Get(total) > 0 && Get(completed) + Get(failed) == Get(total) && Get(failed) > 0
      ensures s == Complete
         <==> && LastSeen().Some? && queue.Some? && Get(unconfirmed) == 0 && Get(total) > 0
              && Get(completed) == Get(total) && Get(failed) == 0
              && Get(running) == 0 && Get(waiting) == 0 && Get(unknown) == 0
              && (persistedCount.Some? ==> Get(completed) <= persistedCount.value)
      ensures s != Historical
    {
      if LastSeen() == None { return NoBatch; }
      if queue == None { return QueueUnavailable; }
      if Get(unconfirmed) > 0 { return PublicationIncomplete; }
      if Get(running) > 0 || Get(waiting) > 0 { return Active; }
      if Get(unknown) > 0 { return IncompleteObservations; }
      if persistedCount.Some? && Get(completed) > persistedCount.value { return SavingResults; }
      if Get(total) > 0 && Get(completed) + Get(failed) == Get(total) {
        return if Get(failed) > 0 then FinishedWithFailures else Complete;
      }
      s := Idle;
    }

    /**
     The whole report.  The counts add up to the total, and a batch is complete only if every one of its requests
     has durable evidence.
     */
    method Finish(records: seq<Record>, available: bool, full: bool, broker: Option<Queue>, now: real)
      requires Valid() && (|requests| == 0 ==> Sum() == 0)
      requires persisted.Keys <= requests.Keys
      modifies this
      ensures total == Some(old(|requests|) + Get(unconfirmed)) && Sum() == total.value
      ensures state == Some(Complete) ==> old(persisted).Keys == old(requests).Keys && Get(unconfirmed) == 0
    {
      hide AreFinal, AreCounts, WorkerLogs.Observed, Sorted, In, IsKnown, LastSeen, WaitingLost;
      ghost var ids, evidence := requests.Keys, persisted.Keys;
      assert |requests| == |ids| && |persisted| == |evidence|;
      var rows, counts := ApplyWorkers(records, available, full, now);
      queue := broker;
      Reconcile(now);
      if state == Some(Complete) {
        SubsetSize(evidence, ids);
      }
    }
  }
}
