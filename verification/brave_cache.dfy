/**
 The two-level search cache: a private memory per process over a table shared by
 all of them.  Every access to one query's row happens under that query's lock,
 so a lookup is one step as far as that query is concerned; the clock may advance
 between its readings.
 */
module BraveCache {
  import opened Options

  type Results = seq<string>

  /** A stored result; `refreshed` and `results` come from the fetch that produced it. */
  datatype Entry = Entry(results: Results, fetchedAt: int, expiresAt: int)

  datatype Fetch = Fetch(entry: Entry, refreshed: bool)

  const EMPTY_TTL: int := 3600
  const MIN_TTL: int := 86400
  const MAX_TTL: int := 3650 * 86400

  /** An empty result is kept for an hour. */
  function Ttl(results: Results, positive: int): (ttl: int)
    ensures results == [] ==> ttl == 3600
    ensures results != [] ==> ttl == positive
  {
    if results == [] then EMPTY_TTL else positive
  }

  predicate InWindow(e: Entry, time: int) {
    e.fetchedAt <= time < e.expiresAt
  }

  /** The fetches of one query, oldest first. */
  predicate IsHistory(h: seq<Fetch>, clock: int) {
    && (forall i | 0 <= i < |h| :: h[i].entry.fetchedAt < h[i].entry.expiresAt && h[i].entry.fetchedAt <= clock)
    && (forall i, j | 0 <= i <= j < |h| :: h[i].entry.fetchedAt <= h[j].entry.fetchedAt)
    // A fetch that was not forced found the row before it expired.
    && (forall i, j | 0 <= i && j == i + 1 < |h| && !h[j].refreshed :: h[i].entry.expiresAt <= h[j].entry.fetchedAt)
  }

  /** All fetches so far, by query. */
  type Histories = map<string, seq<Fetch>>

  function HistoryOf(histories: Histories, key: string): seq<Fetch> {
    if key in histories then histories[key] else []
  }

  predicate WasFetched(h: seq<Fetch>, e: Entry) {
    exists i :: 0 <= i < |h| && h[i].entry == e
  }

  /** The table holds the last fetch of every query that was ever fetched. */
  ghost predicate IsTable(rows: map<string, Entry>, histories: Histories, clock: int) {
    && (forall key :: IsHistory(HistoryOf(histories, key), clock))
    && (forall key :: key in rows <==> HistoryOf(histories, key) != [])
    && (forall key | key in rows :: rows[key] == HistoryOf(histories, key)[|HistoryOf(histories, key)| - 1].entry)
  }

  function Extended(histories: Histories, key: string, f: Fetch): Histories {
    histories[key := HistoryOf(histories, key) + [f]]
  }

  lemma HistoryAfter(histories: Histories, key: string, f: Fetch, k: string)
    ensures HistoryOf(Extended(histories, key, f), k)
            == if k == key then HistoryOf(histories, key) + [f] else HistoryOf(histories, k)
  {
  }

  lemma OneMoreFetch(h: seq<Fetch>, f: Fetch, clock: int)
    requires IsHistory(h, clock) && f.entry.fetchedAt == clock < f.entry.expiresAt
    requires h != [] && !f.refreshed ==> h[|h| - 1].entry.expiresAt <= clock
    ensures IsHistory(h + [f], clock)
  {
  }

  lemma RowReplaced(rows: map<string, Entry>, histories: Histories, clock: int, key: string, f: Fetch)
    requires IsTable(rows, histories, clock) && f.entry.fetchedAt == clock < f.entry.expiresAt
    requires key in rows && !f.refreshed ==> rows[key].expiresAt <= clock
    ensures IsTable(rows[key := f.entry], Extended(histories, key, f), clock)
  {
    hide IsHistory, HistoryOf, Extended;
    var h, after := HistoryOf(histories, key), Extended(histories, key, f);
    assert IsHistory(h, clock);
    OneMoreFetch(h, f, clock);
    forall k
      ensures IsHistory(HistoryOf(after, k), clock)
      ensures k in rows[key := f.entry] <==> HistoryOf(after, k) != []
      ensures k in rows[key := f.entry]
              ==> rows[key := f.entry][k] == HistoryOf(after, k)[|HistoryOf(after, k)| - 1].entry
    {
      HistoryAfter(histories, key, f, k);
      assert IsHistory(HistoryOf(histories, k), clock);
    }
  }

  /** Every remembered result was fetched for the query it is remembered under. */
  predicate Remembers(memory: map<string, Entry>, histories: Histories) {
    forall key | key in memory :: WasFetched(HistoryOf(histories, key), memory[key])
  }

  /** Nothing of the past is forgotten. */
  ghost predicate Grown(before: Histories, after: Histories) {
    forall key :: HistoryOf(before, key) <= HistoryOf(after, key)
  }

  lemma StillRemembers(memory: map<string, Entry>, before: Histories, after: Histories)
    requires Remembers(memory, before) && Grown(before, after)
    ensures Remembers(memory, after)
  {
    forall key | key in memory
      ensures WasFetched(HistoryOf(after, key), memory[key])
    {
      var h, h' := HistoryOf(before, key), HistoryOf(after, key);
      var i :| 0 <= i < |h| && h[i].entry == memory[key];
      assert h'[i] == h[i];
    }
  }

  /** The table shared by all processes. */
  class Table {
    var rows: map<string, Entry>
    var clock: int
    ghost var histories: Histories

    ghost predicate Valid()
      reads this
    {
      IsTable(rows, histories, clock)
    }

    constructor ()
      ensures Valid() && rows == map[] && clock == 0 && histories == map[]
    {
      rows, clock, histories := map[], 0, map[];
    }

    method ReadClock(elapsed: nat) returns (now: int)
      requires Valid()
      modifies this`clock
      ensures Valid() && now == clock == old(clock) + elapsed
    {
      clock := clock + elapsed;
      now := clock;
    }

    method Store(key: string, entry: Entry, ghost refreshed: bool)
      requires Valid() && entry.fetchedAt == clock < entry.expiresAt
      requires key in rows && !refreshed ==> rows[key].expiresAt <= clock
      modifies this`rows, this`histories
      ensures Valid() && rows == old(rows)[key := entry]
      ensures histories == Extended(old(histories), key, Fetch(entry, refreshed))
    {
      RowReplaced(rows, histories, clock, key, Fetch(entry, refreshed));
      rows := rows[key := entry];
      histories := Extended(histories, key, Fetch(entry, refreshed));
    }
  }

  /** What becomes of the search call and of storing its result. */
  datatype Outcome = Fetched(results: Results) | NotFetched | NotStored | StoredUnknown(results: Results)

  datatype Status = MemoryHit | PersistentHit | Miss | Refresh

  predicate IsHit(s: Status) {
    s == MemoryHit || s == PersistentHit
  }

  function CountHits(observations: seq<Status>): nat {
    if observations == [] then 0
    else CountHits(observations[..|observations| - 1]) + if IsHit(observations[|observations| - 1]) then 1 else 0
  }

  /** One process's cache. */
  class QueryCache {
    const refresh: bool
    const positiveTtl: int
    const table: Table
    var memory: map<string, Entry>
    var hits: nat
    var requests: nat
    var observations: seq<Status>
    ghost var failures: nat

    ghost predicate Valid()
      reads this, table
    {
      && table.Valid() && MIN_TTL <= positiveTtl <= MAX_TTL
      && Remembers(memory, table.histories)
      // Every completed lookup is a hit or a successful fetch.
      && hits == CountHits(observations)
      && hits + (requests - failures) == |observations|
    }

    constructor (refresh: bool, days: nat, table: Table)
      requires 1 <= days <= 3650 && table.Valid()
      ensures Valid() && this.refresh == refresh && this.table == table && positiveTtl == days * 86400
      ensures memory == map[] && hits == 0 && requests == 0 && observations == [] && failures == 0
    {
      this.refresh, this.table, positiveTtl := refresh, table, days * 86400;
      memory, hits, requests, observations, failures := map[], 0, 0, [], 0;
    }

    /** The part of a lookup that runs under the query's lock. */
    method LockedLookup(key: string, outcome: Outcome, e1: nat, e2: nat) returns (row: Option<Entry>, status: Status)
      requires Valid()
      modifies this`requests, this`failures, table
      ensures table.Valid() && Grown(old(table.histories), table.histories)
      ensures row.Some? ==> WasFetched(HistoryOf(table.histories, key), row.value) && InWindow(row.value, table.clock)
      ensures requests - failures == old(requests - failures) + (if row.Some? && status != PersistentHit then 1 else 0)
      ensures requests ==
              old(requests) + if IsFresh(old(table.rows), key, old(table.clock) + e1) && !refresh then 0 else 1
      ensures var t := old(table.clock) + e1;
              if IsFresh(old(table.rows), key, t) && !refresh
              then row == Some(old(table.rows)[key]) && status == PersistentHit && table.clock == t
                   && table.rows == old(table.rows) && table.histories == old(table.histories)
              else && Searched(old(table.rows), old(table.histories), key, outcome, t + e2)
                   && status == SearchStatus() && row == Answer(outcome, t + e2)
      ensures row.Some? && status != PersistentHit ==>
                && outcome.Fetched? && table.rows == old(table.rows)[key := row.value]
                && row.value == Entry(outcome.results, table.clock,
                                      table.clock + if outcome.results == [] then 3600 else positiveTtl)
    {
      hide IsTable, Remembers, IsHistory, Grown, Extended, HistoryOf, WasFetched, CountHits;
      NothingForgotten(table.histories);
      var now := table.ReadClock(e1);
      row, status := None, PersistentHit;
      if !refresh && key in table.rows && table.rows[key].expiresAt > now {
        StoredRow(table.rows, table.histories, table.clock, key);
        return Some(table.rows[key]), status;
      }
      requests := requests + 1;
      now := table.ReadClock(e2);
      status := if refresh then Refresh else Miss;
      if outcome.NotFetched? || outcome.NotStored? {
        failures := failures + 1;
        return;
      }
      var entry := Entry(outcome.results, now, now + Ttl(outcome.results, positiveTtl));
      FetchIsRemembered(table.histories, key, Fetch(entry, refresh));
      table.Store(key, entry, refresh);
      if outcome.StoredUnknown? {
        failures := failures + 1;
        return;
      }
      row := Some(entry);
    }

    function SearchStatus(): Status {
      if refresh then Refresh else Miss
    }

    function Answer(outcome: Outcome, t: int): Option<Entry> {
      if outcome.Fetched? then Some(Produced(outcome.results, t)) else None
    }

    /** What a search that ended at time `t` leaves in the table. */
    ghost predicate Searched(rows: map<string, Entry>, histories: Histories, key: string, outcome: Outcome, t: int)
      reads table
    {
      && table.clock == t
      && match outcome
         case Fetched(results) => StoredAt(rows, histories, key, results, t)
         case StoredUnknown(results) => StoredAt(rows, histories, key, results, t)
         case _ => table.rows == rows && table.histories == histories
    }

    /** What `get` leaves behind when it had to search. */
    ghost predicate SearchAnswered(rows: map<string, Entry>, histories: Histories, memory: map<string, Entry>,
                                   observations: seq<Status>, key: string, outcome: Outcome, t: int,
                                   results: Option<Results>)
      reads this, table
    {
      && Searched(rows, histories, key, outcome, t)
      && if outcome.Fetched?
         then && results == Some(outcome.results)
              && this.observations == observations + [SearchStatus()]
              && this.memory == memory[key := Produced(outcome.results, t)]
         else results == None && this.observations == observations && this.memory == memory
    }

    function Produced(results: Results, t: int): Entry {
      Entry(results, t, t + Ttl(results, positiveTtl))
    }

    ghost predicate StoredAt(rows: map<string, Entry>, histories: Histories, key: string, results: Results, t: int)
      reads table
    {
      && table.rows == rows[key := Produced(results, t)]
      && table.histories == Extended(histories, key, Fetch(Produced(results, t), refresh))
    }

    /**
     `get`, outcome by outcome.  A result it returns was fetched for this very query and had not expired when
     it was chosen; a lookup that fails leaves no observation.
     */
    method Get(key: string, outcome: Outcome, e0: nat, e1: nat, e2: nat) returns (results: Option<Results>)
      requires Valid()
      modifies this, table
      ensures Valid() && Grown(old(table.histories), table.histories)
      ensures results.Some? ==> IsCurrentAnswer(HistoryOf(table.histories, key), results.value, table.clock)
      ensures var t := old(table.clock) + e0;
              if IsFresh(old(memory), key, t)
              then results == Some(old(memory)[key].results) && observations == old(observations) + [MemoryHit]
                   && table.clock == t && table.rows == old(table.rows) && table.histories == old(table.histories)
                   && memory == old(memory)
              else if IsFresh(old(table.rows), key, t + e1) && !refresh
              then results == Some(old(table.rows)[key].results) && observations == old(observations) + [PersistentHit]
                   && table.clock == t + e1 && table.rows == old(table.rows) && table.histories == old(table.histories)
                   && memory == old(memory)[key := old(table.rows)[key]]
              else SearchAnswered(old(table.rows), old(table.histories), old(memory), old(observations),
                                  key, outcome, t + e1 + e2, results)
      // A remembered or stored result is used as long as it has not expired; a search that works is kept for its time.
      ensures key in old(memory) && old(memory)[key].expiresAt > old(table.clock) + e0 ==>
                results == Some(old(memory)[key].results) && observations == old(observations) + [MemoryHit]
                && hits == old(hits) + 1 && requests == old(requests)
      ensures !(key in old(memory) && old(memory)[key].expiresAt > old(table.clock) + e0) && !refresh
              && key in old(table.rows) && old(table.rows)[key].expiresAt > old(table.clock) + e0 + e1 ==>
                results == Some(old(table.rows)[key].results) && observations == old(observations) + [PersistentHit]
                && hits == old(hits) + 1 && requests == old(requests)
      ensures !(key in old(memory) && old(memory)[key].expiresAt > old(table.clock) + e0)
              && (refresh
                  || !(key in old(table.rows) && old(table.rows)[key].expiresAt > old(table.clock) + e0 + e1)) ==>
                && requests == old(requests) + 1 && hits == old(hits)
                && (outcome.Fetched? ==>
                      var t := old(table.clock) + e0 + e1 + e2;
                      var entry := Entry(outcome.results, t, t + if outcome.results == [] then 3600 else positiveTtl);
                      && results == Some(outcome.results) && table.rows == old(table.rows)[key := entry]
                      && memory == old(memory)[key := entry]
                      && observations == old(observations) + [if refresh then Refresh else Miss])
                && (!outcome.Fetched? ==> results == None && memory == old(memory) && observations == old(observations))
    {
      hide IsTable, IsHistory, WasFetched, CountHits, Remembers, StoredAt, Searched, Grown, HistoryOf, Extended;
      var now := table.ReadClock(e0);
      if key in memory && memory[key].expiresAt > now {
        RememberedWindow(memory, table.rows, table.histories, table.clock, key);
        NothingForgotten(table.histories);
        OneMoreObservation(observations, MemoryHit);
        hits, observations := hits + 1, observations + [MemoryHit];
        return Some(memory[key].results);
      }
      ghost var before := table.histories;
      var row, status := LockedLookup(key, outcome, e1, e2);
      StillRemembers(memory, before, table.histories);
      if row == None {
        return None;
      }
      RemembersOneMore(memory, table.histories, key, row.value);
      memory := memory[key := row.value];
      OneMoreObservation(observations, status);
      hits := if IsHit(status) then hits + 1 else hits;
      observations := observations + [status];
      results := Some(row.value.results);
    }
  }

  predicate IsFresh(entries: map<string, Entry>, key: string, time: int) {
    key in entries && entries[key].expiresAt > time
  }

  lemma StoredRow(rows: map<string, Entry>, histories: Histories, clock: int, key: string)
    requires IsTable(rows, histories, clock) && key in rows
    ensures WasFetched(HistoryOf(histories, key), rows[key]) && rows[key].fetchedAt <= clock
  {
    var h := HistoryOf(histories, key);
    assert IsHistory(h, clock) && h[|h| - 1].entry == rows[key];
  }

  lemma RememberedWindow(memory: map<string, Entry>, rows: map<string, Entry>, histories: Histories, clock: int,
                         key: string)
    requires IsTable(rows, histories, clock) && Remembers(memory, histories) && key in memory
    ensures WasFetched(HistoryOf(histories, key), memory[key]) && memory[key].fetchedAt <= clock
  {
    assert IsHistory(HistoryOf(histories, key), clock);
  }

  ghost predicate IsCurrentAnswer(h: seq<Fetch>, results: Results, time: int) {
    exists entry :: WasFetched(h, entry) && entry.results == results && InWindow(entry, time)
  }

  lemma FetchIsRemembered(histories: Histories, key: string, f: Fetch)
    ensures Grown(histories, Extended(histories, key, f))
    ensures WasFetched(HistoryOf(Extended(histories, key, f), key), f.entry)
  {
    assert HistoryOf(Extended(histories, key, f), key)[|HistoryOf(histories, key)|] == f;
  }

  lemma NothingForgotten(histories: Histories)
    ensures Grown(histories, histories)
  {
  }

  lemma RemembersOneMore(memory: map<string, Entry>, histories: Histories, key: string, entry: Entry)
    requires Remembers(memory, histories) && WasFetched(HistoryOf(histories, key), entry)
    ensures Remembers(memory[key := entry], histories)
  {
  }

  lemma OneMoreObservation(observations: seq<Status>, status: Status)
    ensures CountHits(observations + [status]) == CountHits(observations) + if IsHit(status) then 1 else 0
  {
    assert (observations + [status])[..|observations|] == observations;
  }

  /** Another process's lookup leaves this one valid. */
  twostate lemma OthersKeepValid(c: QueryCache)
    requires old(c.Valid()) && unchanged(c) && c.table.Valid() && Grown(old(c.table.histories), c.table.histories)
    ensures c.Valid()
  {
    StillRemembers(c.memory, old(c.table.histories), c.table.histories);
  }

  // Validity windows.

  /**
   Windows of fetches of one query are disjoint whenever the fetch right after the earlier one was not forced.
   */
  lemma WindowsAreDisjoint(h: seq<Fetch>, clock: int, i: nat, j: nat, time: int)
    requires IsHistory(h, clock) && i < j < |h| && !h[i + 1].refreshed
    ensures h[i].entry.expiresAt <= h[j].entry.fetchedAt
    ensures !(InWindow(h[i].entry, time) && InWindow(h[j].entry, time))
  {
  }

  /** No forced fetch replaced a result that was still valid. */
  predicate ForcedOnlyWhenExpired(h: seq<Fetch>) {
    forall i, j | 0 <= i && j == i + 1 < |h| && h[j].refreshed :: h[i].entry.expiresAt <= h[j].entry.fetchedAt
  }

  /**
   All windows, forced ones included, are disjoint exactly when no forced fetch replaced a result that was still valid.
   */
  lemma AllDisjointExactlyWhen(h: seq<Fetch>, clock: int)
    requires IsHistory(h, clock)
    ensures ForcedOnlyWhenExpired(h)
       <==> forall i, j, time | 0 <= i < j < |h| :: !(InWindow(h[i].entry, time) && InWindow(h[j].entry, time))
  {
    if ForcedOnlyWhenExpired(h) {
      forall i, j, time | 0 <= i < j < |h|
        ensures !(InWindow(h[i].entry, time) && InWindow(h[j].entry, time))
      {
        assert h[i].entry.expiresAt <= h[i + 1].entry.fetchedAt;
      }
    }
    if i, j :| 0 <= i && j == i + 1 < |h| && h[j].refreshed && h[j].entry.fetchedAt < h[i].entry.expiresAt {
      assert InWindow(h[i].entry, h[j].entry.fetchedAt) && InWindow(h[j].entry, h[j].entry.fetchedAt);
    }
  }

  // What the cache promises is about ordinary fetches only.

  /** The windows of ordinary fetches are disjoint. */
  ghost predicate OrdinaryDisjoint(h: seq<Fetch>) {
    forall i, j, time | 0 <= i < j < |h| && !h[i].refreshed && !h[j].refreshed ::
      !(InWindow(h[i].entry, time) && InWindow(h[j].entry, time))
  }

  /** The last fetch stays valid at least as long as every ordinary result that is still valid. */
  predicate CoversOpen(h: seq<Fetch>, clock: int) {
    forall i | 0 <= i < |h| && !h[i].refreshed ::
      h[i].entry.expiresAt <= clock || h[i].entry.expiresAt <= h[|h| - 1].entry.expiresAt
  }

  /** `h'` continues `h` from `clock` on by ordinary fetches alone. */
  ghost predicate Continues(h': seq<Fetch>, h: seq<Fetch>, clock: int) {
    && h <= h' && (exists later :: IsHistory(h', later))
    && forall j | |h| <= j < |h'| :: !h'[j].refreshed && clock <= h'[j].entry.fetchedAt
  }

  /** No admissible next ordinary fetch overlaps an ordinary window exactly when the open windows are covered. */
  lemma NextIsDisjointExactlyWhen(h: seq<Fetch>, clock: int)
    requires h != [] && IsHistory(h, clock)
    ensures CoversOpen(h, clock) <==>
            forall i, time | 0 <= i < |h| && !h[i].refreshed && clock <= time && h[|h| - 1].entry.expiresAt <= time ::
              !InWindow(h[i].entry, time)
  {
    if i :| 0 <= i < |h| && !h[i].refreshed && clock < h[i].entry.expiresAt
            && h[|h| - 1].entry.expiresAt < h[i].entry.expiresAt {
      var time := if clock <= h[|h| - 1].entry.expiresAt then h[|h| - 1].entry.expiresAt else clock;
      assert InWindow(h[i].entry, time);
    }
  }

  /**
   In every continuation without further forced fetches ordinary windows stay disjoint exactly when the open ones are
   covered.
   */
  lemma DisjointFromNowExactlyWhen(h: seq<Fetch>, clock: int)
    requires h != [] && IsHistory(h, clock) && OrdinaryDisjoint(h)
    ensures CoversOpen(h, clock) <==> forall h' | Continues(h', h, clock) :: OrdinaryDisjoint(h')
  {
    hide OrdinaryDisjoint;
    if CoversOpen(h, clock) {
      forall h' | Continues(h', h, clock)
        ensures OrdinaryDisjoint(h')
      {
        ContinuedDisjoint(h', h, clock);
      }
    } else {
      var i :| 0 <= i < |h| && !h[i].refreshed && clock < h[i].entry.expiresAt
               && h[|h| - 1].entry.expiresAt < h[i].entry.expiresAt;
      var h' := Uncovered(h, clock, i);
    }
  }

  lemma ContinuedDisjoint(h': seq<Fetch>, h: seq<Fetch>, clock: int)
    requires h != [] && OrdinaryDisjoint(h) && CoversOpen(h, clock) && Continues(h', h, clock)
    ensures OrdinaryDisjoint(h')
  {
    var later :| IsHistory(h', later);
    forall i, j, time | 0 <= i < j < |h'| && !h'[i].refreshed && !h'[j].refreshed
      ensures !(InWindow(h'[i].entry, time) && InWindow(h'[j].entry, time))
    {
      if j < |h| {
        assert h'[i] == h[i] && h'[j] == h[j];
      } else if |h| <= i + 1 {
        assert h'[i].entry.expiresAt <= h'[i + 1].entry.fetchedAt;
      } else {
        assert h'[i] == h[i] && h'[|h| - 1] == h[|h| - 1];
        assert h'[|h| - 1].entry.expiresAt <= h'[|h|].entry.fetchedAt;
      }
    }
  }

  /** An ordinary fetch as soon as it is admissible overlaps a window that is not covered. */
  lemma Uncovered(h: seq<Fetch>, clock: int, i: nat) returns (h': seq<Fetch>)
    requires i < |h| && IsHistory(h, clock) && !h[i].refreshed
    requires clock < h[i].entry.expiresAt && h[|h| - 1].entry.expiresAt < h[i].entry.expiresAt
    ensures Continues(h', h, clock) && !OrdinaryDisjoint(h')
  {
    var time := if clock <= h[|h| - 1].entry.expiresAt then h[|h| - 1].entry.expiresAt else clock;
    h' := h + [Fetch(Entry([], time, time + EMPTY_TTL), false)];
    assert IsHistory(h', time);
    assert h'[i] == h[i] && InWindow(h'[i].entry, time) && InWindow(h'[|h|].entry, time);
  }

  /** Every forced fetch covered what was open when it was made. */
  predicate ForcedCover(h: seq<Fetch>) {
    forall k | 0 <= k < |h| && h[k].refreshed :: CoversOpen(h[..k + 1], h[k].entry.fetchedAt)
  }

  /**
   Whole histories: no history that starts with a part of this one and goes on with ordinary fetches has ordinary
   windows that overlap, exactly when every forced fetch covered what was open when it was made.
   */
  lemma {:induction false} OrdinaryDisjointExactlyWhen(h: seq<Fetch>, clock: int)
    requires IsHistory(h, clock)
    ensures ForcedCover(h) <==>
            forall k, h' | 0 < k <= |h| && Continues(h', h[..k], h[k - 1].entry.fetchedAt) :: OrdinaryDisjoint(h')
    ensures ForcedCover(h) ==> OrdinaryDisjoint(h)
  {
    hide OrdinaryDisjoint, CoversOpen, Continues;
    if ForcedCover(h) {
      forall k, h' | 0 < k <= |h| && Continues(h', h[..k], h[k - 1].entry.fetchedAt)
        ensures OrdinaryDisjoint(h')
      {
        CoveredSoFar(h, clock, k);
        ContinuedDisjoint(h', h[..k], h[k - 1].entry.fetchedAt);
      }
      CoveredSoFar(h, clock, |h|);
      assert h[..|h|] == h;
    } else {
      var k :| 0 <= k < |h| && h[k].refreshed && !CoversOpen(h[..k + 1], h[k].entry.fetchedAt);
      var n := k + 1;
      NotCovered(h[..n], h[k].entry.fetchedAt);
      assert IsHistory(h[..n], h[k].entry.fetchedAt);
      assert h[n - 1] == h[k];
    }
  }

  lemma NotCovered(h: seq<Fetch>, clock: int)
    requires h != [] && IsHistory(h, clock) && !CoversOpen(h, clock)
    ensures exists h' :: Continues(h', h, clock) && !OrdinaryDisjoint(h')
  {
    hide OrdinaryDisjoint, Continues;
    var i :| 0 <= i < |h| && !h[i].refreshed && clock < h[i].entry.expiresAt
             && h[|h| - 1].entry.expiresAt < h[i].entry.expiresAt;
    var h' := Uncovered(h, clock, i);
  }

  /** An ordinary fetch covers what its predecessor covered, as it found that expired. */
  lemma {:induction false} CoveredSoFar(h: seq<Fetch>, clock: int, k: nat)
    requires IsHistory(h, clock) && ForcedCover(h) && k <= |h|
    ensures OrdinaryDisjoint(h[..k])
    ensures k > 0 ==> CoversOpen(h[..k], h[k - 1].entry.fetchedAt)
  {
    if k > 0 {
      CoveredSoFar(h, clock, k - 1);
      if !h[k - 1].refreshed && k > 1 {
        assert h[k - 2].entry.expiresAt <= h[k - 1].entry.fetchedAt;
        forall i | 0 <= i < k - 1 && !h[i].refreshed
          ensures h[i].entry.expiresAt <= h[k - 1].entry.fetchedAt
        {
          assert h[..k - 1][i] == h[i];
        }
      }
    }
  }

  /** A new process looks the query up and has to search for it. */
  method FetchOnce(table: Table, refresh: bool, key: string, found: Results, elapsed: nat)
    requires table.Valid() && (refresh || !IsFresh(table.rows, key, table.clock + elapsed))
    modifies table
    ensures table.Valid() && table.clock == old(table.clock) + elapsed
    ensures var entry := Entry(found, table.clock, table.clock + Ttl(found, 90 * 86400));
            && table.rows == old(table.rows)[key := entry]
            && table.histories == Extended(old(table.histories), key, Fetch(entry, refresh))
  {
    hide IsTable, Remembers, IsHistory, CountHits, Grown, IsCurrentAnswer, HistoryOf, Extended, Ttl;
    var cache := new QueryCache(refresh, 90, table);
    var answer := cache.Get(key, Fetched(found), 0, elapsed, 0);
  }

  /**
   A forced fetch in between can make two ordinary fetches overlap: an empty refreshed result expires after an
   hour and uncovers the query while the first result would still be valid.
   */
  method RefreshUncovers(found: Results) returns (ghost h: seq<Fetch>)
    requires found != []
    ensures |h| == 3 && IsHistory(h, 4000) && !h[0].refreshed && h[1].refreshed && !h[2].refreshed
    ensures InWindow(h[0].entry, 4000) && InWindow(h[2].entry, 4000)
  {
    hide IsTable, IsHistory;
    var table := new Table();
    FetchOnce(table, false, "q", found, 0);
    FetchOnce(table, true, "q", [], 10);
    FetchOnce(table, false, "q", found, 3990);
    h := HistoryOf(table.histories, "q");
    TableHistory(table.rows, table.histories, table.clock, "q");
  }

  lemma TableHistory(rows: map<string, Entry>, histories: Histories, clock: int, key: string)
    requires IsTable(rows, histories, clock)
    ensures IsHistory(HistoryOf(histories, key), clock)
  {
  }
}
