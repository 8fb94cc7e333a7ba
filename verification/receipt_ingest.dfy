/**
 Processing of one receipt: attempts, completion, retry resets and reprocess
 requests under one advisory lock, in any interleaving of workers and crashes.
 */
module ReceiptRows {
  import opened Options

  datatype Status = Processing | Failed | Succeeded | ReviewRequired

  datatype Row = Row(status: Status, attempts: nat)

  datatype Request = Request(attempts: nat, completed: bool)

  /** What the database holds about the receipt: its processing status and its reprocess requests. */
  datatype Rows = Rows(status: Option<Row>, requests: map<nat, Request>)

  /** The arguments of one call: refresh, request and attempt limit. */
  datatype Job = Job(refresh: bool, request: Option<nat>, limit: Option<nat>)

  datatype Verdict =
    | Invalid            // a reprocess request that does not refresh
    | Skip               // already completed
    | RequestExhausted   // rolled back
    | ReceiptExhausted   // recorded as failed
    | Proceed

  predicate IsCompleted(s: Status) {
    s == Succeeded || s == ReviewRequired
  }

  predicate Done(rows: Rows) {
    rows.status.Some? && IsCompleted(rows.status.value.status)
  }

  function RequestOf(rows: Rows, id: nat): Request {
    if id in rows.requests then rows.requests[id] else Request(0, false)
  }

  function Attempts(rows: Rows): nat {
    if rows.status.Some? then rows.status.value.attempts else 0
  }

  /** The decisions taken before the attempt starts, in the order the code takes them. */
  function Decide(rows: Rows, job: Job): Verdict {
    if job.request.Some? && !job.refresh then Invalid
    else if job.request.Some? && RequestOf(rows, job.request.value).completed then Skip
    else if job.request.Some? && job.limit.Some? && RequestOf(rows, job.request.value).attempts >= job.limit.value then
      RequestExhausted
    else if !job.refresh && Done(rows) then Skip
    else if job.request == None && job.limit.Some? && rows.status.Some?
            && rows.status.value.attempts >= job.limit.value then
      ReceiptExhausted
    else Proceed
  }

  /** Which receipts are worked on, and what becomes of the others. */
  lemma DecisionsMean(rows: Rows, job: Job)
    ensures Decide(rows, job) == Proceed <==>
            && (job.request.Some? ==>
                  var r := RequestOf(rows, job.request.value);
                  job.refresh && !r.completed && (job.limit.Some? ==> r.attempts < job.limit.value))
            && (job.refresh || rows.status == None
                || rows.status.value.status == Processing || rows.status.value.status == Failed)
            && (job.request == None && job.limit.Some? && rows.status.Some? ==>
                  rows.status.value.attempts < job.limit.value)
    ensures Decide(rows, job) == Skip ==>
            || (job.request.Some? && RequestOf(rows, job.request.value).completed)
            || (!job.refresh && rows.status.Some?
                && (rows.status.value.status == Succeeded || rows.status.value.status == ReviewRequired))
    ensures Decide(rows, job) == Invalid <==> job.request.Some? && !job.refresh
    ensures Decide(rows, job) == RequestExhausted ==>
              job.request.Some? && job.limit.Some? && RequestOf(rows, job.request.value).attempts >= job.limit.value
    ensures Decide(rows, job) == ReceiptExhausted ==>
              && job.request == None && job.limit.Some? && rows.status.Some?
              && rows.status.value.attempts >= job.limit.value
  {
  }

  /** `_mark_processing`, together with the attempt counted on the request in the same transaction. */
  function Started(rows: Rows, job: Job): Rows {
    Rows(Some(Row(Processing, Attempts(rows) + 1)),
         if job.request.Some?
         then var r := RequestOf(rows, job.request.value);
              rows.requests[job.request.value := r.(attempts := r.attempts + 1)]
         else rows.requests)
  }

  /** `_mark_failed`. */
  function MarkedFailed(rows: Rows): Rows {
    rows.(status := Some(Row(Failed, if rows.status.Some? then rows.status.value.attempts else 1)))
  }

  /** `_mark_completed` and the request's completion. */
  function Finished(rows: Rows, job: Job, status: Status): Rows {
    Rows(Some(Row(status, if rows.status.Some? then rows.status.value.attempts else 1)),
         if job.request.Some? && job.request.value in rows.requests
         then rows.requests[job.request.value := rows.requests[job.request.value].(completed := true)]
         else rows.requests)
  }

  predicate Resettable(rows: Rows) {
    rows.status.Some? && !IsCompleted(rows.status.value.status)
  }

  /** `reset_receipt_for_retry`. */
  function Reset(rows: Rows): Rows {
    rows.(status := Some(Row(Failed, 0)))
  }
}

/** The interleaving of workers, crashes and resets. */
module ReceiptProtocol {
  import opened Options
  import opened ReceiptRows

  /** A `Stray` has lost its database session, and its lock with it, but still goes on to OCR. */
  datatype Phase = Waiting | Checking | Running | Parsed | Ended | Stray | Gone

  /**
   `ocr` counts OCR runs since the last reset, `strays` the workers that were about to run OCR at that reset;
   `requestOcr` and `completions` count per request.
   */
  datatype System = System(rows: Rows, phases: seq<Phase>, lock: Option<nat>, ocr: nat, strays: nat,
                           requestOcr: map<nat, nat>, completions: map<nat, nat>)

  function Count(m: map<nat, nat>, id: nat): nat {
    if id in m then m[id] else 0
  }

  function Bump(m: map<nat, nat>, request: Option<nat>): map<nat, nat> {
    if request.Some? then m[request.value := Count(m, request.value) + 1] else m
  }

  datatype Action =
    | Acquire(w: nat)
    | Check(w: nat)
    | FailToStart(w: nat)
    | RunOcr(w: nat)
    | Complete(w: nat, status: Status)
    | Fail(w: nat, recorded: bool)
    | Release(w: nat)
    | Crash(w: nat)
    | LoseSession(w: nat)
    | ResetForRetry

  predicate HoldsLock(p: Phase) {
    p == Checking || p == Running || p == Parsed || p == Ended
  }

  /** The next thing this worker does is OCR. */
  predicate Owes(p: Phase) {
    p == Running || p == Stray
  }

  /** The workers about to run OCR, all of them or those of one request. */
  function Owing(jobs: seq<Job>, phases: seq<Phase>, request: Option<nat>): set<nat>
    requires |jobs| == |phases|
  {
    set w | 0 <= w < |phases| && Owes(phases[w]) && Concerns(jobs[w], request)
  }

  predicate Concerns(job: Job, request: Option<nat>) {
    request == None || job.request == request
  }

  /**
   A worker whose session is lost before its attempt is committed, or after OCR, commits nothing more: that is a
   crash.  In between it runs OCR without the lock.
   */
  predicate Enabled(jobs: seq<Job>, s: System, a: Action) {
    match a
    case Acquire(w) => w < |jobs| == |s.phases| && s.phases[w] == Waiting && s.lock == None
    case Check(w) => w < |jobs| == |s.phases| && s.phases[w] == Checking
    case FailToStart(w) => w < |jobs| == |s.phases| && s.phases[w] == Checking && Decide(s.rows, jobs[w]) == Proceed
    case RunOcr(w) => w < |jobs| == |s.phases| && Owes(s.phases[w])
    case Complete(w, status) => w < |jobs| == |s.phases| && s.phases[w] == Parsed && IsCompleted(status)
    case Fail(w, _) => w < |jobs| == |s.phases| && (s.phases[w] == Running || s.phases[w] == Parsed)
    case Release(w) => w < |jobs| == |s.phases| && s.phases[w] == Ended
    case Crash(w) => w < |jobs| == |s.phases|
    case LoseSession(w) => w < |jobs| == |s.phases| && s.phases[w] == Running
    case ResetForRetry => |jobs| == |s.phases| && s.lock == None && Resettable(s.rows)
  }

  function Move(s: System, w: nat, p: Phase): System
    requires w < |s.phases|
  {
    s.(phases := s.phases[w := p])
  }

  /** One step; a transaction takes effect as a whole when it commits. */
  function Next(jobs: seq<Job>, s: System, a: Action): System
    requires Enabled(jobs, s, a)
  {
    match a
    case Acquire(w) => Move(s.(lock := Some(w)), w, Checking)
    case Check(w) =>
      (match Decide(s.rows, jobs[w])
       case Proceed => Move(s.(rows := Started(s.rows, jobs[w])), w, Running)
       case ReceiptExhausted => Move(s.(rows := MarkedFailed(s.rows)), w, Ended)
       case _ => Move(s, w, Ended))
    case FailToStart(w) => Move(s.(rows := MarkedFailed(s.rows)), w, Ended)
    case RunOcr(w) =>
      Move(s.(ocr := s.ocr + 1, requestOcr := Bump(s.requestOcr, jobs[w].request)), w,
           if s.phases[w] == Stray then Gone else Parsed)
    case Complete(w, status) =>
      Move(s.(rows := Finished(s.rows, jobs[w], status), completions := Bump(s.completions, jobs[w].request)), w, Ended)
    case Fail(w, recorded) => Move(if recorded then s.(rows := MarkedFailed(s.rows)) else s, w, Ended)
    case Release(w) => Move(s.(lock := None), w, Gone)
    case Crash(w) => Move(if HoldsLock(s.phases[w]) then s.(lock := None) else s, w, Gone)
    case LoseSession(w) => Move(s.(lock := None), w, Stray)
    case ResetForRetry => s.(rows := Reset(s.rows), ocr := 0, strays := |Owing(jobs, s.phases, None)|)
  }

  predicate Init(jobs: seq<Job>, s: System) {
    && |s.phases| == |jobs| && (forall w | 0 <= w < |jobs| :: s.phases[w] == Waiting)
    && s.lock == None && s.ocr == 0 && s.strays == 0 && s.requestOcr == map[] && s.completions == map[]
    && s.rows == Rows(None, map[])
  }

  predicate LockOk(s: System) {
    && (forall w | 0 <= w < |s.phases| && HoldsLock(s.phases[w]) :: s.lock == Some(w))
    && (s.lock.Some? ==> s.lock.value < |s.phases| && HoldsLock(s.phases[s.lock.value]))
  }

  predicate Active(s: System, w: nat) {
    w < |s.phases| && (s.phases[w] == Running || s.phases[w] == Parsed)
  }

  /** What the lock holder, in the middle of an attempt, has committed. */
  predicate AttemptOk(jobs: seq<Job>, s: System, w: nat)
    requires w < |jobs|
  {
    && s.rows.status.Some? && s.rows.status.value.status == Processing
    && (jobs[w].request.Some? ==>
          var r := jobs[w].request.value; r in s.rows.requests && !s.rows.requests[r].completed)
  }

  /**
   OCR runs since the last reset, done or about to be done, were paid for by attempts, but for that reset's strays.
   */
  predicate ReceiptPaid(jobs: seq<Job>, s: System)
    requires |jobs| == |s.phases|
  {
    s.ocr + |Owing(jobs, s.phases, None)| <= Attempts(s.rows) + s.strays
  }

  predicate HolderOk(jobs: seq<Job>, s: System)
    requires |jobs| == |s.phases|
  {
    s.lock.Some? && Active(s, s.lock.value) ==> AttemptOk(jobs, s, s.lock.value)
  }

  /** The OCR runs of each request, done or about to be done, were paid for by its attempts. */
  ghost predicate RequestsPaid(jobs: seq<Job>, s: System)
    requires |jobs| == |s.phases|
  {
    && (forall r: nat :: Count(s.requestOcr, r) + |Owing(jobs, s.phases, Some(r))| <= RequestOf(s.rows, r).attempts)
    && (forall r: nat :: Count(s.completions, r) == if RequestOf(s.rows, r).completed then 1 else 0)
  }

  ghost predicate Counted(jobs: seq<Job>, s: System)
    requires |jobs| == |s.phases|
  {
    ReceiptPaid(jobs, s) && HolderOk(jobs, s) && RequestsPaid(jobs, s)
  }

  ghost predicate Inv(jobs: seq<Job>, s: System) {
    |jobs| == |s.phases| && LockOk(s) && Counted(jobs, s)
  }

  lemma StepKeepsLock(jobs: seq<Job>, s: System, a: Action)
    requires |jobs| == |s.phases| && LockOk(s) && Enabled(jobs, s, a)
    ensures |jobs| == |Next(jobs, s, a).phases| && LockOk(Next(jobs, s, a))
  {
    hide Decide, Started, MarkedFailed, Finished, Reset, Bump;
  }

  lemma OwingMove(jobs: seq<Job>, phases: seq<Phase>, w: nat, p: Phase, request: Option<nat>)
    requires w < |jobs| == |phases|
    ensures var here := if Concerns(jobs[w], request) then 1 else 0;
            |Owing(jobs, phases[w := p], request)| ==
            |Owing(jobs, phases, request)| + (if Owes(p) then here else 0) - if Owes(phases[w]) then here else 0
  {
    hide Owes, Concerns;
    var before, after := Owing(jobs, phases, request), Owing(jobs, phases[w := p], request);
    assert after - {w} == before - {w};
    if w in before {
      assert before == before - {w} + {w};
    } else {
      assert before == before - {w};
    }
    if w in after {
      assert after == after - {w} + {w};
    } else {
      assert after == after - {w};
    }
  }

  lemma OwingAllMove(jobs: seq<Job>, phases: seq<Phase>, w: nat, p: Phase)
    requires w < |jobs| == |phases|
    ensures |Owing(jobs, phases[w := p], None)| ==
            |Owing(jobs, phases, None)| + (if Owes(p) then 1 else 0) - if Owes(phases[w]) then 1 else 0
    ensures forall r: nat :: |Owing(jobs, phases[w := p], Some(r))| ==
              |Owing(jobs, phases, Some(r))|
              + (if Owes(p) && jobs[w].request == Some(r) then 1 else 0)
              - if Owes(phases[w]) && jobs[w].request == Some(r) then 1 else 0
  {
    hide Owing, Owes;
    OwingMove(jobs, phases, w, p, None);
    forall r: nat {
      OwingMove(jobs, phases, w, p, Some(r));
    }
  }

  lemma CheckKeepsCounts(jobs: seq<Job>, s: System, w: nat)
    requires Inv(jobs, s) && Enabled(jobs, s, Check(w)) && |Next(jobs, s, Check(w)).phases| == |jobs|
    ensures Counted(jobs, Next(jobs, s, Check(w)))
  {
    var s' := Next(jobs, s, Check(w));
    OwingAllMove(jobs, s.phases, w, s'.phases[w]);
    CheckKeepsRequests(jobs, s, w);
    assert s.lock == Some(w);
    hide LockOk, Owing, RequestsPaid;
  }

  lemma StartedRequests(rows: Rows, job: Job, r: nat)
    ensures var before, after := RequestOf(rows, r), RequestOf(Started(rows, job), r);
            && after.attempts == before.attempts + (if job.request == Some(r) then 1 else 0)
            && after.completed == before.completed
  {
  }

  /** One worker moves on; no OCR is run and no request completes. */
  predicate IsMove(s: System, s': System, w: nat, p: Phase) {
    && w < |s.phases| && s'.phases == s.phases[w := p]
    && s'.requestOcr == s.requestOcr && s'.completions == s.completions
  }

  lemma CheckMoves(jobs: seq<Job>, s: System, w: nat)
    requires Enabled(jobs, s, Check(w))
    ensures var s' := Next(jobs, s, Check(w));
            && w < |jobs| == |s.phases| && !Owes(s.phases[w])
            && if Decide(s.rows, jobs[w]) == Proceed
               then IsMove(s, s', w, Running) && s'.rows == Started(s.rows, jobs[w])
               else IsMove(s, s', w, Ended) && s'.rows.requests == s.rows.requests
  {
    hide Decide, Started;
  }

  lemma CheckKeepsRequests(jobs: seq<Job>, s: System, w: nat)
    requires Inv(jobs, s) && Enabled(jobs, s, Check(w)) && |Next(jobs, s, Check(w)).phases| == |jobs|
    ensures RequestsPaid(jobs, Next(jobs, s, Check(w)))
  {
    var s' := Next(jobs, s, Check(w));
    CheckMoves(jobs, s, w);
    hide Next, Enabled, Decide, LockOk, Owing, HolderOk, ReceiptPaid, Started;
    forall r: nat
      ensures Count(s'.requestOcr, r) + |Owing(jobs, s'.phases, Some(r))| <= RequestOf(s'.rows, r).attempts
      ensures Count(s'.completions, r) == if RequestOf(s'.rows, r).completed then 1 else 0
    {
      OwingMove(jobs, s.phases, w, s'.phases[w], Some(r));
      StartedRequests(s.rows, jobs[w], r);
      assert Count(s.requestOcr, r) + |Owing(jobs, s.phases, Some(r))| <= RequestOf(s.rows, r).attempts;
    }
  }

  lemma CompleteKeepsCounts(jobs: seq<Job>, s: System, w: nat, status: Status)
    requires Inv(jobs, s) && Enabled(jobs, s, Complete(w, status))
             && |Next(jobs, s, Complete(w, status)).phases| == |jobs|
    ensures Counted(jobs, Next(jobs, s, Complete(w, status)))
  {
    assert s.lock == Some(w) && AttemptOk(jobs, s, w);
    var s' := Next(jobs, s, Complete(w, status));
    OwingAllMove(jobs, s.phases, w, Ended);
    hide Owing;
    forall r: nat
      ensures Count(s'.requestOcr, r) + |Owing(jobs, s'.phases, Some(r))| <= RequestOf(s'.rows, r).attempts
      ensures Count(s'.completions, r) == if RequestOf(s'.rows, r).completed then 1 else 0
    {
      assert Count(s.requestOcr, r) + |Owing(jobs, s.phases, Some(r))| <= RequestOf(s.rows, r).attempts;
      assert Count(s.completions, r) == if RequestOf(s.rows, r).completed then 1 else 0;
    }
  }

  lemma RunKeepsCounts(jobs: seq<Job>, s: System, w: nat)
    requires Inv(jobs, s) && Enabled(jobs, s, RunOcr(w)) && |Next(jobs, s, RunOcr(w)).phases| == |jobs|
    ensures Counted(jobs, Next(jobs, s, RunOcr(w)))
  {
    var s' := Next(jobs, s, RunOcr(w));
    OwingAllMove(jobs, s.phases, w, s'.phases[w]);
    hide Owing;
    forall r: nat
      ensures Count(s'.requestOcr, r) + |Owing(jobs, s'.phases, Some(r))| <= RequestOf(s'.rows, r).attempts
    {
      assert Count(s.requestOcr, r) + |Owing(jobs, s.phases, Some(r))| <= RequestOf(s.rows, r).attempts;
    }
  }

  lemma StepKeepsInv(jobs: seq<Job>, s: System, a: Action)
    requires Inv(jobs, s) && Enabled(jobs, s, a)
    ensures Inv(jobs, Next(jobs, s, a))
  {
    StepKeepsLock(jobs, s, a);
    match a
    case Check(w) => CheckKeepsCounts(jobs, s, w);
    case Complete(w, status) => CompleteKeepsCounts(jobs, s, w, status);
    case RunOcr(w) => RunKeepsCounts(jobs, s, w);
    case _ => OtherKeepsCounts(jobs, s, a);
  }

  lemma OtherKeepsCounts(jobs: seq<Job>, s: System, a: Action)
    requires Inv(jobs, s) && Enabled(jobs, s, a) && !a.Check? && !a.Complete? && !a.RunOcr?
    requires |Next(jobs, s, a).phases| == |jobs| && LockOk(Next(jobs, s, a))
    ensures Counted(jobs, Next(jobs, s, a))
  {
    OtherKeepsRequests(jobs, s, a);
    var s' := Next(jobs, s, a);
    if !a.ResetForRetry? {
      OwingAllMove(jobs, s.phases, a.w, s'.phases[a.w]);
    }
    hide Decide, Owing, RequestsPaid;
  }

  lemma OtherMoves(jobs: seq<Job>, s: System, a: Action)
    requires Enabled(jobs, s, a) && !a.Check? && !a.Complete? && !a.RunOcr?
    requires |jobs| == |s.phases|
    ensures var s' := Next(jobs, s, a);
            && s'.rows.requests == s.rows.requests && s'.requestOcr == s.requestOcr && s'.completions == s.completions
            && if a.ResetForRetry? then s'.phases == s.phases
               else IsMove(s, s', a.w, s'.phases[a.w]) && (Owes(s'.phases[a.w]) ==> Owes(s.phases[a.w]))
  {
    hide Decide;
  }

  lemma OtherKeepsRequests(jobs: seq<Job>, s: System, a: Action)
    requires Inv(jobs, s) && Enabled(jobs, s, a) && !a.Check? && !a.Complete? && !a.RunOcr?
    requires |Next(jobs, s, a).phases| == |jobs|
    ensures RequestsPaid(jobs, Next(jobs, s, a))
  {
    var s' := Next(jobs, s, a);
    OtherMoves(jobs, s, a);
    hide Next, Enabled, Decide, LockOk, Owing, HolderOk, ReceiptPaid;
    forall r: nat
      ensures Count(s'.requestOcr, r) + |Owing(jobs, s'.phases, Some(r))| <= RequestOf(s'.rows, r).attempts
      ensures Count(s'.completions, r) == if RequestOf(s'.rows, r).completed then 1 else 0
    {
      if !a.ResetForRetry? {
        OwingMove(jobs, s.phases, a.w, s'.phases[a.w], Some(r));
      }
      assert Count(s.requestOcr, r) + |Owing(jobs, s.phases, Some(r))| <= RequestOf(s.rows, r).attempts;
      assert RequestOf(s'.rows, r) == RequestOf(s.rows, r);
    }
  }

  /** No worker refreshes: then a completed receipt is never touched again. */
  predicate NoRefresh(jobs: seq<Job>) {
    forall w | 0 <= w < |jobs| :: !jobs[w].refresh
  }

  // Bounds.

  predicate LimitedTo(job: Job, bound: nat) {
    job.limit.Some? && job.limit.value <= bound
  }

  lemma AttemptsStayBounded(jobs: seq<Job>, s: System, a: Action, bound: nat)
    requires Inv(jobs, s) && Enabled(jobs, s, a) && NoRefresh(jobs) && bound >= 1
    requires forall w | 0 <= w < |jobs| :: LimitedTo(jobs[w], bound)
    requires Attempts(s.rows) <= bound
    ensures Attempts(Next(jobs, s, a).rows) <= bound
  {
    if a.Check? {
      assert LimitedTo(jobs[a.w], bound) && !jobs[a.w].refresh;
    }
  }

  lemma RequestAttemptsStayBounded(jobs: seq<Job>, s: System, a: Action, r: nat, bound: nat)
    requires Inv(jobs, s) && Enabled(jobs, s, a)
    requires forall w | 0 <= w < |jobs| && jobs[w].request == Some(r) :: LimitedTo(jobs[w], bound)
    requires RequestOf(s.rows, r).attempts <= bound
    ensures RequestOf(Next(jobs, s, a).rows, r).attempts <= bound
  {
    if a.Check? && jobs[a.w].request == Some(r) {
      assert LimitedTo(jobs[a.w], bound);
    }
  }

  // Whole runs.

  ghost predicate IsRun(jobs: seq<Job>, run: seq<System>, actions: seq<Action>) {
    && |run| == |actions| + 1 && Init(jobs, run[0])
    && forall i {:trigger actions[i]} | 0 <= i < |actions| ::
         Enabled(jobs, run[i], actions[i]) && run[i + 1] == Next(jobs, run[i], actions[i])
  }

  lemma {:induction false} RunKeepsInv(jobs: seq<Job>, run: seq<System>, actions: seq<Action>, i: nat)
    requires IsRun(jobs, run, actions) && i < |run|
    ensures Inv(jobs, run[i])
  {
    if i > 0 {
      hide Inv, Next, Init;
      RunKeepsInv(jobs, run, actions, i - 1);
      assert run[i] == Next(jobs, run[i - 1], actions[i - 1]);
      StepKeepsInv(jobs, run[i - 1], actions[i - 1]);
    }
  }

  lemma RunStep(jobs: seq<Job>, run: seq<System>, actions: seq<Action>, i: nat)
    requires IsRun(jobs, run, actions) && i < |actions|
    ensures Inv(jobs, run[i]) && Enabled(jobs, run[i], actions[i]) && run[i + 1] == Next(jobs, run[i], actions[i])
  {
    RunKeepsInv(jobs, run, actions, i);
  }

  /** Without refreshing workers a completed receipt never changes again, whatever is reset or crashes. */
  lemma {:induction false} CompletionIsFinal(jobs: seq<Job>, run: seq<System>, actions: seq<Action>, i: nat, j: nat)
    requires IsRun(jobs, run, actions) && NoRefresh(jobs) && i <= j < |run| && Done(run[i].rows)
    ensures run[j].rows == run[i].rows
    decreases j
  {
    assert |run| == |actions| + 1;
    hide Inv, Next, Init, Enabled, IsRun, NoRefresh, Done;
    if i < j {
      CompletionIsFinal(jobs, run, actions, i, j - 1);
      RunStep(jobs, run, actions, j - 1);
    }
  }

  /** No reset among the first `i` actions meets a stray. */
  predicate ResetsMeetNoStray(run: seq<System>, actions: seq<Action>, i: nat)
    requires i <= |actions| < |run|
  {
    forall k | 0 <= k < i && actions[k].ResetForRetry? :: Stray !in run[k].phases
  }

  /**
   Attempts stay within the limit, and OCR runs since the last reset within attempts plus the strays of that reset.
   They exceed the limit only if some reset met a stray.
   */
  lemma {:induction false} AttemptsAreBounded(jobs: seq<Job>, run: seq<System>, actions: seq<Action>, i: nat,
                                              bound: nat)
    requires IsRun(jobs, run, actions) && NoRefresh(jobs) && bound >= 1 && i < |run|
    requires forall w | 0 <= w < |jobs| :: LimitedTo(jobs[w], bound)
    ensures Attempts(run[i].rows) <= bound && run[i].ocr <= Attempts(run[i].rows) + run[i].strays
    ensures ResetsMeetNoStray(run, actions, i) ==> run[i].strays == 0 && run[i].ocr <= bound
  {
    RunKeepsInv(jobs, run, actions, i);
    OcrIsPaid(jobs, run[i]);
    if i > 0 {
      AttemptsAreBounded(jobs, run, actions, i - 1, bound);
      RunStep(jobs, run, actions, i - 1);
      hide Inv, Next, Init, Enabled;
      AttemptsStayBounded(jobs, run[i - 1], actions[i - 1], bound);
      StraysAt(jobs, run[i - 1], actions[i - 1]);
    }
  }

  lemma OcrIsPaid(jobs: seq<Job>, s: System)
    requires Inv(jobs, s)
    ensures s.ocr <= Attempts(s.rows) + s.strays
    ensures forall r: nat :: Count(s.requestOcr, r) <= RequestOf(s.rows, r).attempts && Count(s.completions, r) <= 1
  {
    hide Owing;
  }

  lemma StraysAt(jobs: seq<Job>, s: System, a: Action)
    requires Inv(jobs, s) && Enabled(jobs, s, a)
    ensures !a.ResetForRetry? ==> Next(jobs, s, a).strays == s.strays
    ensures a.ResetForRetry? && Stray !in s.phases ==> Next(jobs, s, a).strays == 0
  {
    hide Counted, Decide;
    if a.ResetForRetry? && Stray !in s.phases {
      NobodyOwes(jobs, s);
    }
  }

  lemma NobodyOwes(jobs: seq<Job>, s: System)
    requires |jobs| == |s.phases| && LockOk(s) && s.lock == None && Stray !in s.phases
    ensures Owing(jobs, s.phases, None) == {}
  {
  }

  // One attempt allowed, two workers.

  const ONE_ATTEMPT := [Job(false, None, Some(1)), Job(false, None, Some(1))]

  function Scene(status: Option<Row>, first: Phase, second: Phase, lock: Option<nat>, ocr: nat, strays: nat): System {
    System(Rows(status, map[]), [first, second], lock, ocr, strays, map[], map[])
  }

  predicate Leads(s: System, a: Action, s': System) {
    Enabled(ONE_ATTEMPT, s, a) && Next(ONE_ATTEMPT, s, a) == s'
  }

  lemma FirstScene()
    ensures var attempt := Some(Row(Processing, 1));
            && Leads(Scene(None, Waiting, Waiting, None, 0, 0), Acquire(0),
                     Scene(None, Checking, Waiting, Some(0), 0, 0))
            && Leads(Scene(None, Checking, Waiting, Some(0), 0, 0), Check(0),
                     Scene(attempt, Running, Waiting, Some(0), 0, 0))
            && Leads(Scene(attempt, Running, Waiting, Some(0), 0, 0), LoseSession(0),
                     Scene(attempt, Stray, Waiting, None, 0, 0))
  {
  }

  lemma ResetScene()
    ensures Leads(Scene(Some(Row(Processing, 1)), Stray, Waiting, None, 0, 0), ResetForRetry,
                  Scene(Some(Row(Failed, 0)), Stray, Waiting, None, 0, 1))
  {
    assert Owing(ONE_ATTEMPT, [Stray, Waiting], None) == {0};
  }

  lemma SecondScene()
    ensures var reset, attempt := Some(Row(Failed, 0)), Some(Row(Processing, 1));
            && Leads(Scene(reset, Stray, Waiting, None, 0, 1), Acquire(1), Scene(reset, Stray, Checking, Some(1), 0, 1))
            && Leads(Scene(reset, Stray, Checking, Some(1), 0, 1), Check(1),
                     Scene(attempt, Stray, Running, Some(1), 0, 1))
            && Leads(Scene(attempt, Stray, Running, Some(1), 0, 1), RunOcr(1),
                     Scene(attempt, Stray, Parsed, Some(1), 1, 1))
            && Leads(Scene(attempt, Stray, Parsed, Some(1), 1, 1), RunOcr(0),
                     Scene(attempt, Gone, Parsed, Some(1), 2, 1))
  {
  }

  /**
   The first worker commits the one attempt that the limit allows and loses its session; a reset clears the attempts,
   the second worker runs OCR, and the first one as well: two OCR runs since the reset.
   */
  lemma StrayExceedsLimit() returns (run: seq<System>, actions: seq<Action>)
    ensures IsRun(ONE_ATTEMPT, run, actions) && forall w | 0 <= w < 2 :: LimitedTo(ONE_ATTEMPT[w], 1)
    ensures run[|actions|].ocr == 2 && run[|actions|].strays == 1 && Attempts(run[|actions|].rows) == 1
  {
    FirstScene();
    ResetScene();
    SecondScene();
    var reset, attempt := Some(Row(Failed, 0)), Some(Row(Processing, 1));
    run := [Scene(None, Waiting, Waiting, None, 0, 0), Scene(None, Checking, Waiting, Some(0), 0, 0),
            Scene(attempt, Running, Waiting, Some(0), 0, 0), Scene(attempt, Stray, Waiting, None, 0, 0),
            Scene(reset, Stray, Waiting, None, 0, 1), Scene(reset, Stray, Checking, Some(1), 0, 1),
            Scene(attempt, Stray, Running, Some(1), 0, 1), Scene(attempt, Stray, Parsed, Some(1), 1, 1),
            Scene(attempt, Gone, Parsed, Some(1), 2, 1)];
    actions := [Acquire(0), Check(0), LoseSession(0), ResetForRetry, Acquire(1), Check(1), RunOcr(1), RunOcr(0)];
    assert Init(ONE_ATTEMPT, run[0]);
    hide Init, Next, Enabled, Scene;
  }

  // When a reset lets OCR exceed the limit.

  /** These actions, none of them a reset, lead from `s` to `last`. */
  ghost predicate Reaches(jobs: seq<Job>, s: System, actions: seq<Action>, last: System)
    decreases |actions|
  {
    if actions == [] then last == s
    else
      !actions[0].ResetForRetry? && Enabled(jobs, s, actions[0])
      && Reaches(jobs, Next(jobs, s, actions[0]), actions[1..], last)
  }

  lemma {:induction false} ReachesOn(jobs: seq<Job>, s: System, a: seq<Action>, t: System, b: seq<Action>, last: System)
    requires Reaches(jobs, s, a, t) && Reaches(jobs, t, b, last)
    ensures Reaches(jobs, s, a + b, last)
    decreases |a|
  {
    hide Enabled, Next;
    if a == [] {
      assert a + b == b;
    } else {
      ReachesOn(jobs, Next(jobs, s, a[0]), a[1..], t, b, last);
      assert (a + b)[0] == a[0] && (a + b)[1..] == a[1..] + b;
    }
  }

  lemma {:induction false} ContinuationIsBounded(jobs: seq<Job>, s: System, actions: seq<Action>, last: System,
                                                 bound: nat)
    requires Inv(jobs, s) && NoRefresh(jobs) && bound >= 1 && s.strays == 0 && Attempts(s.rows) <= bound
    requires (forall w | 0 <= w < |jobs| :: LimitedTo(jobs[w], bound)) && Reaches(jobs, s, actions, last)
    ensures last.ocr <= bound
    decreases |actions|
  {
    hide Inv, Enabled, Next;
    if actions == [] {
      OcrIsPaid(jobs, s);
    } else {
      StepKeepsInv(jobs, s, actions[0]);
      StraysAt(jobs, s, actions[0]);
      AttemptsStayBounded(jobs, s, actions[0], bound);
      ContinuationIsBounded(jobs, Next(jobs, s, actions[0]), actions[1..], last, bound);
    }
  }

  predicate CanAttempt(jobs: seq<Job>, s: System, w: nat, bound: nat) {
    w < |jobs| == |s.phases| && s.phases[w] == Waiting && jobs[w] == Job(false, None, Some(bound))
  }

  /** An attempt that runs OCR and then fails. */
  function FailedAttempt(w: nat): seq<Action> {
    [Acquire(w), Check(w), RunOcr(w), Fail(w, true), Release(w)]
  }

  lemma AttemptFails(jobs: seq<Job>, s: System, w: nat, bound: nat) returns (last: System)
    requires CanAttempt(jobs, s, w, bound) && s.lock == None && Resettable(s.rows) && Attempts(s.rows) < bound
    ensures Reaches(jobs, s, FailedAttempt(w), last)
    ensures last.lock == None && Resettable(last.rows) && Attempts(last.rows) == Attempts(s.rows) + 1
    ensures last.ocr == s.ocr + 1 && last.phases == s.phases[w := Gone]
  {
    var s1 := Next(jobs, s, Acquire(w));
    var s2 := Next(jobs, s1, Check(w));
    var s3 := Next(jobs, s2, RunOcr(w));
    var s4 := Next(jobs, s3, Fail(w, true));
    last := Next(jobs, s4, Release(w));
    ReachesInFive(jobs, [s, s1, s2, s3, s4, last], FailedAttempt(w));
  }

  lemma ReachesInFive(jobs: seq<Job>, states: seq<System>, actions: seq<Action>)
    requires |states| == 6 && |actions| == 5
    requires forall i, j | 0 <= i && j == i + 1 < 6 ::
               !actions[i].ResetForRetry? && Enabled(jobs, states[i], actions[i])
                 && states[j] == Next(jobs, states[i], actions[i])
    ensures Reaches(jobs, states[0], actions, states[5])
  {
    hide Enabled, Next;
    assert Reaches(jobs, states[5], actions[5..], states[5]);
    assert actions[4..][1..] == actions[5..] && actions[3..][1..] == actions[4..] && actions[2..][1..] == actions[3..];
    assert actions[1..][1..] == actions[2..];
    assert Reaches(jobs, states[4], actions[4..], states[5]);
    assert Reaches(jobs, states[3], actions[3..], states[5]);
    assert Reaches(jobs, states[2], actions[2..], states[5]);
    assert Reaches(jobs, states[1], actions[1..], states[5]);
  }

  /** Waiting workers can spend all attempts that are left on OCR. */
  lemma {:induction false} AttemptsAreSpent(jobs: seq<Job>, s: System, waiting: seq<nat>, bound: nat)
    returns (actions: seq<Action>, last: System)
    requires s.lock == None && Resettable(s.rows) && Attempts(s.rows) + |waiting| <= bound
    requires forall k | 0 <= k < |waiting| :: CanAttempt(jobs, s, waiting[k], bound)
    requires forall k, l | 0 <= k < l < |waiting| :: waiting[k] != waiting[l]
    ensures Reaches(jobs, s, actions, last) && last.ocr == s.ocr + |waiting| && |last.phases| == |s.phases|
    ensures forall w | 0 <= w < |s.phases| && w !in waiting :: last.phases[w] == s.phases[w]
    decreases |waiting|
  {
    hide Enabled, Next;
    if waiting == [] {
      actions, last := [], s;
    } else {
      var t := AttemptFails(jobs, s, waiting[0], bound);
      hide Reaches;
      var more;
      more, last := AttemptsAreSpent(jobs, t, waiting[1..], bound);
      ReachesOn(jobs, s, FailedAttempt(waiting[0]), t, more, last);
      actions := FailedAttempt(waiting[0]) + more;
    }
  }

  /**
   With enough workers waiting, a reset keeps OCR runs within the limit until the next one exactly when it meets no
   stray.
   */
  lemma ResetIsSafeExactlyWhen(jobs: seq<Job>, s: System, waiting: seq<nat>, bound: nat)
    requires Inv(jobs, s) && Enabled(jobs, s, ResetForRetry) && NoRefresh(jobs) && bound >= 1
    requires (forall w | 0 <= w < |jobs| :: LimitedTo(jobs[w], bound)) && |waiting| == bound
    requires forall k | 0 <= k < |waiting| :: CanAttempt(jobs, s, waiting[k], bound)
    requires forall k, l | 0 <= k < l < |waiting| :: waiting[k] != waiting[l]
    ensures Stray !in s.phases <==>
            forall actions, last | Reaches(jobs, Next(jobs, s, ResetForRetry), actions, last) :: last.ocr <= bound
  {
    var reset := Next(jobs, s, ResetForRetry);
    StepKeepsInv(jobs, s, ResetForRetry);
    if Stray in s.phases {
      var actions, last := AttemptsAreSpent(jobs, reset, waiting, bound);
      var w: nat :| w < |s.phases| && s.phases[w] == Stray;
      StrayRuns(jobs, last, w);
      ReachesOn(jobs, reset, actions, last, [RunOcr(w)], Next(jobs, last, RunOcr(w)));
    } else {
      StraysAt(jobs, s, ResetForRetry);
      forall actions, last | Reaches(jobs, reset, actions, last)
        ensures last.ocr <= bound
      {
        ContinuationIsBounded(jobs, reset, actions, last, bound);
      }
    }
  }

  lemma StrayRuns(jobs: seq<Job>, s: System, w: nat)
    requires w < |jobs| == |s.phases| && s.phases[w] == Stray
    ensures Enabled(jobs, s, RunOcr(w)) && Next(jobs, s, RunOcr(w)).ocr == s.ocr + 1
    ensures Reaches(jobs, s, [RunOcr(w)], Next(jobs, s, RunOcr(w)))
  {
    assert [RunOcr(w)][1..] == [];
  }

  /** A request performs at most its limit of OCR runs and completes at most once, among any other work. */
  lemma {:induction false} RequestsAreBounded(jobs: seq<Job>, run: seq<System>, actions: seq<Action>, i: nat, r: nat,
                                              bound: nat)
    requires IsRun(jobs, run, actions) && i < |run|
    requires forall w | 0 <= w < |jobs| && jobs[w].request == Some(r) :: LimitedTo(jobs[w], bound)
    ensures Count(run[i].requestOcr, r) <= RequestOf(run[i].rows, r).attempts <= bound
    ensures Count(run[i].completions, r) <= 1
  {
    RunKeepsInv(jobs, run, actions, i);
    OcrIsPaid(jobs, run[i]);
    if i > 0 {
      RequestsAreBounded(jobs, run, actions, i - 1, r, bound);
      RunStep(jobs, run, actions, i - 1);
      hide Inv, Next, Init, Enabled;
      RequestAttemptsStayBounded(jobs, run[i - 1], actions[i - 1], r, bound);
    }
  }

  lemma {:induction false} CompletedRequestStays(jobs: seq<Job>, run: seq<System>, actions: seq<Action>, i: nat,
                                                 j: nat, r: nat)
    requires IsRun(jobs, run, actions) && i <= j < |run| && RequestOf(run[i].rows, r).completed
    ensures RequestOf(run[j].rows, r).completed
    decreases j
  {
    if i < j {
      hide Inv, Next, Init, Enabled;
      CompletedRequestStays(jobs, run, actions, i, j - 1, r);
      RunStep(jobs, run, actions, j - 1);
    }
  }

  /** Once a request has completed, every later delivery of it is skipped. */
  lemma ReplaysAreSkipped(jobs: seq<Job>, run: seq<System>, actions: seq<Action>, i: nat, j: nat, job: Job)
    requires IsRun(jobs, run, actions) && i <= j < |run| && job.refresh && job.request.Some?
    requires Count(run[i].completions, job.request.value) > 0
    ensures Decide(run[j].rows, job) == Skip
  {
    hide IsRun;
    var r := job.request.value;
    RunKeepsInv(jobs, run, actions, i);
    assert Count(run[i].completions, r) == if RequestOf(run[i].rows, r).completed then 1 else 0;
    CompletedRequestStays(jobs, run, actions, i, j, r);
  }

  /** A limit of zero does not stop the first attempt: without a status row there is nothing to compare. */
  lemma ZeroLimitStillRunsOnce()
    returns (run: seq<System>, actions: seq<Action>)
    ensures IsRun([Job(false, None, Some(0))], run, actions)
    ensures run[|actions|].ocr == 1 && Attempts(run[|actions|].rows) == 1
  {
    var jobs := [Job(false, None, Some(0))];
    var s0 := System(Rows(None, map[]), [Waiting], None, 0, 0, map[], map[]);
    var s1 := Next(jobs, s0, Acquire(0));
    var s2 := Next(jobs, s1, Check(0));
    var s3 := Next(jobs, s2, RunOcr(0));
    run, actions := [s0, s1, s2, s3], [Acquire(0), Check(0), RunOcr(0)];
  }
}

/** The processing code itself, on one connection. */
module ReceiptProcessor {
  import opened Options
  import opened ReceiptRows
  import opened ReceiptProtocol

  /** Where an attempt fails, if it does, and what the parser reports. */
  datatype Events = Events(startFails: bool, failsBeforeOcr: bool, failsAfterOcr: bool, complete: bool)

  datatype Result = Skipped | Recorded(status: Status) | Raised

  function Outcome(e: Events): Status {
    if e.complete then Succeeded else ReviewRequired
  }

  /** What one undisturbed call commits. */
  function Processed(rows: Rows, job: Job, e: Events): Rows {
    match Decide(rows, job)
    case ReceiptExhausted => MarkedFailed(rows)
    case Proceed =>
      if e.startFails then MarkedFailed(rows)
      else if e.failsBeforeOcr || e.failsAfterOcr then MarkedFailed(Started(rows, job))
      else Finished(Started(rows, job), job, Outcome(e))
    case _ => rows
  }

  predicate RunsOcr(rows: Rows, job: Job, e: Events) {
    Decide(rows, job) == Proceed && !e.startFails && !e.failsBeforeOcr
  }

  /**
   What a call means for the rows.  A recorded attempt is one more, with the extraction's own status, and completes
   its request.  A failed attempt counts unless it could not start; refusals keep attempts, and requests, as they are.
   */
  predicate Means(before: Rows, after: Rows, job: Job, e: Events) {
    match Decide(before, job)
    case Proceed =>
      after.status.Some?
      && (if e.startFails then after.status.value.status == Failed && after.requests == before.requests
          else
            && after.status.value.attempts == Attempts(before) + 1
            && after.status.value.status ==
               (if e.failsBeforeOcr || e.failsAfterOcr then Failed
                else if e.complete then Succeeded else ReviewRequired)
            && (job.request.Some? ==>
                  var r := job.request.value;
                  && r in after.requests
                  && after.requests[r] ==
                     Request(RequestOf(before, r).attempts + 1, !e.failsBeforeOcr && !e.failsAfterOcr))
            && forall r | r in before.requests && Some(r) != job.request ::
                 r in after.requests && after.requests[r] == before.requests[r])
    case ReceiptExhausted => after == before.(status := Some(Row(Failed, Attempts(before))))
    case _ => after == before
  }

  lemma ProcessedMeans(rows: Rows, job: Job, e: Events)
    ensures Means(rows, Processed(rows, job, e), job, e)
  {
    DecisionsMean(rows, job);
  }

  predicate IsPath(job: Job, states: seq<System>, actions: seq<Action>) {
    && |states| == |actions| + 1
    && forall i {:trigger actions[i]} | 0 <= i < |actions| ::
         Enabled([job], states[i], actions[i]) && states[i + 1] == Next([job], states[i], actions[i])
  }

  /** An undisturbed call is a run of the protocol from taking the lock to releasing it. */
  lemma ProcessedIsProtocol(rows: Rows, job: Job, e: Events) returns (states: seq<System>, actions: seq<Action>)
    ensures IsPath(job, states, actions)
    ensures states[0].rows == rows && states[|actions|].rows == Processed(rows, job, e)
    ensures states[0].lock == None && states[|actions|].lock == None
    ensures states[|actions|].ocr == states[0].ocr + if RunsOcr(rows, job, e) then 1 else 0
  {
    hide Decide, Started, Finished, MarkedFailed, Owing, Bump, Reset;
    var s0 := System(rows, [Waiting], None, 0, 0, map[], map[]);
    var s1 := Next([job], s0, Acquire(0));
    states, actions := [s0, s1], [Acquire(0)];
    if Decide(rows, job) == Proceed && e.startFails {
      states, actions := Extended(job, states, actions, FailToStart(0));
    } else {
      states, actions := Extended(job, states, actions, Check(0));
      if Decide(rows, job) == Proceed {
        if e.failsBeforeOcr {
          states, actions := Extended(job, states, actions, Fail(0, true));
        } else {
          states, actions := Extended(job, states, actions, RunOcr(0));
          states, actions := Extended(job, states, actions,
                                      if e.failsAfterOcr then Fail(0, true) else Complete(0, Outcome(e)));
        }
      }
    }
    states, actions := Extended(job, states, actions, Release(0));
  }

  lemma Extended(job: Job, states: seq<System>, actions: seq<Action>, a: Action)
    returns (states': seq<System>, actions': seq<Action>)
    requires IsPath(job, states, actions) && Enabled([job], states[|actions|], a)
    ensures states' == states + [Next([job], states[|actions|], a)] && actions' == actions + [a]
    ensures IsPath(job, states', actions')
  {
    states', actions' := states + [Next([job], states[|actions|], a)], actions + [a];
  }

  class Connection {
    var committed: Rows
    var working: Rows

    constructor (rows: Rows)
      ensures committed == rows && working == rows
    {
      committed, working := rows, rows;
    }

    method Commit()
      modifies this`committed
      ensures committed == working
    {
      committed := working;
    }

    method Rollback()
      modifies this`working
      ensures working == committed
    {
      working := committed;
    }

    method RecordFailure()
      modifies this
      ensures committed == working == MarkedFailed(old(committed))
    {
      Rollback();
      working := MarkedFailed(working);
      Commit();
    }

    /** `_process_candidate` inside its lock; nothing uncommitted survives the release of the lock. */
    method ProcessCandidate(job: Job, e: Events) returns (result: Result, ocr: bool)
      requires working == committed
      modifies this
      ensures working == committed == Processed(old(committed), job, e)
      ensures ocr == RunsOcr(old(committed), job, e)
      ensures result == match Decide(old(committed), job)
                        case Skip => Skipped
                        case Proceed => (if e.startFails || e.failsBeforeOcr || e.failsAfterOcr then Raised
                                         else Recorded(if e.complete then Succeeded else ReviewRequired))
                        case _ => Raised
      ensures Means(old(committed), committed, job, e)
    {
      hide Means;
      ProcessedMeans(committed, job, e);
      ocr := false;
      if job.request.Some? {
        if !job.refresh {
          return Raised, ocr;
        }
        var id := job.request.value;
        if id !in working.requests {
          working := working.(requests := working.requests[id := Request(0, false)]);
        }
        var request := working.requests[id];
        if request.completed {
          assert working == committed;
          Commit();
          return Skipped, ocr;
        }
        if job.limit.Some? && request.attempts >= job.limit.value {
          Rollback();
          return Raised, ocr;
        }
        working := working.(requests := working.requests[id := request.(attempts := request.attempts + 1)]);
      }
      if !job.refresh && working.status.Some? && IsCompleted(working.status.value.status) {
        Commit();
        return Skipped, ocr;
      }
      if job.limit.Some? && job.request == None {
        if working.status.Some? && working.status.value.attempts >= job.limit.value {
          working := MarkedFailed(working);
          Commit();
          return Raised, ocr;
        }
      }
      if e.startFails {
        RecordFailure();
        return Raised, ocr;
      }
      working := working.(status := Some(Row(Processing, Attempts(working) + 1)));
      Commit();
      if e.failsBeforeOcr {
        RecordFailure();
        return Raised, ocr;
      }
      ocr := true;
      if e.failsAfterOcr {
        RecordFailure();
        return Raised, ocr;
      }
      var status := Outcome(e);
      working := working.(status := Some(Row(status, working.status.value.attempts)));
      if job.request.Some? {
        var id := job.request.value;
        working := working.(requests := working.requests[id := working.requests[id].(completed := true)]);
      }
      Commit();
      result := Recorded(status);
    }

    /** `reset_receipt_for_retry` once it holds the lock: only unfinished receipts are reset. */
    method ResetForRetry() returns (ok: bool)
      requires working == committed
      modifies this
      ensures ok <==>
              old(committed).status.Some? && old(committed).status.value.status !in {Succeeded, ReviewRequired}
      ensures working == committed == if ok then old(committed).(status := Some(Row(Failed, 0))) else old(committed)
    {
      if working.status == None || IsCompleted(working.status.value.status) {
        return false;
      }
      working := Reset(working);
      Commit();
      ok := true;
    }
  }

  /** The backlog counters. */
  datatype Summary = Summary(discovered: nat, skipped: nat, succeeded: nat, failed: nat, reviewRequired: nat)

  /**
   Every discovered receipt is counted once, under what became of it; without refresh the completed ones are skipped.
   */
  method ProcessBacklog(completed: seq<bool>, results: seq<Result>, refresh: bool) returns (summary: Summary)
    requires |results| == if refresh then |completed| else multiset(completed)[false]
    requires forall r | r in results && r.Recorded? :: IsCompleted(r.status)
    ensures summary.discovered == |completed|
    ensures summary.skipped == (if refresh then 0 else multiset(completed)[true]) + multiset(results)[Skipped]
    ensures summary.succeeded == multiset(results)[Recorded(Succeeded)]
    ensures summary.reviewRequired == multiset(results)[Recorded(ReviewRequired)]
    ensures summary.failed == multiset(results)[Raised]
    ensures summary.skipped + summary.succeeded + summary.failed + summary.reviewRequired == summary.discovered
  {
    var pending := CountPending(completed);
    summary := Summary(|completed|, if refresh then 0 else |completed| - pending, 0, 0, 0);
    var planned := summary.skipped;
    for i := 0 to |results|
      invariant summary.discovered == |completed|
      invariant summary.skipped == planned + multiset(results[..i])[Skipped]
      invariant summary.succeeded == multiset(results[..i])[Recorded(Succeeded)]
      invariant summary.reviewRequired == multiset(results[..i])[Recorded(ReviewRequired)]
      invariant summary.failed == multiset(results[..i])[Raised]
      invariant summary.skipped + summary.succeeded + summary.failed + summary.reviewRequired == planned + i
    {
      OneMoreResult(results, i);
      match results[i]
      case Skipped => summary := summary.(skipped := summary.skipped + 1);
      case Recorded(status) =>
        if status == Succeeded {
          summary := summary.(succeeded := summary.succeeded + 1);
        } else {
          summary := summary.(reviewRequired := summary.reviewRequired + 1);
        }
      case Raised => summary := summary.(failed := summary.failed + 1);
    }
    assert results[..|results|] == results;
  }

  /** The partition of discovered receipts, by whether processing state says they are completed. */
  method CountPending(completed: seq<bool>) returns (pending: nat)
    ensures pending == multiset(completed)[false] && multiset(completed)[true] == |completed| - pending
  {
    EachIsEither(completed);
    pending := 0;
    for i := 0 to |completed|
      invariant pending == multiset(completed[..i])[false]
    {
      assert completed[..i + 1] == completed[..i] + [completed[i]];
      if !completed[i] {
        pending := pending + 1;
      }
    }
    assert completed[..|completed|] == completed;
  }

  lemma OneMoreResult(results: seq<Result>, i: nat)
    requires i < |results|
    ensures forall r :: multiset(results[..i + 1])[r] == multiset(results[..i])[r] + if r == results[i] then 1 else 0
  {
    assert results[..i + 1] == results[..i] + [results[i]];
  }

  lemma OneMoreIsEither(counts: multiset<bool>, b: bool)
    ensures (counts + multiset{b})[true] + (counts + multiset{b})[false] == counts[true] + counts[false] + 1
  {
    if b {
      assert multiset{b}[true] == 1 && multiset{b}[false] == 0;
    } else {
      assert multiset{b}[false] == 1 && multiset{b}[true] == 0;
    }
  }

  lemma {:induction false} EachIsEither(completed: seq<bool>)
    ensures multiset(completed)[true] + multiset(completed)[false] == |completed|
  {
    if completed != [] {
      var n := |completed| - 1;
      EachIsEither(completed[..n]);
      assert completed == completed[..n] + [completed[n]];
      OneMoreIsEither(multiset(completed[..n]), completed[n]);
    }
  }
}
