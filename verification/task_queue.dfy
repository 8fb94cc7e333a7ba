/**
 The durable model-task queue: rounds persist tasks and publish their ids,
 workers lock, run and answer them.  A worker that stops loses its advisory lock
 and its unacknowledged delivery together.  Either connection can also fail alone:
 a lost database session releases the lock, and a lost broker connection returns the
 delivery to the queue while the handler runs on under its lock.
 */
module TaskQueue {
  import opened Options

  /** The immutable input of a task; its profile names the provider. */
  datatype Input = Input(provider: string, profile: string, stage: string, payload: string)

  /** What a handler returned, or the type of the error that replaced it. */
  datatype Result = Success(output: string) | Error(kind: string)

  datatype Task = Task(input: Input, attempts: nat, result: Option<Result>)

  /** Broker messages carry a task id only; the queue is a provider's. */
  datatype Message = Message(id: nat, queue: string)

  datatype Phase =
    | Idle
    | Received
    | Locked                    // advisory lock granted
    | Read(attempts: nat)       // row read, no result yet
    | Counted(attempts: nat)    // attempt recorded
    | Handling
    | Computed(result: Result)
    | Answered                  // result stored or found, lock still held
    | Replying                  // lock released, coordinator to be told
    | Acking                    // nothing left but to acknowledge
    | Broken                    // database session lost
    | Rejecting

  /** `orphaned` once the broker has taken the delivery back while the worker is still at it. */
  datatype Worker = Worker(provider: string, phase: Phase, message: Message, orphaned: bool)

  datatype Progress = Adding(k: nat) | Publishing(k: nat) | Waiting | Over

  /** One `Dispatcher.round`: a task id and input for each profile. */
  datatype Round = Round(ids: seq<nat>, inputs: seq<Input>, progress: Progress)

  /** `starts` counts handler starts; `settled` are the tasks whose coordinator was told or had expired. */
  datatype System = System(tasks: map<nat, Task>, queued: multiset<Message>, workers: seq<Worker>,
                           locks: map<nat, nat>, rounds: seq<Round>,
                           starts: map<nat, nat>, published: set<nat>, settled: set<nat>)

  const MAX_STARTS: nat := 2

  function Starts(s: System, id: nat): nat {
    if id in s.starts then s.starts[id] else 0
  }

  predicate Holding(p: Phase) {
    p.Locked? || p.Read? || p.Counted? || p.Handling? || p.Computed? || p.Answered?
  }

  /** What a dispatcher does for one round. */
  datatype Dispatching = AddTask | BeginPublishing | Publish | BeginWaiting | StopRound

  /** What a worker does with the message it holds. */
  datatype Working =
    | TryLock
    | ReadTask
    | CountAttempt
    | Expire
    | Exhaust
    | StartHandler
    | FinishHandler(result: Result)
    | StoreResult
    | Unlock
    | Notify
    | DropExpiredReply
    | Acknowledge
    | Reject
    | LoseDatabase
    | LoseBroker
    | Crash

  datatype Action = Dispatch(r: nat, d: Dispatching) | Deliver(w: nat, m: Message) | Work(w: nat, k: Working)

  function At(s: System, w: nat, p: Phase): System
    requires w < |s.workers|
  {
    s.(workers := s.workers[w := s.workers[w].(phase := p)])
  }

  function RoundAt(s: System, r: nat, p: Progress): System
    requires r < |s.rounds|
  {
    s.(rounds := s.rounds[r := s.rounds[r].(progress := p)])
  }

  predicate CanDispatch(s: System, r: nat, d: Dispatching) {
    r < |s.rounds| && |s.rounds[r].ids| == |s.rounds[r].inputs| &&
    match d
    case AddTask => s.rounds[r].progress.Adding? && s.rounds[r].progress.k < |s.rounds[r].ids|
    case BeginPublishing => s.rounds[r].progress == Adding(|s.rounds[r].ids|)
    case Publish => s.rounds[r].progress.Publishing? && s.rounds[r].progress.k < |s.rounds[r].ids|
    case BeginWaiting => s.rounds[r].progress == Publishing(|s.rounds[r].ids|)
    case StopRound => true
  }

  /** When a worker can take each step.  Without its delivery it can neither answer nor acknowledge. */
  predicate Allows(x: Worker, k: Working) {
    match k
    case TryLock => x.phase == Received
    case ReadTask => x.phase == Locked
    case CountAttempt => x.phase.Read?
    case Expire => x.phase.Counted?
    case Exhaust => x.phase.Counted? && x.phase.attempts >= MAX_STARTS
    case StartHandler => x.phase.Counted? && x.phase.attempts < MAX_STARTS
    case FinishHandler(_) => x.phase == Handling
    case StoreResult => x.phase.Computed?
    case Unlock => x.phase == Answered
    case Notify => x.phase == Replying && !x.orphaned
    case DropExpiredReply => x.phase == Replying && !x.orphaned
    case Acknowledge => x.phase == Acking && !x.orphaned
    case Reject => x.phase == Rejecting && !x.orphaned
    case LoseDatabase => x.phase == Received || Holding(x.phase)
    case LoseBroker => x.phase != Idle && !x.orphaned
    case Crash => x.phase != Idle
  }

  predicate CanWork(s: System, w: nat, k: Working) {
    w < |s.workers| && Allows(s.workers[w], k)
    && (k.CountAttempt? || k.StoreResult? ==> s.workers[w].message.id in s.tasks)
  }

  predicate CanDeliver(s: System, w: nat, m: Message) {
    w < |s.workers| && s.workers[w].phase == Idle && m in s.queued && m.queue == s.workers[w].provider
  }

  predicate Enabled(s: System, a: Action) {
    match a
    case Dispatch(r, d) => CanDispatch(s, r, d)
    case Deliver(w, m) => CanDeliver(s, w, m)
    case Work(w, k) => CanWork(s, w, k)
  }

  /** `Store.add`: insert once, then insist on the same input. */
  function Added(tasks: map<nat, Task>, id: nat, input: Input): map<nat, Task> {
    if id in tasks then tasks else tasks[id := Task(input, 0, None)]
  }

  function Dispatched(s: System, r: nat, d: Dispatching): System
    requires CanDispatch(s, r, d)
  {
    match d
    case AddTask =>
      var k := s.rounds[r].progress.k;
      var id, input := s.rounds[r].ids[k], s.rounds[r].inputs[k];
      var tasks := Added(s.tasks, id, input);
      if tasks[id].input == input then RoundAt(s.(tasks := tasks), r, Adding(k + 1)) else RoundAt(s, r, Over)
    case BeginPublishing => RoundAt(s, r, Publishing(0))
    case Publish =>
      var k := s.rounds[r].progress.k;
      var id, input := s.rounds[r].ids[k], s.rounds[r].inputs[k];
      RoundAt(s.(queued := s.queued + multiset{Message(id, input.provider)}, published := s.published + {id}),
              r, Publishing(k + 1))
    case BeginWaiting => RoundAt(s, r, Waiting)
    case StopRound => RoundAt(s, r, Over)
  }

  function Delivered(s: System, w: nat, m: Message): System
    requires CanDeliver(s, w, m)
  {
    s.(queued := s.queued - multiset{m}, workers := s.workers[w := Worker(s.workers[w].provider, Received, m, false)])
  }

  function Worked(s: System, w: nat, k: Working): System
    requires CanWork(s, w, k)
  {
    var id := s.workers[w].message.id;
    var p := s.workers[w].phase;
    match k
    case TryLock => if id in s.locks then At(s, w, Acking) else At(s.(locks := s.locks[id := w]), w, Locked)
    case ReadTask =>
      if id !in s.tasks || s.tasks[id].input.provider != s.workers[w].provider then
        At(s.(locks := s.locks - {id}), w, Rejecting)
      else if s.tasks[id].result.Some? then At(s, w, Answered)
      else At(s, w, Read(s.tasks[id].attempts))
    case CountAttempt =>
      At(s.(tasks := s.tasks[id := s.tasks[id].(attempts := s.tasks[id].attempts + 1)]), w, Counted(p.attempts))
    case Expire => At(s, w, Computed(Error("TimeoutError")))
    case Exhaust => At(s, w, Computed(Error("RuntimeError")))
    case StartHandler => At(s.(starts := s.starts[id := Starts(s, id) + 1]), w, Handling)
    case FinishHandler(result) => At(s, w, Computed(result))
    case StoreResult => At(s.(tasks := s.tasks[id := s.tasks[id].(result := Some(p.result))]), w, Answered)
    case Unlock => At(s.(locks := s.locks - {id}), w, Replying)
    case Notify => At(s.(settled := s.settled + {id}), w, Acking)
    case DropExpiredReply => At(s.(settled := s.settled + {id}), w, Acking)
    case Acknowledge => At(s, w, Idle)
    case Reject => At(s, w, Idle)
    case LoseDatabase => At(ReleaseLock(s, w), w, Broken)
    case LoseBroker =>
      s.(queued := s.queued + multiset{s.workers[w].message},
         workers := s.workers[w := s.workers[w].(orphaned := true)])
    case Crash => At(ReleaseLock(s, w).(queued := s.queued + Requeued(s.workers[w])), w, Idle)
  }

  /** What the broker gets back when the worker stops. */
  function Requeued(x: Worker): multiset<Message> {
    if x.orphaned then multiset{} else multiset{x.message}
  }

  function Next(s: System, a: Action): System
    requires Enabled(s, a)
  {
    match a
    case Dispatch(r, d) => Dispatched(s, r, d)
    case Deliver(w, m) => Delivered(s, w, m)
    case Work(w, k) => Worked(s, w, k)
  }

  function ReleaseLock(s: System, w: nat): (s': System)
    requires w < |s.workers|
    ensures s' == s.(locks := s'.locks)
  {
    if Holding(s.workers[w].phase) then s.(locks := s.locks - {s.workers[w].message.id}) else s
  }

  // The invariant.

  /** Advisory locks and lock-holding workers correspond one to one. */
  predicate LocksOk(s: System) {
    && (forall w | 0 <= w < |s.workers| && Holding(s.workers[w].phase) ::
          s.workers[w].message.id in s.locks && s.locks[s.workers[w].message.id] == w)
    && (forall id | id in s.locks ::
          s.locks[id] < |s.workers| && Holding(s.workers[s.locks[id]].phase) && s.workers[s.locks[id]].message.id == id)
  }

  predicate Routed(s: System, m: Message) {
    m.id in s.tasks && m.id in s.published && s.tasks[m.id].input.provider == m.queue
  }

  predicate MessagesOk(s: System) {
    && (forall m | m in s.queued :: Routed(s, m))
    && (forall id | id in s.published :: id in s.tasks)
    && (forall w | 0 <= w < |s.workers| && s.workers[w].phase != Idle ::
          Routed(s, s.workers[w].message) && s.workers[w].message.queue == s.workers[w].provider
          && s.workers[w].phase != Rejecting)
  }

  /** What a worker knows about its task. */
  predicate PhaseOk(t: Task, starts: nat, p: Phase) {
    match p
    case Read(a) => t.attempts == a && t.result == None && starts <= a
    case Counted(a) => t.attempts == a + 1 && t.result == None && starts <= a
    case Handling => t.result == None
    case Computed(_) => t.result == None
    case Answered => t.result.Some?
    case Replying => t.result.Some?
    case _ => true
  }

  predicate PhasesOk(s: System)
    requires MessagesOk(s)
  {
    forall w | 0 <= w < |s.workers| && s.workers[w].phase != Idle ::
      PhaseOk(s.tasks[s.workers[w].message.id], Starts(s, s.workers[w].message.id), s.workers[w].phase)
  }

  predicate TasksOk(s: System) {
    && (forall id | id in s.tasks :: Starts(s, id) <= s.tasks[id].attempts && Starts(s, id) <= MAX_STARTS)
    && (forall id | id in s.starts :: id in s.tasks)
    && (forall id | id in s.settled :: id in s.tasks && s.tasks[id].result.Some?)
  }

  /** Some message of the task is queued, or somebody still works on it. */
  predicate Live(s: System, id: nat) {
    Queued(s, id) || exists w :: 0 <= w < |s.workers| && WorksOn(s.workers[w], id)
  }

  predicate Queued(s: System, id: nat) {
    exists m :: m in s.queued && m.id == id
  }

  /**
   A worker works on its task until it has nothing but an acknowledgement left, an orphaned one only under the lock.
   */
  predicate WorksOn(x: Worker, id: nat) {
    && x.message.id == id
    && if x.orphaned then x.phase == Received || Holding(x.phase) else x.phase != Idle && x.phase != Acking
  }

  predicate Persisted(s: System, id: nat, input: Input) {
    id in s.tasks && s.tasks[id].input == input
  }

  predicate RoundOk(s: System, r: Round) {
    && |r.ids| == |r.inputs|
    && match r.progress
       case Adding(k) => k <= |r.ids| && forall i | 0 <= i < k :: Persisted(s, r.ids[i], r.inputs[i])
       case Publishing(k) =>
         k <= |r.ids| && (forall i | 0 <= i < |r.ids| :: Persisted(s, r.ids[i], r.inputs[i]))
         && (forall i | 0 <= i < k :: r.ids[i] in s.published)
       case Waiting => forall i | 0 <= i < |r.ids| :: Persisted(s, r.ids[i], r.inputs[i]) && r.ids[i] in s.published
       case Over => true
  }

  predicate RoundsOk(s: System) {
    forall r | 0 <= r < |s.rounds| :: RoundOk(s, s.rounds[r])
  }

  predicate Inv(s: System) {
    LocksOk(s) && MessagesOk(s) && PhasesOk(s) && TasksOk(s) && RoundsOk(s)
  }

  /** Inputs never change, and neither does a result once stored. */
  predicate WriteOnce(s: System, s': System) {
    forall id | id in s.tasks ::
      && id in s'.tasks && s'.tasks[id].input == s.tasks[id].input
      && (s.tasks[id].result.Some? ==> s'.tasks[id].result == s.tasks[id].result)
  }

  predicate Init(s: System) {
    && s.tasks == map[] && s.queued == multiset{} && s.locks == map[] && s.starts == map[]
    && s.published == {} && s.settled == {}
    && (forall w | 0 <= w < |s.workers| :: s.workers[w].phase == Idle && !s.workers[w].orphaned)
    && (forall r | 0 <= r < |s.rounds| ::
          |s.rounds[r].ids| == |s.rounds[r].inputs| && s.rounds[r].progress == Adding(0))
  }

  // Frames: what each part of the invariant depends on.

  /** Tasks are only added or filled in, messages only published. */
  predicate Grows(s: System, s': System) {
    && (forall id | id in s.tasks :: id in s'.tasks && s'.tasks[id].input == s.tasks[id].input)
    && s.published <= s'.published
  }

  /** Only worker `w` moves, and it stays on its own provider's queue. */
  predicate OnlyWorker(s: System, s': System, w: nat) {
    && w < |s.workers| == |s'.workers| && s'.workers == s.workers[w := s'.workers[w]]
    && s'.workers[w].provider == s.workers[w].provider
    && s'.rounds == s.rounds && s'.published == s.published && Grows(s, s')
  }

  /** What every step of a worker has in common. */
  lemma WorkFrame(s: System, w: nat, k: Working)
    requires CanWork(s, w, k)
    ensures OnlyWorker(s, Worked(s, w, k), w)
    ensures Worked(s, w, k).workers[w].message == s.workers[w].message
    ensures Allows(s.workers[w], k) && s.workers[w].phase != Idle
  {
  }

  lemma DeliverFrame(s: System, w: nat, m: Message)
    requires CanDeliver(s, w, m)
    ensures OnlyWorker(s, Delivered(s, w, m), w)
    ensures var s' := Delivered(s, w, m);
            && s'.tasks == s.tasks && s'.locks == s.locks && s'.starts == s.starts && s'.settled == s.settled
            && s'.workers[w] == Worker(s.workers[w].provider, Received, m, false) && s'.queued == s.queued - multiset{m}
  {
  }

  lemma DispatchFrame(s: System, r: nat, d: Dispatching)
    requires CanDispatch(s, r, d)
    ensures var s' := Dispatched(s, r, d);
            && s'.workers == s.workers && s'.locks == s.locks && s'.starts == s.starts && s'.settled == s.settled
            && r < |s.rounds| == |s'.rounds| && s'.rounds == s.rounds[r := s'.rounds[r]] && Grows(s, s')
  {
  }

  // Locks.

  lemma LocksSame(s: System, s': System)
    requires LocksOk(s) && s'.workers == s.workers && s'.locks == s.locks
    ensures LocksOk(s')
  {
  }

  lemma LocksKept(s: System, s': System, w: nat)
    requires LocksOk(s) && OnlyWorker(s, s', w) && s'.locks == s.locks
    requires Holding(s'.workers[w].phase) == Holding(s.workers[w].phase)
    requires Holding(s.workers[w].phase) ==> s'.workers[w].message == s.workers[w].message
    ensures LocksOk(s')
  {
    hide Grows;
  }

  lemma LockTaken(s: System, s': System, w: nat)
    requires LocksOk(s) && OnlyWorker(s, s', w) && s'.workers[w].message == s.workers[w].message
    requires !Holding(s.workers[w].phase) && Holding(s'.workers[w].phase)
    requires s.workers[w].message.id !in s.locks && s'.locks == s.locks[s.workers[w].message.id := w]
    ensures LocksOk(s')
  {
    hide Grows;
  }

  lemma LockReleased(s: System, s': System, w: nat)
    requires LocksOk(s) && OnlyWorker(s, s', w) && s'.workers[w].message == s.workers[w].message
    requires Holding(s.workers[w].phase) && !Holding(s'.workers[w].phase)
    requires s'.locks == s.locks - {s.workers[w].message.id}
    ensures LocksOk(s')
  {
    hide Grows;
  }

  lemma LocksWhileHeld(s: System, w: nat, k: Working)
    requires CanWork(s, w, k) && w < |Worked(s, w, k).workers|
    requires Holding(Worked(s, w, k).workers[w].phase) && Holding(s.workers[w].phase)
    ensures Worked(s, w, k).locks == s.locks
  {
  }

  lemma LocksWhileFree(s: System, w: nat, k: Working)
    requires CanWork(s, w, k) && w < |Worked(s, w, k).workers|
    requires !Holding(Worked(s, w, k).workers[w].phase) && !Holding(s.workers[w].phase)
    ensures Worked(s, w, k).locks == s.locks
  {
  }

  lemma LocksWhenTaken(s: System, w: nat, k: Working)
    requires CanWork(s, w, k) && w < |Worked(s, w, k).workers|
    requires Holding(Worked(s, w, k).workers[w].phase) && !Holding(s.workers[w].phase)
    ensures s.workers[w].message.id !in s.locks && Worked(s, w, k).locks == s.locks[s.workers[w].message.id := w]
  {
    assert k == TryLock;
  }

  lemma LocksWhenReleased(s: System, w: nat, k: Working)
    requires CanWork(s, w, k) && w < |Worked(s, w, k).workers|
    requires !Holding(Worked(s, w, k).workers[w].phase) && Holding(s.workers[w].phase)
    ensures Worked(s, w, k).locks == s.locks - {s.workers[w].message.id}
  {
  }

  lemma StepKeepsLocks(s: System, a: Action)
    requires LocksOk(s) && Enabled(s, a)
    ensures LocksOk(Next(s, a))
  {
    hide Worked, Delivered, Dispatched, LocksOk;
    var s' := Next(s, a);
    match a
    case Dispatch(r, d) =>
      DispatchFrame(s, r, d);
      LocksSame(s, s');
    case Deliver(w, m) =>
      DeliverFrame(s, w, m);
      LocksKept(s, s', w);
    case Work(w, k) =>
      WorkFrame(s, w, k);
      if Holding(s.workers[w].phase) == Holding(s'.workers[w].phase) {
        if Holding(s.workers[w].phase) {
          LocksWhileHeld(s, w, k);
        } else {
          LocksWhileFree(s, w, k);
        }
        LocksKept(s, s', w);
      } else if Holding(s'.workers[w].phase) {
        LocksWhenTaken(s, w, k);
        LockTaken(s, s', w);
      } else {
        LocksWhenReleased(s, w, k);
        LockReleased(s, s', w);
      }
  }

  // Messages.

  /** The worker's own message is in order. */
  predicate MessageOk(s: System, x: Worker) {
    x.phase != Idle ==> Routed(s, x.message) && x.message.queue == x.provider && x.phase != Rejecting
  }

  lemma RoutedKept(s: System, s': System)
    requires Grows(s, s')
    ensures forall m | Routed(s, m) :: Routed(s', m)
  {
  }

  /** Workers take one message from the queue, or put the one they hold back. */
  lemma QueueEffect(s: System, w: nat, k: Working)
    requires CanWork(s, w, k)
    ensures Worked(s, w, k).queued == if k.Crash? then s.queued + Requeued(s.workers[w])
                                      else if k.LoseBroker? then s.queued + multiset{s.workers[w].message} else s.queued
  {
  }

  lemma OwnMessage(s: System, w: nat, k: Working)
    requires CanWork(s, w, k) && MessageOk(s, s.workers[w])
    ensures w < |Worked(s, w, k).workers| && Worked(s, w, k).workers[w].phase != Rejecting
  {
  }

  lemma StepKeepsMessages(s: System, a: Action)
    requires MessagesOk(s) && RoundsOk(s) && Enabled(s, a)
    ensures MessagesOk(Next(s, a))
  {
    hide Worked, Delivered, Dispatched, RoundsOk, Routed, CanDispatch;
    var s' := Next(s, a);
    match a
    case Dispatch(r, d) =>
      DispatchFrame(s, r, d);
      RoutedKept(s, s');
      PublishedAreRouted(s, r, d);
    case Deliver(w, m) =>
      DeliverFrame(s, w, m);
      RoutedKept(s, s');
    case Work(w, k) =>
      WorkFrame(s, w, k);
      QueueEffect(s, w, k);
      OwnMessage(s, w, k);
      RoutedKept(s, s');
  }

  lemma PublishedAreRouted(s: System, r: nat, d: Dispatching)
    requires RoundsOk(s) && CanDispatch(s, r, d)
    ensures var s' := Dispatched(s, r, d);
            && (forall m | m in s'.queued :: m in s.queued || Routed(s', m))
            && (forall id | id in s'.published :: id in s.published || id in s'.tasks)
  {
    var round := s.rounds[r];
    assert RoundOk(s, round);
    if d.Publish? {
      assert Persisted(s, round.ids[round.progress.k], round.inputs[round.progress.k]);
    }
  }

  // Phases and tasks.

  /** Only a lock holder changes its task's row. */
  lemma RowEffect(s: System, w: nat, k: Working)
    requires CanWork(s, w, k)
    ensures var s', id := Worked(s, w, k), s.workers[w].message.id;
            && (k.CountAttempt? ==> s'.tasks == s.tasks[id := s.tasks[id].(attempts := s.tasks[id].attempts + 1)])
            && (k.StoreResult? ==> s'.tasks == s.tasks[id := s.tasks[id].(result := Some(s.workers[w].phase.result))])
            && (!k.CountAttempt? && !k.StoreResult? ==> s'.tasks == s.tasks)
    ensures k.CountAttempt? || k.StoreResult? ==> Holding(s.workers[w].phase)
  {
    hide Starts, Requeued, ReleaseLock;
  }

  /** Only a lock holder starts a handler. */
  lemma StartEffect(s: System, w: nat, k: Working)
    requires CanWork(s, w, k)
    ensures var s', id := Worked(s, w, k), s.workers[w].message.id;
            && (k.StartHandler? ==> Holding(s.workers[w].phase) && s'.starts == s.starts[id := Starts(s, id) + 1])
            && (!k.StartHandler? ==> s'.starts == s.starts)
  {
    hide Requeued, ReleaseLock, Starts;
  }

  lemma SettleEffect(s: System, w: nat, k: Working)
    requires CanWork(s, w, k)
    ensures Worked(s, w, k).settled ==
            if k.Notify? || k.DropExpiredReply? then s.settled + {s.workers[w].message.id} else s.settled
  {
  }

  /** What the acting worker knows afterwards follows from what it knew. */
  lemma OwnPhase(s: System, w: nat, k: Working)
    requires CanWork(s, w, k) && s.workers[w].message.id in s.tasks
    requires PhaseOk(s.tasks[s.workers[w].message.id], Starts(s, s.workers[w].message.id), s.workers[w].phase)
    requires Starts(s, s.workers[w].message.id) <= s.tasks[s.workers[w].message.id].attempts
    ensures var s', id := Worked(s, w, k), s.workers[w].message.id;
            w < |s'.workers| && id in s'.tasks && PhaseOk(s'.tasks[id], Starts(s', id), s'.workers[w].phase)
  {
    hide Requeued, ReleaseLock, Holding;
  }

  /** Another worker's knowledge survives: it either concerns another task or does not need the lock. */
  lemma OtherPhase(s: System, w: nat, k: Working, v: nat)
    requires LocksOk(s) && MessagesOk(s) && PhasesOk(s) && CanWork(s, w, k)
    requires v < |s.workers| && v != w && s.workers[v].phase != Idle
    ensures var s', m := Worked(s, w, k), s.workers[v].message;
            m.id in s'.tasks && PhaseOk(s'.tasks[m.id], Starts(s', m.id), s.workers[v].phase)
  {
    RowEffect(s, w, k);
    StartEffect(s, w, k);
    hide Worked, CanWork;
    var m := s.workers[v].message;
    assert Routed(s, m) && PhaseOk(s.tasks[m.id], Starts(s, m.id), s.workers[v].phase);
    if m.id == s.workers[w].message.id && Holding(s.workers[w].phase) {
      assert !Holding(s.workers[v].phase);
    }
  }

  lemma StepKeepsPhases(s: System, a: Action)
    requires LocksOk(s) && MessagesOk(s) && PhasesOk(s) && TasksOk(s) && Enabled(s, a) && MessagesOk(Next(s, a))
    ensures PhasesOk(Next(s, a))
  {
    match a
    case Dispatch(r, d) => DispatchKeepsPhases(s, r, d);
    case Deliver(w, m) => DeliverKeepsPhases(s, w, m);
    case Work(w, k) => WorkKeepsPhases(s, w, k);
  }

  lemma WorkKeepsPhases(s: System, w: nat, k: Working)
    requires LocksOk(s) && MessagesOk(s) && PhasesOk(s) && TasksOk(s) && CanWork(s, w, k) && MessagesOk(Worked(s, w, k))
    ensures PhasesOk(Worked(s, w, k))
  {
    hide Worked, CanWork, LocksOk, PhaseOk;
    var s' := Worked(s, w, k);
    WorkFrame(s, w, k);
    var m := s.workers[w].message;
    assert Routed(s, m) && PhaseOk(s.tasks[m.id], Starts(s, m.id), s.workers[w].phase);
    OwnPhase(s, w, k);
    forall v | 0 <= v < |s.workers| && v != w && s.workers[v].phase != Idle
      ensures PhaseOk(s'.tasks[s.workers[v].message.id], Starts(s', s.workers[v].message.id), s.workers[v].phase)
    {
      OtherPhase(s, w, k, v);
    }
  }

  lemma DeliverKeepsPhases(s: System, w: nat, m: Message)
    requires MessagesOk(s) && PhasesOk(s) && CanDeliver(s, w, m) && MessagesOk(Delivered(s, w, m))
    ensures PhasesOk(Delivered(s, w, m))
  {
    DeliverFrame(s, w, m);
    hide Delivered, Grows;
  }

  lemma DispatchKeepsPhases(s: System, r: nat, d: Dispatching)
    requires MessagesOk(s) && PhasesOk(s) && CanDispatch(s, r, d) && MessagesOk(Dispatched(s, r, d))
    ensures PhasesOk(Dispatched(s, r, d))
  {
    hide Dispatched, PhaseOk;
    DispatchFrame(s, r, d);
    AddEffect(s, r, d);
    var s' := Dispatched(s, r, d);
    forall v | 0 <= v < |s.workers| && s.workers[v].phase != Idle
      ensures s'.tasks[s.workers[v].message.id] == s.tasks[s.workers[v].message.id]
    {
      assert Routed(s, s.workers[v].message);
    }
  }

  /** Rounds add rows without attempts or results, and touch no row that exists. */
  lemma AddEffect(s: System, r: nat, d: Dispatching)
    requires CanDispatch(s, r, d)
    ensures var s' := Dispatched(s, r, d);
            && (forall id | id in s.tasks :: id in s'.tasks && s'.tasks[id] == s.tasks[id])
            && (forall id | id in s'.tasks && id !in s.tasks ::
                  s'.tasks[id].attempts == 0 && s'.tasks[id].result == None)
  {
  }

  lemma StepKeepsTasks(s: System, a: Action)
    requires MessagesOk(s) && PhasesOk(s) && TasksOk(s) && Enabled(s, a)
    ensures TasksOk(Next(s, a)) && WriteOnce(s, Next(s, a))
  {
    hide TasksOk, MessagesOk, WriteOnce, Worked, Delivered, Dispatched, CanWork, CanDispatch, CanDeliver;
    match a
    case Dispatch(r, d) => DispatchKeepsTasks(s, r, d);
    case Deliver(w, m) => DeliverKeepsTasks(s, w, m);
    case Work(w, k) => WorkKeepsTasks(s, w, k);
  }

  lemma DispatchKeepsTasks(s: System, r: nat, d: Dispatching)
    requires TasksOk(s) && CanDispatch(s, r, d)
    ensures TasksOk(Dispatched(s, r, d)) && WriteOnce(s, Dispatched(s, r, d))
  {
    DispatchFrame(s, r, d);
    AddEffect(s, r, d);
    hide Dispatched, CanDispatch, Grows;
  }

  lemma DeliverKeepsTasks(s: System, w: nat, m: Message)
    requires TasksOk(s) && CanDeliver(s, w, m)
    ensures TasksOk(Delivered(s, w, m)) && WriteOnce(s, Delivered(s, w, m))
  {
    DeliverFrame(s, w, m);
    hide Delivered, CanDeliver, Grows;
  }

  lemma WorkKeepsTasks(s: System, w: nat, k: Working)
    requires MessagesOk(s) && PhasesOk(s) && TasksOk(s) && CanWork(s, w, k)
    ensures TasksOk(Worked(s, w, k)) && WriteOnce(s, Worked(s, w, k))
  {
    hide Worked, OnlyWorker, TasksOk, WriteOnce;
    WorkFrame(s, w, k);
    var m := s.workers[w].message;
    assert Routed(s, m) && PhaseOk(s.tasks[m.id], Starts(s, m.id), s.workers[w].phase);
    hide MessagesOk, PhasesOk;
    WorkKeepsOwnTask(s, w, k);
  }

  lemma WorkKeepsOwnTask(s: System, w: nat, k: Working)
    requires TasksOk(s) && CanWork(s, w, k) && s.workers[w].message.id in s.tasks
    requires PhaseOk(s.tasks[s.workers[w].message.id], Starts(s, s.workers[w].message.id), s.workers[w].phase)
    ensures TasksOk(Worked(s, w, k)) && WriteOnce(s, Worked(s, w, k))
  {
    RowEffect(s, w, k);
    StartEffect(s, w, k);
    SettleEffect(s, w, k);
    hide Worked, Holding;
  }

  // Rounds.

  lemma OtherRoundKept(s: System, s': System, r: Round)
    requires RoundOk(s, r) && Grows(s, s')
    ensures RoundOk(s', r)
  {
  }

  lemma OwnRound(s: System, r: nat, d: Dispatching)
    requires CanDispatch(s, r, d) && RoundOk(s, s.rounds[r])
    ensures r < |Dispatched(s, r, d).rounds| && RoundOk(Dispatched(s, r, d), Dispatched(s, r, d).rounds[r])
  {
  }

  lemma StepKeepsRounds(s: System, a: Action)
    requires RoundsOk(s) && Enabled(s, a)
    ensures RoundsOk(Next(s, a))
  {
    hide Worked, Delivered, Dispatched, RoundOk, Grows, CanWork, CanDispatch;
    var s' := Next(s, a);
    if a.Dispatch? {
      DispatchFrame(s, a.r, a.d);
      assert RoundOk(s, s.rounds[a.r]);
      OwnRound(s, a.r, a.d);
    } else if a.Deliver? {
      DeliverFrame(s, a.w, a.m);
    } else {
      WorkFrame(s, a.w, a.k);
    }
    forall r | 0 <= r < |s.rounds| && !(a.Dispatch? && r == a.r)
      ensures RoundOk(s', s.rounds[r])
    {
      OtherRoundKept(s, s', s.rounds[r]);
    }
  }

  // Published tasks stay alive until they are settled, unless an orphaned worker was the last one at it.

  /** Worker `w` is the last one at the task, and its delivery is already gone. */
  predicate LastOrphan(s: System, w: nat, id: nat) {
    && w < |s.workers| && s.workers[w].orphaned && WorksOn(s.workers[w], id)
    && !Queued(s, id) && forall v | 0 <= v < |s.workers| && v != w :: !WorksOn(s.workers[v], id)
  }

  /** After this step nobody is left to work on the task. */
  predicate Drops(s: System, a: Action, id: nat) {
    a.Work? && (a.k.Crash? || a.k.LoseDatabase? || a.k.Unlock?) && LastOrphan(s, a.w, id)
  }

  lemma QueuedIsLive(s: System, m: Message)
    requires m in s.queued
    ensures Live(s, m.id)
  {
  }

  lemma WorkerIsLive(s: System, v: nat, id: nat)
    requires v < |s.workers| && WorksOn(s.workers[v], id)
    ensures Live(s, id)
  {
  }

  lemma DispatchKeepsLife(s: System, r: nat, d: Dispatching, id: nat)
    requires CanDispatch(s, r, d) && (Live(s, id) || (id in Dispatched(s, r, d).published && id !in s.published))
    ensures Live(Dispatched(s, r, d), id)
  {
    DispatchFrame(s, r, d);
    var s' := Dispatched(s, r, d);
    assert Live(s, id) || Queued(s', id) by {
      if !Live(s, id) {
        var round := s.rounds[r];
        assert Message(id, round.inputs[round.progress.k].provider) in s'.queued;
      }
    }
    hide Dispatched, CanDispatch;
    if m :| m in s.queued && m.id == id {
      assert m in s'.queued;
    } else if v :| 0 <= v < |s.workers| && WorksOn(s.workers[v], id) {
      assert WorksOn(s'.workers[v], id);
    }
  }

  lemma DeliverKeepsLife(s: System, w: nat, m: Message, id: nat)
    requires CanDeliver(s, w, m) && Live(s, id)
    ensures Live(Delivered(s, w, m), id)
  {
    DeliverFrame(s, w, m);
    var s' := Delivered(s, w, m);
    hide Delivered, Grows;
    if m.id == id {
      assert WorksOn(s'.workers[w], id);
    } else if n :| n in s.queued && n.id == id {
      assert n in s'.queued;
    } else {
      var v :| 0 <= v < |s.workers| && WorksOn(s.workers[v], id);
      assert WorksOn(s'.workers[v], id);
    }
  }

  /** What becomes of a worker's own task. */
  lemma OwnLife(s: System, w: nat, k: Working, id: nat)
    requires LocksOk(s) && MessagesOk(s) && CanWork(s, w, k) && WorksOn(s.workers[w], id)
    ensures || id in Worked(s, w, k).settled || Live(Worked(s, w, k), id)
            || (s.workers[w].orphaned && (k.Crash? || k.LoseDatabase? || k.Unlock?))
  {
    OwnMessage(s, w, k);
    StillWorks(s, w, k, id);
    var s' := Worked(s, w, k);
    if WorksOn(s'.workers[w], id) {
      hide *;
      WorkerIsLive(s', w, id);
    } else if k.TryLock? {
      HolderWorks(s, w, k, id);
    } else if k.LoseBroker? || (k.Crash? && !s.workers[w].orphaned) {
      QueueEffect(s, w, k);
      hide Worked, LocksOk, Live, MessagesOk, CanWork;
      QueuedIsLive(s', s.workers[w].message);
    } else {
      SettleEffect(s, w, k);
      hide LocksOk, Live, MessagesOk;
    }
  }

  /** Who finds the lock taken leaves the task to its holder. */
  lemma HolderWorks(s: System, w: nat, k: Working, id: nat)
    requires LocksOk(s) && CanWork(s, w, k) && k.TryLock? && WorksOn(s.workers[w], id)
    requires !WorksOn(Worked(s, w, k).workers[w], id)
    ensures Live(Worked(s, w, k), id)
  {
    WorkFrame(s, w, k);
    assert id in s.locks;
    WorkerIsLive(Worked(s, w, k), s.locks[id], id);
  }

  /** A worker stops working on its task only in these ways. */
  lemma StillWorks(s: System, w: nat, k: Working, id: nat)
    requires CanWork(s, w, k) && MessageOk(s, s.workers[w]) && WorksOn(s.workers[w], id)
    ensures var s' := Worked(s, w, k);
            || (w < |s'.workers| && WorksOn(s'.workers[w], id)) || k.Crash? || k.LoseBroker? || k.Notify?
            || k.DropExpiredReply?
            || (k.TryLock? && id in s.locks) || (s.workers[w].orphaned && (k.LoseDatabase? || k.Unlock?))
  {
  }

  lemma WorkKeepsLife(s: System, w: nat, k: Working, id: nat)
    requires LocksOk(s) && MessagesOk(s) && CanWork(s, w, k) && Live(s, id) && !Drops(s, Work(w, k), id)
    ensures id in Worked(s, w, k).settled || Live(Worked(s, w, k), id)
  {
    WorkFrame(s, w, k);
    QueueEffect(s, w, k);
    var s' := Worked(s, w, k);
    hide Worked, LocksOk, MessagesOk, CanWork, Grows, WorksOn, Holding;
    if m :| m in s.queued && m.id == id {
      QueuedIsLive(s', m);
    } else if v :| 0 <= v < |s.workers| && v != w && WorksOn(s.workers[v], id) {
      WorkerIsLive(s', v, id);
    } else {
      OwnLife(s, w, k, id);
    }
  }

  /** A published task stays alive or is settled, except by a step that drops it. */
  lemma StepKeepsLife(s: System, a: Action, id: nat)
    requires LocksOk(s) && MessagesOk(s) && Enabled(s, a) && !Drops(s, a, id)
    requires Live(s, id) || (id in Next(s, a).published && id !in s.published)
    ensures id in Next(s, a).settled || Live(Next(s, a), id)
  {
    hide LocksOk, MessagesOk, Live, Worked, Delivered, Dispatched, CanWork, CanDispatch, Drops;
    match a
    case Dispatch(r, d) => DispatchKeepsLife(s, r, d, id);
    case Deliver(w, m) =>
      DeliverFrame(s, w, m);
      DeliverKeepsLife(s, w, m, id);
    case Work(w, k) =>
      WorkFrame(s, w, k);
      WorkKeepsLife(s, w, k, id);
  }

  lemma DropsOwn(s: System, w: nat, k: Working, id: nat)
    requires CanWork(s, w, k) && (k.Crash? || k.LoseDatabase? || k.Unlock?) && s.workers[w].orphaned
    ensures w < |Worked(s, w, k).workers| && !WorksOn(Worked(s, w, k).workers[w], id)
    ensures Worked(s, w, k).queued == s.queued
  {
  }

  lemma DroppedIsDead(s: System, a: Action, id: nat)
    requires Enabled(s, a) && Drops(s, a, id)
    ensures !Live(Next(s, a), id)
  {
    WorkFrame(s, a.w, a.k);
    DropsOwn(s, a.w, a.k, id);
    var s' := Next(s, a);
    hide Next, Enabled, Worked, CanWork, Grows, WorksOn;
    assert forall v | 0 <= v < |s.workers| :: !WorksOn(s'.workers[v], id);
  }

  lemma StepKeepsInv(s: System, a: Action)
    requires Inv(s) && Enabled(s, a)
    ensures Inv(Next(s, a)) && WriteOnce(s, Next(s, a))
  {
    hide Next, Enabled, LocksOk, MessagesOk, TasksOk, RoundsOk, WriteOnce;
    StepKeepsLocks(s, a);
    StepKeepsMessages(s, a);
    StepKeepsPhases(s, a);
    StepKeepsTasks(s, a);
    StepKeepsRounds(s, a);
  }

  // Whole runs.

  ghost predicate IsRun(run: seq<System>, actions: seq<Action>) {
    && |run| == |actions| + 1 && Init(run[0])
    && forall i {:trigger actions[i]} | 0 <= i < |actions| ::
         Enabled(run[i], actions[i]) && run[i + 1] == Next(run[i], actions[i])
  }

  lemma InitIsInv(s: System)
    requires Init(s)
    ensures Inv(s)
  {
  }

  lemma {:induction false} RunKeepsInv(run: seq<System>, actions: seq<Action>, i: nat)
    requires IsRun(run, actions) && i < |run|
    ensures Inv(run[i])
  {
    hide Inv, Next, Init;
    if i == 0 {
      InitIsInv(run[0]);
    } else {
      RunKeepsInv(run, actions, i - 1);
      assert run[i] == Next(run[i - 1], actions[i - 1]);
      StepKeepsInv(run[i - 1], actions[i - 1]);
    }
  }

  predicate StartsHandlerOf(s: System, a: Action, id: nat) {
    a.Work? && a.k == StartHandler && a.w < |s.workers| && s.workers[a.w].message.id == id
  }

  /** How often a run starts the handler of a task, read off its actions. */
  function HandlerStarts(run: seq<System>, actions: seq<Action>, id: nat, j: nat): nat
    requires j <= |actions| < |run|
  {
    if j == 0 then 0
    else HandlerStarts(run, actions, id, j - 1) + if StartsHandlerOf(run[j - 1], actions[j - 1], id) then 1 else 0
  }

  lemma StartsStep(s: System, a: Action, id: nat)
    requires Enabled(s, a)
    ensures Starts(Next(s, a), id) == Starts(s, id) + if StartsHandlerOf(s, a, id) then 1 else 0
  {
    hide Worked, Delivered, Dispatched;
    match a
    case Dispatch(r, d) => DispatchFrame(s, r, d);
    case Deliver(w, m) => DeliverFrame(s, w, m);
    case Work(w, k) => StartEffect(s, w, k);
  }

  lemma {:induction false} StartsAreCounted(run: seq<System>, actions: seq<Action>, id: nat, j: nat)
    requires IsRun(run, actions) && j < |run|
    ensures HandlerStarts(run, actions, id, j) == Starts(run[j], id)
  {
    hide Next, Enabled, StartsHandlerOf;
    if j > 0 {
      StartsAreCounted(run, actions, id, j - 1);
      assert run[j] == Next(run[j - 1], actions[j - 1]);
      StartsStep(run[j - 1], actions[j - 1], id);
    }
  }

  /** In every run a task's handler is started at most twice, however many workers crash. */
  lemma HandlerStartsAtMostTwice(run: seq<System>, actions: seq<Action>, id: nat)
    requires IsRun(run, actions)
    ensures HandlerStarts(run, actions, id, |actions|) <= 2
  {
    StartsAreCounted(run, actions, id, |actions|);
    RunKeepsInv(run, actions, |actions|);
    assert TasksOk(run[|actions|]);
  }

  lemma RunStep(run: seq<System>, actions: seq<Action>, i: nat)
    requires IsRun(run, actions) && i < |actions|
    ensures Inv(run[i]) && Inv(run[i + 1]) && WriteOnce(run[i], run[i + 1])
  {
    hide Inv, Next, Init, WriteOnce, Enabled;
    RunKeepsInv(run, actions, i);
    assert run[i + 1] == Next(run[i], actions[i]);
    StepKeepsInv(run[i], actions[i]);
  }

  /** In every run inputs and results are write-once. */
  lemma {:induction false} RunIsWriteOnce(run: seq<System>, actions: seq<Action>, i: nat, j: nat)
    requires IsRun(run, actions) && i <= j < |run|
    ensures WriteOnce(run[i], run[j])
    decreases j - i
  {
    if i < j {
      RunStep(run, actions, i);
      RunIsWriteOnce(run, actions, i + 1, j);
      hide IsRun, WriteOnce;
    }
  }

  // Where results come from.

  predicate IsOwnError(r: Result) {
    r == Error("TimeoutError") || r == Error("RuntimeError")
  }

  /** A result of this task, stored or about to be. */
  predicate Has(s: System, id: nat, r: Result) {
    || (id in s.tasks && s.tasks[id].result == Some(r))
    || exists w :: 0 <= w < |s.workers| && s.workers[w].phase == Computed(r) && s.workers[w].message.id == id
  }

  /** The handler of this task returns this result, or fails with it. */
  predicate Returns(s: System, a: Action, id: nat, r: Result) {
    a.Work? && a.k == FinishHandler(r) && a.w < |s.workers| && s.workers[a.w].message.id == id
  }

  lemma ComputedEffect(s: System, w: nat, k: Working, r: Result)
    requires CanWork(s, w, k) && Worked(s, w, k).workers[w].phase == Computed(r)
    ensures s.workers[w].phase == Computed(r) || IsOwnError(r) || k == FinishHandler(r)
  {
  }

  lemma NewResultIsReturned(s: System, a: Action, id: nat, r: Result)
    requires Enabled(s, a) && Has(Next(s, a), id, r) && !Has(s, id, r)
    ensures IsOwnError(r) || Returns(s, a, id, r)
  {
    var s' := Next(s, a);
    match a
    case Dispatch(q, d) => DispatchedResults(s, q, d, id);
    case Deliver(w, m) => DeliverFrame(s, w, m);
    case Work(w, k) =>
      WorkFrame(s, w, k);
      RowEffect(s, w, k);
      if s'.workers[w].phase == Computed(r) && s'.workers[w].message.id == id {
        ComputedEffect(s, w, k, r);
      }
      if k.StoreResult? {
        StoredComputed(s, w, k);
      }
      hide Worked, CanWork;
  }

  lemma StoredComputed(s: System, w: nat, k: Working)
    requires CanWork(s, w, k) && k.StoreResult?
    ensures s.workers[w].phase == Computed(s.workers[w].phase.result)
  {
  }

  lemma DispatchedResults(s: System, q: nat, d: Dispatching, id: nat)
    requires CanDispatch(s, q, d)
    ensures var s' := Dispatched(s, q, d);
            s'.workers == s.workers && (id in s'.tasks && s'.tasks[id].result.Some? ==>
              id in s.tasks && s.tasks[id].result == s'.tasks[id].result)
  {
  }

  /** In every run a stored result is one that a handler of this very task returned or failed with, or an own error. */
  lemma {:induction false} ResultsAreReturned(run: seq<System>, actions: seq<Action>, i: nat, id: nat, r: Result)
    requires IsRun(run, actions) && i < |run| && Has(run[i], id, r)
    ensures IsOwnError(r) || exists j :: 0 <= j < i && Returns(run[j], actions[j], id, r)
  {
    hide Next, Enabled, Has, Returns, IsOwnError;
    if i == 0 {
      NoResultYet(run[0], id, r);
    } else if Has(run[i - 1], id, r) {
      ResultsAreReturned(run, actions, i - 1, id, r);
    } else {
      assert run[i] == Next(run[i - 1], actions[i - 1]);
      NewResultIsReturned(run[i - 1], actions[i - 1], id, r);
    }
  }

  lemma NoResultYet(s: System, id: nat, r: Result)
    requires Init(s)
    ensures !Has(s, id, r)
  {
  }

  // When a task is lost.

  /** Published, without result, and nobody is left to work on it. */
  predicate Lost(s: System, id: nat) {
    id in s.published && id in s.tasks && s.tasks[id].result == None && !Live(s, id)
  }

  /** An orphaned worker that holds the lock, or is about to take it, stops or loses its session as the last one. */
  predicate OrphanLoss(s: System, a: Action, id: nat) {
    && a.Work? && (a.k.Crash? || a.k.LoseDatabase?) && LastOrphan(s, a.w, id)
    && id in s.published && id in s.tasks && s.tasks[id].result == None
  }

  /** The task is published again, or the delivery of a worker that was about to acknowledge it returns. */
  predicate Revives(s: System, a: Action, id: nat) {
    match a
    case Dispatch(r, d) => d == Publish && CanDispatch(s, r, d) && s.rounds[r].ids[s.rounds[r].progress.k] == id
    case Deliver(_, _) => false
    case Work(w, k) =>
      (k.Crash? || k.LoseBroker?) && CanWork(s, w, k) && !s.workers[w].orphaned && s.workers[w].message.id == id
  }

  lemma ResultNeedsWork(s: System, a: Action, id: nat)
    requires MessagesOk(s) && Enabled(s, a) && id in s.tasks
    ensures id in Next(s, a).tasks
    ensures s.tasks[id].result == None && !Live(s, id) ==> Next(s, a).tasks[id].result == None
  {
    match a
    case Dispatch(r, d) => AddEffect(s, r, d);
    case Deliver(w, m) => DeliverFrame(s, w, m);
    case Work(w, k) =>
      WorkFrame(s, w, k);
      RowEffect(s, w, k);
      hide Worked, CanWork;
      assert Holding(s.workers[w].phase) && s.workers[w].message.id == id ==> WorksOn(s.workers[w], id);
  }

  /** A task becomes lost exactly when the last one at it is an orphaned worker that stops or loses its session. */
  lemma LostExactlyAt(s: System, a: Action, id: nat)
    requires Inv(s) && Enabled(s, a) && !Lost(s, id)
    ensures Lost(Next(s, a), id) <==> OrphanLoss(s, a, id)
  {
    var s' := Next(s, a);
    StepKeepsInv(s, a);
    if OrphanLoss(s, a, id) {
      DroppedIsDead(s, a, id);
      OrphanLossKeepsRow(s, a, id);
    }
    if Lost(s', id) {
      hide Next, Enabled, Live, LocksOk, RoundsOk;
      if id in s.published {
        assert id in s.tasks && s.tasks[id].result == None;
      }
      if !Drops(s, a, id) {
        StepKeepsLife(s, a, id);
      }
      if Drops(s, a, id) && a.k.Unlock? {
        UnlockedHasResult(s, a, id);
      }
    }
  }

  lemma OrphanLossKeepsRow(s: System, a: Action, id: nat)
    requires Enabled(s, a) && OrphanLoss(s, a, id)
    ensures Next(s, a).tasks == s.tasks && Next(s, a).published == s.published
  {
    WorkFrame(s, a.w, a.k);
    RowEffect(s, a.w, a.k);
  }

  lemma UnlockedHasResult(s: System, a: Action, id: nat)
    requires Inv(s) && Enabled(s, a) && Drops(s, a, id) && a.k.Unlock?
    ensures id in s.published && id in s.tasks && s.tasks[id].result.Some?
  {
    var x := s.workers[a.w];
    assert Routed(s, x.message) && PhaseOk(s.tasks[x.message.id], Starts(s, x.message.id), x.phase);
  }

  /** A revived task is queued again. */
  lemma RevivedIsLive(s: System, a: Action, id: nat)
    requires Enabled(s, a) && Revives(s, a, id)
    ensures Live(Next(s, a), id)
  {
    var s' := Next(s, a);
    match a
    case Dispatch(r, d) =>
      assert Message(id, s.rounds[r].inputs[s.rounds[r].progress.k].provider) in s'.queued;
    case Work(w, k) =>
      QueueEffect(s, w, k);
      assert s.workers[w].message in s'.queued;
  }

  /** Nothing else brings work on a task back. */
  lemma DeadUntilRevived(s: System, a: Action, id: nat)
    requires MessagesOk(s) && Enabled(s, a) && !Live(s, id) && !Revives(s, a, id)
    ensures !Live(Next(s, a), id)
  {
    match a
    case Dispatch(r, d) => DispatchFrame(s, r, d); OnlyPublishQueues(s, r, d, id);
    case Deliver(w, m) => DeadAfterDelivery(s, w, m, id);
    case Work(w, k) => DeadAfterWork(s, w, k, id);
  }

  lemma DeadAfterDelivery(s: System, w: nat, m: Message, id: nat)
    requires CanDeliver(s, w, m) && !Live(s, id)
    ensures !Live(Delivered(s, w, m), id)
  {
    DeliverFrame(s, w, m);
    var s' := Delivered(s, w, m);
    hide Delivered;
    assert m in s.queued;
    forall v | 0 <= v < |s'.workers|
      ensures !WorksOn(s'.workers[v], id)
    {
    }
  }

  lemma DeadAfterWork(s: System, w: nat, k: Working, id: nat)
    requires CanWork(s, w, k) && !Live(s, id) && !Revives(s, Work(w, k), id)
    ensures !Live(Worked(s, w, k), id)
  {
    WorkFrame(s, w, k);
    QueueEffect(s, w, k);
    StaysIdleAbout(s, w, k, id);
    var s' := Worked(s, w, k);
    hide Worked, Grows, Holding, WorksOn;
    forall v | 0 <= v < |s'.workers|
      ensures !WorksOn(s'.workers[v], id)
    {
    }
  }

  lemma OnlyPublishQueues(s: System, r: nat, d: Dispatching, id: nat)
    requires CanDispatch(s, r, d) && !Revives(s, Dispatch(r, d), id)
    ensures Queued(Dispatched(s, r, d), id) ==> Queued(s, id)
  {
  }

  lemma StaysIdleAbout(s: System, w: nat, k: Working, id: nat)
    requires CanWork(s, w, k) && !WorksOn(s.workers[w], id) && !Revives(s, Work(w, k), id)
    ensures w < |Worked(s, w, k).workers| && !WorksOn(Worked(s, w, k).workers[w], id)
  {
    WorkFrame(s, w, k);
    if s.workers[w].message.id == id {
      assert k.Crash? || k.Acknowledge? || k.Reject?;
    } else {
      hide Worked, CanWork, Holding;
    }
  }

  /** A lost task stays lost until it is revived. */
  lemma LostUntilRevived(s: System, a: Action, id: nat)
    requires Inv(s) && Enabled(s, a) && Lost(s, id)
    ensures Lost(Next(s, a), id) <==> !Revives(s, a, id)
  {
    InvParts(s);
    hide Inv, Live, Revives;
    PublishedStays(s, a, id);
    ResultNeedsWork(s, a, id);
    if Revives(s, a, id) {
      RevivedIsLive(s, a, id);
    } else {
      DeadUntilRevived(s, a, id);
    }
    hide Next, Enabled;
  }

  lemma PublishedStays(s: System, a: Action, id: nat)
    requires Enabled(s, a) && id in s.published
    ensures id in Next(s, a).published
  {
    hide Worked, Delivered, Dispatched;
    match a
    case Dispatch(r, d) => DispatchFrame(s, r, d);
    case Deliver(w, m) => DeliverFrame(s, w, m);
    case Work(w, k) => WorkFrame(s, w, k);
  }

  /** The last one at the task was lost at step `j`, and nothing has revived the task since. */
  ghost predicate LostSince(run: seq<System>, actions: seq<Action>, j: nat, i: nat, id: nat)
    requires i <= |actions| && |run| == |actions| + 1
  {
    && j < i && OrphanLoss(run[j], actions[j], id)
    && forall l {:trigger actions[l]} | j < l < i :: !Revives(run[l], actions[l], id)
  }

  ghost predicate LostBy(run: seq<System>, actions: seq<Action>, i: nat, id: nat)
    requires i <= |actions| && |run| == |actions| + 1
  {
    exists j :: LostSince(run, actions, j, i, id)
  }

  /** In every run a task is lost exactly since its last orphaned worker stopped with nobody else at it. */
  lemma {:induction false} LostExactlyWhen(run: seq<System>, actions: seq<Action>, i: nat, id: nat)
    requires IsRun(run, actions) && i < |run|
    ensures Lost(run[i], id) <==> LostBy(run, actions, i, id)
  {
    hide Next, Enabled, Inv, Lost, OrphanLoss, Revives, Init;
    if i == 0 {
      NothingLostYet(run[0], id);
    } else {
      LostExactlyWhen(run, actions, i - 1, id);
      RunKeepsInv(run, actions, i - 1);
      assert run[i] == Next(run[i - 1], actions[i - 1]);
      LossGoesOn(run, actions, i, id);
      if Lost(run[i - 1], id) {
        LostUntilRevived(run[i - 1], actions[i - 1], id);
        LostIsNotLostAgain(run[i - 1], actions[i - 1], id);
      } else {
        LostExactlyAt(run[i - 1], actions[i - 1], id);
      }
    }
  }

  lemma NothingLostYet(s: System, id: nat)
    requires Init(s)
    ensures !Lost(s, id)
  {
  }

  lemma LostIsNotLostAgain(s: System, a: Action, id: nat)
    requires Lost(s, id)
    ensures !OrphanLoss(s, a, id)
  {
  }

  lemma LossGoesOn(run: seq<System>, actions: seq<Action>, i: nat, id: nat)
    requires 0 < i <= |actions| && |run| == |actions| + 1
    ensures LostBy(run, actions, i, id) <==>
            || OrphanLoss(run[i - 1], actions[i - 1], id)
            || (LostBy(run, actions, i - 1, id) && !Revives(run[i - 1], actions[i - 1], id))
  {
    hide OrphanLoss, Revives;
    if OrphanLoss(run[i - 1], actions[i - 1], id) {
      assert LostSince(run, actions, i - 1, i, id);
    }
    if LostBy(run, actions, i - 1, id) && !Revives(run[i - 1], actions[i - 1], id) {
      var j :| LostSince(run, actions, j, i - 1, id);
      assert LostSince(run, actions, j, i, id);
    }
    if j: nat :| LostSince(run, actions, j, i, id) && j < i - 1 {
      assert LostSince(run, actions, j, i - 1, id);
      assert !Revives(run[i - 1], actions[i - 1], id);
    }
  }

  /**
   Acknowledging a duplicate loses nothing: a published task has its result, or a message of it is queued or in
   the hands of somebody who works on it, unless it is lost in the way above.
   */
  lemma NoPublishedTaskIsLost(run: seq<System>, actions: seq<Action>, i: nat, id: nat)
    requires IsRun(run, actions) && i < |run| && id in run[i].published
    ensures id in run[i].tasks
    ensures run[i].tasks[id].result.Some? || Live(run[i], id) || LostBy(run, actions, i, id)
    ensures id in run[i].settled ==> run[i].tasks[id].result.Some?
  {
    RunKeepsInv(run, actions, i);
    LostExactlyWhen(run, actions, i, id);
    assert TasksOk(run[i]) && MessagesOk(run[i]);
  }

  // With lock and delivery always lost together nobody is ever orphaned.

  predicate NoOrphans(s: System) {
    forall w | 0 <= w < |s.workers| :: !s.workers[w].orphaned
  }

  lemma StepKeepsNoOrphans(s: System, a: Action)
    requires NoOrphans(s) && Enabled(s, a) && (a.Work? ==> !a.k.LoseBroker?)
    ensures NoOrphans(Next(s, a))
  {
    hide Dispatched, Delivered, Grows;
    match a
    case Dispatch(r, d) => DispatchFrame(s, r, d);
    case Deliver(w, m) => DeliverFrame(s, w, m);
    case Work(w, k) => WorkFrame(s, w, k);
  }

  /**
   As long as no broker connection fails alone, every published task is settled, or a message of it is queued or in
   the hands of a worker that still works on it.
   */
  lemma {:induction false} JointLossLosesNothing(run: seq<System>, actions: seq<Action>, i: nat, id: nat)
    requires IsRun(run, actions) && i < |run|
    requires forall l {:trigger actions[l]} | 0 <= l < i :: actions[l].Work? ==> !actions[l].k.LoseBroker?
    ensures NoOrphans(run[i])
    ensures id in run[i].published ==> id in run[i].settled || Live(run[i], id)
  {
    hide Inv, Live, Drops;
    if i > 0 {
      JointLossLosesNothing(run, actions, i - 1, id);
      RunKeepsInv(run, actions, i - 1);
      var s, a := run[i - 1], actions[i - 1];
      assert run[i] == Next(s, a);
      if id in s.settled {
        SettledStays(s, a, id);
      }
      StepKeepsNoOrphans(s, a);
      if id in run[i].published && id !in run[i].settled {
        NobodyDrops(s, a, id);
        InvParts(s);
        hide Next, Enabled;
        StepKeepsLife(s, a, id);
      }
    }
  }

  lemma NobodyDrops(s: System, a: Action, id: nat)
    requires NoOrphans(s)
    ensures !Drops(s, a, id)
  {
  }

  lemma InvParts(s: System)
    requires Inv(s)
    ensures LocksOk(s) && MessagesOk(s)
  {
  }

  lemma SettledStays(s: System, a: Action, id: nat)
    requires Enabled(s, a) && id in s.settled
    ensures id in Next(s, a).settled
  {
    hide Worked, Delivered, Dispatched;
    match a
    case Dispatch(r, d) => DispatchFrame(s, r, d);
    case Deliver(w, m) => DeliverFrame(s, w, m);
    case Work(w, k) => SettleEffect(s, w, k);
  }

  /** Nothing of a round is published before all of it is persisted, with exactly the round's inputs. */
  lemma RoundPersistsBeforePublishing(run: seq<System>, actions: seq<Action>, i: nat, r: nat)
    requires IsRun(run, actions) && i < |run| && r < |run[i].rounds|
    requires run[i].rounds[r].progress.Publishing? || run[i].rounds[r].progress.Waiting?
    ensures var round := run[i].rounds[r];
            |round.ids| == |round.inputs| && forall k | 0 <= k < |round.ids| ::
              Persisted(run[i], round.ids[k], round.inputs[k])
  {
    RunKeepsInv(run, actions, i);
    assert RoundOk(run[i], run[i].rounds[r]);
  }

  /** A delivered message always names a persisted task of the consuming provider: no delivery is rejected. */
  lemma NothingIsRejected(run: seq<System>, actions: seq<Action>, i: nat, w: nat)
    requires IsRun(run, actions) && i < |run| && w < |run[i].workers|
    ensures run[i].workers[w].phase != Rejecting
  {
    RunKeepsInv(run, actions, i);
    assert MessagesOk(run[i]);
  }

  // A run that loses a task.

  /** `t` follows from `s` by the given actions. */
  predicate Reaches(s: System, actions: seq<Action>, t: System)
    decreases |actions|
  {
    if actions == [] then s == t
    else Enabled(s, actions[0]) && Reaches(Next(s, actions[0]), actions[1..], t)
  }

  predicate Follows(u: System, a: Action, t: System) {
    Enabled(u, a) && t == Next(u, a)
  }

  lemma {:induction false} Onward(s: System, actions: seq<Action>, u: System, a: Action, t: System)
    requires Reaches(s, actions, u) && Follows(u, a, t)
    ensures Reaches(s, actions + [a], t)
    decreases |actions|
  {
    hide Enabled, Next;
    if actions == [] {
      assert [] + [a] == [a] && [a][1..] == [];
    } else {
      Onward(Next(s, actions[0]), actions[1..], u, a, t);
      assert (actions + [a])[1..] == actions[1..] + [a];
    }
  }

  const THE_INPUT := Input("qwen", "p", "independent", "{}")
  const THE_MESSAGE := Message(7, "qwen")

  /** Two workers of one provider and a round of one task, with one message; the first worker may be orphaned. */
  function Scene(tasks: map<nat, Task>, queued: multiset<Message>, first: Phase, orphaned: bool, second: Phase,
                 locks: map<nat, nat>, progress: Progress, starts: map<nat, nat>, published: set<nat>): System {
    System(tasks, queued, [Worker("qwen", first, THE_MESSAGE, orphaned), Worker("qwen", second, THE_MESSAGE, false)],
           locks,
           [Round([7], [THE_INPUT], progress)], starts, published, {})
  }

  function SceneTasks(attempts: nat): map<nat, Task> {
    map[7 := Task(THE_INPUT, attempts, None)]
  }

  /** The scene before anything is published. */
  function Early(tasks: map<nat, Task>, progress: Progress): System {
    Scene(tasks, multiset{}, Idle, false, Idle, map[], progress, map[], {})
  }

  /** The scene with the task published. */
  function Later(attempts: nat, queued: multiset<Message>, first: Phase, orphaned: bool, second: Phase,
                 locks: map<nat, nat>, starts: map<nat, nat>): System {
    Scene(SceneTasks(attempts), queued, first, orphaned, second, locks, Publishing(1), starts, {7})
  }

  lemma EarlyFollows()
    ensures Init(Early(map[], Adding(0)))
    ensures Follows(Early(map[], Adding(0)), Dispatch(0, AddTask), Early(SceneTasks(0), Adding(1)))
    ensures Follows(Early(SceneTasks(0), Adding(1)), Dispatch(0, BeginPublishing), Early(SceneTasks(0), Publishing(0)))
    ensures Follows(Early(SceneTasks(0), Publishing(0)), Dispatch(0, Publish),
                    Later(0, multiset{THE_MESSAGE}, Idle, false, Idle, map[], map[]))
  {
  }

  lemma LaterDelivers(attempts: nat, first: Phase, orphaned: bool, locks: map<nat, nat>, starts: map<nat, nat>)
    ensures Follows(Later(attempts, multiset{THE_MESSAGE}, Idle, false, Idle, locks, starts), Deliver(0, THE_MESSAGE),
                    Later(attempts, multiset{}, Received, false, Idle, locks, starts))
    ensures Follows(Later(attempts, multiset{THE_MESSAGE}, first, orphaned, Idle, locks, starts),
                    Deliver(1, THE_MESSAGE),
                    Later(attempts, multiset{}, first, orphaned, Received, locks, starts))
  {
    assert multiset{THE_MESSAGE} - multiset{THE_MESSAGE} == multiset{};
  }

  lemma LaterLocks()
    ensures Follows(Later(0, multiset{}, Received, false, Idle, map[], map[]), Work(0, TryLock),
                    Later(0, multiset{}, Locked, false, Idle, map[7 := 0], map[]))
    ensures Follows(Later(0, multiset{}, Locked, false, Idle, map[7 := 0], map[]), Work(0, ReadTask),
                    Later(0, multiset{}, Read(0), false, Idle, map[7 := 0], map[]))
  {
  }

  lemma LaterStarts()
    ensures Follows(Later(0, multiset{}, Read(0), false, Idle, map[7 := 0], map[]), Work(0, CountAttempt),
                    Later(1, multiset{}, Counted(0), false, Idle, map[7 := 0], map[]))
    ensures Follows(Later(1, multiset{}, Counted(0), false, Idle, map[7 := 0], map[]), Work(0, StartHandler),
                    Later(1, multiset{}, Handling, false, Idle, map[7 := 0], map[7 := 1]))
  {
  }

  lemma LaterAcknowledges()
    ensures Follows(Later(1, multiset{}, Handling, false, Idle, map[7 := 0], map[7 := 1]), Work(0, LoseBroker),
                    Later(1, multiset{THE_MESSAGE}, Handling, true, Idle, map[7 := 0], map[7 := 1]))
    ensures Follows(Later(1, multiset{}, Handling, true, Received, map[7 := 0], map[7 := 1]), Work(1, TryLock),
                    Later(1, multiset{}, Handling, true, Acking, map[7 := 0], map[7 := 1]))
    ensures Follows(Later(1, multiset{}, Handling, true, Acking, map[7 := 0], map[7 := 1]), Work(1, Acknowledge),
                    Later(1, multiset{}, Handling, true, Idle, map[7 := 0], map[7 := 1]))
  {
  }

  lemma LaterLost()
    ensures var s := Later(1, multiset{}, Handling, true, Idle, map[7 := 0], map[7 := 1]);
            OrphanLoss(s, Work(0, Crash), 7) && Enabled(s, Work(0, Crash)) && Lost(Next(s, Work(0, Crash)), 7)
  {
  }

  lemma Trivially(s: System)
    ensures Reaches(s, [], s)
  {
  }

  /** The first worker handles the task. */
  lemma HandlingScene() returns (actions: seq<Action>)
    ensures Reaches(Early(map[], Adding(0)), actions,
                    Later(1, multiset{}, Handling, false, Idle, map[7 := 0], map[7 := 1]))
  {
    EarlyFollows();
    LaterDelivers(0, Idle, false, map[], map[]);
    LaterLocks();
    LaterStarts();
    hide Follows, Early, Later, Reaches;
    var s0 := Early(map[], Adding(0));
    assert Reaches(s0, [], s0) by { Trivially(s0); }
    var s1, s2 := Early(SceneTasks(0), Adding(1)), Early(SceneTasks(0), Publishing(0));
    var s3 := Later(0, multiset{THE_MESSAGE}, Idle, false, Idle, map[], map[]);
    var s4 := Later(0, multiset{}, Received, false, Idle, map[], map[]);
    var s5 := Later(0, multiset{}, Locked, false, Idle, map[7 := 0], map[]);
    var s6 := Later(0, multiset{}, Read(0), false, Idle, map[7 := 0], map[]);
    var s7 := Later(1, multiset{}, Counted(0), false, Idle, map[7 := 0], map[]);
    var s8 := Later(1, multiset{}, Handling, false, Idle, map[7 := 0], map[7 := 1]);
    actions := Continued(s0, [], s0, Dispatch(0, AddTask), s1);
    actions := Continued(s0, actions, s1, Dispatch(0, BeginPublishing), s2);
    actions := Continued(s0, actions, s2, Dispatch(0, Publish), s3);
    actions := Continued(s0, actions, s3, Deliver(0, THE_MESSAGE), s4);
    actions := Continued(s0, actions, s4, Work(0, TryLock), s5);
    actions := Continued(s0, actions, s5, Work(0, ReadTask), s6);
    actions := Continued(s0, actions, s6, Work(0, CountAttempt), s7);
    actions := Continued(s0, actions, s7, Work(0, StartHandler), s8);
  }

  lemma Continued(s: System, actions: seq<Action>, u: System, a: Action, t: System) returns (more: seq<Action>)
    requires Reaches(s, actions, u) && Follows(u, a, t)
    ensures Reaches(s, more, t)
  {
    Onward(s, actions, u, a, t);
    more := actions + [a];
  }

  /**
   Two workers and one task.  While the first handles it, its broker connection fails; the second receives the
   requeued duplicate, finds the lock taken and acknowledges it; then the first stops.  The task is lost: no
   result, and nobody left to work on it.
   */
  lemma SeparateLossLosesTask() returns (start: System, actions: seq<Action>, last: System)
    ensures Init(start) && Reaches(start, actions, last)
    ensures OrphanLoss(last, Work(0, Crash), 7) && Enabled(last, Work(0, Crash)) && Lost(Next(last, Work(0, Crash)), 7)
  {
    start := Early(map[], Adding(0));
    EarlyFollows();
    actions := HandlingScene();
    LaterDelivers(1, Handling, true, map[7 := 0], map[7 := 1]);
    LaterAcknowledges();
    LaterLost();
    hide Follows, Early, Later, Reaches, Init, Lost, OrphanLoss;
    var s0 := Later(1, multiset{}, Handling, false, Idle, map[7 := 0], map[7 := 1]);
    var s1 := Later(1, multiset{THE_MESSAGE}, Handling, true, Idle, map[7 := 0], map[7 := 1]);
    var s2 := Later(1, multiset{}, Handling, true, Received, map[7 := 0], map[7 := 1]);
    var s3 := Later(1, multiset{}, Handling, true, Acking, map[7 := 0], map[7 := 1]);
    last := Later(1, multiset{}, Handling, true, Idle, map[7 := 0], map[7 := 1]);
    actions := Continued(start, actions, s0, Work(0, LoseBroker), s1);
    actions := Continued(start, actions, s1, Deliver(1, THE_MESSAGE), s2);
    actions := Continued(start, actions, s2, Work(1, TryLock), s3);
    actions := Continued(start, actions, s3, Work(1, Acknowledge), last);
  }
}

/** The store and dispatcher code itself. */
module TaskDispatch {
  import opened Options
  import opened TaskQueue

  datatype Reply = Busy | Unknown | ReplyTo(started: bool)

  /** What becomes of the handler when it runs. */
  datatype Outcome = Returned(output: string) | Raised(error: string)

  /** What an attempt stores: expiry comes before the retry budget, and a result that comes too late is an error. */
  function Attempted(attempts: nat, expired: bool, outcome: Outcome, late: bool): Result {
    if expired then Error("TimeoutError")
    else if attempts >= MAX_STARTS then Error("RuntimeError")
    else if outcome.Raised? then Error(outcome.error)
    else if late then Error("TimeoutError")
    else Success(outcome.output)
  }

  /** A task after one undisturbed execution. */
  function Executed(t: Task, expired: bool, outcome: Outcome, late: bool): (t': Task)
    ensures t'.input == t.input && t'.result.Some?
  {
    if t.result.Some? then t
    else Task(t.input, t.attempts + 1, Some(Attempted(t.attempts, expired, outcome, late)))
  }

  /** Worker `w` of `s` further along: its phase, its task's row and the start count changed. */
  function Acting(s: System, tasks: map<nat, Task>, w: nat, p: Phase, starts: map<nat, nat>): System
    requires w < |s.workers|
  {
    s.(tasks := tasks, starts := starts, workers := s.workers[w := s.workers[w].(phase := p)],
       locks := if Holding(p) then s.locks[s.workers[w].message.id := w] else s.locks)
  }

  lemma ActingMoves(s: System, tasks: map<nat, Task>, w: nat, p: Phase, starts: map<nat, nat>, q: Phase)
    requires w < |s.workers| && Holding(p) && Holding(q)
    ensures At(Acting(s, tasks, w, p, starts), w, q) == Acting(s, tasks, w, q, starts)
    ensures |Acting(s, tasks, w, p, starts).workers| == |s.workers|
    ensures Acting(s, tasks, w, p, starts).workers[w] == s.workers[w].(phase := p)
  {
    var t := Acting(s, tasks, w, p, starts);
    assert t.workers[w := t.workers[w].(phase := q)] == s.workers[w := s.workers[w].(phase := q)];
  }

  /** One protocol action of the lock holder `w`, on its own task. */
  lemma ActingFollows(s: System, tasks: map<nat, Task>, w: nat, starts: map<nat, nat>, a: Action, p: Phase, q: Phase)
    requires w < |s.workers| && Holding(p) && Holding(q) && s.workers[w].message.id in tasks
    requires tasks[s.workers[w].message.id].input.provider == s.workers[w].provider
    requires var t := tasks[s.workers[w].message.id];
             || (a == Work(w, ReadTask) && p == Locked && q == if t.result.Some? then Answered else Read(t.attempts))
             || (a == Work(w, Expire) && p.Counted? && q == Computed(Error("TimeoutError")))
             || (a == Work(w, Exhaust) && p.Counted? && p.attempts >= MAX_STARTS
                 && q == Computed(Error("RuntimeError")))
             || (p == Handling && q.Computed? && a == Work(w, FinishHandler(q.result)))
    ensures Follows(Acting(s, tasks, w, p, starts), a, Acting(s, tasks, w, q, starts))
  {
    ActingMoves(s, tasks, w, p, starts, q);
  }

  lemma ActingWrites(s: System, tasks: map<nat, Task>, w: nat, starts: map<nat, nat>, p: Phase)
    requires w < |s.workers| && s.workers[w].message.id in tasks
    ensures var id := s.workers[w].message.id;
            p.Read? ==> Follows(Acting(s, tasks, w, p, starts), Work(w, CountAttempt),
              Acting(s, tasks[id := tasks[id].(attempts := tasks[id].attempts + 1)], w, Counted(p.attempts), starts))
    ensures var id := s.workers[w].message.id;
            p.Computed? ==> Follows(Acting(s, tasks, w, p, starts), Work(w, StoreResult),
              Acting(s, tasks[id := tasks[id].(result := Some(p.result))], w, Answered, starts))
    ensures p.Counted? && p.attempts < MAX_STARTS ==>
              Follows(Acting(s, tasks, w, p, starts), Work(w, StartHandler),
                Acting(s, tasks, w, Handling, starts[s.workers[w].message.id :=
                  Starts(Acting(s, tasks, w, p, starts), s.workers[w].message.id) + 1]))
  {
    if p.Read? {
      ActingMoves(s, tasks, w, p, starts, Counted(p.attempts));
    }
    if p.Computed? {
      ActingMoves(s, tasks, w, p, starts, Answered);
    }
    if p.Counted? {
      ActingMoves(s, tasks, w, p, starts, Handling);
    }
  }

  lemma ActingEnds(s: System, tasks: map<nat, Task>, w: nat, starts: map<nat, nat>)
    requires w < |s.workers| && s.workers[w].phase == Received && s.workers[w].message.id !in s.locks
    ensures Follows(s, Work(w, TryLock), Acting(s, s.tasks, w, Locked, s.starts))
    ensures Follows(Acting(s, tasks, w, Answered, starts), Work(w, Unlock), Acting(s, tasks, w, Replying, starts))
  {
    var t := Acting(s, tasks, w, Answered, starts);
    assert t.workers[w := t.workers[w].(phase := Replying)] == s.workers[w := s.workers[w].(phase := Replying)];
    assert t.locks - {s.workers[w].message.id} == s.locks;
  }

  /** An undisturbed execution is what the worker's protocol actions from taking to releasing the lock do. */
  lemma ExecutionIsProtocol(s: System, w: nat, expired: bool, outcome: Outcome, late: bool)
    returns (actions: seq<Action>, s': System)
    requires Inv(s) && w < |s.workers| && s.workers[w].phase == Received && s.workers[w].message.id !in s.locks
    ensures Reaches(s, actions, s')
    ensures s'.workers == s.workers[w := s.workers[w].(phase := Replying)] && s'.locks == s.locks
    ensures var id := s.workers[w].message.id;
            id in s.tasks && s'.tasks == s.tasks[id := Executed(s.tasks[id], expired, outcome, late)]
  {
    var id := s.workers[w].message.id;
    assert Routed(s, s.workers[w].message);
    hide Inv, Enabled, Next, Follows, Reaches, Acting;
    var task := s.tasks[id];
    var tasks, starts := s.tasks, s.starts;
    assert Reaches(s, [], s) by { Trivially(s); }
    ActingEnds(s, tasks, w, starts);
    var t := Acting(s, tasks, w, Locked, starts);
    Onward(s, [], s, Work(w, TryLock), t);
    actions := [] + [Work(w, TryLock)];
    if task.result.Some? {
      ActingFollows(s, tasks, w, starts, Work(w, ReadTask), Locked, Answered);
      Onward(s, actions, t, Work(w, ReadTask), Acting(s, tasks, w, Answered, starts));
      actions := actions + [Work(w, ReadTask)];
    } else {
      actions, tasks, starts := Attempt(s, w, expired, outcome, late, actions);
    }
    assert tasks == s.tasks[id := Executed(task, expired, outcome, late)];
    ActingEnds(s, tasks, w, starts);
    s' := Acting(s, tasks, w, Replying, starts);
    Onward(s, actions, Acting(s, tasks, w, Answered, starts), Work(w, Unlock), s');
    actions := actions + [Work(w, Unlock)];
  }

  /** The same for a task without a result: count, then handle or give up, then store. */
  lemma Attempt(s: System, w: nat, expired: bool, outcome: Outcome, late: bool, before: seq<Action>)
    returns (actions: seq<Action>, tasks: map<nat, Task>, starts: map<nat, nat>)
    requires w < |s.workers| && s.workers[w].message.id in s.tasks
    requires var t := s.tasks[s.workers[w].message.id]; t.result == None && t.input.provider == s.workers[w].provider
    requires Reaches(s, before, Acting(s, s.tasks, w, Locked, s.starts))
    ensures Reaches(s, actions, Acting(s, tasks, w, Answered, starts))
    ensures var id := s.workers[w].message.id; tasks == s.tasks[id := Executed(s.tasks[id], expired, outcome, late)]
  {
    hide Enabled, Next, Follows, Reaches, Acting;
    var id := s.workers[w].message.id;
    var task := s.tasks[id];
    actions, tasks, starts := before, s.tasks, s.starts;
    ActingFollows(s, tasks, w, starts, Work(w, ReadTask), Locked, Read(task.attempts));
    Onward(s, actions, Acting(s, tasks, w, Locked, starts), Work(w, ReadTask),
           Acting(s, tasks, w, Read(task.attempts), starts));
    actions := actions + [Work(w, ReadTask)];
    ActingWrites(s, tasks, w, starts, Read(task.attempts));
    var counted := tasks[id := task.(attempts := task.attempts + 1)];
    Onward(s, actions, Acting(s, tasks, w, Read(task.attempts), starts), Work(w, CountAttempt),
           Acting(s, counted, w, Counted(task.attempts), starts));
    actions, tasks := actions + [Work(w, CountAttempt)], counted;
    var result := Executed(task, expired, outcome, late).result.value;
    if expired || task.attempts >= MAX_STARTS {
      var giveUp := Work(w, if expired then Expire else Exhaust);
      ActingFollows(s, tasks, w, starts, giveUp, Counted(task.attempts), Computed(result));
      Onward(s, actions, Acting(s, tasks, w, Counted(task.attempts), starts), giveUp,
             Acting(s, tasks, w, Computed(result), starts));
      actions := actions + [giveUp];
    } else {
      ActingWrites(s, tasks, w, starts, Counted(task.attempts));
      var started := starts[id := Starts(Acting(s, tasks, w, Counted(task.attempts), starts), id) + 1];
      Onward(s, actions, Acting(s, tasks, w, Counted(task.attempts), starts), Work(w, StartHandler),
             Acting(s, tasks, w, Handling, started));
      actions, starts := actions + [Work(w, StartHandler)], started;
      ActingFollows(s, tasks, w, starts, Work(w, FinishHandler(result)), Handling, Computed(result));
      Onward(s, actions, Acting(s, tasks, w, Handling, starts), Work(w, FinishHandler(result)),
             Acting(s, tasks, w, Computed(result), starts));
      actions := actions + [Work(w, FinishHandler(result))];
    }
    ActingWrites(s, tasks, w, starts, Computed(result));
    var stored := tasks[id := tasks[id].(result := Some(result))];
    Onward(s, actions, Acting(s, tasks, w, Computed(result), starts), Work(w, StoreResult),
           Acting(s, stored, w, Answered, starts));
    actions, tasks := actions + [Work(w, StoreResult)], stored;
    assert tasks == s.tasks[id := Executed(task, expired, outcome, late)];
  }

  /** What a round returns for a profile: its task's stored result, or the timeout error. */
  datatype Entry = Stored(result: Result) | TimedOut

  predicate HasResult(tasks: map<nat, Task>, id: nat) {
    id in tasks && tasks[id].result.Some?
  }

  predicate AllStored(tasks: map<nat, Task>, ids: seq<nat>) {
    forall k | 0 <= k < |ids| :: HasResult(tasks, ids[k])
  }

  /** One entry per profile, a timeout only where the task has no result. */
  predicate AreCollected(entries: seq<Entry>, tasks: map<nat, Task>, ids: seq<nat>) {
    && |entries| == |ids|
    && forall k | 0 <= k < |ids| ::
         if HasResult(tasks, ids[k]) then entries[k] == Stored(tasks[ids[k]].result.value) else entries[k] == TimedOut
  }

  /** A stored result that one poll returns is the one every later poll returns. */
  lemma CollectedIsFinal(run: seq<System>, actions: seq<Action>, i: nat, j: nat, ids: seq<nat>, k: nat,
                         early: seq<Entry>, late: seq<Entry>)
    requires IsRun(run, actions) && i <= j < |run| && k < |ids|
    requires AreCollected(early, run[i].tasks, ids) && AreCollected(late, run[j].tasks, ids)
    ensures early[k].Stored? ==> late[k] == early[k]
    ensures late[k].TimedOut? ==> early[k].TimedOut?
  {
    RunIsWriteOnce(run, actions, i, j);
    hide IsRun;
  }

  /** What a poll finds: the stored tasks, whether a notification waits, and whether time is up. */
  datatype Poll = Poll(tasks: map<nat, Task>, notified: bool, expired: bool)

  predicate EndsWith(p: Poll, ids: seq<nat>) {
    AllStored(p.tasks, ids) || p.expired
  }

  function Notifications(polls: seq<Poll>): nat {
    if polls == [] then 0
    else Notifications(polls[..|polls| - 1]) + if polls[|polls| - 1].notified then 1 else 0
  }

  class Dispatcher {
    var tasks: map<nat, Task>
    var queued: seq<Message>

    constructor (tasks: map<nat, Task>)
      ensures this.tasks == tasks && queued == []
    {
      this.tasks, queued := tasks, [];
    }

    /** `Store.add`. */
    method Add(id: nat, input: Input) returns (ok: bool)
      modifies this`tasks
      ensures tasks == Added(old(tasks), id, input) && ok == (id in old(tasks) ==> old(tasks)[id].input == input)
      ensures tasks == if id in old(tasks) then old(tasks) else old(tasks)[id := Task(input, 0, None)]
    {
      if id !in tasks {
        tasks := tasks[id := Task(input, 0, None)];
      }
      ok := tasks[id].input == input;
    }

    /** `Store.execute`, uninterrupted; the lock, clock and handler outcomes are given. */
    method Execute(id: nat, provider: string, locked: bool, expired: bool, outcome: Outcome, late: bool)
      returns (reply: Reply)
      modifies this`tasks
      ensures reply.Busy? <==> !locked
      ensures reply.Unknown? <==> locked && (id !in old(tasks) || old(tasks)[id].input.provider != provider)
      ensures !reply.ReplyTo? ==> tasks == old(tasks)
      ensures reply.ReplyTo? ==> tasks == old(tasks)[id := Executed(old(tasks)[id], expired, outcome, late)]
      ensures reply.ReplyTo? ==>
                reply.started == (old(tasks)[id].result == None && !expired && old(tasks)[id].attempts < 2)
      // A stored result stays; otherwise the attempt counts, and what it gave is stored.
      ensures tasks.Keys == old(tasks).Keys
      ensures forall other | other in tasks && other != id :: tasks[other] == old(tasks)[other]
      ensures reply.ReplyTo? && old(tasks)[id].result.Some? ==> tasks == old(tasks)
      ensures reply.ReplyTo? && old(tasks)[id].result == None ==>
                tasks[id].input == old(tasks)[id].input && tasks[id].attempts == old(tasks)[id].attempts + 1
      ensures reply.ReplyTo? && reply.started && outcome.Returned? ==>
                tasks[id].result == Some(if late then Error("TimeoutError") else Success(outcome.output))
      ensures reply.ReplyTo? && reply.started && outcome.Raised? ==> tasks[id].result == Some(Error(outcome.error))
      ensures reply.ReplyTo? && !reply.started && old(tasks)[id].result == None ==>
                tasks[id].result == Some(Error(if expired then "TimeoutError" else "RuntimeError"))
    {
      if !locked {
        return Busy;
      }
      if id !in tasks || tasks[id].input.provider != provider {
        return Unknown;
      }
      var started := false;
      var task := tasks[id];
      if task.result == None {
        tasks := tasks[id := task.(attempts := task.attempts + 1)];
        var result;
        if expired {
          result := Error("TimeoutError");
        } else if task.attempts >= 2 {
          result := Error("RuntimeError");
        } else {
          started := true;
          result := match outcome
                    case Returned(output) => Success(output)
                    case Raised(error) => Error(error);
          if outcome.Returned? && late {
            result := Error("TimeoutError");
          }
        }
        tasks := tasks[id := tasks[id].(result := Some(result))];
      }
      return ReplyTo(started);
    }

    /** Profiles with the same id agree, and agree with what is stored: what a caller can check beforehand. */
    predicate Compatible(ids: seq<nat>, inputs: seq<Input>)
      requires |ids| == |inputs|
      reads this
    {
      && (forall i | 0 <= i < |ids| && ids[i] in tasks :: tasks[ids[i]].input == inputs[i])
      && (forall i, j | 0 <= i < j < |ids| && ids[i] == ids[j] :: inputs[i] == inputs[j])
    }

    /** The dispatch half of `round`: every task is stored before the first message is published. */
    method Dispatch(ids: seq<nat>, inputs: seq<Input>) returns (ok: bool)
      requires |ids| == |inputs|
      modifies this
      ensures ok == old(Compatible(ids, inputs))
      ensures ok ==> forall i | 0 <= i < |ids| :: ids[i] in tasks && tasks[ids[i]].input == inputs[i]
      ensures queued == if ok then old(queued) + seq(|ids|, i requires 0 <= i < |ids| =>
                                                       Message(ids[i], inputs[i].provider))
                        else old(queued)
      ensures forall id | id in old(tasks) :: id in tasks && tasks[id] == old(tasks)[id]
      ensures forall id | id in tasks && id !in old(tasks) ::
                id in ids && tasks[id].result == None && tasks[id].attempts == 0
    {
      for k := 0 to |ids|
        invariant queued == old(queued)
        invariant forall id | id in old(tasks) :: id in tasks && tasks[id] == old(tasks)[id]
        invariant forall id | id in tasks && id !in old(tasks) ::
                    tasks[id].result == None && tasks[id].attempts == 0 && exists i :: 0 <= i < k && ids[i] == id
        invariant forall i | 0 <= i < k :: ids[i] in tasks && tasks[ids[i]].input == inputs[i]
      {
        var added := Add(ids[k], inputs[k]);
        if !added {
          return false;
        }
      }
      assert old(Compatible(ids, inputs));
      label persisted:
      for k := 0 to |ids|
        invariant tasks == old@persisted(tasks)
        invariant queued == old(queued) + seq(k, i requires 0 <= i < k => Message(ids[i], inputs[i].provider))
      {
        queued := queued + [Message(ids[k], inputs[k].provider)];
      }
      ok := true;
    }

    /**
     The polling half of `round`: it looks until every task has a result or time is up, acknowledging the
     notifications that wait in between, and returns what the last look found.
     */
    method Collect(ids: seq<nat>, polls: seq<Poll>) returns (entries: seq<Entry>, last: nat, acknowledged: nat)
      requires polls != [] && polls[|polls| - 1].expired
      modifies this`tasks
      ensures last < |polls| && EndsWith(polls[last], ids) && forall i | 0 <= i < last :: !EndsWith(polls[i], ids)
      ensures tasks == polls[last].tasks && AreCollected(entries, tasks, ids)
      ensures polls[last].expired || forall k | 0 <= k < |ids| :: entries[k].Stored?
      ensures acknowledged == Notifications(polls[..last])
    {
      last, acknowledged := 0, 0;
      tasks := polls[0].tasks;
      while !(AllStored(tasks, ids) || polls[last].expired)
        invariant last < |polls| && tasks == polls[last].tasks
        invariant forall i | 0 <= i < last :: !EndsWith(polls[i], ids)
        invariant acknowledged == Notifications(polls[..last])
        decreases |polls| - last
      {
        assert polls[..last + 1][..last] == polls[..last];
        if polls[last].notified {
          acknowledged := acknowledged + 1;
        }
        last := last + 1;
        tasks := polls[last].tasks;
      }
      entries := [];
      for k := 0 to |ids|
        invariant AreCollected(entries, tasks, ids[..k])
      {
        entries := entries + [if HasResult(tasks, ids[k]) then Stored(tasks[ids[k]].result.value) else TimedOut];
      }
      assert ids[..|ids|] == ids;
    }
  }
}
