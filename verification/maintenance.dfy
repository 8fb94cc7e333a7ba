/** JSON documents and the merge patch of section 2 of RFC 7386. */
module MergePatches {

  datatype Json =
    | Null
    | Bool(value: bool)
    | Number(number: int)
    | Str(text: string)
    | Array(items: seq<Json>)
    | Object(members: map<string, Json>)

  function Merge(target: Json, patch: Json): Json
    decreases patch
  {
    if !patch.Object? then patch
    else
      var base := if target.Object? then target.members else map[];
      Object(map name | name in base.Keys + patch.members.Keys && !Removes(patch, name) ::
               if name in patch.members
               then Merge(if name in base then base[name] else Null, patch.members[name])
               else base[name])
  }

  predicate Removes(patch: Json, name: string) {
    patch.Object? && name in patch.members && patch.members[name].Null?
  }

  /** The value at a path; missing values read as null. */
  function Lookup(document: Json, path: seq<string>): Json {
    if path == [] then document
    else if document.Object? && path[0] in document.members then Lookup(document.members[path[0]], path[1..])
    else Null
  }

  /** The patch says something about the value at this path. */
  predicate Sets(patch: Json, path: seq<string>) {
    path == [] || (patch.Object? && path[0] in patch.members && Sets(patch.members[path[0]], path[1..]))
  }

  /** The patch leaves the path before its end: it says nothing about the value there. */
  predicate Spares(patch: Json, path: seq<string>) {
    path != [] && patch.Object?
    && (path[0] !in patch.members || Spares(patch.members[path[0]], path[1..]))
  }

  /** What a patch sets can be read back, merged into what was there. */
  lemma {:induction false} MergedValue(target: Json, patch: Json, path: seq<string>)
    requires Sets(patch, path)
    ensures Lookup(Merge(target, patch), path) == Merge(Lookup(target, path), Lookup(patch, path))
    decreases |path|
  {
    if path != [] {
      var name := path[0];
      if patch.members[name].Null? {
        assert path[1..] == [];
      } else {
        var inner := if target.Object? && name in target.members then target.members[name] else Null;
        MergedValue(inner, patch.members[name], path[1..]);
      }
    }
  }

  /** What a patch does not mention keeps its value. */
  lemma {:induction false} SparedValue(target: Json, patch: Json, path: seq<string>)
    requires Spares(patch, path)
    ensures Lookup(Merge(target, patch), path) == Lookup(target, path)
    decreases |path|
  {
    var name := path[0];
    if name in patch.members {
      var inner := if target.Object? && name in target.members then target.members[name] else Null;
      SparedValue(inner, patch.members[name], path[1..]);
    }
  }

  // Writing a value back through a merge patch.

  /** No object inside the value, however deep, has a null member. */
  predicate NoNullMembers(value: Json) {
    value.Object? ==> forall name | name in value.members ::
                        !value.members[name].Null? && NoNullMembers(value.members[name])
  }

  /** The value without its null members. */
  function Stripped(value: Json): Json {
    Merge(Null, value)
  }

  /** A merge patch restores a removed value exactly when it has no null members. */
  lemma {:induction false} StrippedExactlyWhen(value: Json)
    ensures Stripped(value) == value <==> NoNullMembers(value)
  {
    if value.Object? {
      forall name | name in value.members
        ensures Stripped(value.members[name]) == value.members[name] <==> NoNullMembers(value.members[name])
      {
        StrippedExactlyWhen(value.members[name]);
      }
      var kept := Stripped(value).members;
      if NoNullMembers(value) {
        assert kept == value.members;
      }
      if kept == value.members {
        forall name | name in value.members
          ensures !value.members[name].Null? && NoNullMembers(value.members[name])
        {
          assert name in kept && kept[name] == Merge(Null, value.members[name]);
        }
      }
    }
  }

  /** Patching a value with itself also only strips it. */
  lemma {:induction false} MergeSelf(value: Json)
    ensures Merge(value, value) == Stripped(value)
  {
    if value.Object? {
      forall name | name in value.members
        ensures Merge(value.members[name], value.members[name]) == Merge(Null, value.members[name])
      {
        MergeSelf(value.members[name]);
      }
      assert Merge(value, value).members == Stripped(value).members;
    }
  }
}

/** The cluster as the rebuild sees it, and what its controllers may do between any two steps of the script. */
module ControlPlane {
  import opened MergePatches

  const SKIP := ["metadata", "annotations", "argocd.argoproj.io/skip-reconcile"]
  const AUTOMATED := ["spec", "syncPolicy", "automated"]
  const PAUSED := ["metadata", "annotations", "autoscaling.keda.sh/paused"]
  const PAUSED_REPLICAS := ["metadata", "annotations", "autoscaling.keda.sh/paused-replicas"]
  const SUSPEND := ["spec", "suspend"]

  datatype Deployment = Deployment(replicas: nat, pods: nat)

  /** An autoscaler; `paused` is the condition its controller reports. */
  datatype ScaledObject = ScaledObject(resource: Json, target: string, paused: bool)

  datatype Cluster = Cluster(application: Json, syncing: bool, deployments: map<string, Deployment>,
                             scaled: map<string, ScaledObject>, cronjobs: map<string, Json>, jobs: nat,
                             autoscaled: set<string>)  // targets of plain autoscalers

  predicate Automatic(application: Json) {
    !Lookup(application, AUTOMATED).Null? && Lookup(application, SKIP) != Str("true")
  }

  predicate Suspended(cronjob: Json) {
    Lookup(cronjob, SUSPEND) == Bool(true)
  }

  predicate PauseRequested(resource: Json) {
    Lookup(resource, PAUSED) == Str("true")
  }

  predicate Managed(c: Cluster, deployment: string) {
    exists s :: s in c.scaled && c.scaled[s].target == deployment
  }

  /** What the controllers do on their own. */
  datatype Move =
    | StartSync | EndSync
    | SyncDeployment(name: string, replicas: nat) | SyncScaledObject(name: string, resource: Json)
    | SyncCronJob(name: string, resource: Json)
    | Autoscale(name: string, replicas: nat) | PlainAutoscale(name: string, replicas: nat)
    | ReportPaused(name: string) | ReportActive(name: string)
    | StartJob(name: string) | EndJob
    | StartPod(name: string) | StopPod(name: string)

  predicate Enabled(c: Cluster, m: Move) {
    match m
    case StartSync => Automatic(c.application)
    case EndSync => c.syncing
    case SyncDeployment(d, _) => c.syncing && d in c.deployments
    case SyncScaledObject(s, _) => c.syncing && s in c.scaled
    case SyncCronJob(j, _) => c.syncing && j in c.cronjobs
    // A paused autoscaler only brings its target down to the zero replicas the script asked for.
    case Autoscale(s, n) => s in c.scaled && c.scaled[s].target in c.deployments && (c.scaled[s].paused ==> n == 0)
    case PlainAutoscale(d, _) => d in c.autoscaled && d in c.deployments && !Managed(c, d)
    case ReportPaused(s) => s in c.scaled && PauseRequested(c.scaled[s].resource)
    case ReportActive(s) => s in c.scaled && !PauseRequested(c.scaled[s].resource)
    case StartJob(j) => j in c.cronjobs && !Suspended(c.cronjobs[j])
    case EndJob => c.jobs > 0
    case StartPod(d) => d in c.deployments && c.deployments[d].pods < c.deployments[d].replicas
    case StopPod(d) => d in c.deployments && c.deployments[d].pods > 0
  }

  function WithReplicas(c: Cluster, d: string, replicas: nat): Cluster
    requires d in c.deployments
  {
    c.(deployments := c.deployments[d := c.deployments[d].(replicas := replicas)])
  }

  function WithPods(c: Cluster, d: string, pods: nat): Cluster
    requires d in c.deployments
  {
    c.(deployments := c.deployments[d := c.deployments[d].(pods := pods)])
  }

  function WithScaled(c: Cluster, s: string, autoscaler: ScaledObject): Cluster {
    c.(scaled := c.scaled[s := autoscaler])
  }

  function Moved(c: Cluster, m: Move): Cluster
    requires Enabled(c, m)
  {
    match m
    case StartSync => c.(syncing := true)
    case EndSync => c.(syncing := false)
    case SyncDeployment(d, n) => WithReplicas(c, d, n)
    case SyncScaledObject(s, r) => WithScaled(c, s, c.scaled[s].(resource := r))
    case SyncCronJob(j, r) => c.(cronjobs := c.cronjobs[j := r])
    case Autoscale(s, n) => WithReplicas(c, c.scaled[s].target, n)
    case PlainAutoscale(d, n) => WithReplicas(c, d, n)
    case ReportPaused(s) => WithScaled(c, s, c.scaled[s].(paused := true))
    case ReportActive(s) => WithScaled(c, s, c.scaled[s].(paused := false))
    case StartJob(_) => c.(jobs := c.jobs + 1)
    case EndJob => c.(jobs := c.jobs - 1)
    case StartPod(d) => WithPods(c, d, c.deployments[d].pods + 1)
    case StopPod(d) => WithPods(c, d, c.deployments[d].pods - 1)
  }

  /** The enabled ones among some moves happen, in order. */
  function Interfered(c: Cluster, moves: seq<Move>): Cluster {
    if moves == [] then c
    else
      var before := Interfered(c, moves[..|moves| - 1]);
      var m := moves[|moves| - 1];
      if Enabled(before, m) then Moved(before, m) else before
  }

  // Nothing can write to the database.

  predicate NoSync(c: Cluster) {
    !c.syncing && !Automatic(c.application)
  }

  predicate NoJobs(c: Cluster) {
    c.jobs == 0 && forall j | j in c.cronjobs :: Suspended(c.cronjobs[j])
  }

  predicate NoAutoscaling(c: Cluster) {
    && (forall s | s in c.scaled && c.scaled[s].target in c.deployments ::
          PauseRequested(c.scaled[s].resource) && c.scaled[s].paused)
    && (forall d | d in c.autoscaled && d in c.deployments :: Managed(c, d))
  }

  predicate NoPods(c: Cluster) {
    forall d | d in c.deployments :: c.deployments[d] == Deployment(0, 0)
  }

  predicate NoWriters(c: Cluster) {
    NoSync(c) && NoJobs(c) && NoAutoscaling(c) && NoPods(c)
  }

  /** Once nothing can write, no controller brings a writer back. */
  lemma {:induction false} NoWritersStays(c: Cluster, moves: seq<Move>)
    requires NoWriters(c)
    ensures NoWriters(Interfered(c, moves))
  {
    if moves != [] {
      NoWritersStays(c, moves[..|moves| - 1]);
      var before, m := Interfered(c, moves[..|moves| - 1]), moves[|moves| - 1];
      if Enabled(before, m) {
        SameManagement(before, m);
      }
    }
  }

  /** Moves neither create nor retarget anything. */
  lemma SameManagement(c: Cluster, m: Move)
    requires Enabled(c, m)
    ensures var c' := Moved(c, m);
            && c'.deployments.Keys == c.deployments.Keys && c'.scaled.Keys == c.scaled.Keys
            && c'.cronjobs.Keys == c.cronjobs.Keys && c'.autoscaled == c.autoscaled && c'.application == c.application
            && (forall s | s in c.scaled :: c'.scaled[s].target == c.scaled[s].target)
            && (forall d :: Managed(c', d) <==> Managed(c, d))
  {
    var c' := Moved(c, m);
    forall d
      ensures Managed(c', d) <==> Managed(c, d)
    {
      if Managed(c, d) {
        var s :| s in c.scaled && c.scaled[s].target == d;
        assert c'.scaled[s].target == d;
      }
    }
  }
}

/** The script: record the settings, stop every writer, rebuild, and put the settings back. */
module Maintenance {
  import opened MergePatches
  import opened ControlPlane
  import opened Options

  datatype SavedDeployment = SavedDeployment(name: string, replicas: nat)
  datatype SavedScaledObject = SavedScaledObject(name: string, paused: Json, pausedReplicas: Json)
  datatype SavedCronJob = SavedCronJob(name: string, suspend: Json)

  /** The recorded settings. */
  datatype Plan = Plan(automated: Json, skip: Json, deployments: seq<SavedDeployment>,
                       scaled: seq<SavedScaledObject>, cronjobs: seq<SavedCronJob>)

  predicate ListsDeployment(plan: Plan, name: string) {
    exists i :: 0 <= i < |plan.deployments| && plan.deployments[i].name == name
  }

  predicate ListsScaledObject(plan: Plan, name: string) {
    exists i :: 0 <= i < |plan.scaled| && plan.scaled[i].name == name
  }

  predicate ListsCronJob(plan: Plan, name: string) {
    exists i :: 0 <= i < |plan.cronjobs| && plan.cronjobs[i].name == name
  }

  /** Everything that could write is listed, and no plain autoscaler can interfere. */
  predicate Covers(plan: Plan, c: Cluster) {
    && (forall d | d in c.deployments :: ListsDeployment(plan, d))
    && (forall s | s in c.scaled && c.scaled[s].target in c.deployments :: ListsScaledObject(plan, s))
    && (forall j | j in c.cronjobs :: ListsCronJob(plan, j))
    && (forall d | d in c.autoscaled && d in c.deployments :: Managed(c, d))
  }

  /** Annotations are strings and the suspend switch is no object; names are listed once. */
  predicate WellFormed(plan: Plan) {
    && !plan.skip.Object?
    && (forall i | 0 <= i < |plan.scaled| :: !plan.scaled[i].paused.Object? && !plan.scaled[i].pausedReplicas.Object?)
    && (forall i | 0 <= i < |plan.cronjobs| :: !plan.cronjobs[i].suspend.Object?)
    && (forall i, j | 0 <= i < j < |plan.deployments| :: plan.deployments[i].name != plan.deployments[j].name)
    && (forall i, j | 0 <= i < j < |plan.scaled| :: plan.scaled[i].name != plan.scaled[j].name)
    && (forall i, j | 0 <= i < j < |plan.cronjobs| :: plan.cronjobs[i].name != plan.cronjobs[j].name)
  }

  // The calls to the cluster.

  function SuspendPatch(suspend: Json): Json {
    Object(map["spec" := Object(map["suspend" := suspend])])
  }

  function PausePatch(paused: Json, replicas: Json): Json {
    var annotations := map[PAUSED[2] := paused, PAUSED_REPLICAS[2] := replicas];
    Object(map["metadata" := Object(map["annotations" := Object(annotations)])])
  }

  function ApplicationPatch(skip: Json, automated: Json): Json {
    Object(map["metadata" := Object(map["annotations" := Object(map[SKIP[2] := skip])]),
               "spec" := Object(map["syncPolicy" := Object(map["automated" := automated])])])
  }

  lemma PatchedValues(target: Json, a: Json, b: Json)
    ensures Lookup(Merge(target, SuspendPatch(a)), SUSPEND) == Merge(Lookup(target, SUSPEND), a)
    ensures Lookup(Merge(target, PausePatch(a, b)), PAUSED) == Merge(Lookup(target, PAUSED), a)
    ensures Lookup(Merge(target, PausePatch(a, b)), PAUSED_REPLICAS) == Merge(Lookup(target, PAUSED_REPLICAS), b)
    ensures Lookup(Merge(target, ApplicationPatch(a, b)), SKIP) == Merge(Lookup(target, SKIP), a)
    ensures Lookup(Merge(target, ApplicationPatch(a, b)), AUTOMATED) == Merge(Lookup(target, AUTOMATED), b)
  {
    hide Merge;
    MergedTwo(target, SuspendPatch(a), SUSPEND, a);
    MergedThree(target, PausePatch(a, b), PAUSED, a);
    MergedThree(target, PausePatch(a, b), PAUSED_REPLICAS, b);
    MergedThree(target, ApplicationPatch(a, b), SKIP, a);
    MergedThree(target, ApplicationPatch(a, b), AUTOMATED, b);
  }

  lemma MergedTwo(target: Json, patch: Json, path: seq<string>, value: Json)
    requires |path| == 2 && patch.Object? && path[0] in patch.members
    requires var p := patch.members[path[0]]; p.Object? && path[1] in p.members && p.members[path[1]] == value
    ensures Lookup(Merge(target, patch), path) == Merge(Lookup(target, path), value)
  {
    hide Merge;
    var p := patch.members[path[0]];
    assert path[1..][1..] == [] && path[1..][0] == path[1];
    assert Lookup(p, path[1..]) == value && Sets(p, path[1..]);
    MergedValue(target, patch, path);
  }

  lemma MergedThree(target: Json, patch: Json, path: seq<string>, value: Json)
    requires |path| == 3 && patch.Object? && path[0] in patch.members
    requires var p := patch.members[path[0]]; p.Object? && path[1] in p.members
    requires var q := patch.members[path[0]].members[path[1]];
             q.Object? && path[2] in q.members && q.members[path[2]] == value
    ensures Lookup(Merge(target, patch), path) == Merge(Lookup(target, path), value)
  {
    hide Merge;
    var p := patch.members[path[0]];
    var q := p.members[path[1]];
    assert path[1..][1..] == path[2..] && path[2..][1..] == [] && path[2..][0] == path[2] && path[1..][0] == path[1];
    assert Lookup(q, path[2..]) == value && Sets(q, path[2..]);
    assert Lookup(p, path[1..]) == value && Sets(p, path[1..]);
    MergedValue(target, patch, path);
  }

  datatype Change =
    | PatchApplication(patch: Json)
    | PatchCronJob(name: string, patch: Json)
    | PatchScaledObject(name: string, patch: Json)
    | Scale(name: string, replicas: nat)

  /** Nothing when the resource does not exist. */
  function Changed(c: Cluster, change: Change): Option<Cluster> {
    match change
    case PatchApplication(p) => Some(c.(application := Merge(c.application, p)))
    case PatchCronJob(j, p) =>
      if j in c.cronjobs then Some(c.(cronjobs := c.cronjobs[j := Merge(c.cronjobs[j], p)])) else None
    case PatchScaledObject(s, p) =>
      if s in c.scaled
      then Some(WithScaled(c, s, c.scaled[s].(resource := Merge(c.scaled[s].resource, p))))
      else None
    case Scale(d, n) => if d in c.deployments then Some(WithReplicas(c, d, n)) else None
  }

  /** A call works, fails without effect, or fails although it took effect. */
  datatype Outcome = Done | Refused | Lost

  /** What the controllers do before a call, and how the call ends. */
  datatype Turn = Turn(moves: seq<Move>, outcome: Outcome)

  function After(c: Cluster, turn: Turn, change: Change): Cluster {
    var c' := Interfered(c, turn.moves);
    if turn.outcome != Refused && Changed(c', change).Some? then Changed(c', change).value else c'
  }

  predicate Works(c: Cluster, turn: Turn, change: Change) {
    turn.outcome == Done && Changed(Interfered(c, turn.moves), change).Some?
  }

  datatype Database = Database(rebuilt: bool, hasExpenses: bool)

  datatype Exit = Completed | ResumedAfterFailure | LeftPaused | ResumeFailed

  // Stopping the writers, step by step.

  /** How far the shutdown has come: prefixes of the plan's lists, and whether no job is left. */
  datatype Progress = Progress(cronjobs: nat, idle: bool, scaled: nat, zero: nat, gone: nat)

  predicate SuspendedUpTo(c: Cluster, plan: Plan, n: nat) {
    forall i | 0 <= i < n && i < |plan.cronjobs| ::
      plan.cronjobs[i].name in c.cronjobs && Suspended(c.cronjobs[plan.cronjobs[i].name])
  }

  predicate PausedUpTo(c: Cluster, plan: Plan, n: nat) {
    forall i | 0 <= i < n && i < |plan.scaled| ::
      var s := plan.scaled[i].name; s in c.scaled && PauseRequested(c.scaled[s].resource) && c.scaled[s].paused
  }

  predicate ZeroUpTo(c: Cluster, plan: Plan, n: nat) {
    forall i | 0 <= i < n && i < |plan.deployments| ::
      var d := plan.deployments[i].name; d in c.deployments && c.deployments[d].replicas == 0
  }

  predicate GoneUpTo(c: Cluster, plan: Plan, n: nat) {
    forall i | 0 <= i < n && i < |plan.deployments| ::
      var d := plan.deployments[i].name; d in c.deployments && c.deployments[d] == Deployment(0, 0)
  }

  predicate Calm(c: Cluster, plan: Plan, p: Progress) {
    && Covers(plan, c) && NoSync(c)
    && SuspendedUpTo(c, plan, p.cronjobs)
    && (p.idle ==> NoJobs(c))
    && PausedUpTo(c, plan, p.scaled)
    && (p.zero > 0 ==> NoAutoscaling(c))
    && ZeroUpTo(c, plan, p.zero)
    && GoneUpTo(c, plan, p.gone) && p.gone <= p.zero
  }

  lemma CoversStays(plan: Plan, c: Cluster, m: Move)
    requires Covers(plan, c) && Enabled(c, m)
    ensures Covers(plan, Moved(c, m))
  {
    hide Moved, Enabled, Managed, ListsDeployment, ListsScaledObject, ListsCronJob;
    SameManagement(c, m);
  }

  /** No controller undoes a part of the shutdown. */
  lemma CalmMove(c: Cluster, plan: Plan, p: Progress, m: Move)
    requires Calm(c, plan, p) && Enabled(c, m)
    ensures Calm(Moved(c, m), plan, p)
  {
    hide Covers, Lookup, Managed;
    CoversStays(plan, c, m);
    SameManagement(c, m);
  }

  lemma {:induction false} CalmStays(c: Cluster, plan: Plan, p: Progress, moves: seq<Move>)
    requires Calm(c, plan, p)
    ensures Calm(Interfered(c, moves), plan, p)
  {
    hide Calm;
    if moves != [] {
      CalmStays(c, plan, p, moves[..|moves| - 1]);
      var before, m := Interfered(c, moves[..|moves| - 1]), moves[|moves| - 1];
      if Enabled(before, m) {
        CalmMove(before, plan, p, m);
      }
    }
  }

  lemma AllSuspended(c: Cluster, plan: Plan, p: Progress)
    requires Calm(c, plan, p) && p.cronjobs >= |plan.cronjobs| && c.jobs == 0
    ensures Calm(c, plan, p.(idle := true))
  {
    forall j | j in c.cronjobs
      ensures Suspended(c.cronjobs[j])
    {
      var i :| 0 <= i < |plan.cronjobs| && plan.cronjobs[i].name == j;
    }
  }

  lemma AllPaused(c: Cluster, plan: Plan, p: Progress)
    requires Calm(c, plan, p) && p.scaled >= |plan.scaled|
    ensures NoAutoscaling(c)
  {
    forall s | s in c.scaled && c.scaled[s].target in c.deployments
      ensures PauseRequested(c.scaled[s].resource) && c.scaled[s].paused
    {
      var i :| 0 <= i < |plan.scaled| && plan.scaled[i].name == s;
    }
  }

  lemma AllGone(c: Cluster, plan: Plan, p: Progress)
    requires Calm(c, plan, p) && p.idle && p.scaled >= |plan.scaled| && p.gone >= |plan.deployments|
    ensures NoWriters(c)
  {
    AllPaused(c, plan, p);
    forall d | d in c.deployments
      ensures c.deployments[d] == Deployment(0, 0)
    {
      var i :| 0 <= i < |plan.deployments| && plan.deployments[i].name == d;
    }
  }

  // What the script's own calls do to the shutdown.

  lemma CoversChanged(plan: Plan, c: Cluster, change: Change)
    requires Covers(plan, c) && Changed(c, change).Some?
    ensures Covers(plan, Changed(c, change).value)
  {
    hide Merge, ListsDeployment, ListsScaledObject, ListsCronJob;
    var c' := Changed(c, change).value;
    forall d | d in c'.autoscaled && d in c'.deployments
      ensures Managed(c', d)
    {
      var s :| s in c.scaled && c.scaled[s].target == d;
      assert c'.scaled[s].target == d;
    }
  }

  const SUSPENDING := SuspendPatch(Bool(true))
  const PAUSING := PausePatch(Str("true"), Str("0"))
  const DETACHING := ApplicationPatch(Str("true"), Null)

  lemma SuspendStep(c: Cluster, plan: Plan, i: nat)
    requires i < |plan.cronjobs| && Calm(c, plan, Progress(i, false, 0, 0, 0))
    ensures var c' := Changed(c, PatchCronJob(plan.cronjobs[i].name, SUSPENDING));
            c'.Some? ==> Calm(c'.value, plan, Progress(i + 1, false, 0, 0, 0))
  {
    hide Merge, Lookup, SuspendPatch, Covers;
    var j := plan.cronjobs[i].name;
    if j in c.cronjobs {
      CoversChanged(plan, c, PatchCronJob(j, SUSPENDING));
      PatchedValues(c.cronjobs[j], Bool(true), Null);
      MergeScalar(Lookup(c.cronjobs[j], SUSPEND), Bool(true));
    }
  }

  lemma MergeScalar(target: Json, value: Json)
    requires !value.Object?
    ensures Merge(target, value) == value
  {
  }

  lemma PauseStep(c: Cluster, plan: Plan, i: nat)
    requires i < |plan.scaled| && Calm(c, plan, Progress(|plan.cronjobs|, true, i, 0, 0))
    ensures var s := plan.scaled[i].name;
            var c' := Changed(c, PatchScaledObject(s, PAUSING));
            c'.Some? ==> Calm(c'.value, plan, Progress(|plan.cronjobs|, true, i, 0, 0)) && Requested(c'.value, s)
  {
    hide Merge, Lookup, PausePatch, Covers;
    var s := plan.scaled[i].name;
    if s in c.scaled {
      CoversChanged(plan, c, PatchScaledObject(s, PAUSING));
      PatchedValues(c.scaled[s].resource, Str("true"), Str("0"));
      MergeScalar(Lookup(c.scaled[s].resource, PAUSED), Str("true"));
    }
  }

  predicate Requested(c: Cluster, s: string) {
    s in c.scaled && PauseRequested(c.scaled[s].resource)
  }

  lemma {:induction false} RequestedStays(c: Cluster, s: string, moves: seq<Move>)
    requires NoSync(c) && Requested(c, s)
    ensures NoSync(Interfered(c, moves)) && Requested(Interfered(c, moves), s)
  {
    hide Lookup;
    if moves != [] {
      RequestedStays(c, s, moves[..|moves| - 1]);
    }
  }

  lemma ScaleStep(c: Cluster, plan: Plan, i: nat)
    requires i < |plan.deployments|
    requires Calm(c, plan, Progress(|plan.cronjobs|, true, |plan.scaled|, i, 0))
    ensures var c' := Changed(c, Scale(plan.deployments[i].name, 0));
            c'.Some? ==> Calm(c'.value, plan, Progress(|plan.cronjobs|, true, |plan.scaled|, i + 1, 0))
  {
    hide Lookup, Covers, Managed;
    var d := plan.deployments[i].name;
    if d in c.deployments {
      AllPaused(c, plan, Progress(|plan.cronjobs|, true, |plan.scaled|, i, 0));
      CoversChanged(plan, c, Scale(d, 0));
      assert forall d :: Managed(WithReplicas(c, plan.deployments[i].name, 0), d) <==> Managed(c, d) by {
        SameTargets(c, WithReplicas(c, plan.deployments[i].name, 0));
      }
    }
  }

  lemma {:induction false} CoversInterfered(plan: Plan, c: Cluster, moves: seq<Move>)
    requires Covers(plan, c)
    ensures Covers(plan, Interfered(c, moves)) && Interfered(c, moves).application == c.application
  {
    hide Covers, Enabled, Moved;
    if moves != [] {
      CoversInterfered(plan, c, moves[..|moves| - 1]);
      var before, m := Interfered(c, moves[..|moves| - 1]), moves[|moves| - 1];
      if Enabled(before, m) {
        CoversStays(plan, before, m);
        SameManagement(before, m);
      }
    }
  }

  lemma Detached(c: Cluster, plan: Plan)
    requires Covers(plan, c)
    ensures var c' := Changed(c, PatchApplication(DETACHING)).value;
            Covers(plan, c') && !Automatic(c'.application) && Lookup(c'.application, AUTOMATED).Null?
  {
    hide Merge, Lookup, ApplicationPatch, Covers;
    CoversChanged(plan, c, PatchApplication(DETACHING));
    PatchedValues(c.application, Str("true"), Null);
    MergeScalar(Lookup(c.application, AUTOMATED), Null);
  }

  lemma CalmIsQuiet(c: Cluster, plan: Plan, p: Progress)
    requires Calm(c, plan, p)
    ensures NoSync(c) && Covers(plan, c)
  {
  }

  lemma StartsCalm(c: Cluster, plan: Plan)
    requires Covers(plan, c) && NoSync(c)
    ensures Calm(c, plan, Progress(0, false, 0, 0, 0))
  {
  }

  lemma OneMorePaused(c: Cluster, plan: Plan, i: nat)
    requires i < |plan.scaled| && Calm(c, plan, Progress(|plan.cronjobs|, true, i, 0, 0))
    requires Requested(c, plan.scaled[i].name) && c.scaled[plan.scaled[i].name].paused
    ensures Calm(c, plan, Progress(|plan.cronjobs|, true, i + 1, 0, 0))
  {
  }

  lemma ListedZero(c: Cluster, plan: Plan, p: Progress, i: nat)
    requires Calm(c, plan, p) && p.zero == |plan.deployments| && i == p.gone < |plan.deployments|
    ensures plan.deployments[i].name in c.deployments
    ensures c.deployments[plan.deployments[i].name].pods == 0 ==> Calm(c, plan, p.(gone := i + 1))
  {
  }

  // Putting the settings back.

  /** Prefixes of the plan's lists that read as recorded.  Autoscalers own the replica counts of their targets. */
  predicate Restored(c: Cluster, plan: Plan, deployments: nat, scaled: nat, cronjobs: nat, everything: bool) {
    && (forall i | 0 <= i < deployments && i < |plan.deployments| ::
          ReplicasRestored(c, plan.deployments[i], everything))
    && (forall i | 0 <= i < scaled && i < |plan.scaled| :: AnnotationsRestored(c, plan.scaled[i]))
    && (forall i | 0 <= i < cronjobs && i < |plan.cronjobs| :: SuspendRestored(c, plan.cronjobs[i]))
  }

  predicate ReplicasRestored(c: Cluster, saved: SavedDeployment, everything: bool) {
    saved.name in c.deployments
    && (everything || (!Managed(c, saved.name) && saved.name !in c.autoscaled)
        ==> c.deployments[saved.name].replicas == saved.replicas)
  }

  predicate AnnotationsRestored(c: Cluster, saved: SavedScaledObject) {
    saved.name in c.scaled && Lookup(c.scaled[saved.name].resource, PAUSED) == saved.paused
    && Lookup(c.scaled[saved.name].resource, PAUSED_REPLICAS) == saved.pausedReplicas
  }

  predicate SuspendRestored(c: Cluster, saved: SavedCronJob) {
    saved.name in c.cronjobs && Lookup(c.cronjobs[saved.name], SUSPEND) == saved.suspend
  }

  lemma RestoredMove(c: Cluster, plan: Plan, d: nat, s: nat, j: nat, m: Move)
    requires Restored(c, plan, d, s, j, false) && NoSync(c) && Enabled(c, m)
    ensures Restored(Moved(c, m), plan, d, s, j, false) && NoSync(Moved(c, m))
  {
    hide Lookup;
    SameManagement(c, m);
    assert m.Autoscale? ==> Managed(c, c.scaled[m.name].target);
    hide Managed;
  }

  /** Without a running synchronisation, restored settings stay. */
  lemma {:induction false} RestoredStays(c: Cluster, plan: Plan, d: nat, s: nat, j: nat, everything: bool,
                                         moves: seq<Move>)
    requires Restored(c, plan, d, s, j, everything)
    requires moves == [] || (NoSync(c) && !everything)
    ensures Restored(Interfered(c, moves), plan, d, s, j, everything) && (NoSync(c) ==> NoSync(Interfered(c, moves)))
  {
    hide Restored, NoSync;
    if moves != [] {
      RestoredStays(c, plan, d, s, j, everything, moves[..|moves| - 1]);
      var before, m := Interfered(c, moves[..|moves| - 1]), moves[|moves| - 1];
      if Enabled(before, m) {
        RestoredMove(before, plan, d, s, j, m);
      }
    }
  }

  function RestoreDeployment(saved: SavedDeployment): Change {
    Scale(saved.name, saved.replicas)
  }

  function RestoreScaledObject(saved: SavedScaledObject): Change {
    PatchScaledObject(saved.name, PausePatch(saved.paused, saved.pausedReplicas))
  }

  function RestoreCronJob(saved: SavedCronJob): Change {
    PatchCronJob(saved.name, SuspendPatch(saved.suspend))
  }

  lemma DeploymentStep(c: Cluster, plan: Plan, i: nat, everything: bool)
    requires WellFormed(plan) && i < |plan.deployments| && Restored(c, plan, i, 0, 0, everything)
    ensures var c' := Changed(c, RestoreDeployment(plan.deployments[i]));
            c'.Some? ==> Restored(c'.value, plan, i + 1, 0, 0, everything)
  {
    var d := plan.deployments[i];
    if d.name in c.deployments {
      SameTargets(c, WithReplicas(c, d.name, d.replicas));
      hide Managed;
    }
  }

  lemma ScaledObjectStep(c: Cluster, plan: Plan, d: nat, i: nat, everything: bool)
    requires WellFormed(plan) && i < |plan.scaled| && d >= |plan.deployments| && Restored(c, plan, d, i, 0, everything)
    ensures var c' := Changed(c, RestoreScaledObject(plan.scaled[i]));
            c'.Some? ==> Restored(c'.value, plan, d + 1, i + 1, 0, everything)
  {
    hide Merge, Lookup, PausePatch;
    var s := plan.scaled[i];
    if s.name in c.scaled {
      var c' := Changed(c, RestoreScaledObject(s)).value;
      PatchedValues(c.scaled[s.name].resource, s.paused, s.pausedReplicas);
      MergeScalar(Lookup(c.scaled[s.name].resource, PAUSED), s.paused);
      MergeScalar(Lookup(c.scaled[s.name].resource, PAUSED_REPLICAS), s.pausedReplicas);
      SameTargets(c, c');
      hide Managed;
    }
  }

  lemma SameTargets(c: Cluster, c': Cluster)
    requires c'.scaled.Keys == c.scaled.Keys && forall s | s in c.scaled :: c'.scaled[s].target == c.scaled[s].target
    ensures forall d :: Managed(c', d) <==> Managed(c, d)
  {
    forall d
      ensures Managed(c', d) <==> Managed(c, d)
    {
      if Managed(c, d) {
        var s :| s in c.scaled && c.scaled[s].target == d;
        assert c'.scaled[s].target == d;
      }
    }
  }

  lemma CronJobStep(c: Cluster, plan: Plan, d: nat, s: nat, i: nat, everything: bool)
    requires WellFormed(plan) && i < |plan.cronjobs| && d >= |plan.deployments| && s >= |plan.scaled|
    requires Restored(c, plan, d, s, i, everything)
    ensures var c' := Changed(c, RestoreCronJob(plan.cronjobs[i]));
            c'.Some? ==> Restored(c'.value, plan, d + 1, s + 1, i + 1, everything)
  {
    hide Merge, Lookup, SuspendPatch;
    var j := plan.cronjobs[i];
    if j.name in c.cronjobs {
      var c' := Changed(c, RestoreCronJob(j)).value;
      PatchedValues(c.cronjobs[j.name], j.suspend, Null);
      MergeScalar(Lookup(c.cronjobs[j.name], SUSPEND), j.suspend);
      SameTargets(c, c');
      hide Managed;
    }
  }

  lemma NothingRestored(c: Cluster, plan: Plan, everything: bool)
    ensures Restored(c, plan, 0, 0, 0, everything)
  {
  }

  lemma {:induction false} SameApplication(c: Cluster, moves: seq<Move>)
    ensures Interfered(c, moves).application == c.application
  {
    hide Enabled, Moved;
    if moves != [] {
      SameApplication(c, moves[..|moves| - 1]);
      var before, m := Interfered(c, moves[..|moves| - 1]), moves[|moves| - 1];
      if Enabled(before, m) {
        SameManagement(before, m);
      }
    }
  }

  lemma SettingsOnly(c: Cluster, change: Change)
    requires Changed(c, change).Some? && !change.PatchApplication?
    ensures Changed(c, change).value.application == c.application
    ensures NoSync(c) ==> NoSync(Changed(c, change).value)
  {
    hide Merge, Lookup;
  }

  lemma ApplicationApart(c: Cluster, plan: Plan, patch: Json, everything: bool)
    requires Restored(c, plan, |plan.deployments|, |plan.scaled|, |plan.cronjobs|, everything)
    ensures Restored(Changed(c, PatchApplication(patch)).value, plan,
                     |plan.deployments|, |plan.scaled|, |plan.cronjobs|, everything)
  {
    hide Merge, Lookup;
    SameTargets(c, Changed(c, PatchApplication(patch)).value);
    hide Managed;
  }

  lemma NoSyncStays(c: Cluster, moves: seq<Move>)
    requires NoSync(c)
    ensures NoSync(Interfered(c, moves))
  {
    NothingRestored(c, Plan(Null, Null, [], [], []), false);
    RestoredStays(c, Plan(Null, Null, [], [], []), 0, 0, 0, false, moves);
  }

  // The commands that put the settings back, as a list.

  /** The number of commands before the last one. */
  function Settings(plan: Plan): nat {
    |plan.deployments| + |plan.scaled| + |plan.cronjobs|
  }

  /** Deployments first, then autoscalers, then cron jobs; automatic synchronisation comes last. */
  function Command(plan: Plan, n: nat): Change {
    var d, s := |plan.deployments|, |plan.scaled|;
    if n < d then RestoreDeployment(plan.deployments[n])
    else if n < d + s then RestoreScaledObject(plan.scaled[n - d])
    else if n < Settings(plan) then RestoreCronJob(plan.cronjobs[n - d - s])
    else PatchApplication(ApplicationPatch(plan.skip, plan.automated))
  }

  /** The cluster after one command for each turn. */
  function Ran(c: Cluster, plan: Plan, turns: seq<Turn>): Cluster {
    if turns == [] then c
    else
      var n := |turns| - 1;
      After(Ran(c, plan, turns[..n]), turns[n], Command(plan, n))
  }

  predicate AllWork(c: Cluster, plan: Plan, turns: seq<Turn>) {
    turns == []
    || var n := |turns| - 1;
       AllWork(c, plan, turns[..n]) && Works(Ran(c, plan, turns[..n]), turns[n], Command(plan, n))
  }

  /** Nothing else acts during these turns. */
  predicate Undisturbing(turns: seq<Turn>) {
    forall i | 0 <= i < |turns| :: turns[i].moves == []
  }

  function Clip(n: int): nat {
    if n < 0 then 0 else n
  }

  /** What the first `n` commands are about reads as recorded. */
  predicate RestoredFirst(c: Cluster, plan: Plan, n: nat, everything: bool) {
    var d, s := |plan.deployments|, |plan.scaled|;
    Restored(c, plan, n, Clip(n - d), Clip(n - d - s), everything)
  }

  predicate AllRestored(c: Cluster, plan: Plan, everything: bool) {
    Restored(c, plan, |plan.deployments|, |plan.scaled|, |plan.cronjobs|, everything)
  }

  lemma NothingYet(c: Cluster, plan: Plan, everything: bool)
    ensures RestoredFirst(c, plan, 0, everything)
  {
  }

  lemma CommandStep(c: Cluster, plan: Plan, n: nat, everything: bool)
    requires WellFormed(plan) && n < Settings(plan) && RestoredFirst(c, plan, n, everything)
    ensures var c' := Changed(c, Command(plan, n)); c'.Some? ==> RestoredFirst(c'.value, plan, n + 1, everything)
  {
    hide Restored, Changed, WellFormed;
    var d, s := |plan.deployments|, |plan.scaled|;
    if n < d {
      DeploymentStep(c, plan, n, everything);
    } else if n < d + s {
      ScaledObjectStep(c, plan, n, n - d, everything);
    } else {
      CronJobStep(c, plan, n, n - d, n - d - s, everything);
    }
  }

  lemma IsSetting(plan: Plan, n: nat)
    ensures Command(plan, n).PatchApplication? <==> n >= Settings(plan)
  {
  }

  /** One more command that works restores what it is about and keeps the rest. */
  lemma CommandRestores(c: Cluster, plan: Plan, n: nat, turn: Turn, everything: bool)
    requires WellFormed(plan) && n < Settings(plan) && RestoredFirst(c, plan, n, everything)
    requires (NoSync(c) && !everything) || turn.moves == []
    requires Works(c, turn, Command(plan, n))
    ensures RestoredFirst(After(c, turn, Command(plan, n)), plan, n + 1, everything)
    ensures NoSync(c) ==> NoSync(After(c, turn, Command(plan, n)))
  {
    hide NoSync, Changed, Command, WellFormed, Restored;
    var d, s := |plan.deployments|, |plan.scaled|;
    RestoredStays(c, plan, n, Clip(n - d), Clip(n - d - s), everything, turn.moves);
    CommandStep(Interfered(c, turn.moves), plan, n, everything);
    IsSetting(plan, n);
    SettingsOnly(Interfered(c, turn.moves), Command(plan, n));
  }

  lemma {:induction false} RanRestores(c: Cluster, plan: Plan, turns: seq<Turn>, everything: bool)
    requires WellFormed(plan) && |turns| <= Settings(plan) && AllWork(c, plan, turns)
    requires (NoSync(c) && !everything) || Undisturbing(turns)
    ensures RestoredFirst(Ran(c, plan, turns), plan, |turns|, everything)
    ensures NoSync(c) ==> NoSync(Ran(c, plan, turns))
  {
    hide NoSync, Command, WellFormed, RestoredFirst, Works, After;
    if turns == [] {
      NothingYet(c, plan, everything);
    } else {
      var n := |turns| - 1;
      RanRestores(c, plan, turns[..n], everything);
      CommandRestores(Ran(c, plan, turns[..n]), plan, n, turns[n], everything);
    }
  }

  /** When all commands work, the settings are back if no synchronisation ran, or nothing else acted at all. */
  lemma RunRestores(c: Cluster, plan: Plan, turns: seq<Turn>, everything: bool)
    requires WellFormed(plan) && |turns| == Settings(plan) + 1 && AllWork(c, plan, turns)
    requires (NoSync(c) && !everything) || Undisturbing(turns)
    ensures AllRestored(Ran(c, plan, turns), plan, everything)
  {
    hide NoSync, WellFormed, Restored, Changed, RestoredFirst;
    var n := Settings(plan);
    RanRestores(c, plan, turns[..n], everything);
    var before, moves := Ran(c, plan, turns[..n]), turns[n].moves;
    AllOfThem(before, plan, everything);
    RestoredStays(before, plan, |plan.deployments|, |plan.scaled|, |plan.cronjobs|, everything, moves);
    ApplicationApart(Interfered(before, moves), plan, ApplicationPatch(plan.skip, plan.automated), everything);
  }

  lemma AllOfThem(c: Cluster, plan: Plan, everything: bool)
    requires RestoredFirst(c, plan, Settings(plan), everything)
    ensures AllRestored(c, plan, everything)
  {
  }

  // A synchronisation that runs while the settings are put back can overwrite them.

  /** Every listed resource exists. */
  predicate Present(plan: Plan, c: Cluster) {
    && (forall i | 0 <= i < |plan.deployments| :: plan.deployments[i].name in c.deployments)
    && (forall i | 0 <= i < |plan.scaled| :: plan.scaled[i].name in c.scaled)
    && (forall i | 0 <= i < |plan.cronjobs| :: plan.cronjobs[i].name in c.cronjobs)
  }

  predicate Independent(c: Cluster, d: string) {
    !Managed(c, d) && d !in c.autoscaled
  }

  /** The plan has a setting that is not left to an autoscaler. */
  predicate HasOwnSettings(plan: Plan, c: Cluster) {
    || plan.scaled != [] || plan.cronjobs != []
    || exists i :: 0 <= i < |plan.deployments| && Independent(c, plan.deployments[i].name)
  }

  /** A write of a running synchronisation that differs from the plan. */
  ghost predicate Overwrites(m: Move, plan: Plan, c: Cluster) {
    match m
    case SyncDeployment(d, n) =>
      d in c.deployments && Independent(c, d)
      && exists i :: 0 <= i < |plan.deployments| && plan.deployments[i].name == d && plan.deployments[i].replicas != n
    case SyncScaledObject(s, r) =>
      s in c.scaled
      && exists i :: 0 <= i < |plan.scaled| && plan.scaled[i].name == s && plan.scaled[i].paused != Lookup(r, PAUSED)
    case SyncCronJob(j, r) =>
      j in c.cronjobs
      && exists i ::
           0 <= i < |plan.cronjobs| && plan.cronjobs[i].name == j && plan.cronjobs[i].suspend != Lookup(r, SUSPEND)
    case _ => false
  }

  lemma SomeOverwrite(plan: Plan, c: Cluster) returns (m: Move)
    requires Present(plan, c) && HasOwnSettings(plan, c)
    ensures Overwrites(m, plan, c)
  {
    hide Merge;
    if plan.scaled != [] {
      var s := plan.scaled[0];
      var value := if s.paused == Bool(true) then Bool(false) else Bool(true);
      m := SyncScaledObject(s.name, PausePatch(value, Null));
      ReadsPatch(value);
    } else if plan.cronjobs != [] {
      var j := plan.cronjobs[0];
      var value := if j.suspend == Bool(true) then Bool(false) else Bool(true);
      m := SyncCronJob(j.name, SuspendPatch(value));
      ReadsPatch(value);
    } else {
      var i :| 0 <= i < |plan.deployments| && Independent(c, plan.deployments[i].name);
      m := SyncDeployment(plan.deployments[i].name, plan.deployments[i].replicas + 1);
    }
  }

  lemma ReadsPatch(value: Json)
    ensures Lookup(PausePatch(value, Null), PAUSED) == value && Lookup(SuspendPatch(value), SUSPEND) == value
  {
    var annotations := PausePatch(value, Null).members["metadata"];
    assert PAUSED[1..][1..] == PAUSED[2..] && PAUSED[2..][1..] == [] && PAUSED[1..][0] == "annotations";
    assert Lookup(annotations.members["annotations"], PAUSED[2..]) == value;
    assert Lookup(annotations, PAUSED[1..]) == value;
    var spec := SuspendPatch(value).members["spec"];
    assert SUSPEND[1..][1..] == [] && SUSPEND[1..][0] == "suspend";
    assert Lookup(spec, SUSPEND[1..]) == value;
  }

  const QUIET := Turn([], Done)

  /** Commands that nothing disturbs work and touch nothing else. */
  lemma {:induction false} QuietRun(c: Cluster, plan: Plan, n: nat) returns (turns: seq<Turn>)
    requires Present(plan, c) && n <= Settings(plan)
    ensures |turns| == n && AllWork(c, plan, turns) && SameProspects(plan, c, Ran(c, plan, turns))
  {
    hide Command, SameProspects, Present;
    turns := [];
    SameAsBefore(plan, c);
    if n > 0 {
      turns := QuietRun(c, plan, n - 1);
      var before := Ran(c, plan, turns);
      QuietStep(c, before, plan, n - 1);
      assert (turns + [QUIET])[..n - 1] == turns;
      turns := turns + [QUIET];
      assert Interfered(before, []) == before;
    }
  }

  /** The same resources under the same management, with synchronisation as it was. */
  ghost predicate SameProspects(plan: Plan, c: Cluster, c': Cluster) {
    && Present(plan, c') && c'.application == c.application && c'.syncing == c.syncing && c'.autoscaled == c.autoscaled
    && (forall d :: Managed(c', d) <==> Managed(c, d))
    && c'.deployments.Keys == c.deployments.Keys && c'.scaled.Keys == c.scaled.Keys
    && c'.cronjobs.Keys == c.cronjobs.Keys
  }

  lemma SameAsBefore(plan: Plan, c: Cluster)
    requires Present(plan, c)
    ensures SameProspects(plan, c, c)
  {
  }

  lemma QuietStep(c: Cluster, before: Cluster, plan: Plan, n: nat)
    requires SameProspects(plan, c, before) && n < Settings(plan)
    ensures Changed(before, Command(plan, n)).Some?
    ensures SameProspects(plan, c, Changed(before, Command(plan, n)).value)
  {
    hide Merge;
    var after := Changed(before, Command(plan, n)).value;
    SameTargets(before, after);
    hide Managed;
  }

  /** A synchronisation writes just before the last command. */
  lemma SyncOverwrites(c: Cluster, plan: Plan, m: Move, last: Json)
    requires WellFormed(plan) && Present(plan, c) && !NoSync(c) && Overwrites(m, plan, c)
    ensures !AllRestored(Changed(Interfered(c, [StartSync, m]), PatchApplication(last)).value, plan, false)
  {
    hide Lookup, Merge;
    assert [StartSync, m][..1] == [StartSync] && [StartSync][..0] == [];
    var syncing := Interfered(c, [StartSync]);
    assert syncing == c.(syncing := true) by {
      assert Interfered(c, []) == c;
    }
    assert Enabled(syncing, m);
    var c' := Interfered(c, [StartSync, m]);
    assert c' == Moved(syncing, m);
    SameManagement(syncing, m);
    SameTargets(c, syncing);
    SameTargets(c', Changed(c', PatchApplication(last)).value);
    hide Managed;
  }

  /**
   Exactly when no synchronisation runs or can start as resuming begins, every run in which all commands work
   restores the settings, whatever else the controllers do.  Autoscalers own the replica counts of their targets.
   */
  lemma ResumedExactlyWhen(c: Cluster, plan: Plan)
    requires WellFormed(plan) && Present(plan, c) && HasOwnSettings(plan, c)
    ensures NoSync(c) <==>
            forall turns | |turns| == Settings(plan) + 1 && AllWork(c, plan, turns) ::
              AllRestored(Ran(c, plan, turns), plan, false)
  {
    hide AllRestored, WellFormed, NoSync, Present, HasOwnSettings, Overwrites;
    if NoSync(c) {
      forall turns | |turns| == Settings(plan) + 1 && AllWork(c, plan, turns)
        ensures AllRestored(Ran(c, plan, turns), plan, false)
      {
        RunRestores(c, plan, turns, false);
      }
    } else {
      var turns := SyncAtTheEnd(c, plan);
    }
  }

  lemma SyncAtTheEnd(c: Cluster, plan: Plan) returns (turns: seq<Turn>)
    requires WellFormed(plan) && Present(plan, c) && HasOwnSettings(plan, c) && !NoSync(c)
    ensures |turns| == Settings(plan) + 1 && AllWork(c, plan, turns) && !AllRestored(Ran(c, plan, turns), plan, false)
  {
    hide AllRestored, WellFormed, NoSync, HasOwnSettings, Overwrites, Interfered;
    var m := SomeOverwrite(plan, c);
    var n := Settings(plan);
    var quiet := QuietRun(c, plan, n);
    var before, last := Ran(c, plan, quiet), Turn([StartSync, m], Done);
    turns := quiet + [last];
    assert turns[..n] == quiet;
    ProspectsKept(c, before, plan, m);
    SyncOverwrites(before, plan, m, ApplicationPatch(plan.skip, plan.automated));
  }

  lemma ProspectsKept(c: Cluster, c': Cluster, plan: Plan, m: Move)
    requires SameProspects(plan, c, c')
    ensures NoSync(c') <==> NoSync(c)
    ensures Overwrites(m, plan, c') <==> Overwrites(m, plan, c)
    ensures Present(plan, c')
  {
    hide Lookup, Managed;
  }

  /** The script and the cluster it works on. */
  // The calls of the shutdown, one turn each.

  /** A change, or a look that must show something. */
  datatype Call = Make(change: Change) | SeeNoSync | SeeNoJobs | SeePaused(name: string) | SeeGone(name: string)

  function AfterCall(c: Cluster, turn: Turn, call: Call): Cluster {
    if call.Make? then After(c, turn, call.change) else Interfered(c, turn.moves)
  }

  predicate CallWorks(c: Cluster, turn: Turn, call: Call) {
    var seen := Interfered(c, turn.moves);
    match call
    case Make(change) => Works(c, turn, change)
    case SeeNoSync => turn.outcome == Done && !seen.syncing
    case SeeNoJobs => turn.outcome == Done && seen.jobs == 0
    case SeePaused(name) => turn.outcome == Done && name in seen.scaled && seen.scaled[name].paused
    case SeeGone(name) => turn.outcome == Done && name in seen.deployments && seen.deployments[name].pods == 0
  }

  /** The cluster after these calls, the first of them at turn `first`. */
  function AfterCalls(c: Cluster, calls: seq<Call>, schedule: nat -> Turn, first: nat): Cluster {
    if calls == [] then c
    else
      var n := |calls| - 1;
      AfterCall(AfterCalls(c, calls[..n], schedule, first), schedule(first + n), calls[n])
  }

  predicate CallsWork(c: Cluster, calls: seq<Call>, schedule: nat -> Turn, first: nat) {
    calls == []
    || var n := |calls| - 1;
       CallsWork(c, calls[..n], schedule, first)
       && CallWorks(AfterCalls(c, calls[..n], schedule, first), schedule(first + n), calls[n])
  }

  lemma OneMoreCall(c: Cluster, calls: seq<Call>, call: Call, schedule: nat -> Turn, first: nat)
    ensures var c' := AfterCalls(c, calls, schedule, first);
            && AfterCalls(c, calls + [call], schedule, first) == AfterCall(c', schedule(first + |calls|), call)
            && (CallsWork(c, calls + [call], schedule, first) <==>
                CallsWork(c, calls, schedule, first) && CallWorks(c', schedule(first + |calls|), call))
  {
    assert (calls + [call])[..|calls|] == calls;
  }

  lemma NoCalls(c: Cluster, schedule: nat -> Turn, first: nat)
    ensures AfterCalls(c, [], schedule, first) == c && CallsWork(c, [], schedule, first)
  {
  }

  lemma {:induction false} CallsAppend(c: Cluster, a: seq<Call>, b: seq<Call>, schedule: nat -> Turn, first: nat)
    ensures var c' := AfterCalls(c, a, schedule, first);
            && AfterCalls(c, a + b, schedule, first) == AfterCalls(c', b, schedule, first + |a|)
            && (CallsWork(c, a + b, schedule, first) <==>
                CallsWork(c, a, schedule, first) && CallsWork(c', b, schedule, first + |a|))
  {
    hide AfterCalls, CallsWork, AfterCall, CallWorks;
    if b == [] {
      assert a + b == a;
      NoCalls(AfterCalls(c, a, schedule, first), schedule, first + |a|);
    } else {
      var n := |b| - 1;
      CallsAppend(c, a, b[..n], schedule, first);
      assert a + b == (a + b[..n]) + [b[n]] && b == b[..n] + [b[n]];
      OneMoreCall(c, a + b[..n], b[n], schedule, first);
      OneMoreCall(AfterCalls(c, a, schedule, first), b[..n], b[n], schedule, first + |a|);
      assert first + |a + b[..n]| == first + |a| + n;
    }
  }

  const DETACH := [Make(PatchApplication(DETACHING)), SeeNoSync]

  function Suspending(plan: Plan, n: nat): seq<Call>
    requires n <= |plan.cronjobs|
  {
    seq(n, i requires 0 <= i < n => Make(PatchCronJob(plan.cronjobs[i].name, SUSPENDING)))
  }

  /** Each autoscaler is paused and awaited before the next. */
  function Pausing(plan: Plan, n: nat): seq<Call>
    requires n <= |plan.scaled|
  {
    if n == 0 then []
    else
      var name := plan.scaled[n - 1].name;
      Pausing(plan, n - 1) + [Make(PatchScaledObject(name, PAUSING)), SeePaused(name)]
  }

  function Scaling(plan: Plan, n: nat): seq<Call>
    requires n <= |plan.deployments|
  {
    seq(n, i requires 0 <= i < n => Make(Scale(plan.deployments[i].name, 0)))
  }

  function Awaiting(plan: Plan, n: nat): seq<Call>
    requires n <= |plan.deployments|
  {
    seq(n, i requires 0 <= i < n => SeeGone(plan.deployments[i].name))
  }

  function SuspendCalls(plan: Plan): seq<Call> {
    Suspending(plan, |plan.cronjobs|) + [SeeNoJobs]
  }

  function StopCalls(plan: Plan): seq<Call> {
    Scaling(plan, |plan.deployments|) + Awaiting(plan, |plan.deployments|)
  }

  /** Everything that has to work before the rebuild is sent. */
  function ShutdownCalls(plan: Plan): seq<Call> {
    DETACH + SuspendCalls(plan) + Pausing(plan, |plan.scaled|) + StopCalls(plan)
  }

  /** How far a list of calls has come: what is done has worked, and led here. */
  predicate IsDone(start: Cluster, calls: seq<Call>, schedule: nat -> Turn, first: nat, c: Cluster, step: nat) {
    && CallsWork(start, calls, schedule, first) && c == AfterCalls(start, calls, schedule, first)
    && step == first + |calls|
  }

  lemma NothingDone(c: Cluster, schedule: nat -> Turn, step: nat)
    ensures IsDone(c, [], schedule, step, c, step)
  {
  }

  /** The next call either works, or keeps any list that begins like this from working. */
  lemma NextDone(start: Cluster, calls: seq<Call>, call: Call, schedule: nat -> Turn, first: nat, c: Cluster, step: nat,
                 rest: seq<Call>)
    requires IsDone(start, calls, schedule, first, c, step)
    ensures CallWorks(c, schedule(step), call) ==>
              IsDone(start, calls + [call], schedule, first, AfterCall(c, schedule(step), call), step + 1)
    ensures !CallWorks(c, schedule(step), call) ==> !CallsWork(start, calls + [call] + rest, schedule, first)
  {
    OneMoreCall(start, calls, call, schedule, first);
    CallsAppend(start, calls + [call], rest, schedule, first);
  }

  lemma DoneWorks(start: Cluster, calls: seq<Call>, schedule: nat -> Turn, first: nat, c: Cluster, step: nat)
    requires IsDone(start, calls, schedule, first, c, step)
    ensures CallsWork(start, calls, schedule, first)
    ensures c == AfterCalls(start, calls, schedule, first) && step == first + |calls|
  {
  }

  /** The same for a whole part of the calls. */
  lemma PartDone(start: Cluster, calls: seq<Call>, part: seq<Call>, rest: seq<Call>, schedule: nat -> Turn, first: nat,
                 c: Cluster, step: nat, c': Cluster, step': nat, ok: bool)
    requires IsDone(start, calls, schedule, first, c, step)
    requires if ok then IsDone(c, part, schedule, step, c', step') else !CallsWork(c, part, schedule, step)
    ensures ok ==> IsDone(start, calls + part, schedule, first, c', step')
    ensures !ok ==> !CallsWork(start, calls + part + rest, schedule, first)
  {
    hide CallsWork, AfterCalls;
    CallsAppend(start, calls, part, schedule, first);
    CallsAppend(start, calls + part, rest, schedule, first);
  }

  lemma ShutdownParts(plan: Plan)
    ensures var suspend, pause, stop := SuspendCalls(plan), Pausing(plan, |plan.scaled|), StopCalls(plan);
            && ShutdownCalls(plan) == [] + DETACH + (suspend + pause + stop) && [] + DETACH == DETACH
            && ShutdownCalls(plan) == DETACH + suspend + (pause + stop)
            && ShutdownCalls(plan) == (DETACH + suspend) + pause + stop
            && ShutdownCalls(plan) == (DETACH + suspend + pause) + stop + []
  {
  }

  lemma NextSuspending(plan: Plan, i: nat)
    requires i < |plan.cronjobs|
    ensures var call := Make(PatchCronJob(plan.cronjobs[i].name, SUSPENDING));
            && Suspending(plan, i + 1) == Suspending(plan, i) + [call]
            && SuspendCalls(plan) == Suspending(plan, i) + [call] + SuspendCalls(plan)[i + 1..]
  {
  }

  lemma SuspendingEnds(plan: Plan)
    ensures Suspending(plan, 0) == []
    ensures Suspending(plan, |plan.cronjobs|) + [SeeNoJobs] == SuspendCalls(plan) == SuspendCalls(plan) + []
  {
  }

  lemma NoPausing(plan: Plan)
    ensures Pausing(plan, 0) == []
  {
  }

  lemma {:induction false} NextPausing(plan: Plan, i: nat) returns (rest: seq<Call>)
    requires i < |plan.scaled|
    ensures var name := plan.scaled[i].name;
            var call := Make(PatchScaledObject(name, PAUSING));
            && Pausing(plan, i + 1) == Pausing(plan, i) + [call] + [SeePaused(name)]
            && Pausing(plan, |plan.scaled|) == Pausing(plan, i) + [call] + ([SeePaused(name)] + rest)
            && Pausing(plan, |plan.scaled|) == Pausing(plan, i) + [call] + [SeePaused(name)] + rest
  {
    PausingPrefix(plan, i + 1, |plan.scaled|);
    rest := Pausing(plan, |plan.scaled|)[|Pausing(plan, i + 1)|..];
  }

  lemma {:induction false} PausingPrefix(plan: Plan, i: nat, n: nat)
    requires i <= n <= |plan.scaled|
    ensures Pausing(plan, i) <= Pausing(plan, n)
  {
    if i < n {
      PausingPrefix(plan, i, n - 1);
    }
  }

  lemma NoScaling(plan: Plan)
    ensures Scaling(plan, 0) == []
    ensures Scaling(plan, |plan.deployments|) + Awaiting(plan, 0) == Scaling(plan, |plan.deployments|)
    ensures Scaling(plan, |plan.deployments|) + Awaiting(plan, |plan.deployments|) == StopCalls(plan)
    ensures |StopCalls(plan)| == |plan.deployments| + |plan.deployments|
  {
  }

  lemma NextScaling(plan: Plan, i: nat)
    requires i < |plan.deployments|
    ensures var call := Make(Scale(plan.deployments[i].name, 0));
            && Scaling(plan, i + 1) == Scaling(plan, i) + [call]
            && StopCalls(plan) == Scaling(plan, i) + [call] + StopCalls(plan)[i + 1..]
  {
  }

  lemma NextAwaiting(plan: Plan, i: nat)
    requires i < |plan.deployments|
    ensures var scaled, call := Scaling(plan, |plan.deployments|), SeeGone(plan.deployments[i].name);
            && scaled + Awaiting(plan, i + 1) == (scaled + Awaiting(plan, i)) + [call]
            && StopCalls(plan) == (scaled + Awaiting(plan, i)) + [call] + StopCalls(plan)[|plan.deployments| + i + 1..]
  {
  }

  class Operator {
    var cluster: Cluster
    var database: Database
    var step: nat
    const schedule: nat -> Turn
    /** The cluster when the rebuild was sent. */
    ghost var rebuiltIn: Option<Cluster>

    constructor (cluster: Cluster, database: Database, schedule: nat -> Turn)
      ensures this.cluster == cluster && this.database == database && this.schedule == schedule
      ensures step == 0 && rebuiltIn == None
    {
      this.cluster, this.database, this.schedule, step, rebuiltIn := cluster, database, schedule, 0, None;
    }

    method Attempt(change: Change) returns (ok: bool)
      modifies this`cluster, this`step
      ensures cluster == After(old(cluster), schedule(old(step)), change) && step == old(step) + 1
      ensures ok == Works(old(cluster), schedule(old(step)), change)
      ensures ok ==> Changed(Interfered(old(cluster), schedule(old(step)).moves), change) == Some(cluster)
      ensures !change.PatchApplication?
              ==> cluster.application == old(cluster).application && (old(NoSync(cluster)) ==> NoSync(cluster))
    {
      hide NoSync;
      if NoSync(cluster) {
        NoSyncStays(cluster, schedule(step).moves);
      }
      SameApplication(cluster, schedule(step).moves);
      var turn := schedule(step);
      step := step + 1;
      cluster := Interfered(cluster, turn.moves);
      ok := turn.outcome == Done && Changed(cluster, change).Some?;
      if turn.outcome != Refused && Changed(cluster, change).Some? {
        if !change.PatchApplication? {
          SettingsOnly(cluster, change);
        }
        cluster := Changed(cluster, change).value;
      }
    }

    /** A read: other controllers act first, and the answer may be lost. */
    method Look() returns (ok: bool)
      modifies this`cluster, this`step
      ensures cluster == Interfered(old(cluster), schedule(old(step)).moves) && step == old(step) + 1
      ensures ok <==> schedule(old(step)).outcome == Done
      ensures cluster.application == old(cluster).application && (old(NoSync(cluster)) ==> NoSync(cluster))
    {
      hide NoSync;
      if NoSync(cluster) {
        NoSyncStays(cluster, schedule(step).moves);
      }
      SameApplication(cluster, schedule(step).moves);
      var turn := schedule(step);
      step := step + 1;
      cluster := Interfered(cluster, turn.moves);
      ok := turn.outcome == Done;
    }

    /** Switch automatic synchronisation off, and refuse to go on while one is running. */
    method Detach(plan: Plan) returns (ok: bool)
      requires Covers(plan, cluster)
      modifies this`cluster, this`step
      ensures ok ==> Calm(cluster, plan, Progress(0, false, 0, 0, 0))
      ensures cluster.application == old(cluster).application || Lookup(cluster.application, AUTOMATED).Null?
      ensures step >= old(step)
      ensures if ok then IsDone(old(cluster), DETACH, schedule, old(step), cluster, step)
              else !CallsWork(old(cluster), DETACH, schedule, old(step))
    {
      hide Merge, Lookup, ApplicationPatch, Covers, Works, IsDone, CallsWork;
      ghost var start, first := cluster, step;
      ghost var before := Interfered(cluster, schedule(step).moves);
      CoversInterfered(plan, cluster, schedule(step).moves);
      Detached(before, plan);
      NothingDone(start, schedule, first);
      NextDone(start, [], DETACH[0], schedule, first, cluster, step, [SeeNoSync]);
      assert [] + [DETACH[0]] + [SeeNoSync] == DETACH && [] + [DETACH[0]] == [DETACH[0]];
      ok := Attempt(PatchApplication(DETACHING));
      if !ok { return; }
      CoversInterfered(plan, cluster, schedule(step).moves);
      NextDone(start, [DETACH[0]], SeeNoSync, schedule, first, cluster, step, []);
      assert [DETACH[0]] + [SeeNoSync] + [] == DETACH && [DETACH[0]] + [SeeNoSync] == DETACH;
      ok := Look();
      ok := ok && !cluster.syncing;
      if ok {
        StartsCalm(cluster, plan);
      }
    }

    /** Suspend the cron jobs, and refuse to go on while a job is active. */
    method SuspendAll(plan: Plan) returns (ok: bool)
      requires Calm(cluster, plan, Progress(0, false, 0, 0, 0))
      modifies this`cluster, this`step
      ensures ok ==> Calm(cluster, plan, Progress(|plan.cronjobs|, true, 0, 0, 0))
      ensures cluster.application == old(cluster).application && NoSync(cluster)
      ensures step >= old(step)
      ensures if ok then IsDone(old(cluster), SuspendCalls(plan), schedule, old(step), cluster, step)
              else !CallsWork(old(cluster), SuspendCalls(plan), schedule, old(step))
    {
      CalmIsQuiet(cluster, plan, Progress(0, false, 0, 0, 0));
      hide Calm, After, Works, Changed, NoSync, IsDone, CallsWork, Interfered, Suspending, SuspendCalls;
      ghost var start, first := cluster, step;
      NothingDone(start, schedule, first);
      SuspendingEnds(plan);
      for i := 0 to |plan.cronjobs|
        invariant Calm(cluster, plan, Progress(i, false, 0, 0, 0))
        invariant cluster.application == old(cluster).application && NoSync(cluster)
        invariant step >= old(step)
        invariant IsDone(start, Suspending(plan, i), schedule, first, cluster, step)
      {
        var change := PatchCronJob(plan.cronjobs[i].name, SUSPENDING);
        CalmStays(cluster, plan, Progress(i, false, 0, 0, 0), schedule(step).moves);
        SuspendStep(Interfered(cluster, schedule(step).moves), plan, i);
        NextSuspending(plan, i);
        NextDone(start, Suspending(plan, i), Make(change), schedule, first, cluster, step, SuspendCalls(plan)[i + 1..]);
        ok := Attempt(change);
        if !ok { return; }
      }
      CalmStays(cluster, plan, Progress(|plan.cronjobs|, false, 0, 0, 0), schedule(step).moves);
      NextDone(start, Suspending(plan, |plan.cronjobs|), SeeNoJobs, schedule, first, cluster, step, []);
      ok := Look();
      ok := ok && cluster.jobs == 0;
      if ok {
        AllSuspended(cluster, plan, Progress(|plan.cronjobs|, false, 0, 0, 0));
      }
    }

    /** Pause the autoscalers, waiting for each to report it. */
    method PauseAll(plan: Plan) returns (ok: bool)
      requires Calm(cluster, plan, Progress(|plan.cronjobs|, true, 0, 0, 0))
      modifies this`cluster, this`step
      ensures ok ==> Calm(cluster, plan, Progress(|plan.cronjobs|, true, |plan.scaled|, 0, 0))
      ensures cluster.application == old(cluster).application && NoSync(cluster)
      ensures step >= old(step)
      ensures if ok then IsDone(old(cluster), Pausing(plan, |plan.scaled|), schedule, old(step), cluster, step)
              else !CallsWork(old(cluster), Pausing(plan, |plan.scaled|), schedule, old(step))
    {
      CalmIsQuiet(cluster, plan, Progress(|plan.cronjobs|, true, 0, 0, 0));
      hide Calm, After, Works, Changed, NoSync, IsDone, CallsWork, Interfered, Pausing;
      ghost var start, first := cluster, step;
      NothingDone(start, schedule, first);
      NoPausing(plan);
      for i := 0 to |plan.scaled|
        invariant Calm(cluster, plan, Progress(|plan.cronjobs|, true, i, 0, 0))
        invariant cluster.application == old(cluster).application && NoSync(cluster)
        invariant step >= old(step)
        invariant IsDone(start, Pausing(plan, i), schedule, first, cluster, step)
      {
        ok := PauseOne(plan, i, start, first);
        if !ok { return; }
      }
      ok := true;
    }

    /** One autoscaler. */
    method PauseOne(plan: Plan, i: nat, ghost start: Cluster, ghost first: nat) returns (ok: bool)
      requires i < |plan.scaled| && Calm(cluster, plan, Progress(|plan.cronjobs|, true, i, 0, 0)) && NoSync(cluster)
      requires IsDone(start, Pausing(plan, i), schedule, first, cluster, step)
      modifies this`cluster, this`step
      ensures ok ==> Calm(cluster, plan, Progress(|plan.cronjobs|, true, i + 1, 0, 0))
      ensures cluster.application == old(cluster).application && NoSync(cluster)
      ensures step >= old(step)
      ensures if ok then IsDone(start, Pausing(plan, i + 1), schedule, first, cluster, step)
              else !CallsWork(start, Pausing(plan, |plan.scaled|), schedule, first)
    {
      hide Calm, After, Works, Changed, NoSync, IsDone, CallsWork, Interfered, Pausing;
      var name := plan.scaled[i].name;
      ghost var rest := NextPausing(plan, i);
      CalmStays(cluster, plan, Progress(|plan.cronjobs|, true, i, 0, 0), schedule(step).moves);
      PauseStep(Interfered(cluster, schedule(step).moves), plan, i);
      ghost var call := Make(PatchScaledObject(name, PAUSING));
      NextDone(start, Pausing(plan, i), call, schedule, first, cluster, step, [SeePaused(name)] + rest);
      ok := Attempt(PatchScaledObject(name, PAUSING));
      if !ok { return; }
      CalmStays(cluster, plan, Progress(|plan.cronjobs|, true, i, 0, 0), schedule(step).moves);
      CalmIsQuiet(cluster, plan, Progress(|plan.cronjobs|, true, i, 0, 0));
      RequestedStays(cluster, name, schedule(step).moves);
      NextDone(start, Pausing(plan, i) + [call], SeePaused(name), schedule, first, cluster, step, rest);
      ok := Look();
      ok := ok && cluster.scaled[name].paused;
      if !ok { return; }
      OneMorePaused(cluster, plan, i);
    }

    /** Scale every deployment to zero, then wait until its pods are gone. */
    method StopAll(plan: Plan) returns (ok: bool)
      requires Calm(cluster, plan, Progress(|plan.cronjobs|, true, |plan.scaled|, 0, 0))
      modifies this`cluster, this`step
      ensures ok ==> NoWriters(cluster)
      ensures cluster.application == old(cluster).application && NoSync(cluster)
      ensures step >= old(step)
      ensures if ok then IsDone(old(cluster), StopCalls(plan), schedule, old(step), cluster, step)
              else !CallsWork(old(cluster), StopCalls(plan), schedule, old(step))
    {
      hide Calm, NoWriters, NoSync, IsDone, CallsWork, StopCalls, Scaling, Awaiting;
      CalmIsQuiet(cluster, plan, Progress(|plan.cronjobs|, true, |plan.scaled|, 0, 0));
      ghost var start, first := cluster, step;
      ok := ScaleAll(plan);
      if !ok { return; }
      ok := AwaitAll(plan, start, first);
    }

    method ScaleAll(plan: Plan) returns (ok: bool)
      requires Calm(cluster, plan, Progress(|plan.cronjobs|, true, |plan.scaled|, 0, 0)) && NoSync(cluster)
      modifies this`cluster, this`step
      ensures ok ==> Calm(cluster, plan, Progress(|plan.cronjobs|, true, |plan.scaled|, |plan.deployments|, 0))
      ensures cluster.application == old(cluster).application && NoSync(cluster)
      ensures step >= old(step)
      ensures if ok then IsDone(old(cluster), Scaling(plan, |plan.deployments|), schedule, old(step), cluster, step)
              else !CallsWork(old(cluster), StopCalls(plan), schedule, old(step))
    {
      hide Calm, After, Works, Changed, NoWriters, NoSync, IsDone, CallsWork, Interfered, StopCalls, Scaling;
      ghost var p := Progress(|plan.cronjobs|, true, |plan.scaled|, 0, 0);
      ghost var start, first := cluster, step;
      NothingDone(start, schedule, first);
      NoScaling(plan);
      for i := 0 to |plan.deployments|
        invariant p == Progress(|plan.cronjobs|, true, |plan.scaled|, i, 0) && Calm(cluster, plan, p)
        invariant cluster.application == old(cluster).application && NoSync(cluster)
        invariant step >= old(step)
        invariant IsDone(start, Scaling(plan, i), schedule, first, cluster, step)
      {
        var change := Scale(plan.deployments[i].name, 0);
        CalmStays(cluster, plan, p, schedule(step).moves);
        ScaleStep(Interfered(cluster, schedule(step).moves), plan, i);
        NextScaling(plan, i);
        NextDone(start, Scaling(plan, i), Make(change), schedule, first, cluster, step, StopCalls(plan)[i + 1..]);
        ok := Attempt(change);
        if !ok { return; }
        p := p.(zero := i + 1);
      }
      ok := true;
    }

    method AwaitAll(plan: Plan, ghost start: Cluster, ghost first: nat) returns (ok: bool)
      requires Calm(cluster, plan, Progress(|plan.cronjobs|, true, |plan.scaled|, |plan.deployments|, 0))
      requires NoSync(cluster) && IsDone(start, Scaling(plan, |plan.deployments|), schedule, first, cluster, step)
      modifies this`cluster, this`step
      ensures ok ==> NoWriters(cluster)
      ensures cluster.application == old(cluster).application && NoSync(cluster)
      ensures step >= old(step)
      ensures if ok then IsDone(start, StopCalls(plan), schedule, first, cluster, step)
              else !CallsWork(start, StopCalls(plan), schedule, first)
    {
      hide Calm, NoWriters, NoSync, IsDone, CallsWork, Interfered, StopCalls, Scaling, Awaiting;
      ghost var p := Progress(|plan.cronjobs|, true, |plan.scaled|, |plan.deployments|, 0);
      ghost var scaling := Scaling(plan, |plan.deployments|);
      NoScaling(plan);
      for i := 0 to |plan.deployments|
        invariant p == Progress(|plan.cronjobs|, true, |plan.scaled|, |plan.deployments|, i) && Calm(cluster, plan, p)
        invariant cluster.application == old(cluster).application && NoSync(cluster)
        invariant step >= old(step)
        invariant IsDone(start, scaling + Awaiting(plan, i), schedule, first, cluster, step)
      {
        CalmStays(cluster, plan, p, schedule(step).moves);
        NextAwaiting(plan, i);
        NextDone(start, scaling + Awaiting(plan, i), SeeGone(plan.deployments[i].name), schedule, first, cluster, step,
                 StopCalls(plan)[|plan.deployments| + i + 1..]);
        ok := Look();
        ListedZero(cluster, plan, p, i);
        ok := ok && cluster.deployments[plan.deployments[i].name].pods == 0;
        if !ok { return; }
        p := p.(gone := i + 1);
      }
      AllGone(cluster, plan, p);
      ok := true;
    }

    /** No controller acts between the calls. */
    ghost predicate Undisturbed()
    {
      forall t :: schedule(t).moves == []
    }

    /** The next `n` turns of the schedule. */
    ghost function Turns(first: nat, n: nat): seq<Turn> {
      seq(n, i requires 0 <= i < n => schedule(first + i))
    }

    /** Run the commands until one fails. */
    method Resume(plan: Plan) returns (ok: bool)
      requires WellFormed(plan)
      modifies this`cluster, this`step
      ensures ok <==> AllWork(old(cluster), plan, Turns(old(step), Settings(plan) + 1))
      ensures ok ==> cluster == Ran(old(cluster), plan, Turns(old(step), Settings(plan) + 1))
      ensures ok ==> Lookup(cluster.application, SKIP) == plan.skip
      ensures ok ==>
                Lookup(cluster.application, AUTOMATED) ==
                Merge(Lookup(old(cluster).application, AUTOMATED), plan.automated)
      ensures ok && (old(NoSync(cluster)) || Undisturbed()) ==> AllRestored(cluster, plan, Undisturbed())
    {
      hide AllRestored, NoSync, Works, After, Merge, Lookup, Command, ApplicationPatch, WellFormed;
      var commands := ResumeCommands(plan);
      for n := 0 to |commands|
        invariant step == old(step) + n
        invariant cluster == Ran(old(cluster), plan, Turns(old(step), n))
                  && AllWork(old(cluster), plan, Turns(old(step), n))
      {
        assert Turns(old(step), n + 1)[..n] == Turns(old(step), n);
        ok := Attempt(commands[n]);
        if !ok {
          assert Turns(old(step), Settings(plan) + 1)[..n + 1] == Turns(old(step), n + 1);
          FailedPrefix(old(cluster), plan, Turns(old(step), Settings(plan) + 1), n + 1);
          return;
        }
      }
      ghost var turns := Turns(old(step), |commands|);
      RanApplication(old(cluster), plan, turns);
      if old(NoSync(cluster)) || Undisturbed() {
        assert Undisturbed() ==> Undisturbing(turns);
        RunRestores(old(cluster), plan, turns, Undisturbed());
      }
      ok := true;
    }

    /** Every writer is stopped before this returns true; `detached` once no synchronisation runs or can start. */
    method Shutdown(plan: Plan) returns (ok: bool, ghost detached: bool)
      requires Covers(plan, cluster)
      modifies this`cluster, this`step
      ensures ok ==> NoWriters(cluster) && detached
      ensures detached ==> NoSync(cluster)
      ensures detached <==> CallsWork(old(cluster), DETACH, schedule, old(step))
      ensures cluster.application == old(cluster).application || Lookup(cluster.application, AUTOMATED).Null?
      ensures step >= old(step)
      ensures if ok then IsDone(old(cluster), ShutdownCalls(plan), schedule, old(step), cluster, step)
              else !CallsWork(old(cluster), ShutdownCalls(plan), schedule, old(step))
    {
      hide Calm, NoWriters, NoSync, Lookup, Covers, IsDone, CallsWork, SuspendCalls, Pausing, StopCalls, ShutdownCalls;
      ghost var start, first := cluster, step;
      ghost var suspend, pause, stop := SuspendCalls(plan), Pausing(plan, |plan.scaled|), StopCalls(plan);
      ShutdownParts(plan);
      NothingDone(start, schedule, first);
      ok := Detach(plan);
      detached := ok;
      PartDone(start, [], DETACH, suspend + pause + stop, schedule, first, start, first, cluster, step, ok);
      if !ok { return; }
      DoneWorks(start, DETACH, schedule, first, cluster, step);
      CalmIsQuiet(cluster, plan, Progress(0, false, 0, 0, 0));
      ghost var c, at := cluster, step;
      ok := SuspendAll(plan);
      PartDone(start, DETACH, suspend, pause + stop, schedule, first, c, at, cluster, step, ok);
      if !ok { return; }
      c, at := cluster, step;
      ok := PauseAll(plan);
      PartDone(start, DETACH + suspend, pause, stop, schedule, first, c, at, cluster, step, ok);
      if !ok { return; }
      c, at := cluster, step;
      ok := StopAll(plan);
      PartDone(start, DETACH + suspend + pause, stop, [], schedule, first, c, at, cluster, step, ok);
      assert (DETACH + suspend + pause) + stop == ShutdownCalls(plan);
    }

    /** The rebuild transaction: applied as a whole or not at all, whatever the client hears. */
    method SendRebuild() returns (ok: bool)
      requires NoWriters(cluster) && rebuiltIn == None
      modifies this`cluster, this`step, this`database, this`rebuiltIn
      ensures rebuiltIn == Some(cluster) && NoWriters(cluster) && step == old(step) + 1
      ensures cluster == Interfered(old(cluster), schedule(old(step)).moves)
      ensures ok <==> schedule(old(step)).outcome == Done
      ensures database == if schedule(old(step)).outcome == Refused then old(database) else Database(true, true)
      ensures cluster.application == old(cluster).application
    {
      hide NoWriters;
      NoWritersStays(cluster, schedule(step).moves);
      var outcome := schedule(step).outcome;
      ok := Look();
      ok := outcome == Done;
      rebuiltIn := Some(cluster);
      if outcome != Refused {
        database := Database(true, true);
      }
    }

    /**
     `execute`.  The rebuild is sent exactly when every call of the shutdown works, starts only while nothing can
     write, and is atomic.  An acknowledged rebuild always resumes; otherwise the script resumes exactly when it reads
     that the expenses are there, and else leaves the workloads paused, still with no writer if the rebuild was sent.
     Resuming ends well exactly when all commands work.  Then the recorded settings are back unless a synchronisation
     could run as resuming began, which it cannot once detaching worked.
     */
    method Execute(plan: Plan)
      returns (exit: Exit, ghost acknowledged: bool, ghost detached: bool, ghost resumedIn: Option<Cluster>,
               ghost resumedAt: nat)
      requires Covers(plan, cluster) && WellFormed(plan) && rebuiltIn == None
      modifies this
      // When the rebuild is sent, and what it does.
      ensures rebuiltIn.Some? <==> CallsWork(old(cluster), ShutdownCalls(plan), schedule, old(step))
      ensures detached <==> CallsWork(old(cluster), DETACH, schedule, old(step))
      ensures acknowledged <==> rebuiltIn.Some? && schedule(old(step) + |ShutdownCalls(plan)|).outcome == Done
      ensures rebuiltIn.Some? ==> NoWriters(rebuiltIn.value) && detached
      ensures rebuiltIn.Some? ==>
                var t := old(step) + |ShutdownCalls(plan)|;
                rebuiltIn.value ==
                Interfered(AfterCalls(old(cluster), ShutdownCalls(plan), schedule, old(step)), schedule(t).moves)
      ensures database == if rebuiltIn == None || schedule(old(step) + |ShutdownCalls(plan)|).outcome == Refused
                          then old(database) else Database(true, true)
      // When the script resumes.
      ensures exit.LeftPaused? <==> resumedIn == None
      ensures acknowledged ==> resumedIn == rebuiltIn && resumedAt == old(step) + |ShutdownCalls(plan)| + 1
      ensures exit.LeftPaused? ==>
                !acknowledged && step > old(step) && (schedule(step - 1).outcome != Done || !database.hasExpenses)
      ensures resumedIn.Some? && !acknowledged ==>
                resumedAt > old(step) && schedule(resumedAt - 1).outcome == Done && database.hasExpenses
      ensures exit.LeftPaused? && rebuiltIn.Some? ==> NoWriters(cluster)
      ensures detached && resumedIn.Some? ==> NoSync(resumedIn.value)
      // How it ends.
      ensures resumedIn.Some? ==>
                (exit.ResumeFailed? <==> !AllWork(resumedIn.value, plan, Turns(resumedAt, Settings(plan) + 1)))
      ensures exit.Completed? ==> acknowledged
      ensures exit.ResumedAfterFailure? ==> !acknowledged
      ensures exit.Completed? || exit.ResumedAfterFailure? ==>
                && cluster == Ran(resumedIn.value, plan, Turns(resumedAt, Settings(plan) + 1))
                && Lookup(cluster.application, SKIP) == plan.skip
                && (Lookup(old(cluster).application, AUTOMATED) == plan.automated
                    ==> Lookup(cluster.application, AUTOMATED) == Stripped(plan.automated))
                && (detached || NoSync(resumedIn.value) || Undisturbed() ==> AllRestored(cluster, plan, Undisturbed()))
    {
      hide Covers, WellFormed, NoWriters, NoSync, AllRestored, Merge, Lookup, Stripped, CallsWork, AllWork, IsDone;
      hide AfterCalls, ShutdownCalls, Ran;
      ghost var start, first := cluster, step;
      resumedIn, resumedAt := None, 0;
      var complete;
      complete, detached := Shutdown(plan);
      if complete {
        DoneWorks(start, ShutdownCalls(plan), schedule, first, cluster, step);
        complete := SendRebuild();
        NoWritersMeansNoSync(cluster);
      }
      acknowledged := complete;
      var healthy := complete;
      if !healthy {
        if rebuiltIn.Some? {
          NoWritersStays(cluster, schedule(step).moves);
        }
        healthy := Look();
        healthy := healthy && database.hasExpenses;
      }
      if !healthy {
        return LeftPaused, acknowledged, detached, None, resumedAt;
      }
      resumedIn, resumedAt := Some(cluster), step;
      RestoredAutomation(Lookup(cluster.application, AUTOMATED), plan.automated);
      var resumed := Resume(plan);
      exit := if !resumed then ResumeFailed else if complete then Completed else ResumedAfterFailure;
    }
  }

  /** `resume_commands`. */
  method ResumeCommands(plan: Plan) returns (commands: seq<Change>)
    ensures |commands| == Settings(plan) + 1
    ensures forall n | 0 <= n < |commands| :: commands[n] == Command(plan, n)
  {
    commands := [];
    for i := 0 to |plan.deployments|
      invariant |commands| == i && forall n | 0 <= n < |commands| :: commands[n] == Command(plan, n)
    {
      commands := commands + [Scale(plan.deployments[i].name, plan.deployments[i].replicas)];
    }
    for i := 0 to |plan.scaled|
      invariant |commands| == |plan.deployments| + i && forall n | 0 <= n < |commands| ::
                  commands[n] == Command(plan, n)
    {
      var s := plan.scaled[i];
      commands := commands + [PatchScaledObject(s.name, PausePatch(s.paused, s.pausedReplicas))];
    }
    for i := 0 to |plan.cronjobs|
      invariant |commands| == |plan.deployments| + |plan.scaled| + i
      invariant forall n | 0 <= n < |commands| :: commands[n] == Command(plan, n)
    {
      commands := commands + [PatchCronJob(plan.cronjobs[i].name, SuspendPatch(plan.cronjobs[i].suspend))];
    }
    commands := commands + [PatchApplication(ApplicationPatch(plan.skip, plan.automated))];
  }

  lemma {:induction false} FailedPrefix(c: Cluster, plan: Plan, turns: seq<Turn>, n: nat)
    requires n <= |turns| && !AllWork(c, plan, turns[..n])
    ensures !AllWork(c, plan, turns)
  {
    if n < |turns| {
      assert turns[..|turns| - 1][..n] == turns[..n];
      FailedPrefix(c, plan, turns[..|turns| - 1], n);
    } else {
      assert turns[..n] == turns;
    }
  }

  /** The application's own settings are put back by the last command, whatever happened before. */
  lemma RanApplication(c: Cluster, plan: Plan, turns: seq<Turn>)
    requires WellFormed(plan) && |turns| == Settings(plan) + 1 && AllWork(c, plan, turns)
    ensures var c' := Ran(c, plan, turns);
            && Lookup(c'.application, SKIP) == plan.skip
            && Lookup(c'.application, AUTOMATED) == Merge(Lookup(c.application, AUTOMATED), plan.automated)
  {
    hide Merge, Lookup, ApplicationPatch;
    var n := Settings(plan);
    SameApplicationBefore(c, plan, turns[..n]);
    SameApplication(Ran(c, plan, turns[..n]), turns[n].moves);
    PatchedValues(c.application, plan.skip, plan.automated);
    MergeScalar(Lookup(c.application, SKIP), plan.skip);
  }

  lemma {:induction false} SameApplicationBefore(c: Cluster, plan: Plan, turns: seq<Turn>)
    requires |turns| <= Settings(plan)
    ensures Ran(c, plan, turns).application == c.application
  {
    hide Changed, Command;
    if turns != [] {
      var n := |turns| - 1;
      SameApplicationBefore(c, plan, turns[..n]);
      SameApplication(Ran(c, plan, turns[..n]), turns[n].moves);
      IsSetting(plan, n);
      var before := Interfered(Ran(c, plan, turns[..n]), turns[n].moves);
      if Changed(before, Command(plan, n)).Some? {
        SettingsOnly(before, Command(plan, n));
      }
    }
  }

  const POLICY := Object(map["prune" := Bool(true)])

  /** One deployment of two replicas under automatic synchronisation. */
  const BUSY := Cluster(ApplicationPatch(Str("false"), POLICY), false, map["d" := Deployment(2, 2)], map[], map[], 0,
                        {})
  const BUSY_PLAN := Plan(POLICY, Str("false"), [SavedDeployment("d", 2)], [], [])

  /**
   A synchronisation starts before the first patch.  Detaching is refused, the database is healthy, and the script
   resumes: it scales the deployment to its two replicas, the synchronisation sets seven, and the last patch works.
   */
  lemma RunningSyncOverwrites() returns (resuming: Cluster, turns: seq<Turn>)
    ensures Covers(BUSY_PLAN, BUSY) && WellFormed(BUSY_PLAN) && |turns| == 5
    ensures var detaching := PatchApplication(DETACHING);
            && Works(BUSY, turns[0], detaching) && turns[1].outcome == Done && turns[2].outcome == Done
            && var looked := Interfered(After(BUSY, turns[0], detaching), turns[1].moves);
               looked.syncing && resuming == Interfered(looked, turns[2].moves)
    ensures AllWork(resuming, BUSY_PLAN, turns[3..]) && |turns[3..]| == Settings(BUSY_PLAN) + 1
    ensures Ran(resuming, BUSY_PLAN, turns[3..]).deployments == map["d" := Deployment(7, 2)]
  {
    hide Merge;
    turns := [Turn([StartSync], Done), QUIET, QUIET, QUIET, Turn([SyncDeployment("d", 7)], Done)];
    assert BUSY_PLAN.deployments[0].name == "d";
    var syncing := BUSY.(syncing := true);
    BusyStarts();
    resuming := Changed(syncing, PatchApplication(DETACHING)).value;
    QuietLooks(resuming);
    BusyEnds(resuming);
    assert turns[3..][..1] == [QUIET] && turns[3..][1] == turns[4];
  }

  lemma BusyStarts()
    ensures Interfered(BUSY, [StartSync]) == BUSY.(syncing := true)
  {
    ReadsApplication(Str("false"), POLICY);
    assert [StartSync][..0] == [];
    assert Interfered(BUSY, []) == BUSY;
  }

  lemma ReadsApplication(skip: Json, automated: Json)
    ensures Lookup(ApplicationPatch(skip, automated), SKIP) == skip
    ensures Lookup(ApplicationPatch(skip, automated), AUTOMATED) == automated
  {
    var metadata, spec := ApplicationPatch(skip, automated).members["metadata"],
                          ApplicationPatch(skip, automated).members["spec"];
    assert SKIP[1..][1..] == SKIP[2..] && SKIP[2..][1..] == [] && SKIP[1..][0] == "annotations";
    assert Lookup(metadata.members["annotations"], SKIP[2..]) == skip;
    assert Lookup(metadata, SKIP[1..]) == skip;
    assert AUTOMATED[1..][1..] == AUTOMATED[2..] && AUTOMATED[2..][1..] == [] && AUTOMATED[1..][0] == "syncPolicy";
    assert Lookup(spec.members["syncPolicy"], AUTOMATED[2..]) == automated;
    assert Lookup(spec, AUTOMATED[1..]) == automated;
  }

  lemma QuietLooks(c: Cluster)
    ensures Interfered(c, []) == c
  {
  }

  lemma BusyEnds(c: Cluster)
    requires c.syncing && c.deployments == map["d" := Deployment(2, 2)]
    ensures var last := Turn([SyncDeployment("d", 7)], Done);
            && AllWork(c, BUSY_PLAN, [QUIET]) && Ran(c, BUSY_PLAN, [QUIET]) == c
            && AllWork(c, BUSY_PLAN, [QUIET, last])
            && Ran(c, BUSY_PLAN, [QUIET, last]).deployments == map["d" := Deployment(7, 2)]
  {
    var last := Turn([SyncDeployment("d", 7)], Done);
    assert [QUIET][..0] == [] && [QUIET, last][..1] == [QUIET] && last.moves[..0] == [];
    QuietLooks(c);
    assert Ran(c, BUSY_PLAN, []) == c && AllWork(c, BUSY_PLAN, []);
    assert Command(BUSY_PLAN, 0) == Scale("d", 2) && Works(c, QUIET, Command(BUSY_PLAN, 0));
    assert c.deployments["d" := c.deployments["d"].(replicas := 2)] == c.deployments;
    assert Ran(c, BUSY_PLAN, [QUIET]) == c;
    assert Interfered(c, last.moves) == WithReplicas(c, "d", 7);
  }

  /** The pods of the deployment stop while the script waits; otherwise nobody acts, and every call is heard. */
  function Helpful(n: nat): Turn {
    Turn(if n == 4 then [StopPod("d"), StopPod("d")] else [], Done)
  }

  lemma HelpfulMoves(c: Cluster)
    requires c.deployments == map["d" := Deployment(0, 2)]
    ensures Interfered(c, Helpful(4).moves) == c.(deployments := map["d" := Deployment(0, 0)])
    ensures forall n: nat | n != 4 :: Helpful(n) == QUIET
  {
    QuietLooks(c);
    StopsPod(c, []);
    StopsPod(c, [StopPod("d")]);
    assert [] + [StopPod("d")] == [StopPod("d")] && [StopPod("d")] + [StopPod("d")] == Helpful(4).moves;
  }

  lemma StopsPod(c: Cluster, moves: seq<Move>)
    requires "d" in Interfered(c, moves).deployments && Interfered(c, moves).deployments["d"].pods > 0
    ensures var before := Interfered(c, moves);
            Interfered(c, moves + [StopPod("d")]) == WithPods(before, "d", before.deployments["d"].pods - 1)
  {
    assert (moves + [StopPod("d")])[..|moves|] == moves;
  }

  lemma HelpfulCalls() returns (c: Cluster)
    ensures CallsWork(BUSY, ShutdownCalls(BUSY_PLAN), Helpful, 0) && |ShutdownCalls(BUSY_PLAN)| == 5
    ensures c == AfterCalls(BUSY, ShutdownCalls(BUSY_PLAN), Helpful, 0)
    ensures c.deployments == map["d" := Deployment(0, 0)]
  {
    hide Merge, IsDone, CallsWork, AfterCalls, ShutdownCalls;
    BusyCalls();
    var detached := Changed(BUSY, PatchApplication(DETACHING)).value;
    var scaled := WithReplicas(detached, "d", 0);
    c := scaled.(deployments := map["d" := Deployment(0, 0)]);
    HelpfulMoves(scaled);
    NothingDone(BUSY, Helpful, 0);
    assert [] + [DETACH[0]] == [DETACH[0]] && [DETACH[0]] + [SeeNoSync] == [DETACH[0], SeeNoSync];
    assert [DETACH[0], SeeNoSync] + [SeeNoJobs] == [DETACH[0], SeeNoSync, SeeNoJobs];
    QuietCall(BUSY, [], DETACH[0], BUSY, detached);
    QuietCall(BUSY, [DETACH[0]], SeeNoSync, detached, detached);
    QuietCall(BUSY, [DETACH[0], SeeNoSync], SeeNoJobs, detached, detached);
    QuietCall(BUSY, [DETACH[0], SeeNoSync, SeeNoJobs], Make(Scale("d", 0)), detached, scaled);
    var four := [DETACH[0], SeeNoSync, SeeNoJobs, Make(Scale("d", 0))];
    assert [DETACH[0], SeeNoSync, SeeNoJobs] + [Make(Scale("d", 0))] == four;
    NextDone(BUSY, four, SeeGone("d"), Helpful, 0, scaled, 4, []);
    assert four + [SeeGone("d")] == ShutdownCalls(BUSY_PLAN);
    DoneWorks(BUSY, ShutdownCalls(BUSY_PLAN), Helpful, 0, c, 5);
  }

  /** A call that nobody interferes with. */
  lemma QuietCall(start: Cluster, calls: seq<Call>, call: Call, c: Cluster, c': Cluster)
    requires IsDone(start, calls, Helpful, 0, c, |calls|) && |calls| != 4
    requires match call
             case Make(change) => Changed(c, change) == Some(c')
             case SeeNoSync => !c.syncing && c' == c
             case SeeNoJobs => c.jobs == 0 && c' == c
             case _ => false
    ensures IsDone(start, calls + [call], Helpful, 0, c', |calls| + 1)
  {
    hide Changed, CallsWork, AfterCalls;
    QuietLooks(c);
    NextDone(start, calls, call, Helpful, 0, c, |calls|, []);
  }

  lemma BusyCalls()
    ensures ShutdownCalls(BUSY_PLAN) == [DETACH[0], SeeNoSync, SeeNoJobs, Make(Scale("d", 0)), SeeGone("d")]
  {
    assert Pausing(BUSY_PLAN, 0) == [];
  }

  /** A window without incident: everything is heard, the pods stop, and the deployment is back at the end. */
  method UneventfulRun() returns (exit: Exit, operator: Operator)
    ensures exit.Completed? && operator.database.rebuilt
    ensures operator.cluster.deployments == map["d" := Deployment(2, 0)]
  {
    hide CallsWork, AfterCalls, ShutdownCalls;
    ghost var stopped := HelpfulCalls();
    operator := new Operator(BUSY, Database(false, true), Helpful);
    ghost var acknowledged, detached, resumedIn, resumedAt;
    BusyIsCovered();
    exit, acknowledged, detached, resumedIn, resumedAt := operator.Execute(BUSY_PLAN);
    QuietLooks(stopped);
    assert Helpful(5) == Helpful(6) == Helpful(7) == QUIET;
    assert operator.Turns(resumedAt, 2) == [Helpful(6), Helpful(7)];
    QuietResumes(resumedIn.value, operator.Turns(resumedAt, 2));
  }

  lemma BusyIsCovered()
    ensures Covers(BUSY_PLAN, BUSY) && WellFormed(BUSY_PLAN) && Settings(BUSY_PLAN) == 1
  {
    assert BUSY_PLAN.deployments[0].name == "d";
  }

  lemma QuietResumes(c: Cluster, turns: seq<Turn>)
    requires c.deployments == map["d" := Deployment(0, 0)] && turns == [QUIET, QUIET]
    ensures AllWork(c, BUSY_PLAN, turns) && Ran(c, BUSY_PLAN, turns).deployments == map["d" := Deployment(2, 0)]
  {
    hide Merge;
    assert turns[..1] == [QUIET] && [QUIET][..0] == [];
    assert Ran(c, BUSY_PLAN, []) == c && AllWork(c, BUSY_PLAN, []);
    QuietLooks(c);
    var scaled := WithReplicas(c, "d", 2);
    assert Command(BUSY_PLAN, 0) == Scale("d", 2) && Ran(c, BUSY_PLAN, [QUIET]) == scaled;
    assert AllWork(c, BUSY_PLAN, [QUIET]);
    QuietLooks(scaled);
  }

  lemma NoWritersMeansNoSync(c: Cluster)
    requires NoWriters(c)
    ensures NoSync(c)
  {
  }

  /** Whether or not the setting had been removed, patching it back gives the recorded value without null members. */
  lemma RestoredAutomation(current: Json, saved: Json)
    ensures current == saved || current == Null ==> Merge(current, saved) == Stripped(saved)
  {
    MergeSelf(saved);
  }

  /** The recorded synchronisation policy is back exactly when it had no null members. */
  lemma AutomationIsBackExactlyWhen(current: Json, saved: Json, skip: Json, application: Json)
    requires Lookup(application, AUTOMATED) == current && (current == saved || current == Null)
    ensures Lookup(Merge(application, ApplicationPatch(skip, saved)), AUTOMATED) == saved <==> NoNullMembers(saved)
  {
    hide Lookup, Merge, Stripped, ApplicationPatch, NoNullMembers;
    PatchedValues(application, skip, saved);
    RestoredAutomation(current, saved);
    StrippedExactlyWhen(saved);
  }

  // Recording the settings.

  /** Annotations are strings and the suspend switch is no object, as the cluster's own schema has it. */
  predicate Typed(c: Cluster) {
    && !Lookup(c.application, SKIP).Object?
    && (forall s | s in c.scaled :: !Lookup(c.scaled[s].resource, PAUSED).Object?
                                 && !Lookup(c.scaled[s].resource, PAUSED_REPLICAS).Object?)
    && (forall j | j in c.cronjobs :: !Lookup(c.cronjobs[j], SUSPEND).Object?)
  }

  /** What the recorded settings say about the cluster they were read from. */
  predicate Records(plan: Plan, c: Cluster) {
    && plan.automated == Lookup(c.application, AUTOMATED)
    && plan.skip == Lookup(c.application, SKIP)
    && Restored(c, plan, |plan.deployments|, |plan.scaled|, |plan.cronjobs|, true)
  }

  method ListDeployments(c: Cluster) returns (saved: seq<SavedDeployment>)
    ensures forall i | 0 <= i < |saved| ::
              saved[i].name in c.deployments && c.deployments[saved[i].name].replicas == saved[i].replicas
    ensures forall d | d in c.deployments :: exists i :: 0 <= i < |saved| && saved[i].name == d
    ensures forall i, j | 0 <= i < j < |saved| :: saved[i].name != saved[j].name
  {
    var todo := c.deployments.Keys;
    saved := [];
    while todo != {}
      invariant todo <= c.deployments.Keys
      invariant forall i | 0 <= i < |saved| :: saved[i].name in c.deployments && saved[i].name !in todo
                                            && c.deployments[saved[i].name].replicas == saved[i].replicas
      invariant forall d | d in c.deployments && d !in todo :: exists i :: 0 <= i < |saved| && saved[i].name == d
      invariant forall i, j | 0 <= i < j < |saved| :: saved[i].name != saved[j].name
      decreases |todo|
    {
      var d :| d in todo;
      ghost var before := saved;
      todo, saved := todo - {d}, saved + [SavedDeployment(d, c.deployments[d].replicas)];
      assert saved[|before|].name == d && forall i | 0 <= i < |before| :: saved[i] == before[i];
    }
  }

  method ListScaledObjects(c: Cluster) returns (saved: seq<SavedScaledObject>)
    ensures forall i | 0 <= i < |saved| :: AnnotationsRestored(c, saved[i])
    ensures forall s | s in c.scaled && c.scaled[s].target in c.deployments ::
              exists i :: 0 <= i < |saved| && saved[i].name == s
    ensures forall i, j | 0 <= i < j < |saved| :: saved[i].name != saved[j].name
  {
    hide Lookup;
    var todo := set s | s in c.scaled && c.scaled[s].target in c.deployments;
    saved := [];
    while todo != {}
      invariant forall s | s in todo :: s in c.scaled
      invariant forall i | 0 <= i < |saved| :: AnnotationsRestored(c, saved[i]) && saved[i].name !in todo
      invariant forall s | s in c.scaled && c.scaled[s].target in c.deployments && s !in todo ::
                  exists i :: 0 <= i < |saved| && saved[i].name == s
      invariant forall i, j | 0 <= i < j < |saved| :: saved[i].name != saved[j].name
      decreases |todo|
    {
      var s :| s in todo;
      ghost var before := saved;
      var resource := c.scaled[s].resource;
      saved := saved + [SavedScaledObject(s, Lookup(resource, PAUSED), Lookup(resource, PAUSED_REPLICAS))];
      todo := todo - {s};
      assert saved[|before|].name == s && forall i | 0 <= i < |before| :: saved[i] == before[i];
    }
  }

  method ListCronJobs(c: Cluster) returns (saved: seq<SavedCronJob>)
    ensures forall i | 0 <= i < |saved| :: SuspendRestored(c, saved[i])
    ensures forall j | j in c.cronjobs :: exists i :: 0 <= i < |saved| && saved[i].name == j
    ensures forall i, j | 0 <= i < j < |saved| :: saved[i].name != saved[j].name
  {
    hide Lookup;
    var todo := c.cronjobs.Keys;
    saved := [];
    while todo != {}
      invariant todo <= c.cronjobs.Keys
      invariant forall i | 0 <= i < |saved| :: SuspendRestored(c, saved[i]) && saved[i].name !in todo
      invariant forall j | j in c.cronjobs && j !in todo :: exists i :: 0 <= i < |saved| && saved[i].name == j
      invariant forall i, j | 0 <= i < j < |saved| :: saved[i].name != saved[j].name
      decreases |todo|
    {
      var j :| j in todo;
      ghost var before := saved;
      todo, saved := todo - {j}, saved + [SavedCronJob(j, Lookup(c.cronjobs[j], SUSPEND))];
      assert saved[|before|].name == j && forall i | 0 <= i < |before| :: saved[i] == before[i];
    }
  }

  /** `snapshot`: refuses another database, a running synchronisation, a foreign autoscaler or an unusual selector. */
  method Snapshot(c: Cluster, database: string, environment: string,
                  unsupported: set<string>) returns (plan: Option<Plan>)
    requires Typed(c)
    ensures plan.Some? <==> && database == "home_budget" && (environment == "" || environment == "production")
                            && !c.syncing && unsupported !! c.deployments.Keys
                            && forall d | d in c.autoscaled && d in c.deployments :: Managed(c, d)
    ensures plan.Some? ==> Covers(plan.value, c) && WellFormed(plan.value) && Records(plan.value, c)
  {
    hide Lookup;
    if database != "home_budget" || (environment != "" && environment != "production") || c.syncing { return None; }
    if d :| d in c.autoscaled && d in c.deployments && !Managed(c, d) { return None; }
    if d :| d in unsupported && d in c.deployments { return None; }
    var deployments := ListDeployments(c);
    var scaled := ListScaledObjects(c);
    var cronjobs := ListCronJobs(c);
    plan := Some(Plan(Lookup(c.application, AUTOMATED), Lookup(c.application, SKIP), deployments, scaled, cronjobs));
  }

  /**
   A whole run.  It does nothing when it refuses, and else goes as far as the calls of the shutdown work.  With nothing
   else acting, and a synchronisation policy free of null members, resuming brings back the settings recorded at the
   start.
   */
  method Run(operator: Operator, database: string, environment: string, unsupported: set<string>)
    returns (plan: Option<Plan>, exit: Exit)
    requires Typed(operator.cluster) && operator.rebuiltIn == None
    modifies operator
    ensures plan == None ==> operator.cluster == old(operator.cluster) && operator.database == old(operator.database)
    ensures plan.Some? ==> Records(plan.value, old(operator.cluster)) && Covers(plan.value, old(operator.cluster))
    ensures plan.Some? ==>
              (operator.rebuiltIn.Some? <==>
               CallsWork(old(operator.cluster), ShutdownCalls(plan.value), operator.schedule, old(operator.step)))
    ensures plan.Some? && operator.rebuiltIn.Some?
            && operator.schedule(old(operator.step) + |ShutdownCalls(plan.value)|).outcome == Done ==>
              operator.database == Database(true, true) && (exit.Completed? || exit.ResumeFailed?)
    ensures plan.Some? && exit.Completed? ==> operator.rebuiltIn.Some?
    ensures plan.Some? && (exit.Completed? || exit.ResumedAfterFailure?) && operator.Undisturbed()
            && NoNullMembers(plan.value.automated) ==>
              Records(plan.value, operator.cluster)
  {
    hide Lookup, Merge, Covers, WellFormed, Restored, NoWriters, Typed, NoNullMembers, Stripped;
    hide CallsWork, AfterCalls, ShutdownCalls, AllWork, Ran;
    exit := LeftPaused;
    plan := Snapshot(operator.cluster, database, environment, unsupported);
    if plan.Some? {
      StrippedExactlyWhen(plan.value.automated);
      ghost var acknowledged, detached, resumedIn, resumedAt;
      exit, acknowledged, detached, resumedIn, resumedAt := operator.Execute(plan.value);
    }
  }
}
