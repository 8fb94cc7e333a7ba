/**
 Staged publication of a receipt graph snapshot.  Writers commit bounded batches
 to a hidden stage and then swap it in with one small transaction.  Any
 transaction may fail, be retried, or commit without its writer learning so, and
 a writer may stop at any point.
 */
module SnapshotStore {
  import opened Options
  import opened WriteBatches
  import opened GraphProjection

  datatype Role = Snapshot | Stage

  /** A snapshot or stage node: a receipt hash or stage identity, and the memberships it owns. */
  datatype Entry = Entry(role: Role, key: string, projection: Option<string>, observed: Option<int>,
                         members: map<string, Member>)

  /** Stages and snapshots by node, and what all graphs share: the entities and the relationships between them. */
  datatype Store = Store(entries: map<nat, Entry>, entities: set<string>, relations: set<Edge>)

  datatype Statement =
    | Create
    | MergeEntities(ids: set<string>)
    | MergeRows(rows: seq<Member>)
    | MergeEdges(edges: seq<Edge>)
    | Finish(time: int)

  /** One call of `write_snapshot`, with the two identities it draws. */
  datatype Job = Job(sha: string, graph: Graph, observed: int, stage: string, retired: string,
                     statements: seq<Statement>)

  predicate IsStage(e: Entry, key: string) {
    e.role == Stage && e.key == key
  }

  predicate IsSnapshot(e: Entry, sha: string) {
    e.role == Snapshot && e.key == sha
  }

  /** Only rows whose entity exists are matched. */
  function Matched(rows: seq<Member>, entities: set<string>): seq<Member> {
    if rows == [] then []
    else
      var last := rows[|rows| - 1];
      Matched(rows[..|rows| - 1], entities) + if last.node.id in entities then [last] else []
  }

  /** The change a write statement makes to one stage. */
  function Written(e: Entry, s: Statement, entities: set<string>): Entry {
    match s
    case Create => e
    case MergeEntities(_) => e
    case MergeEdges(_) => e
    case MergeRows(rows) => e.(members := MergeMembers(e.members, Matched(rows, entities)))
    case Finish(time) => e.(observed := Some(time))
  }

  /** A write statement's whole transaction; `newId` names the node a `Create` adds. */
  function Apply(db: Store, stage: string, s: Statement, newId: nat): Store {
    match s
    case Create => db.(entries := db.entries[newId := Entry(Stage, stage, None, None, map[])])
    case MergeEntities(ids) => db.(entities := db.entities + ids)
    case MergeEdges(edges) =>
      db.(relations := db.relations + set e | e in edges && e.source in db.entities && e.target in db.entities)
    case _ => db.(entries := map i | i in db.entries ::
                    if IsStage(db.entries[i], stage) then Written(db.entries[i], s, db.entities) else db.entries[i])
  }

  /** The swap: the visible snapshot is retired and the stage takes its place. */
  function Swapped(e: Entry, job: Job): Entry {
    if IsSnapshot(e, job.sha) then e.(role := Stage, key := job.retired)
    else if IsStage(e, job.stage) then e.(role := Snapshot, key := job.sha, projection := Some(job.stage))
    else e
  }

  function Swap(db: Store, job: Job): Store {
    db.(entries := map i | i in db.entries :: Swapped(db.entries[i], job))
  }

  function Stages(db: Store, key: string): set<nat> {
    set i | i in db.entries && IsStage(db.entries[i], key)
  }

  function Snapshots(db: Store, sha: string): set<nat> {
    set i | i in db.entries && IsSnapshot(db.entries[i], sha)
  }

  /** The uniqueness constraint on visible snapshots. */
  predicate UniqueSnapshots(db: Store) {
    forall i, j | i in db.entries && j in db.entries && db.entries[i].role == db.entries[j].role == Snapshot
      && db.entries[i].key == db.entries[j].key :: i == j
  }

  datatype Outcome = Raised | Returned(db: Store, published: bool)

  predicate IsNewer(db: Store, sha: string, observed: int) {
    exists i :: i in Snapshots(db, sha) && db.entries[i].observed.Some? && db.entries[i].observed.value > observed
  }

  predicate IsPublished(db: Store, sha: string, stage: string) {
    exists i :: i in Snapshots(db, sha) && db.entries[i].projection == Some(stage)
  }

  /** `_activate`; `pick` is the stage record the driver returns when there are several. */
  function Activation(db: Store, job: Job, pick: nat): Outcome {
    if Stages(db, job.stage) == {} then
      Returned(db, IsPublished(db, job.sha, job.stage))
    else if pick !in Stages(db, job.stage) || db.entries[pick].observed != Some(job.observed) then
      Raised
    else if IsNewer(db, job.sha, job.observed) then
      Returned(db, false)
    else if !UniqueSnapshots(Swap(db, job)) then
      Raised
    else
      Returned(Swap(db, job), true)
  }

  /** One bounded deletion of memberships. */
  function Discarded(db: Store, key: string, victims: set<string>): Store {
    db.(entries := map i | i in db.entries ::
          if IsStage(db.entries[i], key) then db.entries[i].(members := db.entries[i].members - victims)
            else db.entries[i])
  }

  /** The final node deletion, refused while memberships remain. */
  function Deleted(db: Store, key: string): Store {
    if exists i :: i in Stages(db, key) && db.entries[i].members != map[] then db
    else db.(entries := db.entries - Stages(db, key))
  }

  // The statement list of one projection.

  function RowsOf(ss: seq<Statement>): seq<Member> {
    if ss == [] then []
    else RowsOf(ss[..|ss| - 1]) + match ss[|ss| - 1] case MergeRows(rows) => rows case _ => []
  }

  function IdsOf(ss: seq<Statement>): set<string> {
    if ss == [] then {}
    else IdsOf(ss[..|ss| - 1]) + match ss[|ss| - 1] case MergeEntities(ids) => ids case _ => {}
  }

  function EdgesOf(ss: seq<Statement>): seq<Edge> {
    if ss == [] then []
    else EdgesOf(ss[..|ss| - 1]) + match ss[|ss| - 1] case MergeEdges(edges) => edges case _ => []
  }

  function OfKind(edges: seq<Edge>, kind: string): seq<Edge> {
    if edges == [] then []
    else
      var last := edges[|edges| - 1];
      OfKind(edges[..|edges| - 1], kind) + if last.kind == kind then [last] else []
  }

  /** A statement names one relationship type and carries at most 1000 rows. */
  predicate IsEdgeBatch(s: Statement) {
    s.MergeEdges? && 0 < |s.edges| <= 1000 && forall i | 0 <= i < |s.edges| :: s.edges[i].kind == s.edges[0].kind
  }

  /**
   Creation first, the time stamp last; in between every membership, after its entity, and then every edge, in
   batches of one type that keep the type's own order.
   */
  ghost predicate IsPlan(g: Graph, observed: int, ss: seq<Statement>) {
    && |ss| >= 2 && ss[0] == Create && ss[|ss| - 1] == Finish(observed)
    && (forall k | 1 <= k < |ss| - 1 :: ss[k].MergeEntities? || ss[k].MergeRows? || IsEdgeBatch(ss[k]))
    && RowsFollow(ss)
    && (forall k, l | 0 <= k < l < |ss| && ss[k].MergeEdges? :: ss[l].MergeEdges? || ss[l].Finish?)
    && RowsOf(ss) == Members(g)
    && (forall kind :: OfKind(EdgesOf(ss), kind) == OfKind(g.edges, kind))
  }

  ghost predicate IsJob(job: Job) {
    DistinctNodes(job.graph) && IsPlan(job.graph, job.observed, job.statements)
  }

  lemma RowsAppend(ss: seq<Statement>, s: Statement)
    ensures RowsOf(ss + [s]) == RowsOf(ss) + (match s case MergeRows(rows) => rows case _ => [])
    ensures IdsOf(ss + [s]) == IdsOf(ss) + (match s case MergeEntities(ids) => ids case _ => {})
    ensures EdgesOf(ss + [s]) == EdgesOf(ss) + (match s case MergeEdges(edges) => edges case _ => [])
  {
    assert (ss + [s])[..|ss|] == ss;
  }

  /** The node batches of `projection_statements`, behind the creation of the stage. */
  method PlanEntities(g: Graph, nodeSize: Node -> nat) returns (ss: seq<Statement>)
    ensures |ss| >= 1 && ss[0] == Create && forall i | 1 <= i < |ss| :: ss[i].MergeEntities?
    ensures RowsOf(ss) == [] && EdgesOf(ss) == []
    ensures forall i | 0 <= i < |g.nodes| :: g.nodes[i].id in IdsOf(ss)
  {
    hide RowsOf, IdsOf, EdgesOf, Flatten;
    ss := [Create];
    EmptyPlan();
    var nodeBatches: seq<seq<Node>> := Batch(g.nodes, nodeSize);
    for k := 0 to |nodeBatches|
      invariant |ss| >= 1 && ss[0] == Create && forall i | 1 <= i < |ss| :: ss[i].MergeEntities?
      invariant RowsOf(ss) == [] && EdgesOf(ss) == []
      invariant forall b, i | 0 <= b < k && 0 <= i < |nodeBatches[b]| :: nodeBatches[b][i].id in IdsOf(ss)
    {
      var s := MergeEntities(set i | 0 <= i < |nodeBatches[k]| :: nodeBatches[k][i].id);
      RowsAppend(ss, s);
      ss := ss + [s];
    }
    InSomeBatch(nodeBatches);
    forall i | 0 <= i < |g.nodes|
      ensures g.nodes[i].id in IdsOf(ss)
    {
      assert g.nodes[i] in Flatten(nodeBatches);
    }
  }

  /** The membership batches. */
  method PlanMembers(g: Graph, start: seq<Statement>, memberSize: Member -> nat) returns (ss: seq<Statement>)
    requires RowsOf(start) == [] && forall i | 0 <= i < |start| :: !start[i].MergeRows?
    requires forall i | 0 <= i < |g.nodes| :: g.nodes[i].id in IdsOf(start)
    ensures start <= ss && forall i | |start| <= i < |ss| :: ss[i].MergeRows?
    ensures RowsOf(ss) == Members(g) && EdgesOf(ss) == EdgesOf(start)
    ensures RowsFollow(ss)
  {
    hide RowsOf, IdsOf, EdgesOf, Flatten, Outgoing, AnalysedItem;
    ss := start;
    EmptyPlan();
    var members := BuildMembers(g);
    var memberBatches: seq<seq<Member>> := Batch(members, memberSize);
    InSomeBatch(memberBatches);
    for k := 0 to |memberBatches|
      invariant start <= ss && forall i | |start| <= i < |ss| :: ss[i].MergeRows?
      invariant IdsOf(ss) == IdsOf(start) && EdgesOf(ss) == EdgesOf(start)
      invariant RowsOf(ss) == Flatten(memberBatches[..k])
      invariant RowsFollow(ss)
    {
      var s := MergeRows(memberBatches[k]);
      RowsAppend(ss, s);
      FlattenAppend(memberBatches[..k], memberBatches[k]);
      assert memberBatches[..k + 1] == memberBatches[..k] + [memberBatches[k]];
      forall i | 0 <= i < |s.rows|
        ensures s.rows[i].node.id in IdsOf(ss)
      {
        assert s.rows[i] in Flatten(memberBatches);
      }
      StillFollow(ss, s);
      ss := ss + [s];
    }
    assert memberBatches[..|memberBatches|] == memberBatches;
  }

  /** Every membership follows its entity. */
  predicate RowsFollow(ss: seq<Statement>) {
    forall k, i | 0 <= k < |ss| && ss[k].MergeRows? && 0 <= i < |ss[k].rows| :: ss[k].rows[i].node.id in IdsOf(ss[..k])
  }

  lemma StillFollow(ss: seq<Statement>, s: Statement)
    requires RowsFollow(ss)
    requires s.MergeRows? ==> forall i | 0 <= i < |s.rows| :: s.rows[i].node.id in IdsOf(ss)
    ensures RowsFollow(ss + [s])
  {
    hide IdsOf;
    assert (ss + [s])[..|ss|] == ss;
    assert forall k | 0 <= k < |ss| :: (ss + [s])[..k] == ss[..k];
  }

  /** `grouped`: the edges by type, types in the order in which they first appear. */
  method GroupByKind(edges: seq<Edge>) returns (kinds: seq<string>, grouped: map<string, seq<Edge>>)
    ensures forall i, j | 0 <= i < j < |kinds| :: kinds[i] != kinds[j]
    ensures forall kind :: kind in grouped <==> kind in kinds
    ensures IsGrouped(edges, grouped)
  {
    hide IsGrouped, OfKind;
    kinds, grouped := [], map[];
    NotGroupedYet();
    for k := 0 to |edges|
      invariant forall i, j | 0 <= i < j < |kinds| :: kinds[i] != kinds[j]
      invariant forall kind :: kind in grouped <==> kind in kinds
      invariant IsGrouped(edges[..k], grouped)
    {
      var edge := edges[k];
      assert edges[..k + 1] == edges[..k] + [edge];
      GroupOneMore(edges[..k], edge, grouped);
      if edge.kind !in grouped {
        kinds := kinds + [edge.kind];
      }
      grouped := grouped[edge.kind := (if edge.kind in grouped then grouped[edge.kind] else []) + [edge]];
    }
    assert edges[..|edges|] == edges;
  }

  /** Every type has exactly its edges, in their order. */
  ghost predicate IsGrouped(edges: seq<Edge>, grouped: map<string, seq<Edge>>) {
    forall kind :: OfKind(edges, kind) == if kind in grouped then grouped[kind] else []
  }

  lemma NotGroupedYet()
    ensures IsGrouped([], map[])
  {
  }

  lemma GroupOneMore(edges: seq<Edge>, edge: Edge, grouped: map<string, seq<Edge>>)
    requires IsGrouped(edges, grouped)
    ensures IsGrouped(edges + [edge],
                      grouped[edge.kind := (if edge.kind in grouped then grouped[edge.kind] else []) + [edge]])
  {
    var more := grouped[edge.kind := (if edge.kind in grouped then grouped[edge.kind] else []) + [edge]];
    forall kind
      ensures OfKind(edges + [edge], kind) == if kind in more then more[kind] else []
    {
      OfKindStep(edges, edge, kind);
      hide OfKind;
    }
  }

  lemma OfKindStep(edges: seq<Edge>, edge: Edge, kind: string)
    ensures OfKind(edges + [edge], kind) == OfKind(edges, kind) + if edge.kind == kind then [edge] else []
  {
    assert (edges + [edge])[..|edges|] == edges;
  }

  lemma {:induction false} OfKindAppend(a: seq<Edge>, b: seq<Edge>, kind: string)
    ensures OfKind(a + b, kind) == OfKind(a, kind) + OfKind(b, kind)
  {
    if b == [] {
      assert a + b == a;
    } else {
      OfKindAppend(a, b[..|b| - 1], kind);
      assert (a + b)[..|a + b| - 1] == a + b[..|b| - 1];
    }
  }

  lemma {:induction false} AllOfKind(edges: seq<Edge>, kind: string, all: bool)
    requires forall i | 0 <= i < |edges| :: (edges[i].kind == kind) == all
    ensures OfKind(edges, kind) == if all then edges else []
  {
    if edges != [] {
      AllOfKind(edges[..|edges| - 1], kind, all);
    }
  }

  /** Selecting a type's edges once more selects them all, and none of another type. */
  lemma {:induction false} OfKindIsOfKind(edges: seq<Edge>, kind: string)
    ensures forall i | 0 <= i < |OfKind(edges, kind)| :: OfKind(edges, kind)[i].kind == kind
  {
    if edges != [] {
      OfKindIsOfKind(edges[..|edges| - 1], kind);
    }
  }

  /** What `ss` adds to `start` are relationship batches. */
  ghost predicate AddsEdges(start: seq<Statement>, ss: seq<Statement>) {
    && start <= ss && (forall i | |start| <= i < |ss| :: IsEdgeBatch(ss[i]))
    && RowsOf(ss) == RowsOf(start) && (RowsFollow(start) ==> RowsFollow(ss))
  }

  /** The batches of one relationship type. */
  method PlanKind(start: seq<Statement>, rows: seq<Edge>) returns (ss: seq<Statement>)
    requires forall i, j | 0 <= i < |rows| && 0 <= j < |rows| :: rows[i].kind == rows[j].kind
    ensures AddsEdges(start, ss) && EdgesOf(ss) == EdgesOf(start) + rows
  {
    hide RowsOf, IdsOf, EdgesOf, RowsFollow;
    ss := start;
    var offset := 0;
    while offset < |rows|
      invariant 0 <= offset <= |rows|
      invariant AddsEdges(start, ss) && EdgesOf(ss) == EdgesOf(start) + rows[..offset]
    {
      var end := if offset + 1000 < |rows| then offset + 1000 else |rows|;
      var s := MergeEdges(rows[offset..end]);
      RowsAppend(ss, s);
      if RowsFollow(start) {
        StillFollow(ss, s);
      }
      assert rows[..end] == rows[..offset] + s.edges;
      ss, offset := ss + [s], end;
    }
    assert rows[..|rows|] == rows;
  }

  /** `edges` are all edges of the types in `kinds`, each type in its own order. */
  ghost predicate Collects(edges: seq<Edge>, kinds: seq<string>, grouped: map<string, seq<Edge>>) {
    forall kind :: OfKind(edges, kind) == if kind in kinds && kind in grouped then grouped[kind] else []
  }

  lemma CollectsOneMore(edges: seq<Edge>, kinds: seq<string>, grouped: map<string, seq<Edge>>, kind: string)
    requires Collects(edges, kinds, grouped) && kind !in kinds && kind in grouped
    requires forall i | 0 <= i < |grouped[kind]| :: grouped[kind][i].kind == kind
    ensures Collects(edges + grouped[kind], kinds + [kind], grouped)
  {
    hide OfKind;
    forall other
      ensures OfKind(edges + grouped[kind], other) ==
              if other in kinds + [kind] && other in grouped then grouped[other] else []
    {
      OfKindAppend(edges, grouped[kind], other);
      AllOfKind(grouped[kind], other, other == kind);
    }
  }

  /** The relationship batches, type by type. */
  method PlanEdges(g: Graph, start: seq<Statement>) returns (ss: seq<Statement>)
    requires EdgesOf(start) == []
    ensures AddsEdges(start, ss)
    ensures forall kind :: OfKind(EdgesOf(ss), kind) == OfKind(g.edges, kind)
  {
    hide OfKind, EdgesOf, AddsEdges, Collects;
    ss := start;
    var kinds, grouped := GroupByKind(g.edges);
    NothingCollected(start, grouped);
    for k := 0 to |kinds|
      invariant AddsEdges(start, ss) && Collects(EdgesOf(ss), kinds[..k], grouped)
    {
      var before, kind := ss, kinds[k];
      OfKindIsOfKind(g.edges, kind);
      ss := PlanKind(before, grouped[kind]);
      AddsAgain(start, before, ss);
      CollectsOneMore(EdgesOf(before), kinds[..k], grouped, kind);
      assert kinds[..k + 1] == kinds[..k] + [kind];
    }
    assert kinds[..|kinds|] == kinds;
    CollectsAll(EdgesOf(ss), g.edges, kinds, grouped);
  }

  lemma CollectsAll(a: seq<Edge>, b: seq<Edge>, kinds: seq<string>, grouped: map<string, seq<Edge>>)
    requires Collects(a, kinds, grouped) && forall kind :: kind in grouped <==> kind in kinds
    requires IsGrouped(b, grouped)
    ensures forall kind :: OfKind(a, kind) == OfKind(b, kind)
  {
    hide OfKind;
  }

  lemma NothingCollected(start: seq<Statement>, grouped: map<string, seq<Edge>>)
    ensures AddsEdges(start, start) && Collects([], [], grouped)
  {
  }

  lemma AddsAgain(a: seq<Statement>, b: seq<Statement>, c: seq<Statement>)
    requires AddsEdges(a, b) && AddsEdges(b, c)
    ensures AddsEdges(a, c)
  {
    hide RowsOf, RowsFollow, IsEdgeBatch;
    forall i | |a| <= i < |c|
      ensures IsEdgeBatch(c[i])
    {
      assert i < |b| ==> c[i] == b[i];
    }
  }

  /** Edges that agree type by type are the same edges. */
  lemma KindsMakeAll(a: seq<Edge>, b: seq<Edge>)
    requires forall kind :: OfKind(a, kind) == OfKind(b, kind)
    ensures multiset(a) == multiset(b)
  {
    hide OfKind;
    forall e: Edge
      ensures multiset(a)[e] == multiset(b)[e]
    {
      KindCount(a, e);
      KindCount(b, e);
    }
  }

  lemma {:induction false} KindCount(edges: seq<Edge>, e: Edge)
    ensures multiset(OfKind(edges, e.kind))[e] == multiset(edges)[e]
  {
    if edges != [] {
      var n := |edges| - 1;
      KindCount(edges[..n], e);
      assert edges == edges[..n] + [edges[n]];
      OfKindStep(edges[..n], edges[n], e.kind);
    }
  }

  /**
   `projection_statements` behind the creation of the stage.  A graph without a receipt node has no name: it fails
   where the last statement is built, after all others.
   */
  method Plan(g: Graph, observed: int, nodeSize: Node -> nat, memberSize: Member -> nat)
      returns (ss: seq<Statement>, failed: bool)
    ensures failed <==> forall i | 0 <= i < |g.nodes| :: g.nodes[i].kind != "Receipt"
    ensures IsPlan(g, observed, if failed then ss + [Finish(observed)] else ss)
    ensures multiset(EdgesOf(ss)) == multiset(g.edges)
  {
    hide RowsOf, IdsOf, EdgesOf, OfKind, Members, RowsFollow;
    ss := PlanEntities(g, nodeSize);
    ss := PlanMembers(g, ss, memberSize);
    ss := PlanEdges(g, ss);
    KindsMakeAll(EdgesOf(ss), g.edges);
    RowsAppend(ss, Finish(observed));
    StillFollow(ss, Finish(observed));
    assert EdgesOf(ss + [Finish(observed)]) == EdgesOf(ss);
    assert RowsOf(ss + [Finish(observed)]) == RowsOf(ss);
    failed := true;
    for i := 0 to |g.nodes|
      invariant failed <==> forall j | 0 <= j < i :: g.nodes[j].kind != "Receipt"
    {
      failed := failed && g.nodes[i].kind != "Receipt";
    }
    if !failed {
      ss := ss + [Finish(observed)];
    }
  }

  lemma EmptyPlan()
    ensures RowsOf([Create]) == [] && EdgesOf([Create]) == [] && Flatten<Member>([]) == []
  {
    assert [Create][..0] == [];
  }

  lemma {:induction false} InSomeBatch<T>(batches: seq<seq<T>>)
    ensures forall t :: t in Flatten(batches) <==>
              exists b, i :: 0 <= b < |batches| && 0 <= i < |batches[b]| && batches[b][i] == t
  {
    if batches != [] {
      var rest := batches[1..];
      InSomeBatch(rest);
      forall t
        ensures t in Flatten(batches) <==>
                exists b, i :: 0 <= b < |batches| && 0 <= i < |batches[b]| && batches[b][i] == t
      {
        if b, i :| 0 <= b < |batches| && 0 <= i < |batches[b]| && batches[b][i] == t {
          assert b > 0 ==> rest[b - 1] == batches[b];
        }
        if b, i :| 0 <= b < |rest| && 0 <= i < |rest[b]| && rest[b][i] == t {
          assert batches[b + 1] == rest[b];
        }
        if i :| 0 <= i < |batches[0]| && batches[0][i] == t {
          assert 0 < |batches|;
        }
      }
    }
  }
}

/** Every interleaving of writers, failures, retries and lost acknowledgements. */
module SnapshotPublication {
  import opened Options
  import opened GraphProjection
  import opened SnapshotStore

  /** Where a writer stands: before statement `k` (activation after the last), cleaning up, or gone. */
  datatype Position = At(k: nat) | Cleaning(key: string) | Gone

  datatype System = System(db: Store, at: seq<Position>)

  /** Identities are drawn at random: no two coincide, and no stored stage has one yet. */
  predicate FreshIdentities(jobs: seq<Job>) {
    && (forall v, w | 0 <= v < |jobs| && 0 <= w < |jobs| :: jobs[v].stage != jobs[w].retired)
    && (forall v, w | 0 <= v < |jobs| && 0 <= w < |jobs| && v != w ::
          jobs[v].stage != jobs[w].stage && jobs[v].retired != jobs[w].retired)
  }

  predicate Init(jobs: seq<Job>, s: System) {
    && |s.at| == |jobs| && (forall w | 0 <= w < |jobs| :: s.at[w] == At(0))
    && UniqueSnapshots(s.db)
    && (forall w | 0 <= w < |jobs| :: Stages(s.db, jobs[w].stage) == {} && Stages(s.db, jobs[w].retired) == {})
  }

  // One transaction attempt of writer `w`: its effect on the store, and where the writer stands afterwards.

  /** The attempt had no effect, or its effect is not known: retry, give up and clean up, or stop. */
  predicate Unacknowledged(job: Job, before: Position, after: Position) {
    after == before || after == Cleaning(job.stage) || after == Gone
  }

  ghost predicate WriteStep(job: Job, db: Store, db': Store, k: nat, after: Position)
    requires k < |job.statements|
  {
    || (db' == db && Unacknowledged(job, At(k), after))
    || exists newId :: newId !in db.entries && db' == Apply(db, job.stage, job.statements[k], newId)
                       && (after == At(k + 1) || Unacknowledged(job, At(k), after))
  }

  ghost predicate ActivateStep(job: Job, db: Store, db': Store, k: nat, after: Position) {
    || (db' == db && Unacknowledged(job, At(k), after))
    || exists pick ::
         var outcome := Activation(db, job, pick);
         && outcome.Returned? && db' == outcome.db
         && (after == Cleaning(if outcome.published then job.retired else job.stage)
             || Unacknowledged(job, At(k), after))
  }

  ghost predicate CleanStep(db: Store, db': Store, key: string, after: Position) {
    && (after == Cleaning(key) || after == Gone)
    && (db' == db || db' == Deleted(db, key) || exists victims :: db' == Discarded(db, key, victims))
  }

  ghost predicate Step(jobs: seq<Job>, s: System, s': System) {
    && |s.at| == |s'.at| == |jobs|
    && exists w | 0 <= w < |jobs| ::
         && s'.at == s.at[w := s'.at[w]]
         && match s.at[w]
            case At(k) =>
              if k < |jobs[w].statements| then WriteStep(jobs[w], s.db, s'.db, k, s'.at[w])
              else ActivateStep(jobs[w], s.db, s'.db, k, s'.at[w])
            case Cleaning(key) => CleanStep(s.db, s'.db, key, s'.at[w])
            case Gone => false
  }

  // The invariant.

  /** A stage of `job` holds what its first `k` statements wrote. */
  predicate HoldsPrefix(e: Entry, job: Job, k: nat)
    requires k <= |job.statements|
  {
    && e.members == MergeMembers(map[], RowsOf(job.statements[..k]))
    && e.observed == if k == |job.statements| then Some(job.observed) else None
  }

  predicate HoldsAbout(e: Entry, job: Job, k: nat)
    requires k <= |job.statements|
  {
    HoldsPrefix(e, job, k) || (k < |job.statements| && HoldsPrefix(e, job, k + 1))
  }

  /** The visible entry is one complete projection, stamped with the time its evidence was read. */
  predicate IsCompleteProjection(e: Entry, job: Job) {
    && e.key == job.sha && e.projection == Some(job.stage) && e.observed == Some(job.observed)
    && e.members == Projection(job.graph)
  }

  /** `initial` are the snapshots that were visible before any of these writers ran. */
  predicate IsPublication(e: Entry, jobs: seq<Job>, initial: set<Entry>) {
    e in initial || exists w | 0 <= w < |jobs| :: IsCompleteProjection(e, jobs[w])
  }

  predicate VisibleComplete(db: Store, jobs: seq<Job>, initial: set<Entry>) {
    forall i | i in db.entries && db.entries[i].role == Snapshot :: IsPublication(db.entries[i], jobs, initial)
  }

  predicate WriterOk(db: Store, job: Job, at: Position) {
    match at
    case At(k) =>
      && k <= |job.statements|
      && (forall i | i in Stages(db, job.stage) :: HoldsAbout(db.entries[i], job, k))
      && IdsOf(job.statements[..k]) <= db.entities
    case Cleaning(key) => key == job.stage || key == job.retired
    case Gone => true
  }

  predicate Inv(jobs: seq<Job>, initial: set<Entry>, s: System) {
    && |s.at| == |jobs|
    && UniqueSnapshots(s.db)
    && VisibleComplete(s.db, jobs, initial)
    && forall w | 0 <= w < |jobs| :: WriterOk(s.db, jobs[w], s.at[w])
  }

  lemma HoldsAll(e: Entry, job: Job)
    requires IsJob(job) && HoldsAbout(e, job, |job.statements|)
    ensures e.members == Projection(job.graph) && e.observed == Some(job.observed)
  {
    assert job.statements[..|job.statements|] == job.statements;
  }

  /** All entities of a plan's rows exist once the statements before them have committed. */
  lemma {:induction false} AllMatched(rows: seq<Member>, entities: set<string>)
    requires forall i | 0 <= i < |rows| :: rows[i].node.id in entities
    ensures Matched(rows, entities) == rows
  {
    if rows != [] {
      AllMatched(rows[..|rows| - 1], entities);
    }
  }

  lemma {:induction false} RowsPrefix(ss: seq<Statement>, k: nat)
    requires k <= |ss|
    ensures RowsOf(ss[..k]) <= RowsOf(ss)
  {
    if k < |ss| {
      RowsPrefix(ss[..|ss| - 1], k);
      assert ss[..|ss| - 1][..k] == ss[..k];
    } else {
      assert ss[..k] == ss;
    }
  }

  lemma RowsAreDistinct(job: Job, k: nat)
    requires IsJob(job) && k < |job.statements| && job.statements[k].MergeRows?
    ensures var rows := job.statements[k].rows;
            forall i, j | 0 <= i < j < |rows| :: rows[i].node.id != rows[j].node.id
  {
    hide RowsOf;
    var ss, rows := job.statements, job.statements[k].rows;
    var before := RowsOf(ss[..k]);
    assert ss[..k + 1] == ss[..k] + [ss[k]];
    RowsAppend(ss[..k], ss[k]);
    RowsPrefix(ss, k + 1);
    var all := Members(job.graph);
    assert before + rows <= all;
    forall i | 0 <= i < |rows|
      ensures rows[i] == all[|before| + i] && all[|before| + i].node == job.graph.nodes[|before| + i]
    {
      assert rows[i] == (before + rows)[|before| + i];
    }
  }

  /** Re-running a committed write leaves the stage as it is, and a first run takes it one statement further. */
  lemma WriteAdvances(job: Job, k: nat, e: Entry, entities: set<string>)
    requires IsJob(job) && 0 < k < |job.statements| && IdsOf(job.statements[..k]) <= entities
    requires HoldsAbout(e, job, k)
    ensures HoldsPrefix(Written(e, job.statements[k], entities), job, k + 1)
  {
    hide MergeMembers, Matched, IdsOf, RowsOf;
    var ss := job.statements;
    var s := ss[k];
    assert ss[..k + 1] == ss[..k] + [s];
    RowsAppend(ss[..k], s);
    var before := MergeMembers(map[], RowsOf(ss[..k]));
    if s.MergeRows? {
      AllMatched(s.rows, entities);
      MergeAppend(map[], RowsOf(ss[..k]), s.rows);
      RowsAreDistinct(job, k);
      MergeTwice(before, s.rows);
    } else {
      assert RowsOf(ss[..k + 1]) == RowsOf(ss[..k]);
    }
  }

  // Preservation.

  /** A change confined to stages of one identity. */
  predicate Confined(db: Store, db': Store, own: string) {
    && db.entities <= db'.entities
    && (forall i | i in db.entries && !IsStage(db.entries[i], own) ::
          i in db'.entries && db'.entries[i] == db.entries[i])
    && (forall i | i in db'.entries && !IsStage(db'.entries[i], own) ::
          i in db.entries && db'.entries[i] == db.entries[i])
  }

  /** Nothing visible is lost or replaced by an earlier observation. */
  ghost predicate NoEarlier(db: Store, db': Store) {
    forall i | i in db.entries && db.entries[i].role == Snapshot ::
      exists j :: j in db'.entries && Supersedes(db'.entries[j], db.entries[i])
  }

  predicate Supersedes(later: Entry, earlier: Entry) {
    && later.role == Snapshot && later.key == earlier.key
    && (earlier.observed.Some? ==> later.observed.Some? && earlier.observed.value <= later.observed.value)
  }

  lemma ConfinedKeepsVisible(db: Store, db': Store, own: string, jobs: seq<Job>, initial: set<Entry>)
    requires Confined(db, db', own) && UniqueSnapshots(db) && VisibleComplete(db, jobs, initial)
    ensures UniqueSnapshots(db') && VisibleComplete(db', jobs, initial) && NoEarlier(db, db')
  {
    hide IsPublication;
    forall i | i in db.entries && db.entries[i].role == Snapshot
      ensures i in db'.entries && Supersedes(db'.entries[i], db.entries[i])
    {
    }
  }

  lemma ConfinedKeepsOthers(db: Store, db': Store, own: string, job: Job, at: Position)
    requires Confined(db, db', own) && own != job.stage && WriterOk(db, job, at)
    ensures WriterOk(db', job, at)
  {
    hide HoldsAbout;
  }

  lemma ApplyIsConfined(db: Store, stage: string, s: Statement, newId: nat)
    requires newId !in db.entries
    ensures Confined(db, Apply(db, stage, s, newId), stage)
  {
    hide MergeMembers, Matched;
  }

  lemma CleanIsConfined(db: Store, db': Store, key: string, after: Position)
    requires CleanStep(db, db', key, after)
    ensures Confined(db, db', key)
  {
  }

  lemma WriteKeepsOwn(job: Job, db: Store, k: nat, newId: nat)
    requires IsJob(job) && k < |job.statements| && newId !in db.entries && WriterOk(db, job, At(k))
    ensures WriterOk(Apply(db, job.stage, job.statements[k], newId), job, At(k))
    ensures WriterOk(Apply(db, job.stage, job.statements[k], newId), job, At(k + 1))
  {
    StageAdvances(job, db, k, newId);
    EntitiesAdvance(job, db, k, newId);
    HoldsEither(job, k);
    hide Apply, IsJob, IdsOf, HoldsAbout, HoldsPrefix;
  }

  /** One more statement takes every stage of the job to the state after it, whether it had run before or not. */
  lemma StageAdvances(job: Job, db: Store, k: nat, newId: nat)
    requires IsJob(job) && k < |job.statements| && newId !in db.entries && WriterOk(db, job, At(k))
    ensures var db' := Apply(db, job.stage, job.statements[k], newId);
            forall i | i in Stages(db', job.stage) :: HoldsPrefix(db'.entries[i], job, k + 1)
  {
    hide MergeMembers, Matched, RowsOf, IdsOf, HoldsPrefix;
    var s := job.statements[k];
    var db' := Apply(db, job.stage, s, newId);
    forall i | i in Stages(db', job.stage)
      ensures HoldsPrefix(db'.entries[i], job, k + 1)
    {
      if k == 0 {
        CreatedHolds(job, db, db', i, newId);
      } else {
        assert s != Create;
        assert i in Stages(db, job.stage) && db'.entries[i] == Written(db.entries[i], s, db.entities);
        WriteAdvances(job, k, db.entries[i], db.entities);
      }
    }
  }

  lemma EntitiesAdvance(job: Job, db: Store, k: nat, newId: nat)
    requires k < |job.statements| && IdsOf(job.statements[..k]) <= db.entities
    ensures var db' := Apply(db, job.stage, job.statements[k], newId);
            db.entities <= db'.entities && IdsOf(job.statements[..k + 1]) <= db'.entities
  {
    hide IdsOf, RowsOf, EdgesOf, MergeMembers, Matched;
    assert job.statements[..k + 1] == job.statements[..k] + [job.statements[k]];
    RowsAppend(job.statements[..k], job.statements[k]);
  }

  lemma HoldsEither(job: Job, k: nat)
    requires k < |job.statements|
    ensures forall e: Entry :: HoldsPrefix(e, job, k + 1) ==> HoldsAbout(e, job, k) && HoldsAbout(e, job, k + 1)
  {
    forall e: Entry | HoldsPrefix(e, job, k + 1)
      ensures HoldsAbout(e, job, k) && HoldsAbout(e, job, k + 1)
    {
    }
  }

  lemma CreatedHolds(job: Job, db: Store, db': Store, i: nat, newId: nat)
    requires IsJob(job) && newId !in db.entries && WriterOk(db, job, At(0))
    requires db' == Apply(db, job.stage, Create, newId) && i in Stages(db', job.stage)
    ensures HoldsPrefix(db'.entries[i], job, 1)
  {
    RowsAppend([], Create);
    assert job.statements[..1] == [] + [Create];
    assert job.statements[..0] == [];
  }

  /** Activation publishes complete stages only, and never an earlier observation. */
  lemma SwapKeepsVisible(jobs: seq<Job>, initial: set<Entry>, w: nat, db: Store, pick: nat)
    requires w < |jobs| && IsJob(jobs[w]) && WriterOk(db, jobs[w], At(|jobs[w].statements|))
    requires UniqueSnapshots(db) && VisibleComplete(db, jobs, initial)
    requires var outcome := Activation(db, jobs[w], pick); outcome.Returned?
    ensures var db' := Activation(db, jobs[w], pick).db;
            UniqueSnapshots(db') && VisibleComplete(db', jobs, initial) && NoEarlier(db, db')
  {
    hide HoldsAbout;
    var job := jobs[w];
    var db' := Activation(db, job, pick).db;
    if db' != db {
      assert db' == Swap(db, job);
      forall i | i in db'.entries && db'.entries[i].role == Snapshot
        ensures IsPublication(db'.entries[i], jobs, initial)
      {
        if IsStage(db.entries[i], job.stage) {
          HoldsAll(db.entries[i], job);
          assert IsCompleteProjection(db'.entries[i], job);
        } else {
          assert db'.entries[i] == db.entries[i];
        }
      }
      forall i | i in db.entries && db.entries[i].role == Snapshot
        ensures exists j :: j in db'.entries && Supersedes(db'.entries[j], db.entries[i])
      {
        if db.entries[i].key == job.sha {
          assert i in Snapshots(db, job.sha);
          assert pick in db'.entries && Supersedes(db'.entries[pick], db.entries[i]);
        } else {
          assert db'.entries[i] == db.entries[i];
          assert Supersedes(db'.entries[i], db.entries[i]);
        }
      }
    } else {
      forall i | i in db.entries && db.entries[i].role == Snapshot
        ensures i in db'.entries && Supersedes(db'.entries[i], db.entries[i])
      {
      }
    }
  }

  lemma SwapKeepsWriters(jobs: seq<Job>, w: nat, v: nat, db: Store, pick: nat, at: Position)
    requires FreshIdentities(jobs) && w < |jobs| && v < |jobs| && WriterOk(db, jobs[v], at)
    requires var outcome := Activation(db, jobs[w], pick); outcome.Returned?
    ensures WriterOk(Activation(db, jobs[w], pick).db, jobs[v], at)
  {
    hide HoldsAbout;
    var job := jobs[w];
    var db' := Activation(db, job, pick).db;
    if db' != db && at.At? {
      forall i | i in Stages(db', jobs[v].stage)
        ensures i in Stages(db, jobs[v].stage) && db'.entries[i] == db.entries[i]
      {
        assert db'.entries[i] == Swapped(db.entries[i], job);
      }
    }
  }

  lemma StepKeepsInv(jobs: seq<Job>, initial: set<Entry>, s: System, s': System)
    requires FreshIdentities(jobs) && (forall w | 0 <= w < |jobs| :: IsJob(jobs[w]))
    requires Inv(jobs, initial, s) && Step(jobs, s, s')
    ensures Inv(jobs, initial, s') && NoEarlier(s.db, s'.db)
  {
    hide UniqueSnapshots, VisibleComplete, WriterOk, NoEarlier, Confined, IsJob, CleanStep, Apply, Activation;
    var w: nat :| w < |jobs| && s'.at == s.at[w := s'.at[w]] &&
      match s.at[w]
      case At(k) =>
        (if k < |jobs[w].statements| then WriteStep(jobs[w], s.db, s'.db, k, s'.at[w])
        else ActivateStep(jobs[w], s.db, s'.db, k, s'.at[w]))
      case Cleaning(key) => CleanStep(s.db, s'.db, key, s'.at[w])
      case Gone => false;
    WriterSane(s.db, jobs[w], s.at[w]);
    match s.at[w] {
      case At(k) =>
        if k < |jobs[w].statements| {
          WriteStepKeepsInv(jobs, initial, s, s', w, k);
        } else {
          ActivateStepKeepsInv(jobs, initial, s, s', w, k);
        }
      case Cleaning(key) =>
        CleanStepKeepsInv(jobs, initial, s, s', w, key);
    }
  }

  lemma WriterSane(db: Store, job: Job, at: Position)
    requires WriterOk(db, job, at)
    ensures at.At? ==> at.k <= |job.statements|
    ensures at.Cleaning? ==> at.key == job.stage || at.key == job.retired
    ensures WriterOk(db, job, Gone) && WriterOk(db, job, Cleaning(job.stage))
            && WriterOk(db, job, Cleaning(job.retired))
  {
  }

  lemma Unchanged(db: Store)
    ensures NoEarlier(db, db)
  {
    forall i | i in db.entries && db.entries[i].role == Snapshot
      ensures Supersedes(db.entries[i], db.entries[i])
    {
    }
  }

  lemma WriteStepKeepsInv(jobs: seq<Job>, initial: set<Entry>, s: System, s': System, w: nat, k: nat)
    requires FreshIdentities(jobs) && (forall w | 0 <= w < |jobs| :: IsJob(jobs[w]))
    requires Inv(jobs, initial, s) && w < |jobs| && |s'.at| == |jobs| && s'.at == s.at[w := s'.at[w]]
    requires s.at[w] == At(k) && k < |jobs[w].statements| && WriteStep(jobs[w], s.db, s'.db, k, s'.at[w])
    ensures Inv(jobs, initial, s') && NoEarlier(s.db, s'.db)
  {
    hide UniqueSnapshots, VisibleComplete, WriterOk, NoEarlier, Confined, IsJob, Apply;
    var job := jobs[w];
    WriterSane(s.db, job, s.at[w]);
    Unchanged(s.db);
    if newId :| newId !in s.db.entries && s'.db == Apply(s.db, job.stage, job.statements[k], newId)
                && (s'.at[w] == At(k + 1) || Unacknowledged(job, At(k), s'.at[w])) {
      ApplyIsConfined(s.db, job.stage, job.statements[k], newId);
      ConfinedKeepsVisible(s.db, s'.db, job.stage, jobs, initial);
      WriteKeepsOwn(job, s.db, k, newId);
      WriterSane(s'.db, job, At(k));
      forall v | 0 <= v < |jobs| && v != w
        ensures WriterOk(s'.db, jobs[v], s'.at[v])
      {
        ConfinedKeepsOthers(s.db, s'.db, job.stage, jobs[v], s.at[v]);
      }
    }
  }

  lemma ActivateStepKeepsInv(jobs: seq<Job>, initial: set<Entry>, s: System, s': System, w: nat, k: nat)
    requires FreshIdentities(jobs) && (forall w | 0 <= w < |jobs| :: IsJob(jobs[w]))
    requires Inv(jobs, initial, s) && w < |jobs| && |s'.at| == |jobs| && s'.at == s.at[w := s'.at[w]]
    requires s.at[w] == At(k) && k == |jobs[w].statements| && ActivateStep(jobs[w], s.db, s'.db, k, s'.at[w])
    ensures Inv(jobs, initial, s') && NoEarlier(s.db, s'.db)
  {
    hide UniqueSnapshots, VisibleComplete, WriterOk, NoEarlier, IsJob, Activation;
    var job := jobs[w];
    WriterSane(s.db, job, s.at[w]);
    Unchanged(s.db);
    if pick :| var outcome := Activation(s.db, job, pick);
               && outcome.Returned? && s'.db == outcome.db
               && (s'.at[w] == Cleaning(if outcome.published then job.retired else job.stage)
                   || Unacknowledged(job, At(k), s'.at[w])) {
      SwapKeepsVisible(jobs, initial, w, s.db, pick);
      forall v | 0 <= v < |jobs|
        ensures WriterOk(s'.db, jobs[v], s.at[v])
      {
        SwapKeepsWriters(jobs, w, v, s.db, pick, s.at[v]);
      }
      WriterSane(s'.db, job, s.at[w]);
    }
  }

  lemma CleanStepKeepsInv(jobs: seq<Job>, initial: set<Entry>, s: System, s': System, w: nat, key: string)
    requires FreshIdentities(jobs)
    requires Inv(jobs, initial, s) && w < |jobs| && |s'.at| == |jobs| && s'.at == s.at[w := s'.at[w]]
    requires s.at[w] == Cleaning(key) && CleanStep(s.db, s'.db, key, s'.at[w])
    ensures Inv(jobs, initial, s') && NoEarlier(s.db, s'.db)
  {
    hide UniqueSnapshots, VisibleComplete, NoEarlier, Confined, HoldsAbout;
    WriterSane(s.db, jobs[w], s.at[w]);
    CleanIsConfined(s.db, s'.db, key, s'.at[w]);
    ConfinedKeepsVisible(s.db, s'.db, key, jobs, initial);
    forall v | 0 <= v < |jobs| && v != w
      ensures WriterOk(s'.db, jobs[v], s'.at[v])
    {
      ConfinedKeepsOthers(s.db, s'.db, key, jobs[v], s.at[v]);
    }
  }

  // Whole runs.

  ghost predicate IsRun(jobs: seq<Job>, run: seq<System>) {
    && |run| > 0 && Init(jobs, run[0])
    && forall i, j | 0 <= i && j == i + 1 < |run| :: Step(jobs, run[i], run[j])
  }

  function VisibleEntries(db: Store): set<Entry> {
    set i | i in db.entries && db.entries[i].role == Snapshot :: db.entries[i]
  }

  lemma InitIsInv(jobs: seq<Job>, s: System)
    requires Init(jobs, s)
    ensures Inv(jobs, VisibleEntries(s.db), s)
  {
    forall w | 0 <= w < |jobs|
      ensures WriterOk(s.db, jobs[w], s.at[w])
    {
      assert jobs[w].statements[..0] == [];
    }
  }

  lemma {:induction false} RunKeepsInv(jobs: seq<Job>, run: seq<System>, i: nat)
    requires FreshIdentities(jobs) && (forall w | 0 <= w < |jobs| :: IsJob(jobs[w]))
    requires IsRun(jobs, run) && i < |run|
    ensures Inv(jobs, VisibleEntries(run[0].db), run[i])
  {
    hide Inv, Step, Init;
    if i == 0 {
      InitIsInv(jobs, run[0]);
    } else {
      RunKeepsInv(jobs, run, i - 1);
      StepKeepsInv(jobs, VisibleEntries(run[0].db), run[i - 1], run[i]);
    }
  }

  lemma NoEarlierTransitive(a: Store, b: Store, c: Store)
    requires NoEarlier(a, b) && NoEarlier(b, c)
    ensures NoEarlier(a, c)
  {
    forall i | i in a.entries && a.entries[i].role == Snapshot
      ensures exists j :: j in c.entries && Supersedes(c.entries[j], a.entries[i])
    {
      var k :| k in b.entries && Supersedes(b.entries[k], a.entries[i]);
      var j :| j in c.entries && Supersedes(c.entries[j], b.entries[k]);
      assert Supersedes(c.entries[j], a.entries[i]);
    }
  }

  /**
   In every run of concurrent writers, at every moment: each visible snapshot is one complete projection
   (or was visible before the run), there is at most one for a receipt, and nothing visible is ever lost or
   replaced by an earlier observation.
   */
  lemma {:induction false} PublicationIsSafe(jobs: seq<Job>, run: seq<System>, i: nat, j: nat)
    requires FreshIdentities(jobs) && (forall w | 0 <= w < |jobs| :: IsJob(jobs[w]))
    requires IsRun(jobs, run) && i <= j < |run|
    ensures VisibleComplete(run[j].db, jobs, VisibleEntries(run[0].db))
    ensures UniqueSnapshots(run[j].db)
    ensures NoEarlier(run[i].db, run[j].db)
    decreases j
  {
    hide Step, Init, NoEarlier, VisibleComplete;
    RunKeepsInv(jobs, run, j);
    if i == j {
      Unchanged(run[j].db);
    } else {
      PublicationIsSafe(jobs, run, i, j - 1);
      RunKeepsInv(jobs, run, j - 1);
      StepKeepsInv(jobs, VisibleEntries(run[0].db), run[j - 1], run[j]);
      NoEarlierTransitive(run[i].db, run[j - 1].db, run[j].db);
    }
  }

  // Retries after the swap, while other writers go on.

  /** All statements before the activation are behind this writer: it creates no stage any more. */
  predicate PastItsStatements(job: Job, at: Position) {
    at.At? ==> at.k >= |job.statements|
  }

  /** The swap has committed: nothing is hidden under the stage's identity any more. */
  predicate IsSwapped(jobs: seq<Job>, w: nat, s: System)
    requires w < |jobs|
  {
    |s.at| == |jobs| && PastItsStatements(jobs[w], s.at[w]) && Stages(s.db, jobs[w].stage) == {}
  }

  /** A publishing activation by `job`. */
  ghost predicate Publishes(job: Job, db: Store, db': Store) {
    Stages(db, job.stage) != {} && exists pick :: Activation(db, job, pick) == Returned(db', true)
  }

  /** Another writer of the same receipt publishes in this step. */
  ghost predicate Replaces(jobs: seq<Job>, w: nat, db: Store, db': Store)
    requires w < |jobs|
  {
    exists v | 0 <= v < |jobs| && v != w && jobs[v].sha == jobs[w].sha :: Publishes(jobs[v], db, db')
  }

  /** What a step of writer `v` can do to the store. */
  ghost predicate Effect(job: Job, at: Position, db: Store, db': Store) {
    || db' == db
    || (!PastItsStatements(job, at) && Confined(db, db', job.stage))
    || (at.Cleaning? && Confined(db, db', at.key) && Stages(db', at.key) <= Stages(db, at.key))
    || (PastItsStatements(job, at) && Publishes(job, db, db'))
  }

  lemma StepHasEffect(jobs: seq<Job>, s: System, s': System) returns (v: nat)
    requires Step(jobs, s, s')
    ensures v < |jobs| && s'.at == s.at[v := s'.at[v]] && Effect(jobs[v], s.at[v], s.db, s'.db)
    ensures PastItsStatements(jobs[v], s.at[v]) ==> PastItsStatements(jobs[v], s'.at[v])
    ensures s.at[v].Cleaning? ==> s'.at[v] == s.at[v] || s'.at[v] == Gone
    ensures !s.at[v].Gone?
  {
    hide Apply, UniqueSnapshots, Swap, IsNewer, IsPublished, Confined, CleanStep, Stages;
    v :| v < |jobs| && s'.at == s.at[v := s'.at[v]] &&
      match s.at[v]
      case At(k) =>
        (if k < |jobs[v].statements| then WriteStep(jobs[v], s.db, s'.db, k, s'.at[v])
        else ActivateStep(jobs[v], s.db, s'.db, k, s'.at[v]))
      case Cleaning(key) => CleanStep(s.db, s'.db, key, s'.at[v])
      case Gone => false;
    match s.at[v] {
      case At(k) =>
        if k < |jobs[v].statements| {
          if newId :| newId !in s.db.entries && s'.db == Apply(s.db, jobs[v].stage, jobs[v].statements[k], newId) {
            ApplyIsConfined(s.db, jobs[v].stage, jobs[v].statements[k], newId);
          }
        }
      case Cleaning(key) =>
        CleanIsConfined(s.db, s'.db, key, s'.at[v]);
        CleanAddsNone(s.db, s'.db, key, s'.at[v]);
    }
  }

  lemma CleanAddsNone(db: Store, db': Store, key: string, after: Position)
    requires CleanStep(db, db', key, after)
    ensures Stages(db', key) <= Stages(db, key) && (after == Cleaning(key) || after == Gone)
  {
  }

  lemma ConfinedKeepsPublished(db: Store, db': Store, own: string, sha: string, stage: string)
    requires Confined(db, db', own)
    ensures IsPublished(db', sha, stage) <==> IsPublished(db, sha, stage)
    ensures own != stage ==> Stages(db', stage) == Stages(db, stage)
  {
    if IsPublished(db, sha, stage) {
      var i :| i in Snapshots(db, sha) && db.entries[i].projection == Some(stage);
      assert i in Snapshots(db', sha);
    }
    if IsPublished(db', sha, stage) {
      var i :| i in Snapshots(db', sha) && db'.entries[i].projection == Some(stage);
      assert i in Snapshots(db, sha);
    }
  }

  lemma ConfinedNeverPublishes(db: Store, db': Store, own: string, job: Job)
    requires Confined(db, db', own)
    ensures !Publishes(job, db, db')
  {
    hide UniqueSnapshots, IsNewer, IsPublished;
  }

  lemma SwapReplaces(job: Job, db: Store, db': Store, sha: string, stage: string)
    requires Publishes(job, db, db') && Stages(db, stage) == {} && job.retired != stage
    ensures Stages(db', stage) == {}
    ensures IsPublished(db', sha, stage) <==> IsPublished(db, sha, stage) && job.sha != sha
  {
    assert db' == Swap(db, job) && job.stage != stage;
    if IsPublished(db, sha, stage) && job.sha != sha {
      var i :| i in Snapshots(db, sha) && db.entries[i].projection == Some(stage);
      assert i in Snapshots(db', sha);
    }
    if IsPublished(db', sha, stage) {
      var i :| i in Snapshots(db', sha) && db'.entries[i].projection == Some(stage);
      assert db'.entries[i] == Swapped(db.entries[i], job);
      assert i in Snapshots(db, sha);
    }
  }

  lemma PublisherIsUnique(jobs: seq<Job>, u: nat, v: nat, db: Store, db': Store)
    requires u < |jobs| && v < |jobs| && FreshIdentities(jobs)
    requires Publishes(jobs[u], db, db') && Publishes(jobs[v], db, db')
    ensures u == v
  {
    var i :| i in Stages(db, jobs[u].stage);
    assert db'.entries[i] == Swapped(db.entries[i], jobs[u]) == Swapped(db.entries[i], jobs[v]);
  }

  lemma UnchangedIsConfined(db: Store, own: string)
    ensures Confined(db, db, own)
  {
  }

  /** After the swap a step leaves the stage empty, and ends the publication exactly when another writer replaces it. */
  lemma SwappedStays(jobs: seq<Job>, w: nat, s: System, s': System)
    requires FreshIdentities(jobs) && w < |jobs| && Step(jobs, s, s') && IsSwapped(jobs, w, s)
    ensures IsSwapped(jobs, w, s')
    ensures IsPublished(s'.db, jobs[w].sha, jobs[w].stage) <==>
            IsPublished(s.db, jobs[w].sha, jobs[w].stage) && !Replaces(jobs, w, s.db, s'.db)
  {
    hide Step, IsPublished, Confined, Publishes, Stages;
    var v := StepHasEffect(jobs, s, s');
    var job := jobs[v];
    if Publishes(job, s.db, s'.db) {
      PublisherHasStage(job, s.db, s'.db);
      SwapReplaces(job, s.db, s'.db, jobs[w].sha, jobs[w].stage);
      forall u | 0 <= u < |jobs| && Publishes(jobs[u], s.db, s'.db)
        ensures u == v
      {
        PublisherIsUnique(jobs, u, v, s.db, s'.db);
      }
    } else {
      var own := if s.at[v].Cleaning? then s.at[v].key else job.stage;
      UnchangedIsConfined(s.db, own);
      ConfinedKeepsPublished(s.db, s'.db, own, jobs[w].sha, jobs[w].stage);
      forall u | 0 <= u < |jobs|
        ensures !Publishes(jobs[u], s.db, s'.db)
      {
        ConfinedNeverPublishes(s.db, s'.db, own, jobs[u]);
      }
    }
  }

  lemma PublisherHasStage(job: Job, db: Store, db': Store)
    requires Publishes(job, db, db')
    ensures Stages(db, job.stage) != {}
  {
  }

  /** An activation that publishes leaves nothing under the stage's identity, and its projection is the visible one. */
  lemma ActivationSwaps(db: Store, job: Job, pick: nat)
    requires job.stage != job.retired && Activation(db, job, pick).Returned? && Activation(db, job, pick).published
    ensures var db' := Activation(db, job, pick).db;
            Stages(db', job.stage) == {} && IsPublished(db', job.sha, job.stage)
  {
    var db' := Activation(db, job, pick).db;
    if Stages(db, job.stage) != {} {
      assert db' == Swap(db, job);
      assert pick in Snapshots(db', job.sha);
    }
  }

  /** Without a stage an activation changes nothing and tells whether the stage's projection is visible. */
  lemma EmptyActivation(db: Store, job: Job, pick: nat)
    requires Stages(db, job.stage) == {}
    ensures Activation(db, job, pick) == Returned(db, IsPublished(db, job.sha, job.stage))
  {
  }

  /** No other writer of the receipt publishes between two moments of a run. */
  ghost predicate KeepsItsPlace(jobs: seq<Job>, run: seq<System>, w: nat, i: nat, j: nat)
    requires w < |jobs| && i <= j < |run|
  {
    forall k, l | i <= k && l == k + 1 <= j :: !Replaces(jobs, w, run[k].db, run[l].db)
  }

  lemma {:induction false} SwappedSince(jobs: seq<Job>, run: seq<System>, w: nat, i: nat, j: nat)
    requires FreshIdentities(jobs) && IsRun(jobs, run) && w < |jobs| && i <= j < |run| && IsSwapped(jobs, w, run[i])
    ensures IsSwapped(jobs, w, run[j])
    ensures IsPublished(run[j].db, jobs[w].sha, jobs[w].stage) <==>
            IsPublished(run[i].db, jobs[w].sha, jobs[w].stage) && KeepsItsPlace(jobs, run, w, i, j)
    decreases j
  {
    hide Step, Init, IsSwapped, IsPublished, Replaces, FreshIdentities;
    if i < j {
      SwappedSince(jobs, run, w, i, j - 1);
      SwappedStays(jobs, w, run[j - 1], run[j]);
    }
  }

  /**
   Once an activation has published, in every run every later retry leaves the store as it finds it.  It repeats the
   answer true exactly as long as no other writer of the receipt has published in between.
   */
  lemma ActivationIsIdempotent(jobs: seq<Job>, run: seq<System>, w: nat, i: nat, j: nat, pick: nat, again: nat)
    requires FreshIdentities(jobs) && IsRun(jobs, run) && w < |jobs| && i < j < |run|
    requires |run[i].at| == |jobs| && PastItsStatements(jobs[w], run[i].at[w])
    requires Activation(run[i].db, jobs[w], pick) == Returned(run[i + 1].db, true)
    ensures Activation(run[j].db, jobs[w], again) == Returned(run[j].db, KeepsItsPlace(jobs, run, w, i + 1, j))
  {
    hide Activation, IsPublished, Replaces, Step, Init, KeepsItsPlace;
    var v := StepHasEffect(jobs, run[i], run[i + 1]);
    assert Step(jobs, run[i], run[i + 1]) && jobs[w].stage != jobs[w].retired;
    StepSizes(jobs, run[i], run[i + 1]);
    ActivationSwaps(run[i].db, jobs[w], pick);
    SwappedSince(jobs, run, w, i + 1, j);
    EmptyActivation(run[j].db, jobs[w], again);
  }

  lemma StepSizes(jobs: seq<Job>, s: System, s': System)
    requires Step(jobs, s, s')
    ensures |s.at| == |s'.at| == |jobs|
  {
  }

  /** A writer that did not hear that it published cleans up its stage, and its retired predecessor stays for good. */
  lemma {:induction false} RetiredStays(jobs: seq<Job>, run: seq<System>, w: nat, i: nat, j: nat)
    requires FreshIdentities(jobs) && (forall v | 0 <= v < |jobs| :: IsJob(jobs[v]))
    requires IsRun(jobs, run) && w < |jobs| && i <= j < |run|
    requires |run[i].at| == |jobs| && run[i].at[w] in {Cleaning(jobs[w].stage), Gone}
    ensures |run[j].at| == |jobs| && run[j].at[w] in {Cleaning(jobs[w].stage), Gone}
    ensures forall e | e in Stages(run[i].db, jobs[w].retired) ::
              e in Stages(run[j].db, jobs[w].retired) && run[j].db.entries[e] == run[i].db.entries[e]
    decreases j
  {
    hide Step, Init, IsJob;
    if i < j {
      RetiredStays(jobs, run, w, i, j - 1);
      RunKeepsInv(jobs, run, j - 1);
      RetiredStaysOnce(jobs, VisibleEntries(run[0].db), w, run[j - 1], run[j]);
    }
  }

  lemma RetiredStaysOnce(jobs: seq<Job>, initial: set<Entry>, w: nat, s: System, s': System)
    requires FreshIdentities(jobs) && w < |jobs| && Inv(jobs, initial, s) && Step(jobs, s, s')
    requires s.at[w] in {Cleaning(jobs[w].stage), Gone}
    ensures |s'.at| == |jobs| && s'.at[w] in {Cleaning(jobs[w].stage), Gone}
    ensures forall e | e in Stages(s.db, jobs[w].retired) ::
              e in Stages(s'.db, jobs[w].retired) && s'.db.entries[e] == s.db.entries[e]
  {
    hide Step, HoldsAbout, IsNewer, UniqueSnapshots, VisibleComplete;
    StepSizes(jobs, s, s');
    var v := StepHasEffect(jobs, s, s');
    WriterSane(s.db, jobs[v], s.at[v]);
  }

  /** One finished stage is published exactly when nothing newer is visible; it then is the receipt's only snapshot. */
  lemma FinishedStageActivates(db: Store, job: Job, p: nat)
    requires UniqueSnapshots(db) && job.stage != job.retired
    requires Stages(db, job.stage) == {p} && db.entries[p].observed == Some(job.observed)
    ensures Activation(db, job, p) ==
            if IsNewer(db, job.sha, job.observed) then Returned(db, false) else Returned(Swap(db, job), true)
    ensures Snapshots(Swap(db, job), job.sha) == {p} && Swap(db, job).entries[p].members == db.entries[p].members
  {
    var db' := Swap(db, job);
    assert p in Stages(db, job.stage);
    forall i | i in db'.entries && db'.entries[i].role == Snapshot
      ensures i == p || (db'.entries[i] == db.entries[i] && db.entries[i].key != job.sha)
    {
      assert IsStage(db.entries[i], job.stage) ==> i in Stages(db, job.stage);
    }
  }

  /** A stage created twice by a retried transaction can never be published: the constraint rolls it back. */
  lemma DuplicateStageIsRefused(db: Store, job: Job, p: nat, q: nat, pick: nat)
    requires p != q && p in Stages(db, job.stage) && q in Stages(db, job.stage)
    ensures var outcome := Activation(db, job, pick);
            outcome.Raised? || (!outcome.published && outcome.db == db)
  {
    var db' := Swap(db, job);
    assert db'.entries[p].role == db'.entries[q].role == Snapshot;
    assert db'.entries[p].key == db'.entries[q].key;
  }

  /** Cleaning up leaves every visible snapshot, memberships included, as it is. */
  lemma CleanupSparesVisible(db: Store, db': Store, key: string, after: Position)
    requires CleanStep(db, db', key, after)
    ensures forall i | i in db.entries && db.entries[i].role == Snapshot ::
              i in db'.entries && db'.entries[i] == db.entries[i]
    ensures VisibleEntries(db') == VisibleEntries(db)
  {
    CleanIsConfined(db, db', key, after);
  }
}

/** The writer's own code, run against a store whose transactions fail as `fates` tells. */
module SnapshotWriter {
  import opened Options
  import opened GraphProjection
  import opened SnapshotStore
  import opened SnapshotPublication

  /** What becomes of one attempt of a transaction: committed or not, and what the driver does next. */
  datatype Fate = Acknowledged | LostThenRetried(committed: bool) | LostThenRaised(committed: bool)

  method FreshId(ids: set<nat>) returns (n: nat)
    ensures n !in ids
  {
    n := 0;
    var rest := ids;
    while rest != {}
      invariant rest <= ids && forall x | x in ids && x !in rest :: x < n
      decreases rest
    {
      var i :| i in rest;
      rest := rest - {i};
      if n <= i {
        n := i + 1;
      }
    }
  }

  method AtMost(members: set<string>, limit: nat) returns (some: set<string>)
    requires members != {} && limit > 0
    ensures some <= members && 0 < |some| <= limit
  {
    some := {};
    while |some| < limit && some != members
      invariant some <= members && |some| <= limit
      invariant some == {} ==> |some| < limit
      decreases members - some
    {
      assert members - some != {};
      var m :| m in members - some;
      some := some + {m};
    }
  }

  function StageMembers(db: Store, key: string): set<string> {
    set i, id | i in Stages(db, key) && id in db.entries[i].members :: id
  }

  function Visible(db: Store): map<nat, Entry> {
    map i | i in db.entries && db.entries[i].role == Snapshot :: db.entries[i]
  }

  /** How often the first transaction commits. */
  function Commits(fates: seq<Fate>): nat {
    if fates == [] then 1
    else
      match fates[0]
      case Acknowledged => 1
      case LostThenRetried(committed) => (if committed then 1 else 0) + Commits(fates[1..])
      case LostThenRaised(committed) => if committed then 1 else 0
  }

  /** The first `n` transactions are acknowledged in the end. */
  predicate Succeeds(fates: seq<Fate>, n: nat)
    decreases |fates|
  {
    n == 0 || fates == []
    || match fates[0]
       case Acknowledged => Succeeds(fates[1..], n - 1)
       case LostThenRetried(_) => Succeeds(fates[1..], n)
       case LostThenRaised(_) => false
  }

  /** The first transaction and `n` more are acknowledged in the end. */
  predicate SucceedsBeyond(fates: seq<Fate>, n: nat) {
    Succeeds(fates, n + 1)
  }

  /** What `given` leaves after its first transaction, if that is acknowledged in the end. */
  ghost predicate Leaves(given: seq<Fate>, ok: bool, rest: seq<Fate>) {
    forall n: nat :: SucceedsBeyond(given, n) <==> ok && Succeeds(rest, n)
  }

  lemma FirstFate(given: seq<Fate>, fate: Fate, left: seq<Fate>, ok: bool, rest: seq<Fate>)
    requires if given == [] then left == [] && fate == Acknowledged else left == given[1..] && fate == given[0]
    ensures fate.Acknowledged? ==> Leaves(given, true, left)
    ensures fate.LostThenRaised? ==> Leaves(given, false, rest)
    ensures fate.LostThenRetried? && Leaves(left, ok, rest) ==> Leaves(given, ok, rest)
    ensures Commits(given) == (if fate.Acknowledged? || fate.committed then 1 else 0)
                              + (if fate.LostThenRetried? then Commits(left) else 0)
  {
    forall n: nat
      ensures SucceedsBeyond(given, n) == match fate
                                          case Acknowledged => Succeeds(left, n)
                                          case LostThenRetried(_) => SucceedsBeyond(left, n)
                                          case LostThenRaised(_) => false
    {
    }
  }

  /** `left` is what remains of `start` after `k` acknowledged transactions. */
  ghost predicate IsAfter(start: seq<Fate>, left: seq<Fate>, k: nat) {
    forall n: nat :: Succeeds(start, n + k) <==> Succeeds(left, n)
  }

  lemma NextTransaction(start: seq<Fate>, left: seq<Fate>, k: nat, ok: bool, next: seq<Fate>, total: nat)
    requires IsAfter(start, left, k) && Leaves(left, ok, next) && k <= total
    ensures ok ==> IsAfter(start, next, k + 1) && Succeeds(start, k + 1)
    ensures !ok ==> !Succeeds(start, total + 1)
  {
    NextAfter(start, left, k, ok, next, 0);
    NextAfter(start, left, k, ok, next, total - k);
    forall n: nat
      ensures ok ==> (Succeeds(start, n + (k + 1)) <==> Succeeds(next, n))
    {
      NextAfter(start, left, k, ok, next, n);
    }
  }

  lemma NextAfter(start: seq<Fate>, left: seq<Fate>, k: nat, ok: bool, next: seq<Fate>, n: nat)
    requires IsAfter(start, left, k) && Leaves(left, ok, next)
    ensures Succeeds(start, n + k + 1) <==> ok && Succeeds(next, n)
    ensures Succeeds(next, 0)
  {
    assert SucceedsBeyond(left, n) <==> ok && Succeeds(next, n);
    assert Succeeds(start, (n + 1) + k) <==> Succeeds(left, n + 1);
  }

  lemma LastTransaction(start: seq<Fate>, left: seq<Fate>, k: nat)
    requires IsAfter(start, left, k)
    ensures Succeeds(start, k + 1) <==> Succeeds(left, 1)
  {
    assert Succeeds(start, 1 + k) <==> Succeeds(left, 1);
  }

  /** Every lost transaction is retried. */
  predicate AllRetried(fates: seq<Fate>) {
    forall f | f in fates :: !f.LostThenRaised?
  }

  lemma {:induction false} RetriedSucceeds(fates: seq<Fate>, n: nat)
    requires AllRetried(fates)
    ensures Succeeds(fates, n)
    decreases |fates|
  {
    if n > 0 && fates != [] {
      assert fates[0] in fates;
      RetriedSucceeds(fates[1..], if fates[0].Acknowledged? then n - 1 else n);
    }
  }

  // What one attempt of each transaction does.

  lemma WriteEffect(db: Store, stage: string, s: Statement, newId: nat)
    requires newId !in db.entries
    ensures var db' := Apply(db, stage, s, newId);
            && Visible(db') == Visible(db)
            && Stages(db', stage) == Stages(db, stage) + (if s == Create then {newId} else {})
            && forall other | other != stage :: Stages(db', other) == Stages(db, other)
  {
    hide MergeMembers, Matched;
  }

  lemma ConfinedEffect(db: Store, db': Store, key: string)
    requires Confined(db, db', key)
    ensures Visible(db') == Visible(db)
    ensures forall other | other != key :: Stages(db', other) == Stages(db, other)
  {
  }

  lemma SameNewer(db: Store, db': Store, sha: string, observed: int)
    requires Visible(db) == Visible(db')
    ensures IsNewer(db, sha, observed) <==> IsNewer(db', sha, observed)
  {
    assert forall i :: i in Snapshots(db, sha) <==> i in Visible(db) && Visible(db)[i].key == sha;
    assert forall i :: i in Snapshots(db', sha) <==> i in Visible(db') && Visible(db')[i].key == sha;
    assert forall i | i in Visible(db) :: Visible(db)[i] == db.entries[i];
    assert forall i | i in Visible(db') :: Visible(db')[i] == db'.entries[i];
  }

  predicate IsLater(observed: Option<int>, time: int) {
    observed.Some? && observed.value > time
  }

  lemma NewerIsVisible(db: Store, sha: string, observed: int)
    ensures IsNewer(db, sha, observed) <==>
            exists e :: e in VisibleEntries(db) && e.key == sha && IsLater(e.observed, observed)
  {
    if IsNewer(db, sha, observed) {
      var i :| i in Snapshots(db, sha) && IsLater(db.entries[i].observed, observed);
      assert db.entries[i] in VisibleEntries(db);
    }
    if e :| e in VisibleEntries(db) && e.key == sha && IsLater(e.observed, observed) {
      var i :| i in db.entries && db.entries[i] == e && e.role == Snapshot;
      assert i in Snapshots(db, sha);
    }
  }

  /** Every stage of the job is complete. */
  predicate IsStaged(db: Store, job: Job) {
    forall i | i in Stages(db, job.stage) ::
      db.entries[i].observed == Some(job.observed) && db.entries[i].members == Projection(job.graph)
  }

  /** The answer of an activation over complete stages: a second stage cannot become visible beside the first. */
  function Answer(db: Store, job: Job): Option<bool> {
    if Stages(db, job.stage) == {} then Some(IsPublished(db, job.sha, job.stage))
    else if IsNewer(db, job.sha, job.observed) then Some(false)
    else if |Stages(db, job.stage)| == 1 then Some(true)
    else None
  }

  /** The store after it. */
  function Activated(db: Store, job: Job): Store {
    if Stages(db, job.stage) != {} && Answer(db, job) == Some(true) then Swap(db, job) else db
  }

  lemma ActivationAnswers(db: Store, job: Job, pick: nat)
    requires UniqueSnapshots(db) && job.stage != job.retired && IsStaged(db, job)
    requires Stages(db, job.stage) != {} ==> pick in Stages(db, job.stage)
    ensures match Activation(db, job, pick)
            case Raised => Answer(db, job) == None
            case Returned(db', published) => Answer(db, job) == Some(published) && db' == Activated(db, job)
  {
    var stages := Stages(db, job.stage);
    if stages != {} && !IsNewer(db, job.sha, job.observed) {
      if |stages| == 1 {
        OnlyElement(stages, pick);
        FinishedStageActivates(db, job, pick);
      } else {
        assert |stages - {pick}| > 0;
        var other :| other in stages - {pick};
        DuplicateStageIsRefused(db, job, pick, other, pick);
        DuplicateRaises(db, job, pick);
      }
    }
  }

  lemma OnlyElement(s: set<nat>, x: nat)
    requires |s| == 1 && x in s
    ensures s == {x}
  {
    assert |s - {x}| == 0;
  }

  lemma DuplicateRaises(db: Store, job: Job, pick: nat)
    requires pick in Stages(db, job.stage) && db.entries[pick].observed == Some(job.observed)
    requires !IsNewer(db, job.sha, job.observed)
    ensures Activation(db, job, pick).Raised? || Activation(db, job, pick).published
  {
  }

  /** A repetition gives the same answer and changes nothing more. */
  lemma ActivatedAgain(db: Store, job: Job)
    requires job.stage != job.retired && Answer(db, job).Some? && IsStaged(db, job)
    ensures Answer(Activated(db, job), job) == Answer(db, job)
    ensures Activated(Activated(db, job), job) == Activated(db, job)
    ensures IsStaged(Activated(db, job), job)
  {
    if Activated(db, job) != db {
      var i :| i in Stages(db, job.stage);
      var db' := Swap(db, job);
      assert i in Snapshots(db', job.sha) && db'.entries[i].projection == Some(job.stage);
      assert Stages(db', job.stage) == {};
    }
  }

  function OtherReceipts(visible: map<nat, Entry>, sha: string): map<nat, Entry> {
    map i | i in visible && visible[i].key != sha :: visible[i]
  }

  /** The job's complete projection takes the place of what was visible for its receipt; all else stays. */
  predicate TakesPlace(before: map<nat, Entry>, after: map<nat, Entry>, job: Job) {
    exists i :: i in after && IsCompleteProjection(after[i], job) && after - {i} == OtherReceipts(before, job.sha)
  }

  lemma SwapTakesPlace(db: Store, job: Job)
    requires job.stage != job.retired && IsStaged(db, job) && |Stages(db, job.stage)| == 1
    ensures TakesPlace(Visible(db), Visible(Swap(db, job)), job) && Stages(Swap(db, job), job.stage) == {}
  {
    var i :| i in Stages(db, job.stage);
    OnlyElement(Stages(db, job.stage), i);
    var after := Visible(Swap(db, job));
    assert forall j | j in db.entries :: IsStage(db.entries[j], job.stage) ==> j in Stages(db, job.stage);
    assert i in after && IsCompleteProjection(after[i], job);
    assert after - {i} == OtherReceipts(Visible(db), job.sha);
  }

  lemma NewIsNoStage(db: Store, key: string, newId: nat)
    requires newId !in db.entries
    ensures newId !in Stages(db, key)
  {
  }

  lemma DiscardEffect(db: Store, key: string, victims: set<string>)
    ensures CleanStep(db, Discarded(db, key, victims), key, Cleaning(key))
    ensures StageMembers(Discarded(db, key, victims), key) == StageMembers(db, key) - victims
  {
    var db' := Discarded(db, key, victims);
    assert Stages(db', key) == Stages(db, key);
    forall i, id | i in Stages(db, key)
      ensures id in db'.entries[i].members <==> id in db.entries[i].members && id !in victims
    {
      assert db'.entries[i].members == db.entries[i].members - victims;
    }
  }

  lemma DeleteEffect(db: Store, key: string)
    ensures CleanStep(db, Deleted(db, key), key, Cleaning(key))
    ensures StageMembers(db, key) == {} ==> Stages(Deleted(db, key), key) == {}
  {
    if i :| i in Stages(db, key) && db.entries[i].members != map[] {
      var id :| id in db.entries[i].members;
      assert id in StageMembers(db, key);
    }
  }

  /** The identity that is not cleaned up. */
  function Other(job: Job, key: string): string {
    if key == job.stage then job.retired else job.stage
  }

  /** A cleanup step keeps the invariant and what is visible. */
  lemma CleanUp(job: Job, initial: set<Entry>, before: Store, db: Store, db': Store, key: string)
    requires IsJob(job) && job.stage != job.retired && CleanStep(db, db', key, Cleaning(key))
    requires Inv([job], initial, System(db, [Cleaning(key)])) && NoEarlier(before, db)
    ensures Inv([job], initial, System(db', [Cleaning(key)])) && NoEarlier(before, db')
    ensures Visible(db') == Visible(db)
    ensures key == job.stage || key == job.retired ==> Stages(db', Other(job, key)) == Stages(db, Other(job, key))
  {
    CleanIsConfined(db, db', key, Cleaning(key));
    ConfinedEffect(db, db', key);
    SoleWriterStep(job, db, Cleaning(key), db', Cleaning(key));
    hide Inv, NoEarlier, CleanStep, Visible, Stages, IsJob;
    StepKeepsInv([job], initial, System(db, [Cleaning(key)]), System(db', [Cleaning(key)]));
    NoEarlierTransitive(before, db, db');
  }

  /** The stage is created first, and only then. */
  lemma CreatedFirst(job: Job)
    requires IsJob(job)
    ensures |job.statements| >= 2 && job.statements[0] == Create
    ensures forall k | 0 < k < |job.statements| :: job.statements[k] != Create
  {
  }

  lemma {:induction false} SucceededCommits(fates: seq<Fate>)
    requires Succeeds(fates, 1)
    ensures Commits(fates) > 0
    decreases |fates|
  {
    if fates != [] && fates[0].LostThenRetried? {
      SucceededCommits(fates[1..]);
    }
  }

  /** What the writes leave behind for the activation. */
  lemma StagedAnswer(before: Store, db: Store, job: Job, commits: nat)
    requires Visible(db) == Visible(before) && |Stages(db, job.stage)| == commits > 0
    ensures Answer(db, job) == if IsNewer(before, job.sha, job.observed) then Some(false)
                               else if commits == 1 then Some(true) else None
  {
    SameNewer(before, db, job.sha, job.observed);
  }

  /** What the first `k` statements have changed. */
  ghost predicate IsWritten(job: Job, before: Store, given: seq<Fate>, db: Store, fates: seq<Fate>, k: nat) {
    && NoEarlier(before, db) && Visible(db) == Visible(before)
    && Stages(db, job.retired) == Stages(before, job.retired)
    && (if k == 0 then Stages(db, job.stage) == {} && fates == given
        else |Stages(db, job.stage)| == Commits(given) && Succeeds(given, 1))
    && IsAfter(given, fates, k)
    && (AllRetried(given) ==> AllRetried(fates))
  }

  lemma NothingWritten(job: Job, db: Store, fates: seq<Fate>)
    requires Stages(db, job.stage) == {}
    ensures IsWritten(job, db, fates, db, fates, 0)
  {
    Unchanged(db);
  }

  lemma OneMoreWritten(job: Job, before: Store, given: seq<Fate>, db: Store, fates: seq<Fate>, k: nat,
                       db': Store, ok: bool, fates': seq<Fate>)
    requires IsJob(job) && IsWritten(job, before, given, db, fates, k) && k < |job.statements|
    requires NoEarlier(db, db') && Visible(db') == Visible(db) && Stages(db', job.retired) == Stages(db, job.retired)
    requires |Stages(db', job.stage)| ==
             |Stages(db, job.stage)| + if job.statements[k] == Create then Commits(fates) else 0
    requires Leaves(fates, ok, fates') && (AllRetried(fates) ==> AllRetried(fates'))
    ensures ok ==> IsWritten(job, before, given, db', fates', k + 1)
    ensures !ok ==> !Succeeds(given, |job.statements| + 1)
    ensures NoEarlier(before, db') && Visible(db') == Visible(before)
    ensures Stages(db', job.retired) == Stages(before, job.retired) && (AllRetried(given) ==> AllRetried(fates'))
  {
    CreatedFirst(job);
    hide NoEarlier, Visible, Stages, Commits, Succeeds, Leaves, IsAfter, IsJob;
    NoEarlierTransitive(before, db, db');
    NextTransaction(given, fates, k, ok, fates', |job.statements|);
  }

  lemma WrittenFacts(job: Job, before: Store, given: seq<Fate>, db: Store, fates: seq<Fate>, k: nat)
    requires IsWritten(job, before, given, db, fates, k)
    ensures NoEarlier(before, db) && Visible(db) == Visible(before)
    ensures Stages(db, job.retired) == Stages(before, job.retired) && (AllRetried(given) ==> AllRetried(fates))
  {
  }

  lemma AllWritten(job: Job, before: Store, given: seq<Fate>, db: Store, fates: seq<Fate>)
    requires IsJob(job) && IsWritten(job, before, given, db, fates, |job.statements|)
    ensures |Stages(db, job.stage)| == Commits(given) > 0
    ensures Succeeds(given, |job.statements| + 1) <==> Succeeds(fates, 1)
  {
    CreatedFirst(job);
    SucceededCommits(given);
    LastTransaction(given, fates, |job.statements|);
  }

  /** After all statements the stages are complete. */
  lemma AllStaged(job: Job, initial: set<Entry>, db: Store)
    requires IsJob(job) && Inv([job], initial, System(db, [At(|job.statements|)]))
    ensures IsStaged(db, job) && UniqueSnapshots(db)
  {
    hide IsJob, VisibleComplete;
    var jobs := [job];
    assert WriterOk(db, jobs[0], At(|job.statements|));
    forall i | i in Stages(db, job.stage)
      ensures db.entries[i].observed == Some(job.observed) && db.entries[i].members == Projection(job.graph)
    {
      HoldsAll(db.entries[i], job);
    }
  }

  /** The only writer's transaction is a step of the protocol. */
  lemma SoleWriterStep(job: Job, db: Store, at: Position, db': Store, at': Position)
    requires match at
             case At(k) =>
               (if k < |job.statements| then WriteStep(job, db, db', k, at') else ActivateStep(job, db, db', k, at'))
             case Cleaning(key) => CleanStep(db, db', key, at')
             case Gone => false
    ensures Step([job], System(db, [at]), System(db', [at']))
  {
    hide WriteStep, ActivateStep, CleanStep;
    var s, s' := System(db, [at]), System(db', [at']);
    assert s'.at == s.at[0 := s'.at[0]];
    assert [job][0] == job && s.at[0] == at;
  }

  class Session {
    var db: Store
    var fates: seq<Fate>

    constructor (db: Store, fates: seq<Fate>)
      ensures this.db == db && this.fates == fates
    {
      this.db, this.fates := db, fates;
    }

    method NextFate() returns (fate: Fate)
      modifies this`fates
      ensures if old(fates) == [] then fates == [] && fate == Acknowledged
              else fates == old(fates)[1..] && fate == old(fates)[0]
    {
      if fates == [] {
        fate := Acknowledged;
      } else {
        fate, fates := fates[0], fates[1..];
      }
    }

    /** The activation transaction, statement by statement; a violated constraint rolls it back. */
    method Activate(job: Job) returns (published: Option<bool>)
      requires job.stage != job.retired
      modifies this`db
      ensures exists pick ::
                && (Stages(old(db), job.stage) != {} ==> pick in Stages(old(db), job.stage))
                && match Activation(old(db), job, pick)
                   case Raised => published == None && db == old(db)
                   case Returned(db', answer) => published == Some(answer) && db == db'
    {
      ghost var before := db;
      var ready := Stages(db, job.stage);
      if ready == {} {
        published := Some(exists i :: i in Snapshots(db, job.sha) && db.entries[i].projection == Some(job.stage));
        assert Activation(before, job, 0) == Returned(before, published.value);
        return;
      }
      var pick :| pick in ready;
      if db.entries[pick].observed != Some(job.observed) {
        assert Activation(before, job, pick) == Raised;
        return None;
      }
      var visible := Snapshots(db, job.sha);
      if exists i :: i in visible && db.entries[i].observed.Some? && db.entries[i].observed.value > job.observed {
        assert Activation(before, job, pick) == Returned(before, false);
        return Some(false);
      }
      var retiring := db.(entries := map i | i in db.entries ::
        if IsSnapshot(db.entries[i], job.sha) then db.entries[i].(role := Stage, key := job.retired)
          else db.entries[i]);
      var swapped := retiring.(entries := map i | i in retiring.entries ::
        if IsStage(retiring.entries[i], job.stage)
        then retiring.entries[i].(role := Snapshot, key := job.sha, projection := Some(job.stage))
          else retiring.entries[i]);
      assert swapped == Swap(before, job);
      if !UniqueSnapshots(swapped) {
        assert Activation(before, job, pick) == Raised;
        return None;
      }
      db := swapped;
      published := Some(true);
      assert Activation(before, job, pick) == Returned(db, true);
    }

    /** A store that satisfies the protocol's invariant for `job` alone, at `at`. */
    ghost predicate Ok(job: Job, initial: set<Entry>, at: Position)
      reads this
    {
      Inv([job], initial, System(db, [at]))
    }

    /** One write transaction, retried as the driver does, until it is acknowledged or raises. */
    method ExecuteWrite(job: Job, k: nat, ghost initial: set<Entry>) returns (ok: bool)
      requires IsJob(job) && job.stage != job.retired && k < |job.statements| && Ok(job, initial, At(k))
      modifies this
      ensures Ok(job, initial, if ok then At(k + 1) else Cleaning(job.stage))
      ensures NoEarlier(old(db), db) && Visible(db) == Visible(old(db))
      ensures |Stages(db, job.stage)| ==
              |Stages(old(db), job.stage)| + if job.statements[k] == Create then Commits(old(fates)) else 0
      ensures Stages(db, job.retired) == Stages(old(db), job.retired)
      ensures Leaves(old(fates), ok, fates)
      ensures AllRetried(old(fates)) ==> AllRetried(fates)
      decreases |fates|
    {
      hide Inv, Apply, NoEarlier, IsJob, Stages, Visible, Leaves, Succeeds, Commits;
      ghost var before, given := db, fates;
      var fate := NextFate();
      ghost var left := fates;
      var after := if fate.Acknowledged? then At(k + 1) else if fate.LostThenRetried? then At(k)
                   else Cleaning(job.stage);
      if fate.Acknowledged? || fate.committed {
        var newId := FreshId(db.entries.Keys);
        db := Apply(db, job.stage, job.statements[k], newId);
        WriteEffect(before, job.stage, job.statements[k], newId);
        NewIsNoStage(before, job.stage, newId);
      }
      SoleWriterStep(job, before, At(k), db, after);
      StepKeepsInv([job], initial, System(before, [At(k)]), System(db, [after]));
      ok := fate.Acknowledged?;
      if fate.LostThenRetried? {
        ghost var retried := db;
        ok := ExecuteWrite(job, k, initial);
        NoEarlierTransitive(before, retried, db);
      }
      FirstFate(given, fate, left, ok, fates);
    }

    /** The activation, retried likewise: its answer counts if it is acknowledged in the end. */
    method ExecuteActivate(job: Job, ghost initial: set<Entry>) returns (published: Option<bool>)
      requires IsJob(job) && job.stage != job.retired && Ok(job, initial, At(|job.statements|))
      modifies this
      ensures Ok(job, initial, Cleaning(if published == Some(true) then job.retired else job.stage))
      ensures NoEarlier(old(db), db)
      ensures published == if Succeeds(old(fates), 1) then Answer(old(db), job) else None
      ensures db == Activated(old(db), job) || (published == None && db == old(db))
      ensures AllRetried(old(fates)) ==> AllRetried(fates)
      decreases |fates|
    {
      hide Inv, Activation, NoEarlier, IsJob, Answer, Activated, IsStaged, Stages;
      ghost var before := db;
      AllStaged(job, initial, before);
      var fate := NextFate();
      published := None;
      var raised := false;
      if fate.Acknowledged? || fate.committed {
        published := Activate(job);
        raised := published == None;
        ghost var pick :| && (Stages(before, job.stage) != {} ==> pick in Stages(before, job.stage))
                          && match Activation(before, job, pick)
                             case Raised => published == None && db == before
                             case Returned(db', answer) => published == Some(answer) && db == db';
        ActivationAnswers(before, job, pick);
        if !raised {
          ActivatedAgain(before, job);
        }
      }
      var retry := fate.LostThenRetried? && !raised;
      if !fate.Acknowledged? {
        published := None;
      }
      ghost var after := if retry then At(|job.statements|)
                         else Cleaning(if published == Some(true) then job.retired else job.stage);
      SoleWriterStep(job, before, At(|job.statements|), db, after);
      StepKeepsInv([job], initial, System(before, [At(|job.statements|)]), System(db, [after]));
      if retry {
        ghost var retried := db;
        published := ExecuteActivate(job, initial);
        NoEarlierTransitive(before, retried, db);
      }
    }

    /** Bounded deletions until nothing is left, then the node itself; a failure only leaves a hidden stage behind. */
    method DiscardStage(job: Job, key: string, ghost initial: set<Entry>)
      requires IsJob(job) && job.stage != job.retired && (key == job.stage || key == job.retired)
      requires Ok(job, initial, Cleaning(key))
      modifies this
      ensures Ok(job, initial, Cleaning(key)) && NoEarlier(old(db), db) && Visible(db) == Visible(old(db))
      ensures Stages(db, Other(job, key)) == Stages(old(db), Other(job, key))
      ensures AllRetried(old(fates)) ==> Stages(db, key) == {}
    {
      hide Inv, Discarded, Deleted, NoEarlier, IsJob, Visible, Stages, StageMembers, CleanStep;
      ghost var before := db;
      Unchanged(db);
      var members := StageMembers(db, key);
      while members != {}
        invariant Ok(job, initial, Cleaning(key)) && NoEarlier(before, db) && Visible(db) == Visible(before)
        invariant Stages(db, Other(job, key)) == Stages(before, Other(job, key))
        invariant AllRetried(old(fates)) ==> AllRetried(fates)
        invariant StageMembers(db, key) <= members
        decreases members
      {
        var fate := NextFate();
        if fate.LostThenRaised? {
          return;
        }
        var victims := AtMost(members, 500);
        ghost var previous := db;
        db := Discarded(db, key, victims);
        DiscardEffect(previous, key, victims);
        CleanUp(job, initial, before, previous, db, key);
        members := members - victims;
      }
      var fate := NextFate();
      if fate.LostThenRaised? && !fate.committed {
        return;
      }
      ghost var previous := db;
      db := Deleted(db, key);
      DeleteEffect(previous, key);
      CleanUp(job, initial, before, previous, db, key);
    }

    /** All statements of the projection, one transaction each, until one is given up. */
    method WriteAll(job: Job, ghost initial: set<Entry>) returns (ok: bool)
      requires IsJob(job) && job.stage != job.retired && Ok(job, initial, At(0))
      requires Stages(db, job.stage) == {}
      modifies this
      ensures Ok(job, initial, if ok then At(|job.statements|) else Cleaning(job.stage))
      ensures NoEarlier(old(db), db) && Visible(db) == Visible(old(db))
      ensures Stages(db, job.retired) == Stages(old(db), job.retired)
      ensures ok ==> |Stages(db, job.stage)| == Commits(old(fates)) > 0
      ensures Succeeds(old(fates), |job.statements| + 1) <==> ok && Succeeds(fates, 1)
      ensures AllRetried(old(fates)) ==> AllRetried(fates)
    {
      hide NoEarlier, IsJob, Inv, Visible, Stages, Leaves, Succeeds, Commits, AllRetried, IsWritten;
      ghost var before, given := db, fates;
      NothingWritten(job, db, fates);
      for k := 0 to |job.statements|
        invariant Ok(job, initial, At(k)) && IsWritten(job, before, given, db, fates, k)
      {
        ghost var previous, left := db, fates;
        ok := ExecuteWrite(job, k, initial);
        OneMoreWritten(job, before, given, previous, left, k, db, ok, fates);
        if !ok {
          return;
        }
      }
      WrittenFacts(job, before, given, db, fates, |job.statements|);
      AllWritten(job, before, given, db, fates);
      ok := true;
    }

    /** The `try` block: all statements, then the activation. */
    method Publish(job: Job, ghost initial: set<Entry>) returns (published: Option<bool>)
      requires IsJob(job) && job.stage != job.retired && Ok(job, initial, At(0))
      requires Stages(db, job.stage) == {}
      modifies this
      ensures Ok(job, initial, Cleaning(if published == Some(true) then job.retired else job.stage))
      ensures NoEarlier(old(db), db)
      ensures published ==
              if !Succeeds(old(fates), |job.statements| + 1) then None
              else if IsNewer(old(db), job.sha, job.observed) then Some(false)
              else if Commits(old(fates)) == 1 then Some(true)
              else None
      ensures Visible(db) == Visible(old(db)) || TakesPlace(Visible(old(db)), Visible(db), job)
      ensures published == Some(true) ==>
                TakesPlace(Visible(old(db)), Visible(db), job) && Stages(db, job.stage) == {}
      ensures published == Some(false) ==> Visible(db) == Visible(old(db))
      ensures AllRetried(old(fates)) && published != Some(true) ==>
                Stages(db, job.retired) == Stages(old(db), job.retired)
      ensures AllRetried(old(fates)) ==> AllRetried(fates)
    {
      hide NoEarlier, IsJob, Inv, Visible, Stages, Answer, Activated, IsNewer, TakesPlace, IsStaged, Succeeds, Commits;
      ghost var before, given := db, fates;
      var ok := WriteAll(job, initial);
      if AllRetried(given) {
        RetriedSucceeds(given, |job.statements| + 1);
      }
      if !ok {
        return None;
      }
      ghost var staged := db;
      AllStaged(job, initial, staged);
      StagedAnswer(before, staged, job, Commits(given));
      published := ExecuteActivate(job, initial);
      NoEarlierTransitive(before, staged, db);
      ActivationEffect(staged, job);
    }

    /**
     `write_snapshot`: whatever fails, the visible snapshots stay complete and never go back in time.  The answer is
     known unless a transaction was given up or the stage was created twice: true exactly when nothing newer was
     visible.  Then this graph's complete projection takes the place of what was visible for the receipt; after false
     nothing visible has changed.  When every loss is retried, nothing stays hidden either.
     */
    method WriteSnapshot(job: Job) returns (published: Option<bool>)
      requires IsJob(job) && job.stage != job.retired
      requires Init([job], System(db, [At(0)]))
      modifies this
      ensures UniqueSnapshots(db) && VisibleComplete(db, [job], VisibleEntries(old(db))) && NoEarlier(old(db), db)
      ensures published ==
              if !Succeeds(old(fates), |job.statements| + 1) then None
              else if exists e ::
                        e in VisibleEntries(old(db)) && e.key == job.sha && IsLater(e.observed, job.observed) then
                Some(false)
              else if Commits(old(fates)) == 1 then Some(true)
              else None
      ensures published == Some(true) ==> TakesPlace(Visible(old(db)), Visible(db), job)
      ensures published == Some(false) ==> Visible(db) == Visible(old(db))
      ensures published == None ==> Visible(db) == Visible(old(db)) || TakesPlace(Visible(old(db)), Visible(db), job)
      ensures AllRetried(old(fates)) ==> Stages(db, job.stage) == {} && Stages(db, job.retired) == {}
    {
      ghost var before, initial := db, VisibleEntries(db);
      InitIsInv([job], System(db, [At(0)]));
      assert [job][0] == job && Stages(db, job.stage) == {} && Stages(db, job.retired) == {};
      hide NoEarlier, IsJob, Inv, Init, Visible, Stages, IsNewer, TakesPlace, Succeeds, Commits, VisibleEntries;
      hide VisibleComplete, UniqueSnapshots, AllRetried;
      NewerIsVisible(db, job.sha, job.observed);
      published := Publish(job, initial);
      ghost var activated := db;
      var key := if published == Some(true) then job.retired else job.stage;
      DiscardStage(job, key, initial);
      NoEarlierTransitive(before, activated, db);
      VisibleFacts(job, initial, db, Cleaning(key));
    }
  }

  lemma VisibleFacts(job: Job, initial: set<Entry>, db: Store, at: Position)
    requires Inv([job], initial, System(db, [at]))
    ensures UniqueSnapshots(db) && VisibleComplete(db, [job], initial)
  {
  }

  lemma ActivationEffect(db: Store, job: Job)
    requires job.stage != job.retired && IsStaged(db, job) && Stages(db, job.stage) != {}
    ensures if Answer(db, job) == Some(true)
            then
              && TakesPlace(Visible(db), Visible(Activated(db, job)), job)
              && Stages(Activated(db, job), job.stage) == {}
            else Activated(db, job) == db
  {
    if Answer(db, job) == Some(true) {
      SwapTakesPlace(db, job);
    }
  }
}
