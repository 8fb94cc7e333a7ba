/** Bounded write batches: greedy grouping of rows by count and by text size. */
module WriteBatches {

  function Flatten<T>(batches: seq<seq<T>>): seq<T> {
    if batches == [] then [] else batches[0] + Flatten(batches[1..])
  }

  function Chars<T>(rows: seq<T>, size: T -> nat): nat {
    if rows == [] then 0 else Chars(rows[..|rows| - 1], size) + size(rows[|rows| - 1])
  }

  /** Never empty, within both bounds unless it is a single row. */
  predicate Fits<T>(batch: seq<T>, size: T -> nat, maxRows: int, maxChars: int) {
    |batch| == 1 || (1 < |batch| <= maxRows && Chars(batch, size) <= maxChars)
  }

  /** A batch is closed only because the first row of the next one would not fit. */
  predicate ClosedBy<T>(batch: seq<T>, next: T, size: T -> nat, maxRows: int, maxChars: int) {
    |batch| >= maxRows || Chars(batch, size) + size(next) > maxChars
  }

  predicate Greedy<T>(batches: seq<seq<T>>, size: T -> nat, maxRows: int, maxChars: int) {
    && (forall k :: 0 <= k < |batches| ==> Fits(batches[k], size, maxRows, maxChars))
    && (forall k, l :: 0 <= k && l == k + 1 < |batches| ==>
          batches[l] != [] && ClosedBy(batches[k], batches[l][0], size, maxRows, maxChars))
  }

  lemma {:induction false} FlattenAppend<T>(batches: seq<seq<T>>, batch: seq<T>)
    ensures Flatten(batches + [batch]) == Flatten(batches) + batch
  {
    if batches == [] {
      assert batches + [batch] == [batch];
      assert Flatten([batch]) == batch + Flatten([]);
    } else {
      FlattenAppend(batches[1..], batch);
      assert (batches + [batch])[1..] == batches[1..] + [batch];
      assert batches[0] + (Flatten(batches[1..]) + batch) == batches[0] + Flatten(batches[1..]) + batch;
    }
  }

  lemma CharsAppend<T>(rows: seq<T>, row: T, size: T -> nat)
    ensures Chars(rows + [row], size) == Chars(rows, size) + size(row)
  {
    assert (rows + [row])[..|rows|] == rows;
  }

  lemma GreedyAppend<T>(batches: seq<seq<T>>, batch: seq<T>, size: T -> nat, maxRows: int, maxChars: int)
    requires Greedy(batches, size, maxRows, maxChars) && Fits(batch, size, maxRows, maxChars)
    requires batches != [] ==> ClosedBy(batches[|batches| - 1], batch[0], size, maxRows, maxChars)
    ensures Greedy(batches + [batch], size, maxRows, maxChars)
  {
    hide Chars, ClosedBy;
  }

  /** The generator, run to its end. */
  method Batch<T>(rows: seq<T>, size: T -> nat, maxRows: int := 500, maxChars: int := 262144)
    returns (batches: seq<seq<T>>)
    ensures Flatten(batches) == rows
    ensures Greedy(batches, size, maxRows, maxChars)
  {
    hide Chars, Flatten, Greedy;
    batches := [];
    var batch: seq<T> := [];
    var chars := 0;
    NothingYet<T>(size, maxRows, maxChars);
    for k := 0 to |rows|
      invariant Flatten(batches) + batch == rows[..k]
      invariant chars == Chars(batch, size)
      invariant Greedy(batches, size, maxRows, maxChars)
      invariant batch == [] ==> batches == []
      invariant batch != [] ==> Fits(batch, size, maxRows, maxChars)
      invariant batch != [] && batches != [] ==>
                  ClosedBy(batches[|batches| - 1], batch[0], size, maxRows, maxChars)
    {
      var row := rows[k];
      assert rows[..k + 1] == rows[..k] + [row];
      if batch != [] && (|batch| >= maxRows || chars + size(row) > maxChars) {
        FlattenAppend(batches, batch);
        GreedyAppend(batches, batch, size, maxRows, maxChars);
        batches := batches + [batch];
        batch, chars := [], 0;
      }
      CharsAppend(batch, row, size);
      assert Flatten(batches) + (batch + [row]) == Flatten(batches) + batch + [row];
      batch := batch + [row];
      chars := chars + size(row);
    }
    assert rows[..|rows|] == rows;
    if batch != [] {
      FlattenAppend(batches, batch);
      GreedyAppend(batches, batch, size, maxRows, maxChars);
      batches := batches + [batch];
    }
  }

  lemma NothingYet<T>(size: T -> nat, maxRows: int, maxChars: int)
    ensures Flatten<T>([]) == [] && Chars([], size) == 0 && Greedy<T>([], size, maxRows, maxChars)
  {
  }

  lemma {:induction false} CharsOfPrefix<T>(shorter: seq<T>, longer: seq<T>, size: T -> nat)
    requires shorter <= longer
    ensures Chars(shorter, size) <= Chars(longer, size)
    decreases |longer|
  {
    if shorter != longer {
      CharsOfPrefix(shorter, longer[..|longer| - 1], size);
    }
  }

  lemma FlattenHead<T>(batches: seq<seq<T>>)
    requires batches != []
    ensures Flatten(batches) == batches[0] + Flatten(batches[1..])
  {
  }

  /** A greedy batch cannot be extended by the next row and stay within bounds. */
  lemma FirstBatchMaximal<T>(a: seq<seq<T>>, b: seq<seq<T>>, size: T -> nat, maxRows: int, maxChars: int)
    requires Greedy(a, size, maxRows, maxChars) && Greedy(b, size, maxRows, maxChars)
    requires a != [] && b != [] && Flatten(a) == Flatten(b)
    ensures |a[0]| >= |b[0]|
  {
    hide Flatten, Chars;
    if |a[0]| < |b[0]| {
      FlattenHead(a);
      FlattenHead(b);
      var rows := Flatten(a);
      assert a[0] == rows[..|a[0]|] && b[0] == rows[..|b[0]|];
      if |a| == 1 {
        NothingYet<T>(size, maxRows, maxChars);
      } else {
        FlattenHead(a[1..]);
        var next := a[1][0];
        assert Flatten(a[1..])[0] == next;
        assert rows[|a[0]|] == next;
        CharsAppend(a[0], next, size);
        assert a[0] + [next] == b[0][..|a[0]| + 1];
        CharsOfPrefix(a[0] + [next], b[0], size);
      }
    }
  }

  /** Order, bounds and closing rule leave no freedom: the greedy grouping is the only one. */
  lemma {:induction false} GreedyIsUnique<T>(a: seq<seq<T>>, b: seq<seq<T>>, size: T -> nat, maxRows: int,
                                             maxChars: int)
    requires Greedy(a, size, maxRows, maxChars) && Greedy(b, size, maxRows, maxChars)
    requires Flatten(a) == Flatten(b)
    ensures a == b
    decreases |a|
  {
    hide Chars;
    if a == [] || b == [] {
      assert a == b;
    } else {
      FirstBatchMaximal(a, b, size, maxRows, maxChars);
      FirstBatchMaximal(b, a, size, maxRows, maxChars);
      FlattenHead(a);
      FlattenHead(b);
      assert a[0] == Flatten(a)[..|a[0]|] == b[0];
      assert Flatten(a[1..]) == Flatten(a)[|a[0]|..] == Flatten(b[1..]);
      assert Greedy(a[1..], size, maxRows, maxChars) by { RestIsGreedy(a, size, maxRows, maxChars); }
      assert Greedy(b[1..], size, maxRows, maxChars) by { RestIsGreedy(b, size, maxRows, maxChars); }
      GreedyIsUnique(a[1..], b[1..], size, maxRows, maxChars);
    }
  }

  lemma RestIsGreedy<T>(a: seq<seq<T>>, size: T -> nat, maxRows: int, maxChars: int)
    requires Greedy(a, size, maxRows, maxChars) && a != []
    ensures Greedy(a[1..], size, maxRows, maxChars)
  {
    hide Chars;
    var rest := a[1..];
    forall k | 0 <= k < |rest|
      ensures Fits(rest[k], size, maxRows, maxChars)
    {
      assert rest[k] == a[k + 1];
    }
    forall k, l | 0 <= k && l == k + 1 < |rest|
      ensures rest[l] != [] && ClosedBy(rest[k], rest[l][0], size, maxRows, maxChars)
    {
      assert rest[k] == a[k + 1] && rest[l] == a[l + 1];
    }
  }
}

/** Snapshot memberships: what the projection stores for each node, and what reading them back returns. */
module GraphProjection {
  import opened Options

  datatype Node = Node(id: string, kind: string, caption: string, properties: string)

  datatype Edge = Edge(id: string, source: string, target: string, kind: string)

  datatype Graph = Graph(nodes: seq<Node>, edges: seq<Edge>)

  /** One HAS_ENTITY membership: exact node copy, position, outgoing edges and analysed item. */
  datatype Member = Member(node: Node, ordinal: nat, edges: seq<Edge>, item: Option<string>)

  /** Graph nodes come from a dictionary keyed by identity. */
  predicate DistinctNodes(g: Graph) {
    forall i, j | 0 <= i < j < |g.nodes| :: g.nodes[i].id != g.nodes[j].id
  }

  function Outgoing(edges: seq<Edge>, source: string): seq<Edge> {
    if edges == [] then []
    else
      var last := edges[|edges| - 1];
      Outgoing(edges[..|edges| - 1], source) + if last.source == source then [last] else []
  }

  function AnalysedItem(edges: seq<Edge>, source: string): Option<string> {
    if edges == [] then None
    else
      var last := edges[|edges| - 1];
      if last.kind == "ANALYZES" && last.source == source then Some(last.target)
      else AnalysedItem(edges[..|edges| - 1], source)
  }

  function Members(g: Graph): seq<Member> {
    seq(|g.nodes|, i requires 0 <= i < |g.nodes| =>
      Member(g.nodes[i], i, Outgoing(g.edges, g.nodes[i].id), AnalysedItem(g.edges, g.nodes[i].id)))
  }

  /** The outgoing edges are exactly those that start at the node, in their order. */
  lemma {:induction false} OutgoingExactly(edges: seq<Edge>, source: string) returns (at: seq<nat>)
    ensures |at| == |Outgoing(edges, source)|
    ensures forall i | 0 <= i < |at| :: at[i] < |edges| && Outgoing(edges, source)[i] == edges[at[i]]
    ensures forall i, j | 0 <= i < j < |at| :: at[i] < at[j]
    ensures forall x: nat | x < |edges| :: x in at <==> edges[x].source == source
  {
    if edges == [] {
      at := [];
    } else {
      var n := |edges| - 1;
      at := OutgoingExactly(edges[..n], source);
      if edges[n].source == source {
        at := at + [n];
      }
    }
  }

  /** The analysed item is the target of the node's last edge of that type. */
  lemma {:induction false} AnalysedItemIsLast(edges: seq<Edge>, source: string)
    ensures AnalysedItem(edges, source) == None <==>
            forall e | e in edges :: !(e.kind == "ANALYZES" && e.source == source)
    ensures AnalysedItem(edges, source).Some? ==>
              exists i :: 0 <= i < |edges| && IsLastAnalysis(edges, source, i)
                          && edges[i].target == AnalysedItem(edges, source).value
  {
    if edges != [] {
      var n := |edges| - 1;
      AnalysedItemIsLast(edges[..n], source);
      assert edges == edges[..n] + [edges[n]];
      if edges[n].kind == "ANALYZES" && edges[n].source == source {
        assert IsLastAnalysis(edges, source, n);
      } else if AnalysedItem(edges, source).Some? {
        var i :| 0 <= i < n && IsLastAnalysis(edges[..n], source, i)
                 && edges[i].target == AnalysedItem(edges, source).value;
        assert IsLastAnalysis(edges, source, i);
      }
    }
  }

  predicate IsLastAnalysis(edges: seq<Edge>, source: string, i: nat)
    requires i < |edges|
  {
    && edges[i].kind == "ANALYZES" && edges[i].source == source
    && forall j | i < j < |edges| :: !(edges[j].kind == "ANALYZES" && edges[j].source == source)
  }

  /** What `outgoing` and `item_for` hold after a pass over `edges`. */
  ghost predicate Indexed(edges: seq<Edge>, outgoing: map<string, seq<Edge>>, itemFor: map<string, string>) {
    && (forall s :: Outgoing(edges, s) == if s in outgoing then outgoing[s] else [])
    && (forall s :: AnalysedItem(edges, s) == if s in itemFor then Some(itemFor[s]) else None)
  }

  /** The single pass over the edges that fills `outgoing` and `item_for`. */
  method IndexEdges(edges: seq<Edge>) returns (outgoing: map<string, seq<Edge>>, itemFor: map<string, string>)
    ensures Indexed(edges, outgoing, itemFor)
  {
    outgoing, itemFor := map[], map[];
    for k := 0 to |edges|
      invariant Indexed(edges[..k], outgoing, itemFor)
    {
      hide Indexed;
      var edge := edges[k];
      assert edges[..k + 1] == edges[..k] + [edge];
      outgoing := outgoing[edge.source := (if edge.source in outgoing then outgoing[edge.source] else []) + [edge]];
      itemFor := if edge.kind == "ANALYZES" then itemFor[edge.source := edge.target] else itemFor;
    }
    assert edges[..|edges|] == edges;
  }

  method BuildMembers(g: Graph) returns (members: seq<Member>)
    ensures members == Members(g)
    ensures |members| == |g.nodes|
    ensures forall i | 0 <= i < |members| :: members[i].node == g.nodes[i] && members[i].ordinal == i
  {
    hide Outgoing, AnalysedItem;
    var outgoing, itemFor := IndexEdges(g.edges);
    members := [];
    for i := 0 to |g.nodes|
      invariant members == Members(g)[..i]
    {
      var n := g.nodes[i];
      members := members + [Member(n, i, if n.id in outgoing then outgoing[n.id] else [],
                                   if n.id in itemFor then Some(itemFor[n.id]) else None)];
    }
  }

  /** Memberships are merged by node identity. */
  function MergeMembers(stored: map<string, Member>, rows: seq<Member>): map<string, Member> {
    if rows == [] then stored
    else MergeMembers(stored, rows[..|rows| - 1])[rows[|rows| - 1].node.id := rows[|rows| - 1]]
  }

  /** The complete set of memberships of a graph. */
  function Projection(g: Graph): map<string, Member> {
    MergeMembers(map[], Members(g))
  }

  lemma {:induction false} MergeAppend(stored: map<string, Member>, rows: seq<Member>, more: seq<Member>)
    ensures MergeMembers(MergeMembers(stored, rows), more) == MergeMembers(stored, rows + more)
  {
    if more == [] {
      assert rows + more == rows;
    } else {
      MergeAppend(stored, rows, more[..|more| - 1]);
      assert (rows + more)[..|rows + more| - 1] == rows + more[..|more| - 1];
    }
  }

  function Ids(rows: seq<Member>): set<string> {
    set i | 0 <= i < |rows| :: rows[i].node.id
  }

  /** The rows are stored under their identities, and everything else is as it was. */
  predicate IsMerged(stored: map<string, Member>, rows: seq<Member>, merged: map<string, Member>) {
    && (forall i | 0 <= i < |rows| :: rows[i].node.id in merged && merged[rows[i].node.id] == rows[i])
    && merged.Keys == stored.Keys + Ids(rows)
    && (forall id | id in stored && id !in Ids(rows) :: merged[id] == stored[id])
  }

  /** What ends up stored for an identity: the last row written for it. */
  lemma {:induction false} MergedValue(stored: map<string, Member>, rows: seq<Member>)
    requires forall i, j | 0 <= i < j < |rows| :: rows[i].node.id != rows[j].node.id
    ensures IsMerged(stored, rows, MergeMembers(stored, rows))
  {
    if rows != [] {
      var rest, last := rows[..|rows| - 1], rows[|rows| - 1];
      MergedValue(stored, rest);
      assert rows == rest + [last];
      MergeOne(stored, rest, last, MergeMembers(stored, rest));
    }
  }

  lemma MergeOne(stored: map<string, Member>, rows: seq<Member>, row: Member, merged: map<string, Member>)
    requires IsMerged(stored, rows, merged) && forall i | 0 <= i < |rows| :: rows[i].node.id != row.node.id
    ensures IsMerged(stored, rows + [row], merged[row.node.id := row])
  {
    IdsAppend(rows, row);
    hide Ids;
  }

  lemma IdsAppend(rows: seq<Member>, row: Member)
    ensures Ids(rows + [row]) == Ids(rows) + {row.node.id}
  {
    var more := rows + [row];
    assert more[|rows|] == row;
    forall i | 0 <= i < |rows|
      ensures rows[i].node.id in Ids(more)
    {
      assert more[i] == rows[i];
    }
  }

  /** Writing the same rows again changes nothing. */
  lemma MergeTwice(stored: map<string, Member>, rows: seq<Member>)
    requires forall i, j | 0 <= i < j < |rows| :: rows[i].node.id != rows[j].node.id
    ensures MergeMembers(MergeMembers(stored, rows), rows) == MergeMembers(stored, rows)
  {
    MergedValue(stored, rows);
    MergedValue(MergeMembers(stored, rows), rows);
    var once, twice := MergeMembers(stored, rows), MergeMembers(MergeMembers(stored, rows), rows);
    forall id | id in once
      ensures twice[id] == once[id]
    {
      if i :| 0 <= i < |rows| && rows[i].node.id == id {
      }
    }
  }

  /** A read of all stored memberships in ordinal order. */
  predicate IsReading(stored: map<string, Member>, ms: seq<Member>) {
    && |ms| == |stored|
    && (forall i | 0 <= i < |ms| :: ms[i].node.id in stored && stored[ms[i].node.id] == ms[i])
    && (forall i, j | 0 <= i < j < |ms| :: ms[i].ordinal < ms[j].ordinal)
  }

  function ReadNodes(ms: seq<Member>): seq<Node> {
    seq(|ms|, i requires 0 <= i < |ms| => ms[i].node)
  }

  function ReadEdges(ms: seq<Member>): seq<Edge> {
    if ms == [] then [] else ReadEdges(ms[..|ms| - 1]) + ms[|ms| - 1].edges
  }

  lemma ProjectionStores(g: Graph)
    requires DistinctNodes(g)
    ensures var stored := Projection(g);
            && |stored| == |g.nodes|
            && (forall i | 0 <= i < |g.nodes| :: g.nodes[i].id in stored && stored[g.nodes[i].id] == Members(g)[i])
            && (forall id | id in stored :: exists i :: 0 <= i < |g.nodes| && g.nodes[i].id == id)
  {
    hide MergeMembers, Outgoing, AnalysedItem;
    var rows := Members(g);
    RowsStored(rows);
    assert forall i | 0 <= i < |rows| :: rows[i].node == g.nodes[i];
  }

  lemma {:induction false} RowsStored(rows: seq<Member>)
    requires forall i, j | 0 <= i < j < |rows| :: rows[i].node.id != rows[j].node.id
    ensures var stored := MergeMembers(map[], rows);
            && |stored| == |rows|
            && (forall i | 0 <= i < |rows| :: rows[i].node.id in stored && stored[rows[i].node.id] == rows[i])
            && (forall id | id in stored :: exists i :: 0 <= i < |rows| && rows[i].node.id == id)
  {
    MergedValue(map[], rows);
    IdsCount(rows);
    assert |MergeMembers(map[], rows)| == |MergeMembers(map[], rows).Keys|;
  }

  lemma {:induction false} IdsCount(rows: seq<Member>)
    requires forall i, j | 0 <= i < j < |rows| :: rows[i].node.id != rows[j].node.id
    ensures |Ids(rows)| == |rows|
  {
    if rows == [] {
      assert Ids(rows) == {};
    } else {
      var rest, last := rows[..|rows| - 1], rows[|rows| - 1];
      IdsCount(rest);
      IdsAppend(rest, last);
      assert rows == rest + [last];
    }
  }

  /** Increasing ordinals below their own number are the positions themselves. */
  lemma {:induction false} OrdinalsAreDense(ms: seq<Member>, k: nat)
    requires k <= |ms|
    requires forall i | 0 <= i < |ms| :: ms[i].ordinal < |ms|
    requires forall i, j | 0 <= i < j < |ms| :: ms[i].ordinal < ms[j].ordinal
    ensures forall i | 0 <= i < k :: ms[i].ordinal >= i
    ensures forall i | |ms| - k <= i < |ms| :: ms[i].ordinal <= i
  {
    if k > 0 {
      OrdinalsAreDense(ms, k - 1);
      if k > 1 {
        assert ms[k - 2].ordinal < ms[k - 1].ordinal;
        assert ms[|ms| - k].ordinal < ms[|ms| - k + 1].ordinal;
      }
    }
  }

  /** Reading the memberships back in ordinal order gives the graph's nodes exactly. */
  lemma ReadingIsMembers(g: Graph, ms: seq<Member>)
    requires DistinctNodes(g) && IsReading(Projection(g), ms)
    ensures ms == Members(g) && ReadNodes(ms) == g.nodes
  {
    hide Projection, Outgoing, AnalysedItem;
    ProjectionStores(g);
    var stored := Projection(g);
    forall k | 0 <= k < |ms|
      ensures ms[k].ordinal < |ms| && ms[k] == Members(g)[ms[k].ordinal]
    {
      var i :| 0 <= i < |g.nodes| && g.nodes[i].id == ms[k].node.id;
    }
    OrdinalsAreDense(ms, |ms|);
    assert forall k | 0 <= k < |ms| :: ms[k].ordinal == k;
  }

  lemma {:induction false} OutgoingCount(edges: seq<Edge>, source: string, e: Edge)
    ensures multiset(Outgoing(edges, source))[e] == if e.source == source then multiset(edges)[e] else 0
  {
    if edges != [] {
      OutgoingCount(edges[..|edges| - 1], source, e);
      assert edges == edges[..|edges| - 1] + [edges[|edges| - 1]];
    }
  }

  predicate StartsAtNode(g: Graph, e: Edge, k: nat)
    requires k <= |g.nodes|
  {
    exists i :: 0 <= i < k && g.nodes[i].id == e.source
  }

  lemma ReadEdgesAppend(ms: seq<Member>, m: Member)
    ensures ReadEdges(ms + [m]) == ReadEdges(ms) + m.edges
  {
    assert (ms + [m])[..|ms|] == ms;
  }

  lemma OneMoreStart(g: Graph, e: Edge, k: nat)
    requires DistinctNodes(g) && k < |g.nodes|
    ensures StartsAtNode(g, e, k + 1) <==> StartsAtNode(g, e, k) || g.nodes[k].id == e.source
    ensures !(StartsAtNode(g, e, k) && g.nodes[k].id == e.source)
  {
  }

  lemma {:induction false} ReadEdgesCount(g: Graph, e: Edge, k: nat)
    requires DistinctNodes(g) && k <= |g.nodes|
    ensures multiset(ReadEdges(Members(g)[..k]))[e] == if StartsAtNode(g, e, k) then multiset(g.edges)[e] else 0
  {
    if k == 0 {
      assert Members(g)[..0] == [];
    } else {
      hide *;
      ReadEdgesCount(g, e, k - 1);
      ReadEdgesUpTo(g, k - 1);
      OutgoingCount(g.edges, g.nodes[k - 1].id, e);
      OneMoreStart(g, e, k - 1);
    }
  }

  lemma ReadEdgesUpTo(g: Graph, k: nat)
    requires k < |g.nodes|
    ensures |Members(g)| == |g.nodes|
    ensures multiset(ReadEdges(Members(g)[..k + 1])) ==
            multiset(ReadEdges(Members(g)[..k])) + multiset(Outgoing(g.edges, g.nodes[k].id))
  {
    hide ReadEdges, Outgoing, AnalysedItem;
    var m := Members(g)[k];
    assert Members(g)[..k + 1] == Members(g)[..k] + [m];
    ReadEdgesAppend(Members(g)[..k], m);
  }

  /** Each edge comes back exactly as often as the graph has it, if and only if every edge starts at a node. */
  lemma EdgesReadBack(g: Graph, ms: seq<Member>)
    requires DistinctNodes(g) && IsReading(Projection(g), ms)
    ensures multiset(ReadEdges(ms)) == multiset(g.edges) <==>
            forall e | e in g.edges :: StartsAtNode(g, e, |g.nodes|)
  {
    hide Projection, Outgoing, AnalysedItem, ReadEdges, StartsAtNode;
    ReadingIsMembers(g, ms);
    assert ms[..|g.nodes|] == ms;
    forall e
      ensures multiset(ReadEdges(ms))[e] == if StartsAtNode(g, e, |g.nodes|) then multiset(g.edges)[e] else 0
    {
      ReadEdgesCount(g, e, |g.nodes|);
    }
    forall e | e in g.edges
      ensures multiset(g.edges)[e] > 0
    {
    }
  }
}
