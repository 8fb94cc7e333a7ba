/**
 Refreshing a receipt's items after a new OCR run: the guard that predicts whether
 a reviewed row would be lost, and the refresh itself, which reuses rows by name
 and amount.  Both are greedy over the same order; they agree.
 */
module ItemRows {
  import opened FiniteSets
  import opened Options

  datatype Item = Item(name: string, amount: Option<int>, department: string)

  datatype Row = Row(id: int, name: string, amount: Option<int>, category: Option<string>, source: Option<string>,
                     rationale: Option<string>, description: string, url: string)

  type Key = (string, Option<int>)

  function ItemKey(i: Item): Key {
    (i.name, i.amount)
  }

  function RowKey(r: Row): Key {
    (r.name, r.amount)
  }

  predicate Reviewed(r: Row) {
    r.source == Some("manual") || r.rationale == Some("human-approved category override")
    || r.description != "" || r.url != ""
  }

  function Keep(rows: seq<Row>, reviewed: bool): seq<Row> {
    if rows == [] then []
    else (if Reviewed(rows[0]) == reviewed then [rows[0]] else []) + Keep(rows[1..], reviewed)
  }

  /** The stable sort by `not reviewed(r)`. */
  function ReviewedFirst(rows: seq<Row>): seq<Row> {
    Keep(rows, true) + Keep(rows, false)
  }

  lemma KeepCons(r: Row, rest: seq<Row>, reviewed: bool)
    ensures Keep([r] + rest, reviewed) == (if Reviewed(r) == reviewed then [r] else []) + Keep(rest, reviewed)
  {
    assert ([r] + rest)[1..] == rest;
  }

  lemma {:induction false} KeepAppend(a: seq<Row>, b: seq<Row>, reviewed: bool)
    ensures Keep(a + b, reviewed) == Keep(a, reviewed) + Keep(b, reviewed)
  {
    if a == [] {
      assert a + b == b;
    } else {
      KeepAppend(a[1..], b, reviewed);
      KeepCons(a[0], a[1..] + b, reviewed);
      KeepCons(a[0], a[1..], reviewed);
      hide Keep, Reviewed;
      assert a + b == [a[0]] + (a[1..] + b) && a == [a[0]] + a[1..];
      var first := if Reviewed(a[0]) == reviewed then [a[0]] else [];
      var second, third := Keep(a[1..], reviewed), Keep(b, reviewed);
      assert (first + second) + third == first + (second + third);
    }
  }

  lemma {:induction false} KeepAgain(rows: seq<Row>, first: bool, again: bool)
    ensures Keep(Keep(rows, first), again) == if first == again then Keep(rows, first) else []
  {
    if rows != [] {
      hide Reviewed;
      KeepAgain(rows[1..], first, again);
      var rest := Keep(rows[1..], first);
      assert ([rows[0]] + rest)[1..] == rest;
      assert [] + rest == rest;
    }
  }

  /** Reviewed rows come first, and among them, as among the others, the order stays as it was. */
  lemma ReviewedFirstIsStable(rows: seq<Row>, reviewed: bool)
    ensures Keep(ReviewedFirst(rows), reviewed) == Keep(rows, reviewed)
    ensures forall i, j | 0 <= i < j < |ReviewedFirst(rows)| ::
              Reviewed(ReviewedFirst(rows)[j]) ==> Reviewed(ReviewedFirst(rows)[i])
  {
    KeepAgain(rows, true, reviewed);
    KeepAgain(rows, false, reviewed);
    KeepAppend(Keep(rows, true), Keep(rows, false), reviewed);
    KeepMembers(rows, true);
    KeepMembers(rows, false);
    hide Keep, Reviewed;
    var yes, no := Keep(rows, true), Keep(rows, false);
    forall j | 0 <= j < |yes + no|
      ensures Reviewed((yes + no)[j]) <==> j < |yes|
    {
      assert if j < |yes| then yes[j] in yes else no[j - |yes|] in no;
    }
  }

  predicate DistinctIds(rows: seq<Row>) {
    forall i, j | 0 <= i < j < |rows| :: rows[i].id != rows[j].id
  }

  lemma {:induction false} KeepMembers(rows: seq<Row>, reviewed: bool)
    ensures forall r :: r in Keep(rows, reviewed) <==> r in rows && Reviewed(r) == reviewed
    ensures DistinctIds(rows) ==> DistinctIds(Keep(rows, reviewed))
  {
    if rows != [] {
      KeepMembers(rows[1..], reviewed);
      assert rows == [rows[0]] + rows[1..];
      if DistinctIds(rows) {
        forall r | r in rows[1..]
          ensures r.id != rows[0].id
        {
          var j :| 0 <= j < |rows[1..]| && rows[1..][j] == r;
          assert rows[j + 1] == r;
        }
      }
    }
  }

  lemma ReviewedFirstMembers(rows: seq<Row>)
    ensures forall r :: r in ReviewedFirst(rows) <==> r in rows
    ensures DistinctIds(rows) ==> DistinctIds(ReviewedFirst(rows))
    ensures var sorted, n := ReviewedFirst(rows), |Keep(rows, true)|;
            n <= |sorted| && forall j | 0 <= j < |sorted| :: Reviewed(sorted[j]) <==> j < n
  {
    KeepMembers(rows, true);
    KeepMembers(rows, false);
    var yes, no := Keep(rows, true), Keep(rows, false);
    var sorted := ReviewedFirst(rows);
    forall j | 0 <= j < |sorted|
      ensures Reviewed(sorted[j]) <==> j < |yes|
    {
      assert if j < |yes| then sorted[j] in yes else sorted[j] in no;
    }
    if DistinctIds(rows) {
      forall i, j | 0 <= i < j < |sorted|
        ensures sorted[i].id != sorted[j].id
      {
        if i < |yes| <= j && sorted[i].id == sorted[j].id {
          assert sorted[i] in yes && sorted[j] in no;
          SameIdSameRow(rows, sorted[i], sorted[j]);
        }
      }
    }
  }

  lemma SameIdSameRow(rows: seq<Row>, r: Row, s: Row)
    requires DistinctIds(rows) && r in rows && s in rows && r.id == s.id
    ensures r == s
  {
  }

  /** The rows of one key, in order: the deque of that key. */
  function RowsWith(rows: seq<Row>, k: Key): seq<Row> {
    if rows == [] then []
    else RowsWith(rows[..|rows| - 1], k) + if RowKey(rows[|rows| - 1]) == k then [rows[|rows| - 1]] else []
  }

  function ItemsWith(items: seq<Item>, k: Key): nat {
    if items == [] then 0
    else ItemsWith(items[..|items| - 1], k) + if ItemKey(items[|items| - 1]) == k then 1 else 0
  }

  /** How many rows of the same key come before row `j`. */
  function Rank(rows: seq<Row>, j: nat): nat
    requires j < |rows|
  {
    |RowsWith(rows[..j], RowKey(rows[j]))|
  }

  /** How many items of the same key come before item `i`. */
  function ItemRank(items: seq<Item>, i: nat): nat
    requires i < |items|
  {
    ItemsWith(items[..i], ItemKey(items[i]))
  }

  lemma {:induction false} RowsWithGrows(rows: seq<Row>, j: nat, k: Key)
    requires j <= |rows|
    ensures RowsWith(rows[..j], k) <= RowsWith(rows, k)
  {
    if j == |rows| {
      assert rows[..j] == rows;
    } else {
      RowsWithGrows(rows[..|rows| - 1], j, k);
      assert rows[..|rows| - 1][..j] == rows[..j];
    }
  }

  /** A row sits in its key's deque at its rank. */
  lemma RowAtRank(rows: seq<Row>, j: nat)
    requires j < |rows|
    ensures var q := RowsWith(rows, RowKey(rows[j])); Rank(rows, j) < |q| && q[Rank(rows, j)] == rows[j]
  {
    var k := RowKey(rows[j]);
    assert rows[..j + 1][..j] == rows[..j];
    RowsWithGrows(rows, j + 1, k);
    assert RowsWith(rows[..j + 1], k) == RowsWith(rows[..j], k) + [rows[j]];
  }

  /** Every place of a deque is the rank of one row. */
  lemma {:induction false} RankOfPlace(rows: seq<Row>, k: Key, c: nat) returns (j: nat)
    requires c < |RowsWith(rows, k)|
    ensures j < |rows| && RowKey(rows[j]) == k && Rank(rows, j) == c && RowsWith(rows, k)[c] == rows[j]
  {
    var rest := rows[..|rows| - 1];
    if c < |RowsWith(rest, k)| {
      j := RankOfPlace(rest, k, c);
      assert rest[..j] == rows[..j];
    } else {
      j := |rows| - 1;
    }
  }

  lemma {:induction false} ItemsWithGrows(items: seq<Item>, i: nat, k: Key)
    requires i <= |items|
    ensures ItemsWith(items[..i], k) <= ItemsWith(items, k)
    ensures i < |items| && ItemKey(items[i]) == k ==> ItemsWith(items[..i], k) < ItemsWith(items, k)
  {
    if i == |items| {
      assert items[..i] == items;
    } else {
      var rest := items[..|items| - 1];
      ItemsWithGrows(rest, i, k);
      assert rest[..i] == items[..i];
    }
  }

  /** The item with `c` earlier items of its key. */
  lemma {:induction false} NthItem(items: seq<Item>, k: Key, c: nat) returns (i: nat)
    requires c < ItemsWith(items, k)
    ensures i < |items| && ItemKey(items[i]) == k && ItemRank(items, i) == c
  {
    var rest := items[..|items| - 1];
    if c < ItemsWith(rest, k) {
      i := NthItem(rest, k, c);
      assert rest[..i] == items[..i];
    } else {
      i := |items| - 1;
    }
  }

  lemma ItemRankIsUnique(items: seq<Item>, i: nat, j: nat)
    requires i < j < |items| && ItemKey(items[i]) == ItemKey(items[j])
    ensures ItemRank(items, i) < ItemRank(items, j)
  {
    ItemsWithGrows(items[..j], i, ItemKey(items[i]));
    assert items[..j][..i] == items[..i];
  }

  /** The existing row item `i` reuses: the one of equal key and equal rank. */
  function Claim(items: seq<Item>, sorted: seq<Row>, i: nat): Option<Row>
    requires i < |items|
  {
    var q := RowsWith(sorted, ItemKey(items[i]));
    if ItemRank(items, i) < |q| then Some(q[ItemRank(items, i)]) else None
  }

  predicate IsClaimed(items: seq<Item>, sorted: seq<Row>, r: Row) {
    exists i :: 0 <= i < |items| && Claim(items, sorted, i) == Some(r)
  }

  /** A row is reused exactly when enough items of its key exist. */
  lemma ClaimedByRank(items: seq<Item>, sorted: seq<Row>, j: nat)
    requires j < |sorted| && DistinctIds(sorted)
    ensures IsClaimed(items, sorted, sorted[j]) <==> Rank(sorted, j) < ItemsWith(items, RowKey(sorted[j]))
  {
    var k := RowKey(sorted[j]);
    RowAtRank(sorted, j);
    if Rank(sorted, j) < ItemsWith(items, k) {
      var i := NthItem(items, k, Rank(sorted, j));
      assert Claim(items, sorted, i) == Some(sorted[j]);
    }
    if i :| 0 <= i < |items| && Claim(items, sorted, i) == Some(sorted[j]) {
      var j' := RankOfPlace(sorted, ItemKey(items[i]), ItemRank(items, i));
      assert j' == j;
      ItemsWithGrows(items, i, k);
    }
  }

  /** Two items never reuse the same row. */
  lemma ClaimsAreDistinct(items: seq<Item>, sorted: seq<Row>, i: nat, j: nat)
    requires DistinctIds(sorted) && i < j < |items|
    requires Claim(items, sorted, i).Some? && Claim(items, sorted, j).Some?
    ensures Claim(items, sorted, i).value.id != Claim(items, sorted, j).value.id
  {
    var a := RankOfPlace(sorted, ItemKey(items[i]), ItemRank(items, i));
    var b := RankOfPlace(sorted, ItemKey(items[j]), ItemRank(items, j));
    if a == b {
      ItemRankIsUnique(items, i, j);
    }
  }

  lemma ClaimIsExisting(items: seq<Item>, sorted: seq<Row>, i: nat)
    requires i < |items| && Claim(items, sorted, i).Some?
    ensures Claim(items, sorted, i).value in sorted && RowKey(Claim(items, sorted, i).value) == ItemKey(items[i])
  {
    var j := RankOfPlace(sorted, ItemKey(items[i]), ItemRank(items, i));
  }

  /** What the guard answers: some reviewed row finds no item left for it. */
  predicate Unmatched(items: seq<Item>, sorted: seq<Row>) {
    exists j :: 0 <= j < |sorted| && Reviewed(sorted[j]) && Rank(sorted, j) >= ItemsWith(items, RowKey(sorted[j]))
  }

  /** The guard is exact: it objects if and only if a reviewed row would be deleted. */
  lemma GuardIsExact(items: seq<Item>, existing: seq<Row>)
    requires DistinctIds(existing)
    ensures Unmatched(items, ReviewedFirst(existing)) <==>
            exists r :: r in existing && Reviewed(r) && !IsClaimed(items, ReviewedFirst(existing), r)
  {
    var sorted := ReviewedFirst(existing);
    ReviewedFirstMembers(existing);
    forall j | 0 <= j < |sorted|
      ensures IsClaimed(items, sorted, sorted[j]) <==> Rank(sorted, j) < ItemsWith(items, RowKey(sorted[j]))
    {
      ClaimedByRank(items, sorted, j);
    }
    if r :| r in existing && Reviewed(r) && !IsClaimed(items, sorted, r) {
      assert r in sorted;
    }
    if j :| 0 <= j < |sorted| && Reviewed(sorted[j]) && Rank(sorted, j) >= ItemsWith(items, RowKey(sorted[j])) {
      assert sorted[j] in existing && !IsClaimed(items, sorted, sorted[j]);
    }
  }

  /** In numbers: some key has more reviewed rows than new items. */
  lemma GuardCounts(items: seq<Item>, existing: seq<Row>)
    ensures Unmatched(items, ReviewedFirst(existing)) <==>
            exists k :: |RowsWith(Keep(existing, true), k)| > ItemsWith(items, k)
  {
    var sorted, yes := ReviewedFirst(existing), Keep(existing, true);
    ReviewedFirstMembers(existing);
    forall j | 0 <= j < |yes|
      ensures sorted[j] == yes[j] && Rank(sorted, j) == Rank(yes, j)
    {
      assert sorted[..j] == yes[..j];
    }
    if j :| 0 <= j < |sorted| && Reviewed(sorted[j]) && Rank(sorted, j) >= ItemsWith(items, RowKey(sorted[j])) {
      RowAtRank(yes, j);
      assert |RowsWith(yes, RowKey(yes[j]))| > ItemsWith(items, RowKey(yes[j]));
    }
    if k :| |RowsWith(yes, k)| > ItemsWith(items, k) {
      var j := RankOfPlace(yes, k, ItemsWith(items, k));
      assert Reviewed(sorted[j]) && Rank(sorted, j) >= ItemsWith(items, RowKey(sorted[j]));
    }
  }

  // No other choice of rows keeps more of them.

  /** More items than rows of this key: all its rows are reused. */
  predicate Exhausted(items: seq<Item>, sorted: seq<Row>, k: Key) {
    ItemsWith(items, k) > |RowsWith(sorted, k)|
  }

  function Reusers(items: seq<Item>, sorted: seq<Row>): set<nat> {
    set i: nat | i < |items| && Claim(items, sorted, i).Some?
  }

  /** A one-to-one reuse of existing rows by items of the same name and amount. */
  ghost predicate IsReuse(items: seq<Item>, sorted: seq<Row>, f: map<nat, int>) {
    && (forall i | i in f :: i < |items| && exists r :: r in sorted && r.id == f[i] && RowKey(r) == ItemKey(items[i]))
    && (forall i, j | i in f && j in f && f[i] == f[j] :: i == j)
  }

  function ClaimedIds(items: seq<Item>, sorted: seq<Row>): map<nat, int> {
    map i | i in Reusers(items, sorted) :: Claim(items, sorted, i).value.id
  }

  lemma ClaimsAreReuse(items: seq<Item>, sorted: seq<Row>)
    requires DistinctIds(sorted)
    ensures IsReuse(items, sorted, ClaimedIds(items, sorted))
  {
    var f := ClaimedIds(items, sorted);
    forall i | i in f
      ensures exists r :: r in sorted && r.id == f[i] && RowKey(r) == ItemKey(items[i])
    {
      ClaimIsExisting(items, sorted, i);
    }
    forall i, j | i in f && j in f && f[i] == f[j]
      ensures i == j
    {
      if i < j {
        ClaimsAreDistinct(items, sorted, i, j);
      } else if j < i {
        ClaimsAreDistinct(items, sorted, j, i);
      }
    }
  }

  function Image(f: map<nat, int>, dom: set<nat>): set<int>
    requires dom <= f.Keys
  {
    set a | a in dom :: f[a]
  }

  predicate IsOneToOne(f: map<nat, int>) {
    forall i, j | i in f && j in f && f[i] == f[j] :: i == j
  }

  lemma ImageSize(f: map<nat, int>, dom: set<nat>)
    requires IsOneToOne(f) && dom <= f.Keys
    ensures |Image(f, dom)| == |dom|
  {
    InjectiveImage(f, dom);
  }

  /** Comparing two one-to-one maps part by part. */
  lemma SplitSizes(f: map<nat, int>, g: map<nat, int>, partF: set<nat>, partG: set<nat>)
    requires IsOneToOne(f) && IsOneToOne(g) && partF <= f.Keys && partG <= g.Keys
    requires Image(f, partF) <= Image(g, partG) && f.Keys - partF <= g.Keys - partG
    ensures |f| <= |g|
  {
    ImageSize(f, partF);
    ImageSize(g, partG);
    hide Image, IsOneToOne;
    SubsetSize(Image(f, partF), Image(g, partG));
    SubsetSize(f.Keys - partF, g.Keys - partG);
    PartsAddUp(partF, f.Keys);
    PartsAddUp(partG, g.Keys);
    assert |f| == |f.Keys| && |g| == |g.Keys|;
  }

  /** As many existing identities as possible are kept. */
  lemma ReuseIsMaximum(items: seq<Item>, sorted: seq<Row>, f: map<nat, int>)
    requires DistinctIds(sorted) && IsReuse(items, sorted, f)
    ensures |f| <= |ClaimedIds(items, sorted)|
  {
    hide Claim, Exhausted, IsReuse, Reusers;
    var claims := ClaimedIds(items, sorted);
    ClaimsAreReuse(items, sorted);
    ReuseFacts(items, sorted, claims);
    ReuseFacts(items, sorted, f);
    var scarce := set i | i in f && Exhausted(items, sorted, ItemKey(items[i]));
    var scarceClaims := set i | i in claims && Exhausted(items, sorted, ItemKey(items[i]));
    forall id | id in Image(f, scarce)
      ensures id in Image(claims, scarceClaims)
    {
      var i :| i in scarce && f[i] == id;
      ScarceRowIsKept(items, sorted, f, i);
      var k: nat :| k in Reusers(items, sorted) && Exhausted(items, sorted, ItemKey(items[k])) && claims[k] == f[i];
      assert k in scarceClaims;
    }
    forall i | i in f.Keys - scarce
      ensures i in claims.Keys - scarceClaims
    {
      PlentyIsReused(items, sorted, i);
    }
    SplitSizes(f, claims, scarce, scarceClaims);
  }

  lemma ScarceRowIsKept(items: seq<Item>, sorted: seq<Row>, f: map<nat, int>, i: nat)
    requires DistinctIds(sorted) && IsReuse(items, sorted, f) && i in f && Exhausted(items, sorted, ItemKey(items[i]))
    ensures exists k: nat :: k in Reusers(items, sorted) && Exhausted(items, sorted, ItemKey(items[k]))
                             && ClaimedIds(items, sorted)[k] == f[i]
  {
    var r :| r in sorted && r.id == f[i] && RowKey(r) == ItemKey(items[i]);
    var j: nat :| j < |sorted| && sorted[j] == r;
    RowAtRank(sorted, j);
    ClaimedByRank(items, sorted, j);
    var k: nat :| k < |items| && Claim(items, sorted, k) == Some(sorted[j]);
    ClaimIsExisting(items, sorted, k);
    assert k in Reusers(items, sorted) && ClaimedIds(items, sorted)[k] == f[i];
  }

  lemma PlentyIsReused(items: seq<Item>, sorted: seq<Row>, i: nat)
    requires i < |items| && !Exhausted(items, sorted, ItemKey(items[i]))
    ensures i in Reusers(items, sorted)
  {
    ItemsWithGrows(items, i, ItemKey(items[i]));
  }

  lemma ReuseFacts(items: seq<Item>, sorted: seq<Row>, f: map<nat, int>)
    requires IsReuse(items, sorted, f)
    ensures IsOneToOne(f) && forall i | i in f :: i < |items|
    ensures forall i | i in Reusers(items, sorted) :: i < |items|
  {
  }
}

/** The refresh code itself. */
module ItemRefresh {
  import opened Options
  import opened ItemRows

  datatype Rule = Rule(category: string, id: nat)

  datatype Decision = Decision(category: string, source: string, rationale: string, confident: bool)

  /** Text matching and keyword decisions, as given functions. */
  datatype TextModel = TextModel(matches: (Rule, Row) -> bool, product: Row -> Decision, section: string -> Decision)

  /** A category that automation must leave alone. */
  predicate Settled(r: Row) {
    || !(r.category == None || r.category == Some("") || r.category == Some("Uncategorized"))
    || r.source == Some("manual") || r.rationale == Some("human-approved category override")
  }

  lemma SettledMeans(r: Row)
    ensures Settled(r) <==>
            || (r.category.Some? && r.category.value != "" && r.category.value != "Uncategorized")
            || r.source == Some("manual") || r.rationale == Some("human-approved category override")
  {
  }

  /** Rule `k` is the first approved rule that names an active category and matches. */
  predicate IsFirstRule(k: int, r: Row, rules: seq<Rule>, active: set<string>, text: TextModel) {
    && 0 <= k < |rules| && rules[k].category in active && text.matches(rules[k], r)
    && forall l | 0 <= l < k :: rules[l].category !in active || !text.matches(rules[l], r)
  }

  predicate NoRule(r: Row, rules: seq<Rule>, active: set<string>, text: TextModel) {
    forall k | 0 <= k < |rules| :: rules[k].category !in active || !text.matches(rules[k], r)
  }

  method FirstRule(r: Row, rules: seq<Rule>, active: set<string>, text: TextModel) returns (rule: Option<Rule>)
    ensures rule.Some? ==> exists k :: IsFirstRule(k, r, rules, active, text) && rules[k] == rule.value
    ensures rule.None? <==> NoRule(r, rules, active, text)
  {
    for k := 0 to |rules|
      invariant forall l | 0 <= l < k :: rules[l].category !in active || !text.matches(rules[l], r)
    {
      if rules[k].category in active && text.matches(rules[k], r) {
        assert IsFirstRule(k, r, rules, active, text);
        return Some(rules[k]);
      }
    }
    rule := None;
  }

  /** A confident decision for an active category. */
  predicate Usable(d: Decision, active: set<string>) {
    d.category in active && d.confident
  }

  /**
   The decision a row should get: none when its category is settled; else that of the first rule; else the
   product's; else the printed section's, which only supports.
   */
  ghost predicate IsDecision(decision: Option<Decision>, r: Row, department: string, rules: seq<Rule>,
                             active: set<string>, text: TextModel)
  {
    if Settled(r) then decision == None
    else if !NoRule(r, rules, active, text) then
      exists k :: IsFirstRule(k, r, rules, active, text)
               && decision == Some(Decision(rules[k].category, "rule", "approved category rule", true))
    else if Usable(text.product(r), active) then decision == Some(text.product(r))
    else if department != "" && Usable(text.section(department), active) then
      decision.Some? && decision.value.category == text.section(department).category
      && decision.value.source == text.section(department).source && decision.value.confident
      && decision.value.rationale == "printed section supports " + text.section(department).rationale
    else decision == None
  }

  /** `category_for_product`: rules first, then the product, then the printed section. */
  method CategoryForProduct(r: Row, department: string, rules: seq<Rule>, active: set<string>, text: TextModel)
    returns (decision: Option<Decision>)
    ensures IsDecision(decision, r, department, rules, active, text)
    ensures decision.Some? ==> decision.value.category in active
    ensures decision == None <==>
            || (r.category.Some? && r.category.value != "" && r.category.value != "Uncategorized")
            || r.source == Some("manual") || r.rationale == Some("human-approved category override")
            || (NoRule(r, rules, active, text) && !Usable(text.product(r), active)
                && (department == "" || !Usable(text.section(department), active)))
    // The first matching active rule goes before a confident product, and that before a confident section.
    ensures decision.Some? ==>
              forall k | IsFirstRule(k, r, rules, active, text) ::
                decision == Some(Decision(rules[k].category, "rule", "approved category rule", true))
    ensures decision.Some? && NoRule(r, rules, active, text) && Usable(text.product(r), active) ==>
              decision == Some(text.product(r))
    ensures decision.Some? && NoRule(r, rules, active, text) && !Usable(text.product(r), active) ==>
              decision.value.category == text.section(department).category
              && decision.value.rationale == "printed section supports " + text.section(department).rationale
  {
    if Settled(r) {
      return None;
    }
    var rule := FirstRule(r, rules, active, text);
    if rule.Some? {
      return Some(Decision(rule.value.category, "rule", "approved category rule", true));
    }
    var product := text.product(r);
    if product.category in active && product.confident {
      return Some(product);
    }
    if department != "" {
      var section := text.section(department);
      if section.category in active && section.confident {
        return Some(section.(rationale := "printed section supports " + section.rationale));
      }
    }
    decision := None;
  }

  function Categorized(row: Row, decision: Option<Decision>): Row {
    if decision == None then row
    else row.(category := Some(decision.value.category), source := Some(decision.value.source),
              rationale := Some(decision.value.rationale))
  }

  /** `row` is `before` with the category it should get. */
  ghost predicate IsCategorized(row: Row, before: Row, department: string, rules: seq<Rule>, active: set<string>,
                                text: TextModel)
  {
    exists d :: IsDecision(d, before, department, rules, active, text) && row == Categorized(before, d)
  }

  function Get(m: map<Key, nat>, k: Key): nat {
    if k in m then m[k] else 0
  }

  /** The counter after subtracting a row for each earlier row of its key, never below zero. */
  ghost predicate CountsLeft(available: map<Key, nat>, items: seq<Item>, rows: seq<Row>) {
    forall k :: Get(available, k) ==
      if ItemsWith(items, k) >= |RowsWith(rows, k)| then ItemsWith(items, k) - |RowsWith(rows, k)| else 0
  }

  lemma OneMoreRow(available: map<Key, nat>, items: seq<Item>, rows: seq<Row>, row: Row)
    requires CountsLeft(available, items, rows)
    ensures var k := RowKey(row);
            && CountsLeft(if Get(available, k) > 0 then available[k := available[k] - 1] else available, items,
                          rows + [row])
            && (Get(available, k) > 0 <==> |RowsWith(rows, k)| < ItemsWith(items, k))
  {
    var k := RowKey(row);
    assert (rows + [row])[..|rows|] == rows;
    var after := if Get(available, k) > 0 then available[k := available[k] - 1] else available;
    forall l
      ensures Get(after, l) ==
        if ItemsWith(items, l) >= |RowsWith(rows + [row], l)| then ItemsWith(items, l) - |RowsWith(rows + [row], l)|
          else 0
    {
      assert Get(available, l) ==
        if ItemsWith(items, l) >= |RowsWith(rows, l)| then ItemsWith(items, l) - |RowsWith(rows, l)| else 0;
    }
  }

  method CountItems(items: seq<Item>) returns (available: map<Key, nat>)
    ensures CountsLeft(available, items, [])
  {
    available := map[];
    for i := 0 to |items|
      invariant CountsLeft(available, items[..i], [])
    {
      hide CountsLeft;
      var k := ItemKey(items[i]);
      assert items[..i + 1] == items[..i] + [items[i]];
      available := available[k := Get(available, k) + 1];
    }
    assert items[..|items|] == items;
  }

  /** The guard, as it decrements its counter. */
  method UnmatchedReviewed(items: seq<Item>, existing: seq<Row>) returns (unmatched: bool)
    ensures unmatched == Unmatched(items, ReviewedFirst(existing))
  {
    hide CountsLeft, ItemsWith, RowsWith, ReviewedFirst;
    var available := CountItems(items);
    var sorted := ReviewedFirst(existing);
    assert sorted[..0] == [];
    for j := 0 to |sorted|
      invariant CountsLeft(available, items, sorted[..j])
      invariant forall l | 0 <= l < j && Reviewed(sorted[l]) :: Rank(sorted, l) < ItemsWith(items, RowKey(sorted[l]))
    {
      var row := sorted[j];
      var k := RowKey(row);
      assert sorted[..j + 1] == sorted[..j] + [row];
      OneMoreRow(available, items, sorted[..j], row);
      if Get(available, k) > 0 {
        available := available[k := available[k] - 1];
      } else if Reviewed(row) {
        return true;
      }
    }
    unmatched := false;
  }

  // The deques of `persist_items`.

  function Queue(m: map<Key, seq<Row>>, k: Key): seq<Row> {
    if k in m then m[k] else []
  }

  /** What is left of each key's deque after these items. */
  ghost predicate RowsLeft(available: map<Key, seq<Row>>, items: seq<Item>, sorted: seq<Row>) {
    forall k :: Queue(available, k) ==
      if ItemsWith(items, k) <= |RowsWith(sorted, k)| then RowsWith(sorted, k)[ItemsWith(items, k)..] else []
  }

  lemma NextClaim(available: map<Key, seq<Row>>, items: seq<Item>, sorted: seq<Row>, i: nat)
    requires i < |items| && RowsLeft(available, items[..i], sorted)
    ensures var k := ItemKey(items[i]);
            var q := Queue(available, k);
            && Claim(items, sorted, i) == (if q == [] then None else Some(q[0]))
            && RowsLeft(if q == [] then available else available[k := q[1..]], items[..i + 1], sorted)
  {
    var k := ItemKey(items[i]);
    var q := Queue(available, k);
    var after := if q == [] then available else available[k := q[1..]];
    assert items[..i + 1][..i] == items[..i];
    forall l
      ensures Queue(after, l) ==
        if ItemsWith(items[..i + 1], l) <= |RowsWith(sorted, l)|
          then RowsWith(sorted, l)[ItemsWith(items[..i + 1], l)..] else []
    {
      assert Queue(available, l) ==
        if ItemsWith(items[..i], l) <= |RowsWith(sorted, l)| then RowsWith(sorted, l)[ItemsWith(items[..i], l)..]
          else [];
    }
  }

  ghost predicate IsDeques(available: map<Key, seq<Row>>, rows: seq<Row>) {
    forall k :: Queue(available, k) == RowsWith(rows, k)
  }

  lemma OneMoreInDeque(available: map<Key, seq<Row>>, rows: seq<Row>, row: Row)
    requires IsDeques(available, rows)
    ensures IsDeques(available[RowKey(row) := Queue(available, RowKey(row)) + [row]], rows + [row])
  {
    assert (rows + [row])[..|rows|] == rows;
    var after := available[RowKey(row) := Queue(available, RowKey(row)) + [row]];
    forall k
      ensures Queue(after, k) == RowsWith(rows + [row], k)
    {
      assert Queue(available, k) == RowsWith(rows, k);
    }
  }

  method Deques(sorted: seq<Row>) returns (available: map<Key, seq<Row>>)
    ensures RowsLeft(available, [], sorted)
  {
    available := map[];
    for j := 0 to |sorted|
      invariant IsDeques(available, sorted[..j])
    {
      hide IsDeques;
      var k := RowKey(sorted[j]);
      assert sorted[..j + 1] == sorted[..j] + [sorted[j]];
      OneMoreInDeque(available, sorted[..j], sorted[j]);
      available := available[k := Queue(available, k) + [sorted[j]]];
    }
    assert sorted[..|sorted|] == sorted;
  }

  predicate SameIdentity(r: Row, s: Row) {
    r.id == s.id && RowKey(r) == RowKey(s) && r.description == s.description && r.url == s.url
  }

  /** The rows of one receipt. */
  class ItemTable {
    var rows: map<int, Row>
    var nextId: int

    ghost predicate Valid()
      reads this
    {
      forall id | id in rows :: rows[id].id == id && id < nextId
    }

    predicate Holds(existing: seq<Row>)
      reads this
    {
      && (forall r | r in existing :: r.id in rows && rows[r.id] == r)
      && (forall id | id in rows :: rows[id] in existing)
    }

    method Insert(item: Item) returns (row: Row)
      requires Valid()
      modifies this
      ensures Valid() && row.id == old(nextId) && row.id !in old(rows) && rows == old(rows)[row.id := row]
      ensures row == Row(row.id, item.name, item.amount, None, None, None, "", "")
    {
      row := Row(nextId, item.name, item.amount, None, None, None, "", "");
      rows := rows[nextId := row];
      nextId := nextId + 1;
    }

    /** `apply_category`: at most the category fields change, and never of a settled row. */
    method ApplyCategory(row: Row, department: string, rules: seq<Rule>, active: set<string>, text: TextModel)
      requires Valid() && row.id in rows && rows[row.id] == row
      modifies this`rows
      ensures Valid() && rows.Keys == old(rows).Keys
      ensures forall id | id in rows && id != row.id :: rows[id] == old(rows)[id]
      ensures IsCategorized(rows[row.id], row, department, rules, active, text)
      ensures SameIdentity(rows[row.id], row) && (Settled(row) ==> rows[row.id] == row)
    {
      var decision := CategoryForProduct(row, department, rules, active, text);
      if decision.Some? {
        rows := rows[row.id := row.(category := Some(decision.value.category), source := Some(decision.value.source),
                                    rationale := Some(decision.value.rationale))];
      }
      assert rows[row.id] == Categorized(row, decision);
    }

    /**
     `persist_items`: afterwards the rows are exactly the new items, one each; existing rows keep identity and
     settled category; and a reviewed row is deleted exactly when the guard had objected.
     */
    method PersistItems(items: seq<Item>, existing: seq<Row>, rules: seq<Rule>, active: set<string>, text: TextModel)
      returns (owner: seq<int>)
      requires Valid() && DistinctIds(existing) && Holds(existing)
      modifies this
      ensures Valid() && |owner| == |items|
      ensures forall i, j | 0 <= i < j < |owner| :: owner[i] != owner[j]
      ensures forall id :: id in rows <==> id in owner
      ensures forall i | 0 <= i < |items| :: owner[i] in rows && RowKey(rows[owner[i]]) == ItemKey(items[i])
      ensures forall i | 0 <= i < |items| :: IsOwner(owner[i], Claim(items, ReviewedFirst(existing), i), old(rows))
      ensures forall i | 0 <= i < |items| ::
                IsCategorized(rows[owner[i]], StartRow(owner[i], items[i], old(rows)), items[i].department, rules,
                              active, text)
      ensures forall r | r in existing && r.id in rows ::
                SameIdentity(rows[r.id], r) && (Settled(r) ==> rows[r.id] == r)
      ensures forall r | r in existing && r.id in rows &&
                         (r.source == Some("manual") || r.rationale == Some("human-approved category override")
                          || (r.category.Some? && r.category.value != "" && r.category.value != "Uncategorized")) ::
                rows[r.id] == r
      ensures (exists r :: r in existing && Reviewed(r) && r.id !in rows) <==> Unmatched(items, ReviewedFirst(existing))
      ensures !Unmatched(items, ReviewedFirst(existing)) ==>
                forall r | r in existing && (r.source == Some("manual") || r.description != "" || r.url != ""
                                             || r.rationale == Some("human-approved category override")) ::
                  r.id in rows
    {
      var sorted := ReviewedFirst(existing);
      ReviewedFirstMembers(existing);
      hide ItemsWith, RowsWith, RowsLeft, Claim, ReviewedFirst, Settled, Progress, SameIdentity, IsCategorized,
        AllCategorized;
      var available := Deques(sorted);
      assert items[..0] == [];
      owner := [];
      ProgressStart(items, existing, rows);
      NoneCategorized(items, rows, rules, active, text);
      for i := 0 to |items|
        invariant Valid() && |owner| == i
        invariant RowsLeft(available, items[..i], sorted)
        invariant Progress(items, existing, old(rows), rows, owner)
        invariant AllCategorized(items, old(rows), rows, owner, rules, active, text)
      {
        var k := ItemKey(items[i]);
        NextClaim(available, items, sorted, i);
        var matches := Queue(available, k);
        var row;
        ghost var before := rows;
        if matches != [] {
          row := matches[0];
          available := available[k := matches[1..]];
          ClaimedRow(items, existing, old(rows), rows, owner, row);
        } else {
          NewRow(items, existing, old(rows), rows, owner, nextId);
          row := Insert(items[i]);
        }
        ghost var inserted := rows;
        ApplyCategory(row, items[i].department, rules, active, text);
        ProgressStep(items, existing, old(rows), before, inserted, rows, owner, row);
        CategorizedStep(items, old(rows), before, inserted, rows, owner, row, rules, active, text);
        owner := owner + [row.id];
      }
      ProgressEnd(items, existing, old(rows), rows, owner);
      forall r: Row {
        SettledMeans(r);
      }
      CategorizedEnd(items, old(rows), rows, owner, rules, active, text);
      rows := map id | id in rows && id in owner :: rows[id];
    }
  }

  /** The rows after the first |owner| items. */
  ghost predicate Progress(items: seq<Item>, existing: seq<Row>, before: map<int, Row>, rows: map<int, Row>,
                           owner: seq<int>) {
    && |owner| <= |items|
    && (forall a, b | 0 <= a < b < |owner| :: owner[a] != owner[b])
    && (forall id | id in before :: id in rows)
    && (forall id | id in rows :: id in before || id in owner)
    && (forall a | 0 <= a < |owner| :: owner[a] in rows && RowKey(rows[owner[a]]) == ItemKey(items[a]))
    && (forall a | 0 <= a < |owner| :: IsOwner(owner[a], Claim(items, ReviewedFirst(existing), a), before))
    && (forall r | r in existing :: r.id in before && SameIdentity(rows[r.id], r) && (Settled(r) ==> rows[r.id] == r))
    && (forall r | r in existing && r.id !in owner :: rows[r.id] == r)
  }

  lemma ProgressStart(items: seq<Item>, existing: seq<Row>, rows: map<int, Row>)
    requires forall r | r in existing :: r.id in rows && rows[r.id] == r
    ensures Progress(items, existing, rows, rows, [])
  {
  }

  /** A row popped from a deque is an existing one that no earlier item owns. */
  lemma ClaimedRow(items: seq<Item>, existing: seq<Row>, before: map<int, Row>, rows: map<int, Row>, owner: seq<int>,
                   row: Row)
    requires DistinctIds(existing) && Progress(items, existing, before, rows, owner) && |owner| < |items|
    requires Claim(items, ReviewedFirst(existing), |owner|) == Some(row)
    ensures row in existing && row.id in rows && rows[row.id] == row && row.id !in owner
    ensures RowKey(row) == ItemKey(items[|owner|])
  {
    var sorted := ReviewedFirst(existing);
    ReviewedFirstMembers(existing);
    ClaimIsExisting(items, sorted, |owner|);
    ClaimIsNew(items, sorted, owner, |owner|, before);
  }

  /** An identity that is not in use was not in use before either, and no item owns it. */
  lemma NewRow(items: seq<Item>, existing: seq<Row>, before: map<int, Row>, rows: map<int, Row>, owner: seq<int>,
               id: int)
    requires Progress(items, existing, before, rows, owner) && id !in rows
    ensures id !in before && id !in owner
  {
  }

  lemma ProgressStep(items: seq<Item>, existing: seq<Row>, before: map<int, Row>, rows: map<int, Row>,
                     inserted: map<int, Row>, rows': map<int, Row>, owner: seq<int>, row: Row)
    requires Progress(items, existing, before, rows, owner) && |owner| < |items|
    requires RowKey(row) == ItemKey(items[|owner|])
    requires var claim := Claim(items, ReviewedFirst(existing), |owner|);
             || (claim == Some(row) && inserted == rows && row in existing && row.id in rows && row.id !in owner
                 && rows[row.id] == row)
             || (claim == None && row.id !in rows && inserted == rows[row.id := row])
    requires DistinctIds(existing)
    requires rows'.Keys == inserted.Keys && (forall id | id in inserted && id != row.id :: rows'[id] == inserted[id])
    requires SameIdentity(rows'[row.id], row) && (Settled(row) ==> rows'[row.id] == row)
    ensures Progress(items, existing, before, rows', owner + [row.id])
  {
    hide Claim, ReviewedFirst, Settled;
    var owner' := owner + [row.id];
    assert row.id !in owner;
    forall r | r in existing
      ensures SameIdentity(rows'[r.id], r) && (Settled(r) ==> rows'[r.id] == r)
      ensures r.id !in owner' ==> rows'[r.id] == r
    {
      if r.id == row.id && row in existing {
        SameIdSameRow(existing, r, row);
      }
    }
  }

  /** What an item's row was before its category was decided: the reused row, or a fresh one. */
  function StartRow(id: int, item: Item, before: map<int, Row>): Row {
    if id in before then before[id] else Row(id, item.name, item.amount, None, None, None, "", "")
  }

  ghost predicate AllCategorized(items: seq<Item>, before: map<int, Row>, rows: map<int, Row>, owner: seq<int>,
                                 rules: seq<Rule>, active: set<string>, text: TextModel)
  {
    && |owner| <= |items|
    && forall a | 0 <= a < |owner| ::
         owner[a] in rows
         && IsCategorized(rows[owner[a]], StartRow(owner[a], items[a], before), items[a].department, rules, active,
                          text)
  }

  lemma NoneCategorized(items: seq<Item>, before: map<int, Row>, rules: seq<Rule>, active: set<string>, text: TextModel)
    ensures AllCategorized(items, before, before, [], rules, active, text)
  {
  }

  lemma CategorizedEnd(items: seq<Item>, before: map<int, Row>, rows: map<int, Row>, owner: seq<int>,
                       rules: seq<Rule>, active: set<string>, text: TextModel)
    requires AllCategorized(items, before, rows, owner, rules, active, text) && |owner| == |items|
    ensures forall i | 0 <= i < |items| ::
              owner[i] in rows
              && IsCategorized(rows[owner[i]], StartRow(owner[i], items[i], before), items[i].department, rules,
                               active, text)
  {
  }

  lemma CategorizedStep(items: seq<Item>, before: map<int, Row>, rows: map<int, Row>, inserted: map<int, Row>,
                        rows': map<int, Row>, owner: seq<int>, row: Row, rules: seq<Rule>, active: set<string>,
                        text: TextModel)
    requires AllCategorized(items, before, rows, owner, rules, active, text)
    requires |owner| < |items| && row.id !in owner
             && (inserted == rows || (row.id !in rows && inserted == rows[row.id := row]))
    requires rows'.Keys == inserted.Keys && (forall id | id in inserted && id != row.id :: rows'[id] == inserted[id])
    requires row.id in rows' && row == StartRow(row.id, items[|owner|], before)
    requires IsCategorized(rows'[row.id], row, items[|owner|].department, rules, active, text)
    ensures AllCategorized(items, before, rows', owner + [row.id], rules, active, text)
  {
    hide IsCategorized, StartRow;
    forall a | 0 <= a < |owner|
      ensures rows'[owner[a]] == rows[owner[a]]
    {
      assert owner[a] in inserted && owner[a] != row.id;
    }
  }

  lemma ProgressEnd(items: seq<Item>, existing: seq<Row>, before: map<int, Row>, rows: map<int, Row>, owner: seq<int>)
    requires DistinctIds(existing) && Progress(items, existing, before, rows, owner) && |owner| == |items|
    ensures forall i, j | 0 <= i < j < |owner| :: owner[i] != owner[j]
    ensures forall id | id in owner :: id in rows
    ensures forall i | 0 <= i < |items| :: owner[i] in rows && RowKey(rows[owner[i]]) == ItemKey(items[i])
    ensures forall i | 0 <= i < |items| :: IsOwner(owner[i], Claim(items, ReviewedFirst(existing), i), before)
    ensures forall r | r in existing :: r.id in rows && SameIdentity(rows[r.id], r) && (Settled(r) ==> rows[r.id] == r)
    ensures (exists r :: r in existing && Reviewed(r) && r.id !in owner) <==> Unmatched(items, ReviewedFirst(existing))
  {
    hide Claim, ReviewedFirst, Settled, Unmatched;
    DeletedExactly(items, existing, owner, before);
  }

  /** A reused row keeps its identity; an inserted one gets a new identity. */
  predicate IsOwner(id: int, claim: Option<Row>, before: map<int, Row>) {
    if claim.Some? then id == claim.value.id else id !in before
  }

  lemma ClaimIsNew(items: seq<Item>, sorted: seq<Row>, owner: seq<int>, i: nat, before: map<int, Row>)
    requires i < |items| && |owner| == i && DistinctIds(sorted) && Claim(items, sorted, i).Some?
    requires forall a | 0 <= a < i :: IsOwner(owner[a], Claim(items, sorted, a), before)
    requires Claim(items, sorted, i).value.id in before
    ensures Claim(items, sorted, i).value.id !in owner
  {
    hide Claim;
    forall a | 0 <= a < i
      ensures owner[a] != Claim(items, sorted, i).value.id
    {
      if Claim(items, sorted, a).Some? {
        ClaimsAreDistinct(items, sorted, a, i);
      }
    }
  }

  lemma DeletedExactly(items: seq<Item>, existing: seq<Row>, owner: seq<int>, before: map<int, Row>)
    requires DistinctIds(existing) && |owner| == |items|
    requires forall r | r in existing :: r.id in before
    requires forall i | 0 <= i < |items| :: IsOwner(owner[i], Claim(items, ReviewedFirst(existing), i), before)
    ensures (exists r :: r in existing && Reviewed(r) && r.id !in owner) <==> Unmatched(items, ReviewedFirst(existing))
  {
    var sorted := ReviewedFirst(existing);
    ReviewedFirstMembers(existing);
    GuardIsExact(items, existing);
    hide Claim, ReviewedFirst, Unmatched, Reviewed;
    forall r | r in existing
      ensures r.id in owner <==> IsClaimed(items, sorted, r)
    {
      if i :| 0 <= i < |items| && Claim(items, sorted, i) == Some(r) {
        assert owner[i] == r.id;
      }
      if r.id in owner {
        var i: nat :| i < |owner| && owner[i] == r.id;
        assert Claim(items, sorted, i).Some?;
        ClaimIsExisting(items, sorted, i);
        SameIdSameRow(existing, r, Claim(items, sorted, i).value);
      }
    }
  }
}
