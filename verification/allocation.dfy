/**
 Cent-exact allocation of a receipt's charged total over its lines: half-up
 rounding of every share, with the residual placed on the largest line.
 All amounts are whole cents.
 */
module Rounding {

  function Abs(x: int): int {
    if x < 0 then -x else x
  }

  /** The fraction p / q rounded to a whole number, halves away from zero. */
  function HalfUp(p: int, q: int): int
    requires q != 0
  {
    var r := (2 * Abs(p) + Abs(q)) / (2 * Abs(q));
    if (p < 0) == (q < 0) then r else -r
  }

  /** `r` is a nearest whole number to p / q, and of two nearest ones the larger in size. */
  predicate IsNearest(p: int, q: int, r: int) {
    && 2 * Abs(q * r - p) <= Abs(q)
    && (2 * Abs(q * r - p) == Abs(q) ==> Abs(q * r) > Abs(p))
  }

  /** Rounding the sizes: the remainder of the division is what separates r from the fraction. */
  lemma HalfUpOfSizes(a: int, b: int)
    requires a >= 0 && b > 0
    ensures var r := (2 * a + b) / (2 * b);
            r >= 0 && -b < 2 * (b * r) - 2 * a <= b
  {
    var n, d := 2 * a + b, 2 * b;
    var r := n / d;
    assert n == d * r + n % d;
    assert d * r == 2 * (b * r);
  }

  lemma SignedProduct(q: int, r: int)
    ensures q * r == if q < 0 then -(Abs(q) * r) else Abs(q) * r
    ensures q * (-r) == -(q * r)
  {
    assert q * r + (-q) * r == 0;
  }

  lemma HalfUpIsNearest(p: int, q: int)
    requires q != 0
    ensures IsNearest(p, q, HalfUp(p, q))
  {
    var a, b := Abs(p), Abs(q);
    var r := (2 * a + b) / (2 * b);
    HalfUpOfSizes(a, b);
    SignedProduct(q, r);
    NearestFromSizes(p, q, HalfUp(p, q), b * r);
  }

  lemma NearestFromSizes(p: int, q: int, h: int, x: int)
    requires q != 0 && q * h == (if p < 0 then -x else x)
    requires -Abs(q) < 2 * x - 2 * Abs(p) <= Abs(q)
    ensures IsNearest(p, q, h)
  {
  }

  lemma ProductSign(a: int, b: int)
    requires a >= 0 && b >= 0
    ensures a * b >= 0
  {
  }

  lemma AbsOfProduct(q: int, k: int)
    requires k != 0
    ensures Abs(q * k) >= Abs(q)
  {
    var a, c := Abs(q), Abs(k);
    ProductSign(a, c - 1);
    assert a * c == a * (c - 1) + a;
    assert q * k == if (q < 0) == (k < 0) then a * c else -(a * c) by {
      if q < 0 && k < 0 {
        assert a * c == (-q) * (-k);
      } else if q < 0 {
        assert a * c == (-q) * k;
      } else if k < 0 {
        assert a * c == q * (-k);
      }
    }
  }

  /** Two multiples of a number that both lie nearest to p, the larger in size on a tie, coincide. */
  lemma NearestMultiple(p: int, b: int, x: int, y: int)
    requires b > 0 && (x == 0 || Abs(x) >= b) && (y == 0 || Abs(y) >= b) && (x == y || Abs(x - y) >= b)
    requires 2 * Abs(x - p) <= b && (2 * Abs(x - p) == b ==> Abs(x) > Abs(p))
    requires 2 * Abs(y - p) <= b && (2 * Abs(y - p) == b ==> Abs(y) > Abs(p))
    ensures x == y
  {
  }

  /** There is only one such number. */
  lemma NearestIsUnique(p: int, q: int, r: int, s: int)
    requires q != 0 && IsNearest(p, q, r) && IsNearest(p, q, s)
    ensures r == s
  {
    var x, y := q * r, q * s;
    if r != 0 { AbsOfProduct(q, r); }
    if s != 0 { AbsOfProduct(q, s); }
    if r != s {
      AbsOfProduct(q, r - s);
      assert q * (r - s) == x - y;
      NearestMultiple(p, Abs(q), x, y);
    }
  }
}

module Allocation {
  import opened Options
  import opened Rounding

  function Sum(xs: seq<int>): int {
    if xs == [] then 0 else Sum(xs[..|xs| - 1]) + xs[|xs| - 1]
  }

  lemma EmptySum()
    ensures Sum([]) == 0
  {
  }

  lemma SumAppend(xs: seq<int>, x: int)
    ensures Sum(xs + [x]) == Sum(xs) + x
  {
    assert (xs + [x])[..|xs|] == xs;
  }

  lemma {:induction false} SumUpdate(xs: seq<int>, k: nat, x: int)
    requires k < |xs|
    ensures Sum(xs[k := x]) == Sum(xs) - xs[k] + x
  {
    var ys := xs[k := x];
    if k == |xs| - 1 {
      assert ys[..k] == xs[..k];
    } else {
      SumUpdate(xs[..|xs| - 1], k, x);
      assert ys[..|ys| - 1] == xs[..|xs| - 1][k := x];
    }
  }

  /** The receipt's charge, or the order total when the charge is missing or zero. */
  function ChargedTotal(receiptCharge: Option<int>, orderTotal: Option<int>): (charged: Option<int>)
    ensures receiptCharge == None || receiptCharge == Some(0) ==> charged == orderTotal
    ensures receiptCharge.Some? && receiptCharge.value != 0 ==> charged == receiptCharge
  {
    if receiptCharge.Some? && receiptCharge.value != 0 then receiptCharge else orderTotal
  }

  /** Every share rounded on its own. */
  function Shares(amounts: seq<int>, charged: int): seq<int>
    requires Sum(amounts) != 0
  {
    seq(|amounts|, i requires 0 <= i < |amounts| => HalfUp(amounts[i] * charged, Sum(amounts)))
  }

  /** The first index of the largest amount. */
  predicate IsLargest(amounts: seq<int>, largest: nat) {
    && largest < |amounts|
    && (forall i | 0 <= i < |amounts| :: amounts[i] <= amounts[largest])
    && (forall i | 0 <= i < largest :: amounts[i] < amounts[largest])
  }

  /** The rounding errors of the shares before `k`, leaving out `skip`, in units of 1 / total cents. */
  function Drift(amounts: seq<int>, shares: seq<int>, charged: int, total: int, skip: int, k: nat): int
    requires k <= |amounts| == |shares|
  {
    if k == 0 then 0
    else Drift(amounts, shares, charged, total, skip, k - 1)
         + if k - 1 == skip then 0 else shares[k - 1] * total - amounts[k - 1] * charged
  }

  lemma {:induction false} DriftIsSum(amounts: seq<int>, shares: seq<int>, charged: int, total: int, skip: int, k: nat)
    requires k <= |amounts| == |shares|
    ensures Drift(amounts, shares, charged, total, skip, k) ==
            Sum(shares[..k]) * total - Sum(amounts[..k]) * charged
            - if 0 <= skip < k then shares[skip] * total - amounts[skip] * charged else 0
  {
    hide Sum;
    if k == 0 {
      EmptySum();
      assert shares[..0] == [] && amounts[..0] == [];
    } else {
      DriftIsSum(amounts, shares, charged, total, skip, k - 1);
      assert shares[..k] == shares[..k - 1] + [shares[k - 1]] && amounts[..k] == amounts[..k - 1] + [amounts[k - 1]];
      SumAppend(shares[..k - 1], shares[k - 1]);
      SumAppend(amounts[..k - 1], amounts[k - 1]);
      Distribute(Sum(shares[..k - 1]), shares[k - 1], 0, total);
      Distribute(Sum(amounts[..k - 1]), amounts[k - 1], 0, charged);
    }
  }

  lemma {:induction false} DriftIsSmall(amounts: seq<int>, charged: int, skip: int, k: nat)
    requires Sum(amounts) != 0 && k <= |amounts|
    ensures 2 * Abs(Drift(amounts, Shares(amounts, charged), charged, Sum(amounts), skip, k))
            <= (k - if 0 <= skip < k then 1 else 0) * Abs(Sum(amounts))
  {
    var total, shares := Sum(amounts), Shares(amounts, charged);
    if k > 0 {
      DriftIsSmall(amounts, charged, skip, k - 1);
      HalfUpIsNearest(amounts[k - 1] * charged, total);
      var n := k - 1 - if 0 <= skip < k - 1 then 1 else 0;
      assert (n + 1) * Abs(total) == n * Abs(total) + Abs(total);
      assert shares[k - 1] * total == total * shares[k - 1];
    }
  }

  /** A share is within half a cent of its exact proportion. */
  predicate WithinHalfCent(share: int, amount: int, charged: int, total: int) {
    2 * Abs(share * total - amount * charged) <= Abs(total)
  }

  /** A share is within half a cent of its exact proportion for each of `others` other shares. */
  predicate WithinHalfCents(share: int, amount: int, charged: int, total: int, others: int) {
    2 * Abs(share * total - amount * charged) <= others * Abs(total)
  }

  lemma Distribute(a: int, b: int, c: int, t: int)
    ensures (a + b - c) * t == a * t + b * t - c * t
  {
  }

  /** What the residual does to the largest share. */
  lemma ResidualIsBounded(amounts: seq<int>, charged: int, largest: nat)
    requires Sum(amounts) != 0 && largest < |amounts|
    ensures var shares := Shares(amounts, charged);
            WithinHalfCents(shares[largest] + charged - Sum(shares), amounts[largest], charged, Sum(amounts),
                            |amounts| - 1)
  {
    hide Shares, Drift, Sum;
    var total, shares, n := Sum(amounts), Shares(amounts, charged), |amounts|;
    SharesLength(amounts, charged);
    DriftIsSum(amounts, shares, charged, total, largest, n);
    DriftIsSmall(amounts, charged, largest, n);
    assert shares[..n] == shares && amounts[..n] == amounts;
    Distribute(shares[largest], charged, Sum(shares), total);
    assert charged * total == total * charged;
    var drift := Drift(amounts, shares, charged, total, largest, n);
    assert (shares[largest] + charged - Sum(shares)) * total - amounts[largest] * charged == -drift;
  }

  lemma SharesLength(amounts: seq<int>, charged: int)
    requires Sum(amounts) != 0
    ensures |Shares(amounts, charged)| == |amounts|
  {
  }

  lemma SharesAreNear(amounts: seq<int>, charged: int)
    requires Sum(amounts) != 0
    ensures forall i | 0 <= i < |amounts| ::
              WithinHalfCent(Shares(amounts, charged)[i], amounts[i], charged, Sum(amounts))
  {
    hide HalfUp, Sum, WithinHalfCent;
    forall i | 0 <= i < |amounts|
      ensures WithinHalfCent(Shares(amounts, charged)[i], amounts[i], charged, Sum(amounts))
    {
      ShareIsNear(amounts[i], charged, Sum(amounts));
    }
  }

  lemma ShareIsNear(amount: int, charged: int, total: int)
    requires total != 0
    ensures WithinHalfCent(HalfUp(amount * charged, total), amount, charged, total)
  {
    hide HalfUp;
    var share := HalfUp(amount * charged, total);
    HalfUpIsNearest(amount * charged, total);
    assert share * total == total * share;
  }

  method Largest(amounts: seq<int>) returns (largest: nat)
    requires amounts != []
    ensures IsLargest(amounts, largest)
  {
    largest := 0;
    for i := 1 to |amounts|
      invariant largest < i && largest < |amounts|
      invariant forall j | 0 <= j < i :: amounts[j] <= amounts[largest]
      invariant forall j | 0 <= j < largest :: amounts[j] < amounts[largest]
    {
      if amounts[i] > amounts[largest] {
        largest := i;
      }
    }
  }

  /** An allocation is possible: some charge is known and the lines do not cancel out. */
  predicate CanAllocate(amounts: seq<int>, charged: Option<int>) {
    charged.Some? && Sum(amounts) != 0
  }

  /** Rounded shares everywhere but at `largest`, and how far every amount is from its exact proportion. */
  predicate IsProportional(amounts: seq<int>, charged: int, report: seq<int>, largest: nat) {
    && Sum(amounts) != 0 && largest < |amounts| == |report|
    && (forall i | 0 <= i < |amounts| && i != largest ::
          IsNearest(amounts[i] * charged, Sum(amounts), report[i])
          && WithinHalfCent(report[i], amounts[i], charged, Sum(amounts)))
    && WithinHalfCents(report[largest], amounts[largest], charged, Sum(amounts), |amounts| - 1)
  }

  /**
   The reported amounts sum exactly to the charge; each share is within half a cent of its proportion,
   the largest, which takes the residual, within half a cent for each other share.
   */
  method Allocate(amounts: seq<int>, charged: Option<int>) returns (report: seq<int>)
    ensures |report| == |amounts|
    ensures CanAllocate(amounts, charged) ==> Sum(report) == charged.value
    ensures CanAllocate(amounts, charged) ==>
              exists largest :: IsLargest(amounts, largest) && IsProportional(amounts, charged.value, report, largest)
    ensures !CanAllocate(amounts, charged) ==> report == amounts
  {
    hide HalfUp, IsProportional, Sum;
    var total := 0;
    assert Sum(amounts[..0]) == 0 by { EmptySum(); }
    for i := 0 to |amounts|
      invariant total == Sum(amounts[..i])
    {
      assert amounts[..i + 1] == amounts[..i] + [amounts[i]];
      SumAppend(amounts[..i], amounts[i]);
      total := total + amounts[i];
    }
    assert amounts[..|amounts|] == amounts;
    if charged == None || total == 0 {
      return amounts;
    }
    report := [];
    var reportTotal := 0;
    EmptySum();
    for i := 0 to |amounts|
      invariant report == Shares(amounts, charged.value)[..i]
      invariant reportTotal == Sum(report)
    {
      var share := HalfUp(amounts[i] * charged.value, total);
      SumAppend(report, share);
      report := report + [share];
      reportTotal := reportTotal + share;
    }
    var shares := report;
    assert shares == Shares(amounts, charged.value);
    var largest := Largest(amounts);
    SumUpdate(shares, largest, shares[largest] + charged.value - reportTotal);
    ResidualIsProportional(amounts, charged.value, largest);
    report := report[largest := report[largest] + (charged.value - reportTotal)];
  }

  lemma ResidualIsProportional(amounts: seq<int>, charged: int, largest: nat)
    requires Sum(amounts) != 0 && largest < |amounts|
    ensures var shares := Shares(amounts, charged);
            IsProportional(amounts, charged, shares[largest := shares[largest] + (charged - Sum(shares))], largest)
  {
    hide Sum, IsNearest, WithinHalfCent, WithinHalfCents, HalfUp;
    SharesAreNear(amounts, charged);
    ResidualIsBounded(amounts, charged, largest);
    forall i | 0 <= i < |amounts|
      ensures IsNearest(amounts[i] * charged, Sum(amounts), Shares(amounts, charged)[i])
    {
      HalfUpIsNearest(amounts[i] * charged, Sum(amounts));
    }
  }

  /** The report meets the charge exactly when an allocation is possible or there is nothing to allocate. */
  lemma MeetsChargeExactly(amounts: seq<int>, charged: int, report: seq<int>)
    requires CanAllocate(amounts, Some(charged)) ==> Sum(report) == charged
    requires !CanAllocate(amounts, Some(charged)) ==> report == amounts
    ensures Sum(report) == charged <==> Sum(amounts) != 0 || charged == 0
  {
  }
}

/** The two sheets built from an allocation: per category, and per item with category columns. */
module CategorySheets {
  import opened Options
  import opened Allocation

  datatype Line = Line(category: string, cents: int)

  function Amounts(lines: seq<Line>): seq<int> {
    seq(|lines|, i requires 0 <= i < |lines| => lines[i].cents)
  }

  function CategorySum(lines: seq<Line>, category: string): int {
    if lines == [] then 0
    else CategorySum(lines[..|lines| - 1], category)
         + if lines[|lines| - 1].category == category then lines[|lines| - 1].cents else 0
  }

  /** The amount of every named category, in the order of the names. */
  function CategorySums(lines: seq<Line>, names: seq<string>): seq<int> {
    seq(|names|, i requires 0 <= i < |names| => CategorySum(lines, names[i]))
  }

  predicate Distinct(names: seq<string>) {
    forall i, j | 0 <= i < j < |names| :: names[i] != names[j]
  }

  predicate Covers(names: seq<string>, lines: seq<Line>) {
    forall i | 0 <= i < |lines| :: lines[i].category in names
  }

  lemma {:induction false} ZeroSums(names: seq<string>)
    ensures Sum(CategorySums([], names)) == 0
  {
    if names != [] {
      ZeroSums(names[..|names| - 1]);
      assert CategorySums([], names) == CategorySums([], names[..|names| - 1]) + [0];
      SumAppend(CategorySums([], names[..|names| - 1]), 0);
    }
  }

  lemma OneLineMore(lines: seq<Line>, line: Line, names: seq<string>, k: nat)
    requires Distinct(names) && k < |names| && names[k] == line.category
    ensures CategorySums(lines + [line], names) ==
            CategorySums(lines, names)[k := CategorySum(lines, names[k]) + line.cents]
  {
    assert (lines + [line])[..|lines|] == lines;
  }

  /** Distinct categories that cover all lines add up to the lines. */
  lemma {:induction false} CategoriesAddUp(lines: seq<Line>, names: seq<string>)
    requires Distinct(names) && Covers(names, lines)
    ensures Sum(CategorySums(lines, names)) == Sum(Amounts(lines))
  {
    if lines == [] {
      ZeroSums(names);
    } else {
      var rest, last := lines[..|lines| - 1], lines[|lines| - 1];
      CategoriesAddUp(rest, names);
      var k: nat :| k < |names| && names[k] == last.category;
      assert lines == rest + [last];
      OneLineMore(rest, last, names, k);
      SumUpdate(CategorySums(rest, names), k, CategorySum(rest, names[k]) + last.cents);
      assert Amounts(lines) == Amounts(rest) + [last.cents];
      SumAppend(Amounts(rest), last.cents);
    }
  }

  /** `category_totals`: a dictionary in order of first appearance. */
  method GroupTotals(lines: seq<Line>) returns (names: seq<string>, totals: map<string, int>)
    ensures Distinct(names) && Covers(names, lines)
    ensures forall c :: c in names <==> c in totals
    ensures forall c | c in totals :: totals[c] == CategorySum(lines, c)
  {
    names, totals := [], map[];
    for i := 0 to |lines|
      invariant Distinct(names) && Covers(names, lines[..i])
      invariant forall c :: c in names <==> c in totals
      invariant forall c :: CategorySum(lines[..i], c) == if c in totals then totals[c] else 0
    {
      var line := lines[i];
      assert lines[..i + 1][..i] == lines[..i];
      if line.category !in totals {
        names := names + [line.category];
      }
      totals := totals[line.category := (if line.category in totals then totals[line.category] else 0) + line.cents];
    }
    assert lines[..|lines|] == lines;
  }

  /** The "Category Totals" sheet: adjusted category amounts add up to the charge, whatever the category mix. */
  method CategoryTotals(lines: seq<Line>, receiptCharge: Option<int>, orderTotal: Option<int>)
    returns (names: seq<string>, raw: seq<int>, adjusted: seq<int>)
    ensures Distinct(names) && Covers(names, lines) && raw == CategorySums(lines, names) && |adjusted| == |raw|
    ensures Sum(raw) == Sum(Amounts(lines))
    ensures var charged := if receiptCharge.Some? && receiptCharge.value != 0 then receiptCharge else orderTotal;
            if charged.Some? && Sum(Amounts(lines)) != 0 then
              && Sum(adjusted) == charged.value
              && exists largest :: IsLargest(raw, largest) && IsProportional(raw, charged.value, adjusted, largest)
            else adjusted == raw
  {
    hide Sum, IsProportional;
    var totals;
    names, totals := GroupTotals(lines);
    raw := seq(|names|, i requires 0 <= i < |names| => if names[i] in totals then totals[names[i]] else 0);
    assert raw == CategorySums(lines, names);
    CategoriesAddUp(lines, names);
    adjusted := Allocate(raw, ChargedTotal(receiptCharge, orderTotal));
  }

  /** Lines with their reported amounts. */
  function Reported(lines: seq<Line>, report: seq<int>): seq<Line>
    requires |report| == |lines|
  {
    seq(|lines|, i requires 0 <= i < |lines| => Line(lines[i].category, report[i]))
  }

  lemma CategorySumStep(lines: seq<Line>, i: nat, c: string)
    requires i < |lines|
    ensures CategorySum(lines[..i + 1], c) == CategorySum(lines[..i], c)
            + if lines[i].category == c then lines[i].cents else 0
    ensures Sum(Amounts(lines[..i + 1])) == Sum(Amounts(lines[..i])) + lines[i].cents
  {
    assert lines[..i + 1][..i] == lines[..i];
    assert Amounts(lines[..i + 1]) == Amounts(lines[..i]) + [lines[i].cents];
    SumAppend(Amounts(lines[..i]), lines[i].cents);
  }

  lemma NoLines(c: string)
    ensures CategorySum([], c) == 0 && Sum(Amounts([])) == 0
  {
  }

  /** One pass over the reported lines fills the columns and the subtotal. */
  method ColumnSums(lines: seq<Line>, columns: seq<string>) returns (sums: map<string, int>, subtotal: int)
    requires Covers(columns, lines)
    ensures subtotal == Sum(Amounts(lines))
    ensures forall c | c in columns :: c in sums && sums[c] == CategorySum(lines, c)
  {
    hide Sum, CategorySum, Amounts;
    sums := map c | c in columns :: 0;
    subtotal := 0;
    assert lines[..0] == [];
    NoLines("");
    forall c {
      NoLines(c);
    }
    for i := 0 to |lines|
      invariant subtotal == Sum(Amounts(lines[..i]))
      invariant forall c | c in columns :: c in sums && sums[c] == CategorySum(lines[..i], c)
    {
      var line := lines[i];
      assert line.category in columns;
      forall c {
        CategorySumStep(lines, i, c);
      }
      sums := sums[line.category := sums[line.category] + line.cents];
      subtotal := subtotal + line.cents;
    }
    assert lines[..|lines|] == lines;
  }

  /** The "Receipt Category Report" subtotal row: the category columns add up to the amount column and to the charge. */
  method ReceiptReport(lines: seq<Line>, receiptCharge: Option<int>, orderTotal: Option<int>, columns: seq<string>)
    returns (report: seq<int>, sums: map<string, int>, subtotal: int)
    requires Distinct(columns) && Covers(columns, lines)
    ensures |report| == |lines| && subtotal == Sum(report)
    ensures forall c | c in columns :: c in sums && sums[c] == CategorySum(Reported(lines, report), c)
    ensures Sum(CategorySums(Reported(lines, report), columns)) == subtotal
    ensures var charged := if receiptCharge.Some? && receiptCharge.value != 0 then receiptCharge else orderTotal;
            if charged.Some? && Sum(Amounts(lines)) != 0 then
              && subtotal == charged.value
              && exists largest ::
                   IsLargest(Amounts(lines), largest) && IsProportional(Amounts(lines), charged.value, report, largest)
            else report == Amounts(lines)
  {
    hide Sum, CategorySum, CategorySums, IsProportional;
    report := Allocate(Amounts(lines), ChargedTotal(receiptCharge, orderTotal));
    var reported := Reported(lines, report);
    assert Amounts(reported) == report;
    sums, subtotal := ColumnSums(reported, columns);
    CategoriesAddUp(reported, columns);
  }
}
