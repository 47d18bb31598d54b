/**
  Money theorems: when totals fit, that no 128-bit intermediate can overflow, how tax rounding on
  the subtotal relates to tax per line, and that money does not depend on the order of the lines.
*/
module Money {
  import opened Wrappers
  import opened Domain

  /** Tax on a non-negative subtotal, rounded down. */
  function TaxOn(subtotal: int, bps: int): int {
    subtotal * bps / BPS_SCALE
  }

  function ExactTotal(lines: seq<LineItem>, bps: int): int {
    ExactSubtotal(lines) + TaxOn(ExactSubtotal(lines), bps)
  }

  /** The field checks of the AddLineItem handler. */
  predicate ValidLine(l: LineItem) {
    HasText(l.lineId) && HasText(l.sku) && HasText(l.description) && l.quantity > 0 && l.unitMinor >= 0
  }

  predicate ValidLines(lines: seq<LineItem>) {
    forall i :: 0 <= i < |lines| ==> ValidLine(lines[i])
  }

  predicate DistinctIds(lines: seq<LineItem>) {
    forall i, j :: 0 <= i < j < |lines| ==> lines[i].lineId != lines[j].lineId
  }

  /** What the lines of every reachable quote satisfy. */
  predicate SoundLines(lines: seq<LineItem>, bps: int) {
    ValidLines(lines) && DistinctIds(lines) && ExactTotal(lines, bps) <= I64_MAX
  }

  predicate TaxRate(bps: int) {
    bps == 0 || bps == US_TAX_BPS
  }

  // ---------------------------------------------------------------- exact sums

  lemma AmountNonNegative(l: LineItem)
    requires ValidLine(l)
    ensures Amount(l) >= 0
  {
  }

  lemma {:induction false} SubtotalBounds(lines: seq<LineItem>)
    requires ValidLines(lines)
    ensures ExactSubtotal(lines) >= 0
    ensures forall i :: 0 <= i < |lines| ==> 0 <= Amount(lines[i]) <= ExactSubtotal(lines)
  {
    if lines != [] {
      var n := |lines| - 1;
      SubtotalBounds(lines[..n]);
      AmountNonNegative(lines[n]);
      forall i | 0 <= i < |lines|
        ensures 0 <= Amount(lines[i]) <= ExactSubtotal(lines)
      {
        if i < n {
          assert lines[..n][i] == lines[i];
        }
      }
    }
  }

  lemma SubtotalSnoc(lines: seq<LineItem>, l: LineItem)
    ensures ExactSubtotal(lines + [l]) == ExactSubtotal(lines) + Amount(l)
  {
    assert (lines + [l])[..|lines|] == lines;
  }

  lemma {:induction false} SubtotalConcat(a: seq<LineItem>, b: seq<LineItem>)
    ensures ExactSubtotal(a + b) == ExactSubtotal(a) + ExactSubtotal(b)
  {
    if b == [] {
      assert a + b == a;
    } else {
      var n := |b| - 1;
      assert a + b == (a + b[..n]) + [b[n]];
      SubtotalConcat(a, b[..n]);
      SubtotalSnoc(a + b[..n], b[n]);
    }
  }

  /** A larger subtotal never has a smaller tax, nor a smaller total. */
  lemma TaxMonotone(a: int, b: int, bps: int)
    requires a <= b && TaxRate(bps)
    ensures TaxOn(a, bps) <= TaxOn(b, bps)
  {
  }

  lemma PrefixCostsNoMore(lines: seq<LineItem>, k: nat, bps: int)
    requires ValidLines(lines) && k <= |lines| && TaxRate(bps)
    ensures ExactSubtotal(lines[..k]) <= ExactSubtotal(lines)
    ensures TaxOn(ExactSubtotal(lines[..k]), bps) <= TaxOn(ExactSubtotal(lines), bps)
    ensures ExactTotal(lines[..k], bps) <= ExactTotal(lines, bps)
  {
    assert lines == lines[..k] + lines[k..];
    SubtotalConcat(lines[..k], lines[k..]);
    SubtotalBounds(lines[k..]);
    TaxMonotone(ExactSubtotal(lines[..k]), ExactSubtotal(lines), bps);
  }

  // ---------------------------------------------------------------- when the 64-bit totals exist

  /**
    For valid lines the computed total is the exact total, or an overflow error, according to the
    exact total alone: neither a single line nor the subtotal can overflow when the total fits.
  */
  lemma TotalIsExact(s: QuoteState)
    requires ValidLines(s.lines)
    ensures
      var sub := ExactSubtotal(s.lines);
      var bps := TaxRateBps(s);
      if ExactTotal(s.lines, bps) <= I64_MAX
      then Subtotal(s) == Ok(sub) && Tax(s) == Ok(TaxOn(sub, bps)) && Total(s) == Ok(ExactTotal(s.lines, bps))
      else Total(s) == Err(IntegerOverflow)
  {
    SubtotalBounds(s.lines);
    var sub := ExactSubtotal(s.lines);
    var bps := TaxRateBps(s);
    assert bps == 0 || bps == US_TAX_BPS;
    assert 0 <= TaxOn(sub, bps) <= sub;
    assert TruncDiv(sub * bps, BPS_SCALE) == TaxOn(sub, bps);
    if FitsI64(sub) {
      assert EveryLineFits(s.lines);
    }
  }

  /** A jurisdiction taxed at 8%: the United States, or one of their states. */
  predicate IsUnitedStates(jurisdictionId: string) {
    jurisdictionId == "US" || (|jurisdictionId| >= 3 && jurisdictionId[..3] == "US-")
  }

  /** The tax owed on an amount: 8% rounded down in the United States, and nothing elsewhere. */
  function TaxOwed(jurisdictionId: string, subtotal: int): int {
    if IsUnitedStates(jurisdictionId) then subtotal * 800 / 10000 else 0
  }

  function JurisdictionOf(s: QuoteState): string {
    if s.jurisdictionId.Some? then s.jurisdictionId.value else ""
  }

  lemma TotalOwed(s: QuoteState)
    ensures ExactTotal(s.lines, TaxRateBps(s))
         == ExactSubtotal(s.lines) + TaxOwed(JurisdictionOf(s), ExactSubtotal(s.lines))
  {
    RateOf(JurisdictionOf(s), ExactSubtotal(s.lines));
  }

  lemma RateOf(jurisdictionId: string, subtotal: int)
    ensures TaxOn(subtotal, JurisdictionBps(jurisdictionId)) == TaxOwed(jurisdictionId, subtotal)
  {
    if |jurisdictionId| >= 3 && jurisdictionId[..3] == "US-" {
      assert "US-" <= jurisdictionId;
    }
    if "US-" <= jurisdictionId {
      assert jurisdictionId[..3] == "US-";
    }
  }

  /**
    What a customer is charged. For valid lines the total exists if and only if subtotal plus tax owed is at
    most 2^63 - 1; then the subtotal is the exact sum of quantity times unit price, the tax is what the
    jurisdiction owes on it, and the total is the two together.
  */
  lemma ChargedByJurisdiction(s: QuoteState)
    requires ValidLines(s.lines)
    ensures
      var sub := ProductSum(s.lines);
      var tax := TaxOwed(JurisdictionOf(s), sub);
      if sub + tax <= 9_223_372_036_854_775_807
      then Subtotal(s) == Ok(sub) && Tax(s) == Ok(tax) && Total(s) == Ok(sub + tax)
      else Total(s) == Err(IntegerOverflow)
  {
    TotalIsExact(s);
    TotalOwed(s);
    RateOf(JurisdictionOf(s), ExactSubtotal(s.lines));
    SubtotalIsProductSum(s.lines);
  }

  /** The sum of quantity times unit price, taken from the first line on. */
  function ProductSum(lines: seq<LineItem>): int {
    if lines == [] then 0 else lines[0].quantity * lines[0].unitMinor + ProductSum(lines[1..])
  }

  lemma {:induction false} SubtotalIsProductSum(lines: seq<LineItem>)
    ensures ExactSubtotal(lines) == ProductSum(lines)
    decreases |lines|
  {
    if lines != [] {
      assert lines == [lines[0]] + lines[1..];
      SubtotalConcat([lines[0]], lines[1..]);
      SubtotalSnoc([], lines[0]);
      assert [] + [lines[0]] == [lines[0]];
      SubtotalIsProductSum(lines[1..]);
    }
  }

  /** Rust's division on either sign: the quotient is rounded toward zero. */
  lemma TruncDivRoundsTowardZero(x: int, d: int)
    requires d > 0
    ensures
      var rest := x - TruncDiv(x, d) * d;
      -d < rest < d && (x >= 0 ==> rest >= 0) && (x <= 0 ==> rest <= 0)
  {
    if x < 0 {
      assert -x == (-x) / d * d + (-x) % d;
      assert TruncDiv(x, d) == -((-x) / d);
      assert TruncDiv(x, d) * d == -((-x) / d * d);
    } else {
      assert x == x / d * d + x % d;
    }
  }

  /**
    The overflow frontier of AddLineItem on a quote whose own lines are sound: a valid line with a
    fresh id is accepted if and only if the exact total with the line included is at most 2^63 - 1,
    and otherwise the error is exactly IntegerOverflow.
  */
  lemma AddLineFrontier(s: QuoteState, l: LineItem)
    requires s.IsCreated() && !s.finalized && SoundLines(s.lines, TaxRateBps(s))
    requires ValidLine(l) && !HasLineId(s.lines, l.lineId)
    ensures CommandToEvents(s, AddLineItem(l)) ==
            if ExactTotal(s.lines + [l], TaxRateBps(s)) <= I64_MAX then Ok([LineItemAdded(l)]) else Err(IntegerOverflow)
  {
    var s' := s.(lines := s.lines + [l]);
    TotalIsExact(s');
    SubtotalSnoc(s.lines, l);
    SubtotalBounds(s.lines);
    AmountNonNegative(l);
    if !FitsI64(Amount(l)) {
      assert Amount(l) <= ExactSubtotal(s'.lines);
      assert 0 <= TaxOn(ExactSubtotal(s'.lines), TaxRateBps(s));
    }
  }

  /** AddLineItem keeps the lines sound; it is accepted exactly when the extended list is sound. */
  lemma AddLineAcceptedIffSound(s: QuoteState, l: LineItem)
    requires s.IsCreated() && !s.finalized && SoundLines(s.lines, TaxRateBps(s))
    ensures CommandToEvents(s, AddLineItem(l)).Ok? <==> SoundLines(s.lines + [l], TaxRateBps(s))
  {
    var lines' := s.lines + [l];
    assert lines'[|s.lines|] == l;
    assert forall i :: 0 <= i < |s.lines| ==> lines'[i] == s.lines[i];
    if ValidLine(l) && !HasLineId(s.lines, l.lineId) {
      AddLineFrontier(s, l);
    } else if ValidLine(l) {
      var i :| 0 <= i < |s.lines| && s.lines[i].lineId == l.lineId;
      assert lines'[i].lineId == lines'[|s.lines|].lineId;
    }
  }

  lemma ProductOfMagnitudes(x: nat, y: nat, bound: nat)
    requires x <= bound && y <= bound
    ensures x * y <= bound * bound
  {
    assert x * y <= bound * y;
    assert bound * y <= bound * bound;
  }

  /** A product of two 64-bit values is at most 2^126 in size. */
  lemma ProductBound(x: I64, y: I64)
    ensures -0x4000_0000_0000_0000_0000_0000_0000_0000 <= x * y <= 0x4000_0000_0000_0000_0000_0000_0000_0000
  {
    var m: int, n: int := if x < 0 then -(x as int) else x, if y < 0 then -(y as int) else y;
    ProductOfMagnitudes(m, n, -I64_MIN);
    SignedProduct(x, y, m, n);
  }

  lemma SignedProduct(x: int, y: int, m: nat, n: nat)
    requires m == (if x < 0 then -x else x) && n == (if y < 0 then -y else y)
    ensures -(m * n) <= x * y <= m * n
  {
    if x < 0 && y < 0 {
      assert x * y == m * n;
    } else if x < 0 {
      assert x * y == -(m * y);
    } else if y < 0 {
      assert x * y == -(x * n);
    }
  }

  lemma {:induction false} RunningSumBound(lines: seq<LineItem>)
    requires EveryLineFits(lines)
    ensures I64_MIN * |lines| <= ExactSubtotal(lines) <= -I64_MIN * |lines|
  {
    if lines != [] {
      var n := |lines| - 1;
      assert EveryLineFits(lines[..n]);
      RunningSumBound(lines[..n]);
      assert FitsI64(Amount(lines[n]));
    }
  }

  predicate In128Bits(x: int) {
    -0x8000_0000_0000_0000_0000_0000_0000_0000 <= x <= 0x7FFF_FFFF_FFFF_FFFF_FFFF_FFFF_FFFF_FFFF
  }

  /**
    No 128-bit intermediate overflows, whatever the line contents (signs included): not the product
    of a line, not any running sum the loop reaches, not the tax product, not subtotal plus tax. A
    vector of lines has fewer than 2^63 elements.
  */
  lemma NoI128Overflow(s: QuoteState, k: nat)
    requires k <= |s.lines| < 0x8000_0000_0000_0000
    ensures forall i :: 0 <= i < |s.lines| ==> In128Bits(s.lines[i].quantity * s.lines[i].unitMinor)
    ensures EveryLineFits(s.lines[..k]) ==> In128Bits(ExactSubtotal(s.lines[..k]))
    ensures Subtotal(s).Ok? ==> In128Bits(Subtotal(s).value * TaxRateBps(s))
    ensures Subtotal(s).Ok? && Tax(s).Ok? ==> In128Bits(Subtotal(s).value + Tax(s).value)
  {
    forall i | 0 <= i < |s.lines|
      ensures In128Bits(s.lines[i].quantity * s.lines[i].unitMinor)
    {
      ProductBound(s.lines[i].quantity, s.lines[i].unitMinor);
    }
    if EveryLineFits(s.lines[..k]) {
      RunningSumBound(s.lines[..k]);
    }
    if Subtotal(s).Ok? {
      ProductBound(Subtotal(s).value, TaxRateBps(s));
    }
  }

  // ---------------------------------------------------------------- rounding

  /** What charging tax line by line, rounding each line down, would come to. */
  function SumOfLineTaxes(lines: seq<LineItem>, bps: int): int {
    if lines == [] then 0
    else SumOfLineTaxes(lines[..|lines| - 1], bps) + TaxOn(Amount(lines[|lines| - 1]), bps)
  }

  /** Taxing the subtotal never charges less than taxing each line, and at most n - 1 minor units more. */
  lemma {:induction false} TaxRoundingBound(lines: seq<LineItem>, bps: int)
    requires |lines| >= 1 && TaxRate(bps)
    ensures SumOfLineTaxes(lines, bps) <= TaxOn(ExactSubtotal(lines), bps) <= SumOfLineTaxes(lines, bps) + |lines| - 1
  {
    var n := |lines| - 1;
    var init := lines[..n];
    if n == 0 {
      assert SumOfLineTaxes(init, bps) == 0 && ExactSubtotal(init) == 0;
    } else {
      TaxRoundingBound(init, bps);
      FloorSum(ExactSubtotal(init), Amount(lines[n]), bps);
    }
  }

  lemma FloorSum(a: int, b: int, bps: int)
    requires TaxRate(bps)
    ensures TaxOn(a, bps) + TaxOn(b, bps) <= TaxOn(a + b, bps) <= TaxOn(a, bps) + TaxOn(b, bps) + 1
  {
  }

  // ---------------------------------------------------------------- order of lines

  function Without(lines: seq<LineItem>, k: nat): seq<LineItem>
    requires k < |lines|
  {
    lines[..k] + lines[k + 1..]
  }

  lemma SubtotalOfParts(a: seq<LineItem>, l: LineItem, c: seq<LineItem>)
    ensures ExactSubtotal((a + [l]) + c) == ExactSubtotal(a + c) + Amount(l)
  {
    SubtotalConcat(a + [l], c);
    SubtotalSnoc(a, l);
    SubtotalConcat(a, c);
  }

  lemma SplitAt(lines: seq<LineItem>, k: nat)
    requires k < |lines|
    ensures ExactSubtotal(lines) == ExactSubtotal(Without(lines, k)) + Amount(lines[k])
  {
    hide ExactSubtotal, Amount;
    SubtotalOfParts(lines[..k], lines[k], lines[k + 1..]);
    assert lines == (lines[..k] + [lines[k]]) + lines[k + 1..];
  }

  lemma RemoveEqual(a: seq<LineItem>, i: nat, b: seq<LineItem>, j: nat)
    requires multiset(a) == multiset(b)
    requires i < |a| && j < |b| && a[i] == b[j]
    ensures multiset(Without(a, i)) == multiset(Without(b, j))
  {
    assert a == a[..i] + [a[i]] + a[i + 1..];
    assert b == b[..j] + [b[j]] + b[j + 1..];
    assert multiset(Without(a, i)) == multiset(a) - multiset{a[i]};
    assert multiset(Without(b, j)) == multiset(b) - multiset{b[j]};
  }

  /** The occurrence in b of the last element of a. */
  lemma Occurrence(a: seq<LineItem>, b: seq<LineItem>) returns (k: nat)
    requires multiset(a) == multiset(b) && a != []
    ensures k < |b| && b[k] == a[|a| - 1]
  {
    assert a[|a| - 1] in multiset(b);
    k :| 0 <= k < |b| && b[k] == a[|a| - 1];
  }

  lemma {:induction false} SubtotalIgnoresOrder(a: seq<LineItem>, b: seq<LineItem>)
    requires multiset(a) == multiset(b)
    ensures ExactSubtotal(a) == ExactSubtotal(b)
    decreases |a|
  {
    if a == [] {
      assert |multiset(b)| == 0;
    } else {
      var n := |a| - 1;
      var k := Occurrence(a, b);
      SplitAt(a, n);
      SplitAt(b, k);
      RemoveEqual(a, n, b, k);
      SubtotalIgnoresOrder(Without(a, n), Without(b, k));
    }
  }

  /** Ids are distinct iff the chosen id does not recur and the rest are distinct. */
  lemma DistinctWithout(lines: seq<LineItem>, k: nat)
    requires k < |lines|
    ensures DistinctIds(lines) <==> !HasLineId(Without(lines, k), lines[k].lineId) && DistinctIds(Without(lines, k))
  {
    var rest := Without(lines, k);
    assert forall i :: 0 <= i < k ==> rest[i] == lines[i];
    assert forall i :: k < i < |lines| ==> rest[i - 1] == lines[i];
    assert forall i :: k <= i < |rest| ==> rest[i] == lines[i + 1];
    if DistinctIds(lines) {
      forall i, j | 0 <= i < j < |rest|
        ensures rest[i].lineId != rest[j].lineId
      {
        assert lines[if i < k then i else i + 1].lineId != lines[if j < k then j else j + 1].lineId;
      }
    }
    if !HasLineId(rest, lines[k].lineId) && DistinctIds(rest) {
      forall i, j | 0 <= i < j < |lines|
        ensures lines[i].lineId != lines[j].lineId
      {
        if i != k && j != k {
          assert rest[if i < k then i else i - 1].lineId != rest[if j < k then j else j - 1].lineId;
        } else if i == k {
          assert rest[j - 1] == lines[j];
        } else {
          assert rest[i] == lines[i];
        }
      }
    }
  }

  lemma HasLineIdIgnoresOrder(a: seq<LineItem>, b: seq<LineItem>, id: string)
    requires multiset(a) == multiset(b)
    ensures HasLineId(a, id) <==> HasLineId(b, id)
  {
    forall i | 0 <= i < |a|
      ensures a[i] in b
    {
      assert a[i] in multiset(a);
    }
    forall i | 0 <= i < |b|
      ensures b[i] in a
    {
      assert b[i] in multiset(b);
    }
  }

  lemma {:induction false} DistinctIgnoresOrder(a: seq<LineItem>, b: seq<LineItem>)
    requires multiset(a) == multiset(b)
    ensures DistinctIds(a) <==> DistinctIds(b)
    decreases |a|
  {
    if a == [] {
      assert |multiset(b)| == 0;
    } else {
      var n := |a| - 1;
      var k := Occurrence(a, b);
      DistinctWithout(a, n);
      DistinctWithout(b, k);
      RemoveEqual(a, n, b, k);
      HasLineIdIgnoresOrder(Without(a, n), Without(b, k), a[n].lineId);
      DistinctIgnoresOrder(Without(a, n), Without(b, k));
    }
  }

  lemma SoundLinesIgnoreOrder(a: seq<LineItem>, b: seq<LineItem>, bps: int)
    requires multiset(a) == multiset(b)
    ensures SoundLines(a, bps) <==> SoundLines(b, bps)
  {
    SubtotalIgnoresOrder(a, b);
    DistinctIgnoresOrder(a, b);
    ValidLinesIgnoreOrder(a, b);
    ValidLinesIgnoreOrder(b, a);
  }

  lemma ValidLinesIgnoreOrder(a: seq<LineItem>, b: seq<LineItem>)
    requires multiset(a) == multiset(b)
    ensures ValidLines(a) ==> ValidLines(b)
  {
    forall i | 0 <= i < |b| && ValidLines(a)
      ensures ValidLine(b[i])
    {
      assert b[i] in multiset(a);
    }
  }
}
