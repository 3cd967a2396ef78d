/** Invoice.Recalculate: two taxes and a total, each rounded to two decimals half away from zero. */
module Rounding {

  function Abs(x: real): real { if x < 0.0 then -x else x }

  function Round2(x: real): real {
    if x >= 0.0 then (x * 100.0 + 0.5).Floor as real / 100.0
    else -((-x * 100.0 + 0.5).Floor as real / 100.0)
  }

  predicate TwoDecimals(x: real) { (x * 100.0).Floor as real == x * 100.0 }

  /** Never further off than half a cent; and a half goes away from zero. */
  lemma {:induction false} RoundIsNearest(x: real)
    ensures Abs(Round2(x) - x) <= 0.005
    ensures x >= 0.0 ==> -0.005 < Round2(x) - x
    ensures x <= 0.0 ==> Round2(x) - x < 0.005
    ensures TwoDecimals(Round2(x))
  {
    var n := if x >= 0.0 then (x * 100.0 + 0.5).Floor else -((-x * 100.0 + 0.5).Floor);
    assert Round2(x) * 100.0 == n as real;
  }

  lemma HalfIsCutOff(n: int)
    ensures (n as real + 0.5).Floor == n
  {
  }

  lemma {:induction false} RoundKeepsTwoDecimals(x: real)
    requires TwoDecimals(x)
    ensures Round2(x) == x
  {
    var y := x * 100.0;
    var n := y.Floor;
    assert x == y / 100.0;
    if x >= 0.0 {
      HalfIsCutOff(n);
      assert Round2(x) == n as real / 100.0;
    } else {
      HalfIsCutOff(-n);
      assert -x * 100.0 == -y;
      assert Round2(x) == -((-n) as real / 100.0);
    }
  }

  predicate Whole(x: real) { x.Floor as real == x }

  lemma IntegersAreWhole(n: int)
    ensures Whole(n as real)
  {
  }

  lemma CastsAdd(m: int, n: int)
    ensures m as real + n as real == (m + n) as real && m as real - n as real == (m - n) as real
  {
  }

  lemma {:induction false} WholesAdd(a: real, b: real)
    requires Whole(a) && Whole(b)
    ensures Whole(a + b) && Whole(a - b)
  {
    var m, n := a.Floor, b.Floor;
    CastsAdd(m, n);
    IntegersAreWhole(m + n);
    IntegersAreWhole(m - n);
  }

  lemma {:induction false} TwoDecimalsAdd(x: real, y: real)
    requires TwoDecimals(x) && TwoDecimals(y)
    ensures TwoDecimals(x + y) && TwoDecimals(x - y)
  {
    var a, b := x * 100.0, y * 100.0;
    WholesAdd(a, b);
    assert (x + y) * 100.0 == a + b;
    assert (x - y) * 100.0 == a - b;
  }

  datatype Totals = Totals(ppn: real, pph23: real, total: real)

  function Recalculated(subtotal: real, ppn: real, pph23: real, adjustment: real): Totals {
    var ppnAmount := Round2(subtotal * ppn);
    var pphAmount := Round2(subtotal * pph23);
    Totals(ppnAmount, pphAmount, Round2(subtotal + ppnAmount - pphAmount + adjustment))
  }

  function Exact(subtotal: real, ppn: real, pph23: real, adjustment: real): real {
    subtotal * (1.0 + ppn - pph23) + adjustment
  }

  lemma ExactSplits(subtotal: real, ppn: real, pph23: real, adjustment: real)
    ensures Exact(subtotal, ppn, pph23, adjustment) == subtotal + subtotal * ppn - subtotal * pph23 + adjustment
  {
  }

  /** For any percentages: within a cent of the exact total when the adjustment is in whole cents,
      and within a cent and a half whatever it is. */
  lemma {:induction false} TotalIsClose(subtotal: real, ppn: real, pph23: real, adjustment: real)
    requires TwoDecimals(subtotal)
    ensures var error := Recalculated(subtotal, ppn, pph23, adjustment).total - Exact(subtotal, ppn, pph23, adjustment);
            Abs(error) <= 0.015 && (TwoDecimals(adjustment) ==> Abs(error) <= 0.01)
  {
    var p, h := Round2(subtotal * ppn), Round2(subtotal * pph23);
    RoundIsNearest(subtotal * ppn);
    RoundIsNearest(subtotal * pph23);
    RoundIsNearest(subtotal + p - h + adjustment);
    ExactSplits(subtotal, ppn, pph23, adjustment);
    if TwoDecimals(adjustment) {
      TwoDecimalsAdd(subtotal, p);
      TwoDecimalsAdd(subtotal + p, h);
      TwoDecimalsAdd(subtotal + p - h, adjustment);
      RoundKeepsTwoDecimals(subtotal + p - h + adjustment);
    }
  }

  /** The total is no further than this from what the subtotal, its taxes and the adjustment come to. */
  ghost predicate TotalWithin(bound: real, subtotal: real, ppn: real, pph23: real, adjustment: real, t: Totals) {
    Abs(t.total - (subtotal + subtotal * ppn - subtotal * pph23 + adjustment)) <= bound
  }

  /** Each amount is a whole number of cents, the nearest to what it stands for. */
  ghost predicate NearestCents(subtotal: real, ppn: real, pph23: real, adjustment: real, t: Totals) {
    && Abs(t.ppn - subtotal * ppn) <= 0.005 && TwoDecimals(t.ppn)
    && Abs(t.pph23 - subtotal * pph23) <= 0.005 && TwoDecimals(t.pph23)
    && Abs(t.total - (subtotal + t.ppn - t.pph23 + adjustment)) <= 0.005 && TwoDecimals(t.total)
  }

  lemma {:induction false} RecalculatedWithin(subtotal: real, ppn: real, pph23: real, adjustment: real)
    requires TwoDecimals(subtotal)
    ensures var t := Recalculated(subtotal, ppn, pph23, adjustment);
            && TotalWithin(0.015, subtotal, ppn, pph23, adjustment, t)
            && (TwoDecimals(adjustment) ==> TotalWithin(0.01, subtotal, ppn, pph23, adjustment, t))
  {
    TotalIsClose(subtotal, ppn, pph23, adjustment);
    ExactSplits(subtotal, ppn, pph23, adjustment);
  }

  lemma {:induction false} TaxesAreNearest(subtotal: real, ppn: real, pph23: real, adjustment: real)
    ensures NearestCents(subtotal, ppn, pph23, adjustment, Recalculated(subtotal, ppn, pph23, adjustment))
  {
    var t := Recalculated(subtotal, ppn, pph23, adjustment);
    RoundIsNearest(subtotal * ppn);
    RoundIsNearest(subtotal * pph23);
    RoundIsNearest(subtotal + t.ppn - t.pph23 + adjustment);
  }

  /** With nothing negative, the cent is never reached: both taxes round a half the same way, and
      they enter the total with opposite signs. */
  lemma {:induction false} TotalIsStrictlyClose(subtotal: real, ppn: real, pph23: real, adjustment: real)
    requires TwoDecimals(subtotal) && TwoDecimals(adjustment)
    requires subtotal * ppn >= 0.0 && subtotal * pph23 >= 0.0
    ensures Abs(Recalculated(subtotal, ppn, pph23, adjustment).total - Exact(subtotal, ppn, pph23, adjustment)) < 0.01
  {
    var p, h := Round2(subtotal * ppn), Round2(subtotal * pph23);
    RoundIsNearest(subtotal * ppn);
    RoundIsNearest(subtotal * pph23);
    ExactSplits(subtotal, ppn, pph23, adjustment);
    TwoDecimalsAdd(subtotal, p);
    TwoDecimalsAdd(subtotal + p, h);
    TwoDecimalsAdd(subtotal + p - h, adjustment);
    RoundKeepsTwoDecimals(subtotal + p - h + adjustment);
  }

  /** Both bounds are met: 0.01 needs taxes of opposite signs, 0.015 a half cent of adjustment too. */
  lemma BoundsAreTight()
    ensures TwoDecimals(0.5)
    ensures Recalculated(0.5, 0.11, -0.01, 0.0).total - Exact(0.5, 0.11, -0.01, 0.0) == 0.01 && TwoDecimals(0.0)
    ensures Recalculated(0.5, 0.11, -0.01, 0.005).total - Exact(0.5, 0.11, -0.01, 0.005) == 0.015
  {
  }
}
