/** Emptying a wallet over Lightning (src/send.ts lnDrainInvoiceSat, src/ln_send.ts
    fundingAmount). The fee rate is a fraction; the floating-point starting estimate is any
    number. */
module LnDrain {
  import opened Wrappers

  datatype Fees = Fees(num: nat, den: nat, base: nat)

  const DRAIN_SLACK_SATS: nat := 2

  ghost predicate Sound(f: Fees) {
    f.den > 0
  }

  /** ceil(p * x) */
  function Ceil(f: Fees, x: nat): nat
    requires Sound(f)
  {
    (f.num * x + f.den - 1) / f.den
  }

  function Total(f: Fees, x: nat): nat
    requires Sound(f)
  {
    x + Ceil(f, x) + f.base
  }

  lemma CeilBounds(f: Fees, x: nat)
    requires Sound(f)
    ensures f.den * Ceil(f, x) >= f.num * x && f.den * Ceil(f, x) < f.num * x + f.den
  {
    var a := f.num * x + f.den - 1;
    assert a == f.den * (a / f.den) + a % f.den;
  }

  lemma CeilStep(f: Fees, x: nat)
    requires Sound(f)
    ensures Ceil(f, x) <= Ceil(f, x + 1)
    ensures f.num <= f.den ==> Ceil(f, x + 1) <= Ceil(f, x) + 1
  {
    CeilBounds(f, x);
    CeilBounds(f, x + 1);
    assert f.num * (x + 1) == f.num * x + f.num;
    var c, d := Ceil(f, x), Ceil(f, x + 1);
    assert f.den * (d + 1) == f.den * d + f.den;
    assert f.den * (c + 2) == f.den * c + f.den + f.den;
    if d < c {
      Products(f.den, d + 1, c);
    }
    if f.num <= f.den && d > c + 1 {
      Products(f.den, c + 2, d);
    }
  }

  lemma Products(k: nat, a: nat, b: nat)
    requires a <= b
    ensures k * a <= k * b
  {
  }

  lemma {:induction false} TotalGrows(f: Fees, x: nat, y: nat)
    requires Sound(f) && x < y
    ensures Total(f, x) + (y - x) <= Total(f, y)
    decreases y - x
  {
    CeilStep(f, y - 1);
    if x < y - 1 {
      TotalGrows(f, x, y - 1);
    }
  }

  /** The largest invoice whose total still fits. */
  ghost predicate IsLargest(f: Fees, target: int, x: nat)
    requires Sound(f)
  {
    x > 0 && Total(f, x) <= target && forall y: nat :: y > x ==> Total(f, y) > target
  }

  /** From any positive estimate the two walks end at the largest amount that fits, or find
      that none does. */
  method LnDrainInvoiceSat(f: Fees, target: int, estimate: int) returns (r: Option<nat>)
    requires Sound(f)
    ensures r.Some? ==> IsLargest(f, target, r.value)
    ensures r.None? <==> estimate <= 0 || forall y: nat :: y > 0 ==> Total(f, y) > target
  {
    if estimate <= 0 {
      return None;
    }
    var x: nat := estimate;
    while Total(f, x + 1) <= target
      invariant x >= estimate
      decreases target - Total(f, x)
    {
      TotalGrows(f, x, x + 1);
      x := x + 1;
    }
    forall y: nat | y > x ensures Total(f, y) > target {
      if y > x + 1 {
        TotalGrows(f, x + 1, y);
      }
    }
    while x > 0 && Total(f, x) > target
      invariant forall y: nat :: y > x ==> Total(f, y) > target
    {
      x := x - 1;
    }
    if x > 0 {
      r := Some(x);
    } else {
      r := None;
    }
  }

  /** floor((target - base) / (1 + p)), the estimate without rounding errors. */
  function Estimate(f: Fees, target: int): int
    requires Sound(f)
  {
    ((target - f.base) * f.den) / (f.den + f.num)
  }

  /** The exact estimate is zero or less only when no positive amount fits. */
  lemma EstimateIsEnough(f: Fees, target: int, x: nat)
    requires Sound(f) && x > 0 && Total(f, x) <= target
    ensures Estimate(f, target) >= x
  {
    CeilBounds(f, x);
    var room := target - f.base;
    assert room >= x + Ceil(f, x);
    Products(f.den, x + Ceil(f, x), room);
    assert f.den * (x + Ceil(f, x)) == f.den * x + f.den * Ceil(f, x);
    assert f.den * x + f.num * x == (f.den + f.num) * x;
    var a, d := room * f.den, f.den + f.num;
    assert a >= d * x;
    assert a == d * (a / d) + a % d;
    assert d * (a / d + 1) == d * (a / d) + d;
    if a / d < x {
      Products(d, a / d + 1, x);
    }
  }

  /** At a rate of at most one, what stays behind is at most one sat. */
  lemma ResidueIsOneSat(f: Fees, target: int, x: nat)
    requires Sound(f) && f.num <= f.den && IsLargest(f, target, x)
    ensures 0 <= target - Total(f, x) <= 1
  {
    CeilStep(f, x);
    assert Total(f, x + 1) > target;
  }

  // ---- funding --------------------------------------------------------------------------------

  /** None is the refusal of a balance that does not cover. */
  method FundingAmount(required: int, spendable: int) returns (r: Option<int>)
    ensures r.None? <==> required > spendable
    ensures r.Some? ==> required <= r.value <= spendable && (r.value == spendable <==> spendable - required <= DRAIN_SLACK_SATS)
    ensures r.Some? && r.value != spendable ==> r.value == required
  {
    if required > spendable {
      return None;
    }
    var surplus := spendable - required;
    r := Some(if surplus > 0 && surplus <= DRAIN_SLACK_SATS then spendable else required);
  }

  /** The two together empty the wallet: even if the server's total differs from ours by a sat
      either way, a balance that still covers it is spent whole. */
  method Drain(f: Fees, balance: int, estimate: int, serverTotal: int) returns (invoice: Option<nat>, funded: Option<int>)
    requires Sound(f) && f.num <= f.den
    ensures invoice.Some? && Total(f, invoice.value) - 1 <= serverTotal <= balance ==> funded == Some(balance)
  {
    invoice := LnDrainInvoiceSat(f, balance, estimate);
    funded := FundingAmount(serverTotal, balance);
    if invoice.Some? {
      ResidueIsOneSat(f, balance, invoice.value);
    }
  }
}
