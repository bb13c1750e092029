/** Which coins may fund a shared output and what a claim over them looks like
    (src/atomic/eligibility.ts, src/atomic/send.ts). */
module Funding {
  import opened Wrappers
  import opened SharedScript
  import ClaimSplit
  import CoinSelect

  /** A vtxo of the wallet; its batch expiry is in milliseconds or in seconds. */
  datatype Vtxo = Vtxo(point: Outpoint, value: nat, cost: nat, spendable: bool, recoverable: bool, batchExpiry: Option<nat>)

  datatype Terms = Terms(dust: nat, refundLocktime: int, marginSecs: int)

  const FUNDING_MARGIN_SECS := 600
  const MILLISECONDS_FROM: nat := 1_000_000_000_000

  datatype Refusal = NotSpendable | Recoverable | SubDust | NoExpiry | ExpiresTooSoon

  function ExpirySecs(v: Vtxo): Option<nat> {
    match v.batchExpiry
    case None => None
    case Some(raw) => Some(if raw > MILLISECONDS_FROM then raw / 1000 else raw)
  }

  /** The first reason a coin cannot fund, if there is one. */
  function Refused(v: Vtxo, terms: Terms): Option<Refusal> {
    if !v.spendable then Some(NotSpendable)
    else if v.recoverable then Some(Recoverable)
    else if v.value < terms.dust then Some(SubDust)
    else if ExpirySecs(v).None? then Some(NoExpiry)
    else if ExpirySecs(v).value <= terms.refundLocktime + terms.marginSecs then Some(ExpiresTooSoon)
    else None
  }

  /** The instant a coin's batch ends, in milliseconds, whichever unit it is reported in. */
  function BatchEnd(v: Vtxo): Option<int> {
    match v.batchExpiry
    case None => None
    case Some(raw) => Some(if raw > MILLISECONDS_FROM then raw else raw * 1000)
  }

  /** At this instant the server cannot have swept the coin. */
  predicate AliveAt(v: Vtxo, ms: int) {
    BatchEnd(v).Some? && ms < BatchEnd(v).value
  }

  /** A coin arkd takes as an input whose batch outlives the refund deadline: it is alive at
      every instant up to the end of the second T + margin. */
  ghost predicate OutlivesRefund(v: Vtxo, terms: Terms) {
    v.spendable && !v.recoverable && v.value >= terms.dust
    && forall ms :: ms < (terms.refundLocktime + terms.marginSecs + 1) * 1000 ==> AliveAt(v, ms)
  }

  /** The comparison of rounded seconds accepts exactly the coins whose batch is alive through
      the whole last second of the margin, in either unit: rounding milliseconds down never
      lets in a coin that could be swept before a refund had its time. */
  lemma EligibleExactlyWhen(v: Vtxo, terms: Terms)
    ensures Refused(v, terms).None? <==> OutlivesRefund(v, terms)
  {
    var last := (terms.refundLocktime + terms.marginSecs + 1) * 1000 - 1;
    if OutlivesRefund(v, terms) {
      assert AliveAt(v, last);
    }
  }

  /** Why a coin is refused: the first of the rules it breaks. */
  lemma RefusedFor(v: Vtxo, terms: Terms)
    ensures Refused(v, terms) == Some(NotSpendable) <==> !v.spendable
    ensures Refused(v, terms) == Some(Recoverable) <==> v.spendable && v.recoverable
    ensures Refused(v, terms) == Some(SubDust) <==> v.spendable && !v.recoverable && v.value < terms.dust
    ensures Refused(v, terms) == Some(NoExpiry) <==> v.spendable && !v.recoverable && v.value >= terms.dust && v.batchExpiry.None?
  {
  }

  function CoinOf(v: Vtxo): CoinSelect.Coin {
    CoinSelect.Coin(v.point, v.value, v.cost)
  }

  function Eligible(vs: seq<Vtxo>, terms: Terms): (r: seq<CoinSelect.Coin>)
    ensures forall c :: c in r ==> exists v :: v in vs && Refused(v, terms).None? && c == CoinOf(v)
    ensures forall v :: v in vs && Refused(v, terms).None? ==> CoinOf(v) in r
  {
    if vs == [] then []
    else
      var v := vs[|vs| - 1];
      Eligible(vs[..|vs| - 1], terms) + (if Refused(v, terms).None? then [CoinOf(v)] else [])
  }

  /** The coin is one of the vtxos, value and cost and all, and outlives the refund deadline. */
  ghost predicate Funds(vs: seq<Vtxo>, terms: Terms, c: CoinSelect.Coin) {
    exists v :: v in vs && OutlivesRefund(v, terms) && c.point == v.point && c.value == v.value && c.cost == v.cost
  }

  lemma InputsAreEligible(rank: CoinSelect.Rank, ask: CoinSelect.Ask, vs: seq<Vtxo>, terms: Terms, inputs: seq<CoinSelect.Coin>)
    requires CoinSelect.Selected(rank, ask, Eligible(vs, terms), inputs) && inputs != []
    ensures forall c :: c in inputs ==> Funds(vs, terms, c)
    ensures if ask.changeDust.None? then CoinSelect.Sum(inputs) >= ask.target
            else CoinSelect.Sum(inputs) == ask.target || CoinSelect.Sum(inputs) >= ask.target + ask.changeDust.value
  {
    var pool := Eligible(vs, terms);
    assert forall c :: c in pool ==> exists v :: v in vs && Refused(v, terms).None? && c == CoinOf(v);
    hide *;
    CoinSelect.SelectionCovers(rank, ask, pool, inputs);
    Within(inputs, pool);
    forall c | c in inputs ensures Funds(vs, terms, c) {
      assert c in pool;
      var v :| v in vs && Refused(v, terms).None? && c == CoinOf(v);
      EligibleFunds(vs, terms, v);
    }
  }

  lemma Within(inputs: seq<CoinSelect.Coin>, pool: seq<CoinSelect.Coin>)
    requires multiset(inputs) <= multiset(pool)
    ensures forall c :: c in inputs ==> c in pool
  {
    forall c | c in inputs ensures c in pool {
      assert c in multiset(inputs);
      assert c in multiset(pool);
    }
  }

  lemma EligibleFunds(vs: seq<Vtxo>, terms: Terms, v: Vtxo)
    requires v in vs && Refused(v, terms).None?
    ensures Funds(vs, terms, CoinOf(v))
  {
    EligibleExactlyWhen(v, terms);
  }

  /** The split over whole inputs: two outputs, boltz's amount and fee, everything else ours in
      one regular output. */
  ghost predicate CleanSplit(outputs: seq<Output>, opReturns: nat, funding: nat, amount: nat, fee: nat, dust: nat) {
    && funding >= dust + amount + fee
    && outputs == [ClaimSplit.OutputFor(Peer, amount + fee, dust), Output(Regular(Us), funding - amount - fee)]
    && Total(outputs) == funding && opReturns <= 1
    && Paid(outputs, Peer) == amount + fee
    && Paid(outputs, Us) == funding - amount - fee >= dust
  }

  method SplitFunding(funding: nat, amount: nat, fee: nat, dust: nat) returns (split: ClaimSplit.Split)
    requires 0 < amount < dust && fee <= dust && funding >= dust + amount + fee
    ensures CleanSplit(split.outputs, split.opReturns, funding, amount, fee, dust)
  {
    ClaimSplit.FundedSplitIsClean(funding, amount, dust, fee);
    var r := ClaimSplit.ComputeClaimSplit(ClaimSplit.Args(Us, Peer, funding, amount, dust, fee, None, ClaimSplit.MAX_OP_RETURN_OUTPUTS));
    split := r.value;
  }

  /** What an atomic send does between the wallet's coins and the split: it finds inputs
      whenever the eligible coins reach dust + a + fee; whatever it finds outlives the refund
      deadline and splits cleanly. */
  method FundAndSplit(rank: CoinSelect.Rank, vs: seq<Vtxo>, terms: Terms, amount: nat, fee: nat)
    returns (inputs: seq<CoinSelect.Coin>, split: Option<ClaimSplit.Split>)
    requires 0 < amount < terms.dust && fee <= terms.dust
    ensures split.Some? <==> inputs != []
    ensures forall c :: c in inputs ==> Funds(vs, terms, c)
    ensures Eligible(vs, terms) != [] && CoinSelect.Sum(Eligible(vs, terms)) >= terms.dust + amount + fee ==> split.Some?
    ensures split.Some? ==> CleanSplit(split.value.outputs, split.value.opReturns, CoinSelect.Sum(inputs), amount, fee, terms.dust)
  {
    hide CleanSplit, Refused, OutlivesRefund, CoinSelect.Selected, Funds;
    var pool := Eligible(vs, terms);
    var ask := CoinSelect.Ask(terms.dust + amount + fee, None);
    inputs := CoinSelect.SelectSpendInputs(rank, ask, pool);
    if inputs == [] {
      if pool != [] && CoinSelect.Covers(ask, CoinSelect.Sum(pool)) {
        CoinSelect.NeverRefusedWhenCovered(rank, ask, pool, inputs);
      }
      return inputs, None;
    }
    InputsAreEligible(rank, ask, vs, terms, inputs);
    var clean := SplitFunding(CoinSelect.Sum(inputs), amount, fee, terms.dust);
    split := Some(clean);
  }
}
