/** The claim split: the pre-signed outputs of the claim (src/atomic/split.ts). */
module ClaimSplit {
  import opened Wrappers
  import opened SharedScript

  const MAX_OP_RETURN_OUTPUTS: nat := 2

  datatype ChangeKind = RegularChange | SubdustChange | Omitted

  datatype Split = Split(outputs: seq<Output>, opReturns: nat, claimerAmount: nat, feeAmount: nat,
                         changeAmount: nat, changeKind: ChangeKind)

  datatype EdgeError = AmountNotPositive | NotSubdust | NegativeFee | ExceedsFunding | TooManyOpReturns

  datatype Args = Args(funder: Party, claimer: Party, fundingValue: int, amount: int, dust: int, feeSats: int,
                       feeRecipient: Option<Party>, maxOpReturns: int)

  function OutputFor(to: Party, amount: nat, dust: int): (o: Output) {
    Output(if amount < dust then Subdust(to) else Regular(to), amount)
  }

  function OpReturns(outs: seq<Output>): (n: nat) {
    if outs == [] then 0 else (if outs[0].lock.Subdust? then 1 else 0) + OpReturns(outs[1..])
  }

  lemma {:induction false} Appended(outs: seq<Output>, o: Output, p: Party)
    ensures Total(outs + [o]) == Total(outs) + o.amount
    ensures OpReturns(outs + [o]) == OpReturns(outs) + (if o.lock.Subdust? then 1 else 0)
    ensures Paid(outs + [o], p) == Paid(outs, p) + (if o.lock.owner == p then o.amount else 0)
  {
    if outs == [] {
      assert outs + [o] == [o];
    } else {
      assert (outs + [o])[1..] == outs[1..] + [o];
      Appended(outs[1..], o, p);
    }
  }

  /** What each party is owed by a split of these arguments: the claimer `amount`, plus the
      fee when it is folded in; a separate recipient the fee; the funder all the rest. */
  function Owed(a: Args, p: Party): int {
    (if p == a.claimer then (if a.feeRecipient.None? then a.amount + a.feeSats else a.amount) else 0)
    + (if a.feeRecipient == Some(p) then a.feeSats else 0)
    + (if p == a.funder then a.fundingValue - a.amount - a.feeSats else 0)
  }

  /** The arguments no split is computed for, whatever the OP_RETURN count. */
  function BadArgs(a: Args): Option<EdgeError> {
    if a.amount <= 0 then Some(AmountNotPositive)
    else if a.amount >= a.dust then Some(NotSubdust)
    else if a.feeSats < 0 then Some(NegativeFee)
    else if a.fundingValue - a.amount - a.feeSats < 0 then Some(ExceedsFunding)
    else None
  }

  function ClaimerPiece(a: Args): Output
    requires BadArgs(a).None?
  {
    OutputFor(a.claimer, if a.feeRecipient.Some? then a.amount else a.amount + a.feeSats, a.dust)
  }

  function FeePieces(a: Args): seq<Output>
    requires BadArgs(a).None?
  {
    if a.feeSats > 0 && a.feeRecipient.Some? then [OutputFor(a.feeRecipient.value, a.feeSats, a.dust)] else []
  }

  function ChangePieces(a: Args): seq<Output>
    requires BadArgs(a).None?
  {
    var change := a.fundingValue - a.amount - a.feeSats;
    if change > 0 then [OutputFor(a.funder, change, a.dust)] else []
  }

  /** The outputs in wire order, before the OP_RETURN cap is checked. */
  function Pieces(a: Args): (outs: seq<Output>)
    requires BadArgs(a).None?
  {
    [ClaimerPiece(a)] + FeePieces(a) + ChangePieces(a)
  }

  /** The split as a value: the specification of ComputeClaimSplit. */
  function SplitOf(a: Args): (r: Result<Split, EdgeError>) {
    match BadArgs(a)
    case Some(e) => Failure(e)
    case None =>
      var outs := Pieces(a);
      var change := a.fundingValue - a.amount - a.feeSats;
      if OpReturns(outs) > a.maxOpReturns then Failure(TooManyOpReturns)
      else Success(Split(outs, OpReturns(outs), a.amount, a.feeSats, change,
                         if change == 0 then Omitted else if change < a.dust then SubdustChange else RegularChange))
  }

  method ComputeClaimSplit(a: Args) returns (r: Result<Split, EdgeError>)
    ensures r == SplitOf(a)
  {
    if a.amount <= 0 { return Failure(AmountNotPositive); }
    if a.amount >= a.dust { return Failure(NotSubdust); }
    if a.feeSats < 0 { return Failure(NegativeFee); }
    var change := a.fundingValue - a.amount - a.feeSats;
    if change < 0 { return Failure(ExceedsFunding); }

    var outputs: seq<Output> := [];
    var opReturns := 0;

    var claimer := OutputFor(a.claimer, if a.feeRecipient.Some? then a.amount else a.amount + a.feeSats, a.dust);
    Appended(outputs, claimer, a.funder);
    outputs := outputs + [claimer];
    if claimer.lock.Subdust? { opReturns := opReturns + 1; }

    if a.feeSats > 0 && a.feeRecipient.Some? {
      var feeOut := OutputFor(a.feeRecipient.value, a.feeSats, a.dust);
      Appended(outputs, feeOut, a.funder);
      outputs := outputs + [feeOut];
      if feeOut.lock.Subdust? { opReturns := opReturns + 1; }
    }

    var changeKind := Omitted;
    if change > 0 {
      var changeOut := OutputFor(a.funder, change, a.dust);
      Appended(outputs, changeOut, a.funder);
      outputs := outputs + [changeOut];
      changeKind := if changeOut.lock.Subdust? then SubdustChange else RegularChange;
      if changeOut.lock.Subdust? { opReturns := opReturns + 1; }
    }
    assert outputs == Pieces(a);

    if opReturns > a.maxOpReturns { return Failure(TooManyOpReturns); }
    return Success(Split(outputs, opReturns, a.amount, a.feeSats, change, changeKind));
  }

  lemma {:induction false} AppendedAll(outs: seq<Output>, more: seq<Output>, p: Party)
    ensures Total(outs + more) == Total(outs) + Total(more)
    ensures Paid(outs + more, p) == Paid(outs, p) + Paid(more, p)
  {
    if more == [] {
      assert outs + more == outs;
    } else {
      var k := |more| - 1;
      assert outs + more == (outs + more[..k]) + [more[k]];
      assert more == more[..k] + [more[k]];
      Appended(outs + more[..k], more[k], p);
      Appended(more[..k], more[k], p);
      AppendedAll(outs, more[..k], p);
    }
  }

  lemma AtMostOne(outs: seq<Output>, p: Party)
    requires |outs| <= 1
    ensures Total(outs) == if outs == [] then 0 else outs[0].amount
    ensures Paid(outs, p) == if outs == [] || outs[0].lock.owner != p then 0 else outs[0].amount
  {
    if outs != [] {
      assert outs[1..] == [];
    }
  }

  lemma PiecesAreOwed(a: Args, p: Party)
    requires BadArgs(a).None?
    ensures Total(Pieces(a)) == a.fundingValue
    ensures Paid(Pieces(a), p) == Owed(a, p)
  {
    hide Total, Paid;
    AtMostOne([ClaimerPiece(a)], p);
    AtMostOne(FeePieces(a), p);
    AtMostOne(ChangePieces(a), p);
    AppendedAll([ClaimerPiece(a)], FeePieces(a), p);
    AppendedAll([ClaimerPiece(a)] + FeePieces(a), ChangePieces(a), p);
  }

  /** Every split that is returned spends the funding value exactly, pays each party exactly
      what it is owed, uses an OP_RETURN exactly for the sub-dust amounts and keeps them
      within the server's cap. */
  lemma SplitConserves(a: Args, p: Party)
    requires SplitOf(a).Success?
    ensures Total(SplitOf(a).value.outputs) == a.fundingValue
    ensures Paid(SplitOf(a).value.outputs, p) == Owed(a, p)
    ensures SplitOf(a).value.opReturns == OpReturns(SplitOf(a).value.outputs) <= a.maxOpReturns
    ensures forall o :: o in SplitOf(a).value.outputs ==> o.amount > 0 && (o.lock.Subdust? <==> o.amount < a.dust)
    ensures SplitOf(a).value.changeKind == Omitted <==> a.fundingValue == a.amount + a.feeSats
  {
    PiecesAreOwed(a, p);
  }

  /** A split is refused exactly for bad arguments or when it needs more OP_RETURN outputs
      than the cap; with the default cap and the fee folded in, the cap never refuses. */
  lemma RefusedExactlyWhen(a: Args)
    ensures SplitOf(a).Failure? <==> BadArgs(a).Some? || OpReturns(Pieces(a)) > a.maxOpReturns
    ensures a.feeRecipient.None? && a.maxOpReturns == MAX_OP_RETURN_OUTPUTS && BadArgs(a).None?
         ==> SplitOf(a).Success?
  {
    if BadArgs(a).None? {
      var claimer := OutputFor(a.claimer, if a.feeRecipient.Some? then a.amount else a.amount + a.feeSats, a.dust);
      Appended([], claimer, a.funder);
      var outs := [] + [claimer];
      var change := a.fundingValue - a.amount - a.feeSats;
      if change > 0 {
        Appended(outs, OutputFor(a.funder, change, a.dust), a.funder);
        outs := outs + [OutputFor(a.funder, change, a.dust)];
      }
      if a.feeRecipient.None? {
        assert outs == Pieces(a);
      }
    }
  }

  /** The first thing wrong with the arguments is the one reported. */
  lemma RefusedFor(a: Args)
    ensures SplitOf(a) == Failure(AmountNotPositive) <==> a.amount <= 0
    ensures SplitOf(a) == Failure(NotSubdust) <==> a.amount > 0 && a.amount >= a.dust
    ensures SplitOf(a) == Failure(NegativeFee) <==> 0 < a.amount < a.dust && a.feeSats < 0
    ensures SplitOf(a) == Failure(ExceedsFunding) <==> 0 < a.amount < a.dust && a.feeSats >= 0 && a.amount + a.feeSats > a.fundingValue
  {
  }

  /** A fee for somebody else is an output of its own, between the claimer's and the change. */
  lemma RecipientSplitIs(a: Args, third: Party)
    requires SplitOf(a).Success? && a.feeRecipient == Some(third)
    ensures var rest := a.fundingValue - a.amount - a.feeSats;
      SplitOf(a).value.outputs == [Output(Subdust(a.claimer), a.amount)]
        + (if a.feeSats == 0 then [] else [Output(if a.feeSats < a.dust then Subdust(third) else Regular(third), a.feeSats)])
        + (if rest == 0 then [] else [Output(if rest < a.dust then Subdust(a.funder) else Regular(a.funder), rest)])
  {
  }

  /** With the fee folded in, or none: the claimer's output comes first, then what is left for
      the funder unless that is nothing; each is an OP_RETURN exactly below dust. Refused are
      exactly the amounts that are not positive, not below dust, or not covered. */
  lemma FoldedSplitIs(funder: Party, claimer: Party, value: int, amount: int, dust: int, fee: int)
    ensures var r := SplitOf(Args(funder, claimer, value, amount, dust, fee, None, MAX_OP_RETURN_OUTPUTS));
      && (r.Success? <==> 0 < amount < dust && fee >= 0 && amount + fee <= value)
      && (r.Success? ==>
            var ours, rest := amount + fee, value - amount - fee;
            r.value.outputs == [Output(if ours < dust then Subdust(claimer) else Regular(claimer), ours)]
                             + (if rest == 0 then [] else [Output(if rest < dust then Subdust(funder) else Regular(funder), rest)]))
  {
    var a := Args(funder, claimer, value, amount, dust, fee, None, MAX_OP_RETURN_OUTPUTS);
    RefusedExactlyWhen(a);
  }

  /** Funding and split compose: whatever whole inputs reach the target dust + a + fee, the
      split has exactly two outputs, the claimer's a + fee and a regular change for the
      funder, with at most one OP_RETURN. */
  lemma FundedSplitIsClean(funding: int, amount: int, dust: int, fee: int)
    requires 0 < amount < dust && 0 <= fee <= dust
    requires funding >= dust + amount + fee
    ensures var a := Args(Us, Peer, funding, amount, dust, fee, None, MAX_OP_RETURN_OUTPUTS);
      var r := SplitOf(a);
      && r.Success?
      && r.value.outputs == [OutputFor(Peer, amount + fee, dust), Output(Regular(Us), funding - amount - fee)]
      && r.value.changeKind == RegularChange && r.value.opReturns <= 1
      && Total(r.value.outputs) == funding
      && Paid(r.value.outputs, Peer) == amount + fee
      && Paid(r.value.outputs, Us) == funding - amount - fee >= dust
  {
    var a := Args(Us, Peer, funding, amount, dust, fee, None, MAX_OP_RETURN_OUTPUTS);
    RefusedExactlyWhen(a);
    SplitConserves(a, Us);
    SplitConserves(a, Peer);
    var outs := [OutputFor(Peer, amount + fee, dust), Output(Regular(Us), funding - amount - fee)];
    assert Pieces(a) == outs;
    assert outs == [outs[0]] + [outs[1]];
    Appended([outs[0]], outs[1], Us);
  }
}
