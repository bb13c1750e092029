/** How claims end: a send nobody hinders, and a pass after a crash that hears of a claim. */
module AtomicClaims {
  import opened Wrappers
  import opened SwapState
  import opened SharedScript
  import opened SwapRepository
  import opened AtomicSend
  import opened AtomicSafety
  import AtomicHistory
  import AtomicRecovery
  import AtomicStranded
  import AtomicTheorems
  import ClaimSplit

  // ---- a send nobody hinders ---------------------------------------------------------------

  /** Boltz claims, reports the preimage, and the indexer confirms. */
  function ClaimRun(t: TaskId, s: Spend, p: string): seq<Event> {
    [Outside(SpendLands(s)), Continue(t, BoltzReplies(PaidReply(p))), Continue(t, ConfirmAnswer(true))]
  }

  lemma ClaimCanLand(w: World, s: Spend)
    requires s.input in w.coins && w.coins[s.input].script == s.script && w.coins[s.input].spentBy.None?
    requires s in w.signed && s.leaf == ClaimLeaf && s.script.funder == w.us && Total(s.outputs) == w.coins[s.input].value
    ensures CanLand(w, s)
  {
    var c := w.coins[s.input];
    var age := if c.unrolledAt.Some? && w.mtp >= c.unrolledAt.value then Some(w.mtp - c.unrolledAt.value) else None;
    assert LeafOpens(s.script, s.leaf, Signers(w, s), {s.script.paymentHash}, w.mtp, age);
  }

  lemma ConfirmedIsClaimed(w: World, t: TaskId, id: SwapId, o: Outpoint, p: string)
    requires t in w.tasks && w.tasks[t] == Sending(id, Confirming(o, p)) && id in w.files && IsSpent(w, o)
    requires w.files[id].row.direction == Send && w.files[id].row.state == LnInflight
    ensures var v := Step(w, Continue(t, ConfirmAnswer(true)));
      && id in v.files && v.files[id].row.state == Claimed && v.files[id].blind == w.files[id].blind && v.files[id].deal == w.files[id].deal
      && o in v.gone && v.coins == w.coins
  {
    assert Legal(Send, LnInflight, Claimed);
    assert Step(w, Continue(t, ConfirmAnswer(true))) == Close(See(w, o), t, id, Claimed, true, o) by {
      hide Close;
    }
  }

  lemma LandsAndReplies(w: World, t: TaskId, id: SwapId, s: Spend, p: string)
    requires t in w.tasks && w.tasks[t] == Sending(id, AwaitingBoltz(s.input)) && id in w.files && CanLand(w, s)
    ensures var v := Step(Step(w, Outside(SpendLands(s))), Continue(t, BoltzReplies(PaidReply(p))));
      v == Goto(Land(w, s), t, Sending(id, Confirming(s.input, p)))
  {
    hide CanLand;
    assert Step(w, Outside(SpendLands(s))) == Land(w, s);
  }

  lemma LiveClaimEnds(w: World, t: TaskId, id: SwapId, s: Spend, p: string)
    requires t in w.tasks && w.tasks[t] == Sending(id, AwaitingBoltz(s.input)) && id in w.files && CanLand(w, s)
    requires w.files[id].row.direction == Send && w.files[id].row.state == LnInflight
    ensures var v := Run(w, ClaimRun(t, s, p));
      && id in v.files && v.files[id].row.state == Claimed && v.files[id].blind == w.files[id].blind && v.files[id].deal == w.files[id].deal
      && s.input in v.gone && s.input in v.coins && v.coins[s.input] == w.coins[s.input].(spentBy := Some(s))
  {
    var es := ClaimRun(t, s, p);
    LandsAndReplies(w, t, id, s, p);
    ConfirmedIsClaimed(Goto(Land(w, s), t, Sending(id, Confirming(s.input, p))), t, id, s.input, p);
    hide Step, Run, CanLand;
    AtomicTheorems.FirstThree(w, es);
    assert es[..3] == es;
  }

  /** A send nobody hinders, with an indexer that may be truthful or not: the funding is
      spent by the agreed claim, boltz has the amount and its fee and we have the rest, and the
      row is claimed on the indexer's word. */
  function GoodRun(o: Order, script: Options, s: Spend, p: string): seq<Event> {
    AtomicTheorems.StaleRun(o, script, s.input)[..7] + ClaimRun(0, s, p)
  }

  lemma ClaimPays(d: Deal, c: Outpoint)
    requires ClaimSplit.SplitOf(SplitArgs(d)).Success?
    ensures var s := AtomicTheorems.AgreedClaim(d, c);
      && s.input == c && s.script == d.script && s.leaf == ClaimLeaf && Total(s.outputs) == d.funding
      && Paid(s.outputs, Peer) == d.amount + d.fee && Paid(s.outputs, Us) == d.funding - d.amount - d.fee
  {
    hide ClaimSplit.SplitOf;
    ClaimSplit.SplitConserves(SplitArgs(d), Peer);
    ClaimSplit.SplitConserves(SplitArgs(d), Us);
  }

  lemma FreshDeal(w: World, o: Order)
    requires Accepts(w, o) && o.amount > 0
    ensures var d := AtomicTheorems.FreshFile(w, o).deal;
      && d.amount == o.amount && d.fee == o.fee && d.funding == o.funding && d.script.funder == w.us
      && ClaimSplit.SplitOf(SplitArgs(d)).Success?
  {
    hide ClaimSplit.SplitOf;
    AtomicTheorems.FreshSplits(w, o);
  }

  lemma InFlight(w: World, id: SwapId, snap: Row, c: Outpoint)
    requires id in w.files && AtomicTheorems.Midway(w, id, snap, c, w.files[id], AwaitingBoltz(c)) && AtomicTheorems.Plain(w.files[id], LnInflight, {c})
    ensures 0 in w.tasks && w.tasks[0] == Sending(id, AwaitingBoltz(c)) && c in w.coins && w.coins[c].spentBy.None?
    ensures w.files[id].row.direction == Send && w.files[id].row.state == LnInflight && !w.files[id].blind
  {
  }

  lemma GoodSendPays(us: Key, server: Key, honest: bool, o: Order, c: Outpoint, p: string)
    requires Accepts(Start(us, server, honest), o) && o.amount > 0
    ensures var s := Start(us, server, honest);
      var d := AtomicTheorems.FreshFile(s, o).deal;
      && ClaimSplit.SplitOf(SplitArgs(d)).Success?
      && var claim := AtomicTheorems.AgreedClaim(d, c);
         var v := Run(s, GoodRun(o, d.script, claim, p));
         && o.id in v.files && v.files[o.id].row.state == Claimed && !v.files[o.id].blind && c in v.gone
         && c in v.coins && v.coins[c].spentBy == Some(claim)
         && Paid(claim.outputs, Peer) == o.amount + o.fee && Paid(claim.outputs, Us) == o.funding - o.amount - o.fee
  {
    var s := Start(us, server, honest);
    assert s == Start(s.us, s.server, s.honestIndexer) && s.us == us;
    hide *;
    FreshDeal(s, o);
    var d := AtomicTheorems.FreshFile(s, o).deal;
    var claim := AtomicTheorems.AgreedClaim(d, c);
    ClaimPays(d, c);
    var all := AtomicTheorems.StaleRun(o, d.script, c);
    AtomicStranded.Shapes(o, d.script, c);
    assert all[..7][..3] == all[..3];
    AtomicTheorems.SendRunsThrough(s, o, c, all);
    AtomicStranded.CoinStays(s, o, c, all[..7]);
    var w := Run(s, all[..7]);
    InFlight(w, o.id, NewRow(s, o), c);
    KeysStay(s, all[..7]);
    ClaimCanLand(w, claim);
    LiveClaimEnds(w, 0, o.id, claim, p);
    AtomicRecovery.RunAppend(s, all[..7], ClaimRun(0, claim, p));
    GoodRunIs(o, d.script, claim, p);
  }

  lemma GoodRunIs(o: Order, script: Options, s: Spend, p: string)
    ensures GoodRun(o, script, s, p) == AtomicTheorems.StaleRun(o, script, s.input)[..7] + ClaimRun(0, s, p)
  {
    hide AtomicTheorems.StaleRun, ClaimRun;
  }

  lemma KeysStay(w: World, es: seq<Event>)
    ensures Run(w, es).us == w.us
  {
    hide Run;
    AtomicHistory.RunGrows(w, es);
  }

  // ---- a pass after a crash ---------------------------------------------------------------------

  /** A pass reaches the row as it is; boltz says claimed, and the indexer says whether the
      shared output is gone. */
  function PassRun(w: World, t: TaskId, id: SwapId, p: Option<string>, stuck: bool, spent: bool): seq<Event> {
    [TakeSnapshot(t, id, w.now), Continue(t, MainPass), Continue(t, StatusAnswer(SaysClaimed(p), stuck)), Continue(t, ConfirmAnswer(spent))]
  }

  lemma PassAsks(w: World, t: TaskId, id: SwapId)
    requires id in w.files && t !in w.tasks && id !in w.inflight
    requires w.files[id].row.direction == Send && (w.files[id].row.state == Funded || w.files[id].row.state == LnInflight)
    ensures Step(Step(w, TakeSnapshot(t, id, w.now)), Continue(t, MainPass))
         == Goto(w, t, AskingStatus(id, w.files[id].row, w.now >= w.files[id].row.refundLocktime))
  {
    var row := w.files[id].row;
    var w1 := Goto(w, t, Item(id, row, w.now));
    assert Step(w, TakeSnapshot(t, id, w.now)) == w1;
    MainPassAsks(w1, t, Item(id, row, w.now));
    GoesTo(w, t, Item(id, row, w.now), AskingStatus(id, row, w.now >= row.refundLocktime), Outpoint("", 0));
    assert Goto(w1, t, AskingStatus(id, row, w.now >= row.refundLocktime)) == Goto(w, t, AskingStatus(id, row, w.now >= row.refundLocktime));
    assert Step(w1, Continue(t, MainPass)) == StepMainPass(w1, t, Item(id, row, w.now)) by {
      hide StepMainPass;
    }
  }

  lemma MainPassAsks(w: World, t: TaskId, k: Task)
    requires k.Item? && k.id in w.files && k.id !in w.inflight && (k.snap.state == Funded || k.snap.state == LnInflight)
    ensures StepMainPass(w, t, k) == Goto(w, t, AskingStatus(k.id, k.snap, k.at >= k.snap.refundLocktime))
  {
  }

  lemma PassHears(w: World, t: TaskId, id: SwapId, o: Outpoint, row: Row, post: bool, p: Option<string>, stuck: bool)
    requires t in w.tasks && w.tasks[t] == AskingStatus(id, row, post) && id in w.files
    requires row.fundingOutpoint == Some(o) && row.state != RefundWait
    ensures Step(w, Continue(t, StatusAnswer(SaysClaimed(p), stuck))) == Goto(w, t, ConfirmingClaim(id, o, p, post))
  {
    assert Step(w, Continue(t, StatusAnswer(SaysClaimed(p), stuck))) == StepStatusAnswer(w, t, w.tasks[t], SaysClaimed(p), stuck) by {
      hide StepStatusAnswer;
    }
  }

  lemma PassConfirms(w: World, t: TaskId, id: SwapId, o: Outpoint, post: bool, p: Option<string>, spent: bool)
    requires t in w.tasks && w.tasks[t] == ConfirmingClaim(id, o, p, post) && id in w.files && (spent ==> IsSpent(w, o))
    ensures Step(w, Continue(t, ConfirmAnswer(spent))) == StepConfirmPass(w, t, w.tasks[t], spent)
  {
    hide StepConfirmPass;
  }

  lemma ClaimWritten(w: World, t: TaskId, id: SwapId, o: Outpoint, post: bool, p: Option<string>)
    requires id in w.files && w.files[id].row.direction == Send && (w.files[id].row.state == Funded || w.files[id].row.state == LnInflight)
    ensures var v := StepConfirmPass(w, t, ConfirmingClaim(id, o, p, post), true);
      id in v.files && v.files[id].row.state == Claimed && v.files[id].blind == w.files[id].blind && o in v.gone && v.coins == w.coins
  {
    assert Legal(Send, Funded, LnInflight) && Legal(Send, LnInflight, Claimed);
  }

  lemma ClaimDoubted(w: World, t: TaskId, id: SwapId, o: Outpoint, post: bool, p: Option<string>)
    requires id in w.files && (w.files[id].row.state == Funded || w.files[id].row.state == LnInflight) && w.files[id].row.fundingOutpoint == Some(o)
    requires post <==> w.now >= w.files[id].row.refundLocktime
    ensures var v := StepConfirmPass(w, t, ConfirmingClaim(id, o, p, post), false);
      && id in v.files && v.files[id].row.state == w.files[id].row.state && v.files[id].row.fundingOutpoint == Some(o)
      && (p.Some? ==> v.files[id].row.preimage == p)
      && (if w.now >= w.files[id].row.refundLocktime
          then t in v.tasks && v.tasks[t] == Unwinding(id, RefundLeaf, o, w.files[id].row.state, Looking, false)
          else t !in v.tasks)
  {
  }

  /** After any run, crashes included: a pass that hears 'claimed' for a funded or in-flight
      row writes it exactly when the indexer shows the recorded output gone. Otherwise it keeps
      the preimage and, from T on, goes straight to the refund. */
  lemma PassClaimsExactlyWhenSpent(us: Key, server: Key, honest: bool, es: seq<Event>, t: TaskId, id: SwapId, o: Outpoint,
                                   p: Option<string>, stuck: bool, spent: bool)
    requires var w := Run(Start(us, server, honest), es);
      && id in w.files && (w.files[id].row.state == Funded || w.files[id].row.state == LnInflight)
      && w.files[id].row.fundingOutpoint == Some(o) && t !in w.tasks && id !in w.inflight && (spent ==> IsSpent(w, o))
    ensures var w := Run(Start(us, server, honest), es);
      var v := Run(w, PassRun(w, t, id, p, stuck, spent));
      && id in v.files
      && (v.files[id].row.state == Claimed <==> spent)
      && (spent ==> !v.files[id].blind && o in v.gone)
      && (!spent ==> v.files[id].row.state == w.files[id].row.state && (p.Some? ==> v.files[id].row.preimage == p))
      && (!spent && w.now >= w.files[id].row.refundLocktime ==>
            t in v.tasks && v.tasks[t] == Unwinding(id, RefundLeaf, o, w.files[id].row.state, Looking, false))
  {
    var w := Run(Start(us, server, honest), es);
    StartOk(us, server, honest);
    RunKeeps(Start(us, server, honest), es);
    FileOf(w, id);
    var f := w.files[id];
    assert f.row.direction == Send && !f.blind;
    hide Inv, Run, Start, StateOk, TermsOk, Step, StepConfirmPass;
    PassEnds(w, t, id, o, p, stuck, spent);
  }

  lemma PassEnds(w: World, t: TaskId, id: SwapId, o: Outpoint, p: Option<string>, stuck: bool, spent: bool)
    requires id in w.files && w.files[id].row.direction == Send && (w.files[id].row.state == Funded || w.files[id].row.state == LnInflight)
    requires w.files[id].row.fundingOutpoint == Some(o) && t !in w.tasks && id !in w.inflight && (spent ==> IsSpent(w, o))
    ensures var v := Run(w, PassRun(w, t, id, p, stuck, spent));
      && id in v.files
      && (v.files[id].row.state == Claimed <==> spent)
      && (spent ==> v.files[id].blind == w.files[id].blind && o in v.gone)
      && (!spent ==> v.files[id].row.state == w.files[id].row.state && (p.Some? ==> v.files[id].row.preimage == p))
      && (!spent && w.now >= w.files[id].row.refundLocktime ==>
            t in v.tasks && v.tasks[t] == Unwinding(id, RefundLeaf, o, w.files[id].row.state, Looking, false))
  {
    hide *;
    var row := w.files[id].row;
    var post := w.now >= row.refundLocktime;
    var asking := AskingStatus(id, row, post);
    var confirming := ConfirmingClaim(id, o, p, post);
    var es := PassRun(w, t, id, p, stuck, spent);
    var u := Goto(w, t, confirming);
    GoesTo(w, t, asking, confirming, o);
    PassAsks(w, t, id);
    PassHears(Goto(w, t, asking), t, id, o, row, post, p, stuck);
    PassConfirms(u, t, id, o, post, p, spent);
    if spent {
      ClaimWritten(u, t, id, o, post, p);
    } else {
      ClaimDoubted(u, t, id, o, post, p);
    }
    PassShape(w, t, id, p, stuck, spent);
    AtomicRecovery.RunFour(w, es);
  }

  lemma GoesTo(w: World, t: TaskId, k: Task, next: Task, o: Outpoint)
    ensures var v := Goto(w, t, k);
      v.files == w.files && v.now == w.now && t in v.tasks && v.tasks[t] == k && Goto(v, t, next) == Goto(w, t, next)
    ensures var v := Goto(w, t, next);
      v.files == w.files && v.now == w.now && t in v.tasks && v.tasks[t] == next && IsSpent(v, o) == IsSpent(w, o)
  {
    assert w.tasks[t := k][t := next] == w.tasks[t := next];
  }

  lemma PassShape(w: World, t: TaskId, id: SwapId, p: Option<string>, stuck: bool, spent: bool)
    ensures var es := PassRun(w, t, id, p, stuck, spent);
      |es| == 4 && es[0] == TakeSnapshot(t, id, w.now) && es[1] == Continue(t, MainPass)
      && es[2] == Continue(t, StatusAnswer(SaysClaimed(p), stuck)) && es[3] == Continue(t, ConfirmAnswer(spent))
  {
  }
}
