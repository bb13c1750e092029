/** What each answer makes a resume pass, a live send and an unwind do, outcome by outcome, and
    that a pass alone brings a locked output home (src/atomic/send.ts). */
module AtomicPass {
  import opened Wrappers
  import opened SwapState
  import opened SharedScript
  import opened SwapRepository
  import opened AtomicSend
  import opened AtomicSafety
  import opened AtomicRecovery
  import AtomicTheorems
  import ClaimSplit
  import Unwind

  // ---- outcomes --------------------------------------------------------------------------

  /** The task is over; nothing but the process's own memory has changed. */
  ghost predicate Over(w: World, v: World, t: TaskId, id: SwapId, live: bool) {
    v == w.(tasks := w.tasks - {t}, inflight := if live then w.inflight - {id} else w.inflight)
  }

  ghost predicate Becomes(w: World, v: World, t: TaskId, k: Task) {
    v == w.(tasks := w.tasks[t := k])
  }

  /** A refund may begin. */
  predicate MayUnwind(w: World, id: SwapId, leaf: Leaf)
    requires id in w.files
  {
    var row := w.files[id].row;
    (row.state == Funded || row.state == LnInflight || row.state == RefundWait) && row.fundingOutpoint.Some? && (leaf == RefundLeaf ==> w.now >= row.refundLocktime)
  }

  /** An unwind of the row's recorded output has begun, or none may. */
  ghost predicate Begun(w: World, v: World, t: TaskId, id: SwapId, leaf: Leaf, live: bool)
    requires id in w.files
  {
    var row := w.files[id].row;
    if MayUnwind(w, id, leaf)
    then Becomes(w, v, t, Unwinding(id, leaf, row.fundingOutpoint.value, row.state, Looking, live))
    else Over(w, v, t, id, live)
  }

  /** The world with a row moved on by one legal transition. */
  ghost predicate Moved(w: World, u: World, id: SwapId, to: State)
    requires id in w.files
  {
    && Legal(w.files[id].row.direction, w.files[id].row.state, to)
    && u == w.(files := w.files[id := w.files[id].(row := w.files[id].row.(state := to, updatedAt := w.now * 1000), hist := w.files[id].hist + [to])])
  }

  lemma UnwindBegins(w: World, t: TaskId, id: SwapId, leaf: Leaf, live: bool)
    requires id in w.files
    ensures Begun(w, BeginUnwind(w, t, id, leaf, live), t, id, leaf, live)
  {
  }

  lemma MoveIs(w: World, id: SwapId, to: State)
    requires id in w.files
    ensures Move(w, id, to).Some? <==> Legal(w.files[id].row.direction, w.files[id].row.state, to)
    ensures Move(w, id, to).Some? ==> Moved(w, Move(w, id, to).value, id, to)
  {
  }

  lemma FinishIs(w: World, t: TaskId, id: SwapId, live: bool, k: Task)
    ensures Over(w, Finish(w, t, id, live), t, id, live) && Becomes(w, Goto(w, t, k), t, k)
  {
  }

  // ---- a resume pass ----------------------------------------------------------------------

  /** What a pass does with the row it listed, before anybody is asked: nothing while a live
      send owns it or when it is terminal; past T a funded, in-flight or waiting row is on its
      way to a refund; before T a waiting row goes straight to a cancel, and boltz is asked
      about any other. */
  lemma ItemDecides(w: World, t: TaskId, k: Task)
    requires k.Item? && k.id in w.files && t in w.tasks && w.tasks[t] == k
    ensures var v := Step(w, Continue(t, MainPass));
      var late := k.at >= k.snap.refundLocktime;
      if k.id in w.inflight || !Known(Send, k.snap.state) || (forall to :: !Legal(Send, k.snap.state, to)) then Over(w, v, t, k.id, false)
      else if k.snap.state == Init then Becomes(w, v, t, AskingStatus(k.id, k.snap, false))
      else if late then Becomes(w, v, t, AskingStatus(k.id, k.snap, true))
      else if k.snap.state == RefundWait then Begun(w, v, t, k.id, CancelLeaf, false)
      else Becomes(w, v, t, AskingStatus(k.id, k.snap, false))
  {
    FinishIs(w, t, k.id, false, AskingStatus(k.id, k.snap, true));
    FinishIs(w, t, k.id, false, AskingStatus(k.id, k.snap, false));
    UnwindBegins(w, t, k.id, CancelLeaf, false);
    if Known(Send, k.snap.state) {
      TerminalMeansNoMove(Send, k.snap.state);
    }
    PassSteps(w, t, k, MainPass);
    hide Step, Begun, Over, Becomes, BeginUnwind, Goto, Finish;
  }

  lemma PassSteps(w: World, t: TaskId, k: Task, a: Answer)
    requires !k.Sending? && !k.Unwinding? && k.id in w.files && t in w.tasks && w.tasks[t] == k && !a.Throws?
    ensures Step(w, Continue(t, a)) == PassStep(w, t, k, a)
  {
    hide PassStep;
  }

  /** The pre-pass looks for the coin of exactly the rows in init without an outpoint that no
      live send owns. */
  lemma PrePassDecides(w: World, t: TaskId, k: Task)
    requires k.Item? && k.id in w.files && t in w.tasks && w.tasks[t] == k
    ensures var v := Step(w, Continue(t, PrePass));
      if k.id !in w.inflight && k.snap.state == Init && k.snap.fundingOutpoint.None?
      then Becomes(w, v, t, Recovering(k.id, k.snap, k.at, false)) else Over(w, v, t, k.id, false)
  {
  }

  /** Boltz has said claimed, and that is to be believed or checked: not of a row that waits for
      its refund once T is reached. */
  predicate Believes(k: Task, status: Status)
    requires k.AskingStatus?
  {
    status.SaysClaimed? && !(k.post && k.snap.state == RefundWait)
  }

  /** Every answer of boltz. Claimed is checked at the indexer when the row the pass listed has
      an outpoint. Past T every other answer, and silence, leads to a refund. Before T a failure
      moves the row to refund_wait and leads to a cancel, and so does an answer that says
      neither, or none, once the row is stuck; otherwise the pass waits. */
  lemma StatusDecides(w: World, t: TaskId, k: Task, status: Status, stuck: bool)
    requires k.AskingStatus? && k.id in w.files && t in w.tasks && w.tasks[t] == k
    ensures var v := Step(w, Continue(t, StatusAnswer(status, stuck)));
      && (Believes(k, status) && k.snap.fundingOutpoint.Some? ==>
            Becomes(w, v, t, ConfirmingClaim(k.id, k.snap.fundingOutpoint.value, status.preimage, k.post)))
      && (!Believes(k, status) && k.post ==> Begun(w, v, t, k.id, RefundLeaf, false))
      && (!k.post && (status == SaysFailed || status == SaysRefundWait) ==>
            if k.snap.state == RefundWait then Begun(w, v, t, k.id, CancelLeaf, false)
            else if Legal(w.files[k.id].row.direction, w.files[k.id].row.state, RefundWait)
            then exists u :: Moved(w, u, k.id, RefundWait) && Begun(u, v, t, k.id, CancelLeaf, false)
            else Over(w, v, t, k.id, false))
      && (!k.post && (status == Unreachable || status == SaysOther) ==>
            if stuck then Begun(w, v, t, k.id, CancelLeaf, false) else Over(w, v, t, k.id, false))
  {
    var o := k.snap.fundingOutpoint.GetOr(Outpoint("", 0));
    FinishIs(w, t, k.id, false, ConfirmingClaim(k.id, o, if status.SaysClaimed? then status.preimage else None, k.post));
    UnwindBegins(w, t, k.id, CancelLeaf, false);
    UnwindBegins(w, t, k.id, RefundLeaf, false);
    MoveIs(w, k.id, RefundWait);
    if Move(w, k.id, RefundWait).Some? {
      UnwindBegins(Move(w, k.id, RefundWait).value, t, k.id, CancelLeaf, false);
    }
    StatusStep(w, t, k, status, stuck);
    hide Step, Begun, Over, Becomes, BeginUnwind, Goto, Finish, Move, Moved, WriteClaimed, Legal;
  }

  lemma StatusStep(w: World, t: TaskId, k: Task, status: Status, stuck: bool)
    requires k.AskingStatus? && k.id in w.files && t in w.tasks && w.tasks[t] == k
    ensures Step(w, Continue(t, StatusAnswer(status, stuck))) == StepStatusAnswer(w, t, k, status, stuck)
  {
    hide StepStatusAnswer;
  }

  /** A doubted claim is not written: the preimage is kept, and past T the refund begins. */
  lemma DoubtDecides(w: World, t: TaskId, k: Task)
    requires k.ConfirmingClaim? && k.id in w.files && t in w.tasks && w.tasks[t] == k
    ensures var v := Step(w, Continue(t, ConfirmAnswer(false)));
      exists u :: Kept(w, u, k.id, k.preimage) && if k.post then Begun(u, v, t, k.id, RefundLeaf, false) else Over(u, v, t, k.id, false)
  {
    var u := KeepPreimage(w, k.id, k.preimage);
    KeptIs(w, k.id, k.preimage);
    FinishIs(u, t, k.id, false, k);
    UnwindBegins(u, t, k.id, RefundLeaf, false);
    hide Begun, Over, Becomes, BeginUnwind, Goto, Finish, KeepPreimage, Kept;
  }

  ghost predicate Kept(w: World, u: World, id: SwapId, preimage: Option<string>)
    requires id in w.files
  {
    if preimage.None? then u == w
    else u == w.(files := w.files[id := w.files[id].(row := w.files[id].row.(preimage := preimage, updatedAt := w.now * 1000))])
  }

  lemma KeptIs(w: World, id: SwapId, preimage: Option<string>)
    requires id in w.files
    ensures Kept(w, KeepPreimage(w, id, preimage), id, preimage) && id in KeepPreimage(w, id, preimage).files
  {
  }

  // ---- a live send ------------------------------------------------------------------------

  /** What a send takes on: a sub-dust amount, a fee boltz could sanely ask for, a script that
      can be built, and inputs that cover dust besides. */
  ghost predicate Sendable(us: Key, server: Key, o: Order) {
    && o.amount < o.dust && o.fee <= o.dust && o.funding >= o.dust + o.amount + o.fee && o.fee >= 0
    && |us| == |o.boltzKey| == |server| == |o.paymentHash| == 32 && o.refundLocktime > 0 && o.exitDelay > 0
  }

  /** It is taken on exactly when nothing is wrong with it and neither its id nor its payment
      hash is known; then its row is there and the send registered, before it funds anything. */
  lemma StartDecides(w: World, t: TaskId, o: Order)
    requires t !in w.tasks
    ensures var v := Step(w, StartSend(t, o));
      if !Sendable(w.us, w.server, o) then v == w
      else if o.id in w.files || (exists i :: i in w.files && w.files[i].row.paymentHash == o.paymentHash) then Over(w, v, t, o.id, true)
      else
        && o.id in v.files && v == w.(files := w.files[o.id := v.files[o.id]], inflight := w.inflight + {o.id}, tasks := w.tasks[t := Sending(o.id, FundingSent)])
        && Agreed(w, v.files[o.id], o)
  {
    BuiltExactlyWhen(Options(w.us, o.boltzKey, w.server, o.paymentHash, o.refundLocktime, o.exitDelay));
    assert RowsOf(w).Keys == w.files.Keys;
    assert Taken(RowsOf(w), o.id, o.paymentHash) <==> o.id in w.files || exists i :: i in w.files && w.files[i].row.paymentHash == o.paymentHash;
    hide Build, Taken, RowsOf;
  }

  ghost predicate Agreed(w: World, f: File, o: Order) {
    && f.hist == [Init] && f.recorded == {} && f.claim.None? && !f.blind
    && f.deal.script == Options(w.us, o.boltzKey, w.server, o.paymentHash, o.refundLocktime, o.exitDelay)
    && f.deal.amount == o.amount && f.deal.fee == o.fee && f.deal.dust == o.dust && f.deal.funding == o.funding
    && f.row.direction == Send && f.row.paymentHash == o.paymentHash && f.row.state == Init && f.row.amount == o.amount
    && f.row.refundLocktime == o.refundLocktime && f.row.invoice == Some(o.invoice) && f.row.peerPubkey == Some(o.boltzKey)
    && f.row.exitDelay == Some(o.exitDelay) && f.row.createdAt == w.now * 1000 && f.row.updatedAt == w.now * 1000
    && f.row.fundingOutpoint.None? && f.row.presigs.None? && f.row.preimage.None?
  }

  /** After the funding spend: accepted, its output is located; rejected, the script is looked
      up unless the row has moved on. */
  lemma FundingDecides(w: World, t: TaskId, id: SwapId, ok: bool)
    requires id in w.files && t in w.tasks && w.tasks[t] == Sending(id, FundingSent)
    ensures var v := Step(w, Continue(t, FundingDone(ok)));
      if ok then Becomes(w, v, t, Sending(id, Locating))
      else if w.files[id].row.state == Init && w.files[id].row.fundingOutpoint.None? then Becomes(w, v, t, Recovering(id, w.files[id].row, w.now, true))
      else Over(w, v, t, id, true)
  {
  }

  /** A located output is recorded in the row before anything else happens. */
  lemma LocateDecides(w: World, t: TaskId, id: SwapId, found: Option<Outpoint>)
    requires id in w.files && t in w.tasks && w.tasks[t] == Sending(id, Locating)
    ensures var v := Step(w, Continue(t, LocateAnswer(found)));
      if found.None? then Over(w, v, t, id, true)
      else
        var f := w.files[id];
        var g := f.(row := f.row.(fundingOutpoint := found, updatedAt := w.now * 1000), recorded := f.recorded + {found.value});
        v == w.(files := w.files[id := g], tasks := w.tasks[t := Sending(id, Located(found.value))])
  {
  }

  /** The one claim a send signs: boltz's amount and fee, sub-dust exactly below dust, and the
      rest of the funding for us. */
  lemma SignDecides(w: World, t: TaskId, id: SwapId, o: Outpoint)
    requires id in w.files && t in w.tasks && w.tasks[t] == Sending(id, Located(o))
    ensures var v := Step(w, Continue(t, SignClaim));
      var d := w.files[id].deal;
      if 0 < d.amount < d.dust && d.amount + d.fee <= d.funding then
        var theirs, rest := d.amount + d.fee, d.funding - d.amount - d.fee;
        var outputs := [Output(if theirs < d.dust then Subdust(Peer) else Regular(Peer), theirs)]
                     + (if rest == 0 then [] else [Output(if rest < d.dust then Subdust(Us) else Regular(Us), rest)]);
        var s := Spend(o, d.script, ClaimLeaf, outputs);
        v == w.(files := w.files[id := w.files[id].(claim := Some(s))], signed := w.signed[s := id], tasks := w.tasks[t := Sending(id, Presigned(s))])
      else Over(w, v, t, id, true)
  {
    var d := w.files[id].deal;
    ClaimSplit.FoldedSplitIs(Us, Peer, d.funding, d.amount, d.dust, d.fee);
    hide ClaimSplit.SplitOf;
  }

  /** Handing over: the signatures are stored, then the row is funded, then in flight, and only
      then boltz hears of it. */
  lemma HandOverDecides(w: World, t: TaskId, id: SwapId, s: Spend)
    requires id in w.files && t in w.tasks && w.tasks[t] == Sending(id, Presigned(s))
    requires w.files[id].row.direction == Send && w.files[id].row.state == Init
    ensures var v := Step(w, Continue(t, HandOver));
      var f := w.files[id];
      var g := f.(row := f.row.(presigs := Some(s), state := LnInflight, updatedAt := w.now * 1000), hist := f.hist + [Funded] + [LnInflight]);
      v == w.(files := w.files[id := g], tasks := w.tasks[t := Sending(id, AwaitingBoltz(s.input))])
  {
    assert Legal(Send, Init, Funded) && Legal(Send, Funded, LnInflight);
    SendSteps(w, t, w.tasks[t], HandOver);
    hide Step, SendStep;
  }

  lemma SendSteps(w: World, t: TaskId, k: Task, a: Answer)
    requires k.Sending? && k.id in w.files && t in w.tasks && w.tasks[t] == k && !a.Throws?
    ensures Step(w, Continue(t, a)) == SendStep(w, t, k, a)
  {
    hide SendStep;
  }

  /** What each reply comes to. */
  ghost predicate Replied(w: World, v: World, t: TaskId, id: SwapId, o: Outpoint, reply: FundReply)
    requires id in w.files
  {
    var row := w.files[id].row;
    match reply
    case PaidReply(p) => Becomes(w, v, t, Sending(id, Confirming(o, p)))
    case FailedReply =>
      if Legal(row.direction, row.state, RefundWait)
      then exists u :: Moved(w, u, id, RefundWait) && Begun(u, v, t, id, CancelLeaf, true)
      else Over(w, v, t, id, true)
    case OtherReply =>
      if Legal(row.direction, row.state, Failed) then exists u :: Moved(w, u, id, Failed) && Over(u, v, t, id, true) else Over(w, v, t, id, true)
    case NoReply => Over(w, v, t, id, true)
  }

  /** Every reply of boltz to the hand-over. Only a failure moves the row to refund_wait and
      leads to a cancel; any other refusal fails it; silence leaves it as it is. */
  lemma ReplyDecides(w: World, t: TaskId, id: SwapId, o: Outpoint, reply: FundReply)
    requires id in w.files && t in w.tasks && w.tasks[t] == Sending(id, AwaitingBoltz(o))
    ensures Replied(w, Step(w, Continue(t, BoltzReplies(reply))), t, id, o, reply)
  {
    hide *;
    SendSteps(w, t, w.tasks[t], BoltzReplies(reply));
    ReplyStep(w, t, w.tasks[t], o, reply);
    ReplyIs(w, t, id, o, reply);
  }

  lemma ReplyStep(w: World, t: TaskId, k: Task, o: Outpoint, reply: FundReply)
    requires k.Sending? && k.stage == AwaitingBoltz(o) && k.id in w.files
    ensures SendStep(w, t, k, BoltzReplies(reply)) == StepBoltzReplies(w, t, k.id, o, reply)
  {
    hide StepBoltzReplies;
  }

  lemma ReplyIs(w: World, t: TaskId, id: SwapId, o: Outpoint, reply: FundReply)
    requires id in w.files
    ensures Replied(w, StepBoltzReplies(w, t, id, o, reply), t, id, o, reply)
  {
    FinishIs(w, t, id, true, if reply.PaidReply? then Sending(id, Confirming(o, reply.preimage)) else Sending(id, Locating));
    MoveIs(w, id, RefundWait);
    MoveIs(w, id, Failed);
    if Move(w, id, RefundWait).Some? {
      UnwindBegins(Move(w, id, RefundWait).value, t, id, CancelLeaf, true);
    }
    if Move(w, id, Failed).Some? {
      FinishIs(Move(w, id, Failed).value, t, id, true, Sending(id, Locating));
    }
    hide Begun, Over, Becomes, BeginUnwind, Goto, Finish, Move, Moved, Legal;
  }

  /** A paid send whose claim the indexer does not show keeps the preimage and stays as it is. */
  lemma UnconfirmedStays(w: World, t: TaskId, id: SwapId, o: Outpoint, p: string)
    requires id in w.files && t in w.tasks && w.tasks[t] == Sending(id, Confirming(o, p))
    ensures var v := Step(w, Continue(t, ConfirmAnswer(false)));
      exists u :: Kept(w, u, id, Some(p)) && Over(u, v, t, id, true)
  {
    var u := KeepPreimage(w, id, Some(p));
    KeptIs(w, id, Some(p));
    FinishIs(u, t, id, true, Sending(id, Locating));
    hide Over, Becomes, Goto, Finish, KeepPreimage, Kept;
  }

  // ---- a refund or a cancel -----------------------------------------------------------------

  /** The button. */
  lemma PressDecides(w: World, t: TaskId, id: SwapId)
    requires id in w.files && t !in w.tasks
    ensures Begun(w, Step(w, RefundPressed(t, id)), t, id, RefundLeaf, false)
  {
    UnwindBegins(w, t, id, RefundLeaf, false);
  }

  /** A refund stops when the chain's own clock is known not to have reached T; both stop when
      there is no spendable coin. */
  lemma LookupDecides(w: World, t: TaskId, k: Task, coin: Option<(nat, nat)>, mtpSeen: Option<int>)
    requires k.Unwinding? && k.stepAt == Looking && k.id in w.files && t in w.tasks && w.tasks[t] == k
    ensures var v := Step(w, Continue(t, CoinAnswer(coin, mtpSeen)));
      if coin.None? || (k.leaf == RefundLeaf && mtpSeen.Some? && mtpSeen.value < w.files[k.id].row.refundLocktime) then Over(w, v, t, k.id, k.live)
      else Becomes(w, v, t, k.(stepAt := Ready(coin.value.0, coin.value.1, 0)))
  {
  }

  /** Variant by variant: each is signed, */
  lemma VariantIsSigned(w: World, t: TaskId, k: Task, value: nat, dust: nat, n: nat)
    requires k.Unwinding? && k.id in w.files && t in w.tasks && w.tasks[t] == k && n < Unwind.AttemptCount(value, dust) && k.stepAt == Ready(value, dust, n)
    ensures n < |Unwind.Attempts(value, dust)|
    ensures var s := Spend(k.input, ScriptOf(w, w.files[k.id].row), k.leaf, Unwind.Attempts(value, dust)[n]);
      Step(w, Continue(t, UnwindSign)) == w.(signed := w.signed[s := k.id], tasks := w.tasks[t := k.(stepAt := Sent(value, dust, n))])
  {
    SignIs(w, t, k, value, dust, n);
    UnwindSteps(w, t, k, UnwindSign);
    hide Step, StepUnwindSign, Unwind.Attempts, Unwind.AttemptCount, ScriptOf;
  }

  /** then submitted: a rejected one ends the attempt, an acknowledged one is looked up; */
  lemma SubmitDecides(w: World, t: TaskId, k: Task, value: nat, dust: nat, n: nat, accepted: bool)
    requires k.Unwinding? && k.id in w.files && t in w.tasks && w.tasks[t] == k && k.stepAt == Sent(value, dust, n)
    ensures var v := Step(w, Continue(t, SubmitAnswer(accepted)));
      if accepted then Becomes(w, v, t, k.(stepAt := Checking(value, dust, n))) else Over(w, v, t, k.id, k.live)
  {
    FinishIs(w, t, k.id, k.live, k.(stepAt := Checking(value, dust, n)));
    UnwindSteps(w, t, k, SubmitAnswer(accepted));
    hide Step, Over, Becomes, Finish, Goto;
  }

  /** one that is not there leads to the next, and after the last one the attempt ends. */
  lemma MissingDecides(w: World, t: TaskId, k: Task, value: nat, dust: nat, n: nat)
    requires k.Unwinding? && k.id in w.files && t in w.tasks && w.tasks[t] == k && k.stepAt == Checking(value, dust, n)
    ensures var v := Step(w, Continue(t, RegisteredAnswer(false)));
      if n + 1 < Unwind.AttemptCount(value, dust) then Becomes(w, v, t, k.(stepAt := Ready(value, dust, n + 1))) else Over(w, v, t, k.id, k.live)
  {
    FinishIs(w, t, k.id, k.live, k.(stepAt := Ready(value, dust, n + 1)));
    UnwindSteps(w, t, k, RegisteredAnswer(false));
    hide Step, Over, Becomes, Finish, Goto, Unwind.AttemptCount;
  }

  lemma UnwindSteps(w: World, t: TaskId, k: Task, a: Answer)
    requires k.Unwinding? && k.id in w.files && t in w.tasks && w.tasks[t] == k && !a.Throws?
    ensures Step(w, Continue(t, a)) == UnwindStep(w, t, k, a)
  {
    hide UnwindStep;
  }

  lemma SignIs(w: World, t: TaskId, k: Task, value: nat, dust: nat, n: nat)
    requires k.Unwinding? && k.id in w.files && n < Unwind.AttemptCount(value, dust) && k.stepAt == Ready(value, dust, n)
    ensures n < |Unwind.Attempts(value, dust)|
    ensures var s := Spend(k.input, ScriptOf(w, w.files[k.id].row), k.leaf, Unwind.Attempts(value, dust)[n]);
      StepUnwindSign(w, t, k) == w.(signed := w.signed[s := k.id], tasks := w.tasks[t := k.(stepAt := Sent(value, dust, n))])
  {
    hide ScriptOf;
  }

  /** The output is noted as shown spent, the row moved on, and its exit material let go. */
  ghost predicate Closed(w: World, v: World, t: TaskId, id: SwapId, to: State, live: bool, o: Outpoint)
    requires id in w.files
  {
    exists u :: Moved(w, u, id, to) && Over(u.(released := u.released + {o}), v, t, id, live)
  }

  lemma CloseIs(w: World, t: TaskId, id: SwapId, to: State, live: bool, o: Outpoint)
    requires id in w.files
    ensures if Legal(w.files[id].row.direction, w.files[id].row.state, to) then Closed(w, Close(w, t, id, to, live, o), t, id, to, live, o)
            else Over(w, Close(w, t, id, to, live, o), t, id, live)
  {
    MoveIs(w, id, to);
    if Move(w, id, to).Some? {
      var u := Move(w, id, to).value;
      FinishIs(Release(u, Some(o)), t, id, live, Sending(id, Locating));
      assert Release(u, Some(o)) == u.(released := u.released + {o});
    }
    FinishIs(w, t, id, live, Sending(id, Locating));
    hide Move, Moved, Legal, Finish, Over;
  }

  /** A registered unwind closes the swap: a cancel as cancelled, a refund as refunded, by way of
      refund_wait unless the row was already there when the refund began. */
  lemma RegisteredDecides(w: World, t: TaskId, k: Task)
    requires k.Unwinding? && (k.leaf == RefundLeaf || k.leaf == CancelLeaf) && k.stepAt.Checking? && k.id in w.files && t in w.tasks && w.tasks[t] == k
    requires AnswerAllowed(w, k.input, true)
    ensures var v := Step(w, Continue(t, RegisteredAnswer(true)));
      var seen := w.(gone := w.gone + {k.input});
      var row := w.files[k.id].row;
      && (k.leaf == CancelLeaf && Legal(row.direction, row.state, Cancelled) ==> Closed(seen, v, t, k.id, Cancelled, k.live, k.input))
      && (k.leaf == RefundLeaf && k.readState == RefundWait && Legal(row.direction, row.state, Refunded) ==> Closed(seen, v, t, k.id, Refunded, k.live, k.input))
      && (k.leaf == RefundLeaf && k.readState != RefundWait && Legal(row.direction, row.state, RefundWait) ==>
            exists u :: Moved(seen, u, k.id, RefundWait) && Closed(u, v, t, k.id, Refunded, k.live, k.input))
  {
    RegisteredIs(See(w, k.input), t, k);
    UnwindChecks(w, t, k);
    UnwindSteps(w, t, k, RegisteredAnswer(true));
    hide Step, UnwindStep, UnwindRegistered, Closed, Moved, Legal, AnswerAllowed;
  }

  lemma UnwindChecks(w: World, t: TaskId, k: Task)
    requires k.Unwinding? && k.stepAt.Checking? && k.id in w.files && AnswerAllowed(w, k.input, true)
    ensures k.id in See(w, k.input).files && UnwindStep(w, t, k, RegisteredAnswer(true)) == UnwindRegistered(See(w, k.input), t, k)
  {
    hide UnwindRegistered;
  }

  lemma RegisteredIs(seen: World, t: TaskId, k: Task)
    requires k.Unwinding? && (k.leaf == RefundLeaf || k.leaf == CancelLeaf) && k.id in seen.files
    ensures var v := UnwindRegistered(seen, t, k);
      var row := seen.files[k.id].row;
      && (k.leaf == CancelLeaf && Legal(row.direction, row.state, Cancelled) ==> Closed(seen, v, t, k.id, Cancelled, k.live, k.input))
      && (k.leaf == RefundLeaf && k.readState == RefundWait && Legal(row.direction, row.state, Refunded) ==> Closed(seen, v, t, k.id, Refunded, k.live, k.input))
      && (k.leaf == RefundLeaf && k.readState != RefundWait && Legal(row.direction, row.state, RefundWait) ==>
            exists u :: Moved(seen, u, k.id, RefundWait) && Closed(u, v, t, k.id, Refunded, k.live, k.input))
  {
    CloseIs(seen, t, k.id, Cancelled, k.live, k.input);
    CloseIs(seen, t, k.id, Refunded, k.live, k.input);
    MoveIs(seen, k.id, RefundWait);
    if Move(seen, k.id, RefundWait).Some? {
      var u := Move(seen, k.id, RefundWait).value;
      CloseIs(u, t, k.id, Refunded, k.live, k.input);
      OnlySendsWait(seen.files[k.id].row.direction, seen.files[k.id].row.state);
      assert u.files[k.id].row.direction == seen.files[k.id].row.direction && u.files[k.id].row.state == RefundWait by {
        MovedTo(seen, u, k.id, RefundWait);
      }
    }
    hide Close, Closed, Move, Moved, Legal, Over, Finish;
  }

  lemma MovedTo(w: World, u: World, id: SwapId, to: State)
    requires id in w.files && Moved(w, u, id, to)
    ensures id in u.files && u.files[id].row.direction == w.files[id].row.direction && u.files[id].row.state == to
  {
    hide Legal;
  }

  lemma OnlySendsWait(d: Direction, s: State)
    requires Legal(d, s, RefundWait)
    ensures Legal(d, RefundWait, Refunded)
  {
  }

  /** A live send's claim that the indexer confirms closes the swap as claimed. */
  lemma ConfirmedDecides(w: World, t: TaskId, id: SwapId, o: Outpoint, p: string)
    requires id in w.files && t in w.tasks && w.tasks[t] == Sending(id, Confirming(o, p)) && AnswerAllowed(w, o, true)
    requires Legal(w.files[id].row.direction, w.files[id].row.state, Claimed)
    ensures Closed(w.(gone := w.gone + {o}), Step(w, Continue(t, ConfirmAnswer(true))), t, id, Claimed, true, o)
  {
    CloseIs(See(w, o), t, id, Claimed, true, o);
    SendSteps(w, t, w.tasks[t], ConfirmAnswer(true));
    hide Step, Close, Closed, Legal, AnswerAllowed;
  }

  /** A claim a pass believes is written by way of ln_inflight when the row is still funded; the
      preimage is kept, and what the indexer has confirmed is let go. */
  lemma BelievedDecides(w: World, t: TaskId, k: Task)
    requires k.ConfirmingClaim? && k.id in w.files && t in w.tasks && w.tasks[t] == k && AnswerAllowed(w, k.input, true)
    requires w.files[k.id].row.direction == Send && (w.files[k.id].row.state == Funded || w.files[k.id].row.state == LnInflight)
    ensures var v := Step(w, Continue(t, ConfirmAnswer(true)));
      var f := w.files[k.id];
      && k.id in v.files
      && v == w.(files := w.files[k.id := v.files[k.id]], gone := w.gone + {k.input}, released := w.released + {k.input}, tasks := w.tasks - {t})
      && v.files[k.id] == f.(row := f.row.(state := Claimed, preimage := if k.preimage.Some? then k.preimage else f.row.preimage, updatedAt := w.now * 1000),
                             hist := f.hist + (if f.row.state == Funded then [LnInflight] else []) + [Claimed])
  {
    PassSteps(w, t, k, ConfirmAnswer(true));
    ConfirmIs(w, t, k);
    WriteIs(See(w, k.input), t, k.id, k.preimage, k.input);
    hide Step, PassStep, WriteClaimed, AnswerAllowed;
  }

  lemma WriteIs(w: World, t: TaskId, id: SwapId, preimage: Option<string>, o: Outpoint)
    requires id in w.files && w.files[id].row.direction == Send && (w.files[id].row.state == Funded || w.files[id].row.state == LnInflight)
    ensures var v := WriteClaimed(w, t, id, preimage, Some(o));
      var f := w.files[id];
      && id in v.files
      && v == w.(files := w.files[id := v.files[id]], released := w.released + {o}, tasks := w.tasks - {t})
      && v.files[id] == f.(row := f.row.(state := Claimed, preimage := if preimage.Some? then preimage else f.row.preimage, updatedAt := w.now * 1000),
                           hist := f.hist + (if f.row.state == Funded then [LnInflight] else []) + [Claimed])
  {
    ClaimedIs(w.files[id], w.now);
    hide ClaimedFile, WriteClaimed;
    WriteFile(w, t, id, preimage, o, ClaimedFile(w.files[id], w.now).value);
  }

  lemma WriteFile(w: World, t: TaskId, id: SwapId, preimage: Option<string>, o: Outpoint, g: File)
    requires id in w.files && ClaimedFile(w.files[id], w.now) == Some(g) && g.row.updatedAt == w.now * 1000
    ensures var h := g.(row := g.row.(preimage := if preimage.Some? then preimage else g.row.preimage));
      WriteClaimed(w, t, id, preimage, Some(o)) == w.(files := w.files[id := h], released := w.released + {o}, tasks := w.tasks - {t})
  {
    hide ClaimedFile;
    assert w.files[id := g][id := g.(row := g.row.(preimage := preimage))] == w.files[id := g.(row := g.row.(preimage := preimage))];
  }

  lemma ClaimedIs(f: File, now: int)
    requires f.row.direction == Send && (f.row.state == Funded || f.row.state == LnInflight)
    ensures ClaimedFile(f, now) == Some(f.(row := f.row.(state := Claimed, updatedAt := now * 1000),
                                           hist := f.hist + (if f.row.state == Funded then [LnInflight] else []) + [Claimed]))
  {
    assert Legal(Send, Funded, LnInflight) && Legal(Send, LnInflight, Claimed);
    assert f.hist + [] + [Claimed] == f.hist + [Claimed];
  }

  lemma ConfirmIs(w: World, t: TaskId, k: Task)
    requires k.ConfirmingClaim? && k.id in w.files && AnswerAllowed(w, k.input, true)
    ensures PassStep(w, t, k, ConfirmAnswer(true)) == WriteClaimed(See(w, k.input), t, k.id, k.preimage, Some(k.input))
  {
    hide WriteClaimed;
  }

  // ---- what a pass brings home -----------------------------------------------------------------

  /** The events of a pass over a row, up to where a refund or cancel may begin: it lists the
      row, reaches it, hears boltz, and, if boltz says claimed and is to be checked, the
      indexer does not show the output gone. */
  function PassEvents(w: World, t: TaskId, id: SwapId, status: Status, stuck: bool): seq<Event>
    requires id in w.files
  {
    var row := w.files[id].row;
    var late := w.now >= row.refundLocktime;
    [TakeSnapshot(t, id, w.now), Continue(t, MainPass)]
    + (if row.state == RefundWait && !late then [] else [Continue(t, StatusAnswer(status, stuck))])
    + (if status.SaysClaimed? && row.state != RefundWait then [Continue(t, ConfirmAnswer(false))] else [])
  }

  /** But for its state and a kept preimage, the row is as it was. */
  ghost predicate SameRow(a: Row, b: Row) {
    b.(state := a.state, preimage := a.preimage, updatedAt := a.updatedAt) == a
  }

  lemma Snapshots(w: World, t: TaskId, id: SwapId)
    requires id in w.files && t !in w.tasks && !Terminal(Send, w.files[id].row.state)
    ensures Becomes(w, Step(w, TakeSnapshot(t, id, w.now)), t, Item(id, w.files[id].row, w.now))
  {
  }

  /** Becoming twice is becoming once. */
  lemma BecomesAgain(w: World, u: World, v: World, t: TaskId, k: Task, next: Task, id: SwapId, leaf: Leaf)
    requires Becomes(w, u, t, k) && id in w.files && t !in w.tasks
    ensures u.files == w.files && t in u.tasks && u.tasks[t] == k
    ensures Becomes(u, v, t, next) ==> Becomes(w, v, t, next)
    ensures Begun(u, v, t, id, leaf, false) ==> Begun(w, v, t, id, leaf, false)
    ensures Over(u, v, t, id, false) ==> v == w
  {
    assert w.tasks[t := k][t := next] == w.tasks[t := next];
    assert w.tasks[t := k] - {t} == w.tasks;
    var row := w.files[id].row;
    if MayUnwind(w, id, leaf) {
      var begun := Unwinding(id, leaf, row.fundingOutpoint.value, row.state, Looking, false);
      assert w.tasks[t := k][t := begun] == w.tasks[t := begun];
    }
    assert w.tasks - {t} == w.tasks;
  }

  /** The first two events of a pass, over a row that could be refunded. */
  lemma PassReaches(w: World, t: TaskId, id: SwapId)
    requires id in w.files && t !in w.tasks && id !in w.inflight
    requires var row := w.files[id].row; row.state == Funded || row.state == LnInflight || row.state == RefundWait
    ensures var row := w.files[id].row;
      var late := w.now >= row.refundLocktime;
      var v := Step(Step(w, TakeSnapshot(t, id, w.now)), Continue(t, MainPass));
      if row.state == RefundWait && !late then Begun(w, v, t, id, CancelLeaf, false) else Becomes(w, v, t, AskingStatus(id, row, late))
  {
    var row := w.files[id].row;
    var late := w.now >= row.refundLocktime;
    assert Legal(Send, row.state, Failed);
    hide Step, Begun, Becomes, Over, Legal;
    Snapshots(w, t, id);
    var u := Step(w, TakeSnapshot(t, id, w.now));
    var v := Step(u, Continue(t, MainPass));
    BecomesAgain(w, u, v, t, Item(id, row, w.now), AskingStatus(id, row, late), id, CancelLeaf);
    SameMemory(w, u, t, Item(id, row, w.now));
    ItemDecides(u, t, Item(id, row, w.now));
  }

  lemma SameMemory(w: World, u: World, t: TaskId, k: Task)
    requires Becomes(w, u, t, k)
    ensures u.inflight == w.inflight && u.now == w.now && u.mtp == w.mtp && u.coins == w.coins && u.files == w.files && u.us == w.us && u.server == w.server
  {
  }

  /** A pass past T, whatever boltz says or leaves unsaid. Unless the indexer shows the output
      gone, it ends in a refund of the recorded output. */
  lemma LatePassRefunds(w: World, t: TaskId, id: SwapId, o: Outpoint, status: Status, stuck: bool)
    requires id in w.files && t !in w.tasks && id !in w.inflight && w.files[id].row.fundingOutpoint == Some(o)
    requires var row := w.files[id].row; (row.state == Funded || row.state == LnInflight || row.state == RefundWait) && w.now >= row.refundLocktime
    ensures var v := Run(w, PassEvents(w, t, id, status, stuck));
      && Unwinds(w, v, t, id, RefundLeaf, o, w.files[id].row.state)
      && (!status.SaysClaimed? || w.files[id].row.state == RefundWait ==> v.files == w.files)
  {
    hide Step, Run, Becomes, Begun, Over, Kept, Unwinds, MayUnwind;
    var row := w.files[id].row;
    var es := PassEvents(w, t, id, status, stuck);
    PassReaches(w, t, id);
    var asking := AskingStatus(id, row, true);
    var u := Step(Step(w, TakeSnapshot(t, id, w.now)), Continue(t, MainPass));
    SameMemory(w, u, t, asking);
    var v := Step(u, Continue(t, StatusAnswer(status, stuck)));
    BecomesAgain(w, u, v, t, asking, asking, id, RefundLeaf);
    StatusDecides(u, t, asking, status, stuck);
    AtomicTheorems.FirstThree(w, es);
    if status.SaysClaimed? && row.state != RefundWait {
      var confirming := ConfirmingClaim(id, o, status.preimage, true);
      BecomesAgain(w, u, v, t, asking, confirming, id, RefundLeaf);
      RunFour(w, es);
      BecomesAgain(w, v, v, t, confirming, confirming, id, RefundLeaf);
      DoubtEnds(w, v, t, id, o, status.preimage);
    } else {
      assert es[..3] == es;
      BegunUnwinds(w, v, t, id, o);
    }
  }

  /** The output is being refunded or cancelled from a row in this state, and nothing else has
      changed but what a kept preimage changes. */
  ghost predicate Unwinds(w: World, v: World, t: TaskId, id: SwapId, leaf: Leaf, o: Outpoint, state: State) {
    && id in w.files && id in v.files && SameRow(w.files[id].row, v.files[id].row) && v.files[id].deal == w.files[id].deal
    && v.files[id].row.state == state
    && v.coins == w.coins && v.now == w.now && v.mtp == w.mtp && v.us == w.us && v.server == w.server && v.inflight == w.inflight
    && t in v.tasks && v.tasks[t] == Unwinding(id, leaf, o, state, Looking, false)
  }

  lemma BegunUnwinds(w: World, v: World, t: TaskId, id: SwapId, o: Outpoint)
    requires id in w.files && w.files[id].row.fundingOutpoint == Some(o)
    requires var row := w.files[id].row; (row.state == Funded || row.state == LnInflight || row.state == RefundWait) && w.now >= row.refundLocktime
    requires Begun(w, v, t, id, RefundLeaf, false)
    ensures Unwinds(w, v, t, id, RefundLeaf, o, w.files[id].row.state) && v.files == w.files
  {
  }

  lemma DoubtEnds(w: World, u: World, t: TaskId, id: SwapId, o: Outpoint, p: Option<string>)
    requires id in w.files && t !in w.tasks && w.files[id].row.fundingOutpoint == Some(o)
    requires var row := w.files[id].row; (row.state == Funded || row.state == LnInflight) && w.now >= row.refundLocktime
    requires Becomes(w, u, t, ConfirmingClaim(id, o, p, true))
    ensures var v := Step(u, Continue(t, ConfirmAnswer(false)));
      Unwinds(w, v, t, id, RefundLeaf, o, w.files[id].row.state)
  {
    hide Step;
    DoubtDecides(u, t, ConfirmingClaim(id, o, p, true));
    var v := Step(u, Continue(t, ConfirmAnswer(false)));
    var x :| Kept(u, x, id, p) && Begun(x, v, t, id, RefundLeaf, false);
    assert x.files[id].row.fundingOutpoint == Some(o) && x.files[id].row.state == w.files[id].row.state && x.now == w.now;
  }

  /** After any run, past T, a pass alone brings home a locked output whose row is funded, in
      flight or waiting: whatever boltz answers, as long as the indexer does not report the
      output gone, and however many variants arkd swallows before one lands. Nobody has to
      press anything. */
  lemma PassRefunds(us: Key, server: Key, honest: bool, es: seq<Event>, t: TaskId, id: SwapId, status: Status, stuck: bool, dust: nat, n: nat)
    requires var w := Run(Start(us, server, honest), es);
      && id in w.files && w.files[id].row.fundingOutpoint.Some? && t !in w.tasks && id !in w.inflight
      && var row, o := w.files[id].row, w.files[id].row.fundingOutpoint.value;
        && (row.state == Funded || row.state == LnInflight || row.state == RefundWait)
        && o in w.coins && w.coins[o].spentBy.None? && w.coins[o].script == w.files[id].deal.script
        && w.now >= row.refundLocktime && w.mtp >= row.refundLocktime
        && n < Unwind.AttemptCount(w.coins[o].value, dust)
    ensures var w := Run(Start(us, server, honest), es);
      var o := w.files[id].row.fundingOutpoint.value;
      var value := w.coins[o].value;
      var s := Spend(o, w.files[id].deal.script, RefundLeaf, Unwind.Attempts(value, dust)[n]);
      var v := Run(w, PassEvents(w, t, id, status, stuck) + UnwindRun(t, value, dust, n, s));
      && id in v.files && v.files[id].row.state == Refunded
      && o in v.coins && v.coins[o].spentBy == Some(s) && Paid(s.outputs, Us) == value
  {
    var w := Run(Start(us, server, honest), es);
    StartOk(us, server, honest);
    RunKeeps(Start(us, server, honest), es);
    FileOf(w, id);
    assert w.files[id].row.direction == Send;
    assert w.files[id].deal.script == ScriptOf(w, w.files[id].row);
    assert Ended(RefundLeaf) == Refunded;
    var o := w.files[id].row.fundingOutpoint.value;
    var s := Spend(o, w.files[id].deal.script, RefundLeaf, Unwind.Attempts(w.coins[o].value, dust)[n]);
    hide *;
    LatePassRefunds(w, t, id, o, status, stuck);
    UnwindsEnd(w, PassEvents(w, t, id, status, stuck), t, id, RefundLeaf, o, w.files[id].row.state, dust, n, s);
  }

  lemma UnwindsEnd(w: World, es: seq<Event>, t: TaskId, id: SwapId, leaf: Leaf, o: Outpoint, state: State, dust: nat, n: nat, s: Spend)
    requires id in w.files && Unwinds(w, Run(w, es), t, id, leaf, o, state)
    requires var row := w.files[id].row;
      && row.direction == Send && (state == Funded || state == LnInflight || state == RefundWait)
      && o in w.coins && w.coins[o].spentBy.None? && w.coins[o].script == ScriptOf(w, row)
      && (leaf == CancelLeaf || (leaf == RefundLeaf && w.mtp >= row.refundLocktime))
      && n < Unwind.AttemptCount(w.coins[o].value, dust)
      && s == Spend(o, ScriptOf(w, row), leaf, Unwind.Attempts(w.coins[o].value, dust)[n])
    ensures var v := Run(w, es + UnwindRun(t, w.coins[o].value, dust, n, s));
      id in v.files && v.files[id].row.state == Ended(leaf) && o in v.coins && v.coins[o].spentBy == Some(s) && Paid(s.outputs, Us) == w.coins[o].value
  {
    hide *;
    var u := Run(w, es);
    UnwindsBegin(w, u, t, id, leaf, o, state);
    BegunEnds(u, t, id, leaf, false, o, dust, n);
    RunAppend(w, es, UnwindRun(t, w.coins[o].value, dust, n, s));
  }

  lemma UnwindsBegin(w: World, u: World, t: TaskId, id: SwapId, leaf: Leaf, o: Outpoint, state: State)
    requires id in w.files && Unwinds(w, u, t, id, leaf, o, state)
    requires var row := w.files[id].row;
      && row.direction == Send && (state == Funded || state == LnInflight || state == RefundWait)
      && o in w.coins && w.coins[o].spentBy.None? && w.coins[o].script == ScriptOf(w, row)
      && (leaf == CancelLeaf || (leaf == RefundLeaf && w.mtp >= row.refundLocktime))
    ensures Begins(u, t, id, leaf, false, o) && u.coins == w.coins && ScriptOf(u, u.files[id].row) == ScriptOf(w, w.files[id].row)
  {
  }

  /** The answers that make a pass before T ask for a cancel: none is needed for a row that
      waits; of any other boltz says that the payment failed, or says nothing useful for so long
      that the row is stuck. */
  predicate AsksToCancel(row: Row, status: Status, stuck: bool) {
    row.state == RefundWait || status == SaysFailed || status == SaysRefundWait || ((status == Unreachable || status == SaysOther) && stuck)
  }

  /** A pass before T. */
  lemma EarlyPassCancels(w: World, t: TaskId, id: SwapId, o: Outpoint, status: Status, stuck: bool)
    requires id in w.files && t !in w.tasks && id !in w.inflight && w.files[id].row.fundingOutpoint == Some(o) && w.files[id].row.direction == Send
    requires var row := w.files[id].row;
      (row.state == Funded || row.state == LnInflight || row.state == RefundWait) && w.now < row.refundLocktime && AsksToCancel(row, status, stuck)
    ensures var state := if status == SaysFailed || status == SaysRefundWait then RefundWait else w.files[id].row.state;
      Unwinds(w, Run(w, PassEvents(w, t, id, if w.files[id].row.state == RefundWait then Unreachable else status, stuck)), t, id, CancelLeaf, o, state)
  {
    hide Step, Run, Becomes, Begun, Over, Kept, Unwinds, MayUnwind, Moved, Legal;
    var row := w.files[id].row;
    var asked := if row.state == RefundWait then Unreachable else status;
    var es := PassEvents(w, t, id, asked, stuck);
    PassReaches(w, t, id);
    var u := Step(Step(w, TakeSnapshot(t, id, w.now)), Continue(t, MainPass));
    if row.state == RefundWait {
      RunTwo(w, es);
      BegunCancels(w, u, t, id, o);
    } else {
      var asking := AskingStatus(id, row, false);
      SameMemory(w, u, t, asking);
      var v := Step(u, Continue(t, StatusAnswer(status, stuck)));
      BecomesAgain(w, u, v, t, asking, asking, id, CancelLeaf);
      StatusDecides(u, t, asking, status, stuck);
      AtomicTheorems.FirstThree(w, es);
      assert es[..3] == es;
      if status == SaysFailed || status == SaysRefundWait {
        assert Legal(Send, row.state, RefundWait) by {
          FailureIsLegal(row.state);
        }
        MovedCancels(w, u, v, t, id, o, asking);
      } else {
        BegunCancels(w, v, t, id, o);
      }
    }
  }

  lemma FailureIsLegal(s: State)
    requires s == Funded || s == LnInflight
    ensures Legal(Send, s, RefundWait)
  {
  }

  lemma RunTwo(w: World, es: seq<Event>)
    requires |es| == 2
    ensures Run(w, es) == Step(Step(w, es[0]), es[1])
  {
    hide Step;
    assert es[..0] == [] && es[..2] == es;
    AtomicTheorems.OneMore(w, es, 0);
    AtomicTheorems.OneMore(w, es, 1);
  }

  lemma BegunCancels(w: World, v: World, t: TaskId, id: SwapId, o: Outpoint)
    requires id in w.files && w.files[id].row.fundingOutpoint == Some(o)
    requires var row := w.files[id].row; row.state == Funded || row.state == LnInflight || row.state == RefundWait
    requires Begun(w, v, t, id, CancelLeaf, false)
    ensures Unwinds(w, v, t, id, CancelLeaf, o, w.files[id].row.state) && v.files == w.files
  {
  }

  lemma MovedCancels(w: World, u: World, v: World, t: TaskId, id: SwapId, o: Outpoint, k: Task)
    requires id in w.files && w.files[id].row.fundingOutpoint == Some(o) && Becomes(w, u, t, k)
    requires exists x :: Moved(u, x, id, RefundWait) && Begun(x, v, t, id, CancelLeaf, false)
    ensures Unwinds(w, v, t, id, CancelLeaf, o, RefundWait)
  {
    hide Legal;
    var x :| Moved(u, x, id, RefundWait) && Begun(x, v, t, id, CancelLeaf, false);
    assert x.files[id].row.fundingOutpoint == Some(o) && x.files[id].row.state == RefundWait;
  }

  /** Nor does anybody have to wait for T: after any run, a pass before T over a row that waits,
      or of which boltz says that the payment failed, or over a stuck one, brings the whole
      output home by a cancel, as long as boltz and arkd sign it. */
  lemma PassCancels(us: Key, server: Key, honest: bool, es: seq<Event>, t: TaskId, id: SwapId, status: Status, stuck: bool, dust: nat, n: nat)
    requires var w := Run(Start(us, server, honest), es);
      && id in w.files && w.files[id].row.fundingOutpoint.Some? && t !in w.tasks && id !in w.inflight
      && var row, o := w.files[id].row, w.files[id].row.fundingOutpoint.value;
        && (row.state == Funded || row.state == LnInflight || row.state == RefundWait) && AsksToCancel(row, status, stuck)
        && o in w.coins && w.coins[o].spentBy.None? && w.coins[o].script == w.files[id].deal.script
        && w.now < row.refundLocktime
        && n < Unwind.AttemptCount(w.coins[o].value, dust)
    ensures var w := Run(Start(us, server, honest), es);
      var o := w.files[id].row.fundingOutpoint.value;
      var value := w.coins[o].value;
      var s := Spend(o, w.files[id].deal.script, CancelLeaf, Unwind.Attempts(value, dust)[n]);
      var asked := if w.files[id].row.state == RefundWait then Unreachable else status;
      var v := Run(w, PassEvents(w, t, id, asked, stuck) + UnwindRun(t, value, dust, n, s));
      && id in v.files && v.files[id].row.state == Cancelled
      && o in v.coins && v.coins[o].spentBy == Some(s) && Paid(s.outputs, Us) == value
  {
    var w := Run(Start(us, server, honest), es);
    StartOk(us, server, honest);
    RunKeeps(Start(us, server, honest), es);
    FileOf(w, id);
    assert w.files[id].row.direction == Send;
    assert w.files[id].deal.script == ScriptOf(w, w.files[id].row);
    assert Ended(CancelLeaf) == Cancelled;
    var o := w.files[id].row.fundingOutpoint.value;
    var s := Spend(o, w.files[id].deal.script, CancelLeaf, Unwind.Attempts(w.coins[o].value, dust)[n]);
    var state := if status == SaysFailed || status == SaysRefundWait then RefundWait else w.files[id].row.state;
    hide *;
    EarlyPassCancels(w, t, id, o, status, stuck);
    var asked := if w.files[id].row.state == RefundWait then Unreachable else status;
    UnwindsEnd(w, PassEvents(w, t, id, asked, stuck), t, id, CancelLeaf, o, state, dust, n, s);
  }
}
