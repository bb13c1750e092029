/** Which rows the bridge can still bring home, whatever comes, and which it has given up: the
    exact line between them, for every state a run can reach. */
module AtomicStranded {
  import opened Wrappers
  import opened SwapState
  import opened SharedScript
  import opened SwapRepository
  import opened AtomicSend
  import opened AtomicSafety
  import AtomicHistory
  import AtomicRecovery
  import AtomicTheorems
  import ClaimSplit
  import Unwind

  // ---- a step works on one swap ---------------------------------------------------------

  /** From `w` to `v`, task `t` of swap `id` moved on, and swap `i` and task `u` did not. */
  ghost predicate Untouched(w: World, v: World, t: TaskId, id: SwapId, u: TaskId, i: SwapId) {
    && (i in v.files <==> i in w.files) && (i in w.files ==> v.files[i] == w.files[i])
    && (u in v.tasks <==> u in w.tasks) && (u in w.tasks ==> v.tasks[u] == w.tasks[u])
    && (t in v.tasks ==> v.tasks[t].id == id)
  }

  lemma FurtherUntouched(w: World, m: World, v: World, t: TaskId, id: SwapId, u: TaskId, i: SwapId)
    requires Untouched(w, m, t, id, u, i) && Untouched(m, v, t, id, u, i)
    ensures Untouched(w, v, t, id, u, i)
  {
  }

  lemma SameUntouched(w: World, t: TaskId, id: SwapId, u: TaskId, i: SwapId)
    requires t in w.tasks ==> w.tasks[t].id == id
    ensures Untouched(w, w, t, id, u, i)
  {
  }

  /** The building blocks a step is made of. */
  lemma BlocksLocal(w: World, t: TaskId, id: SwapId, live: bool, k: Task, f: File, s: Spend, o: Outpoint, u: TaskId, i: SwapId)
    requires u != t && i != id && k.id == id && (t in w.tasks ==> w.tasks[t].id == id)
    ensures Untouched(w, Finish(w, t, id, live), t, id, u, i) && Untouched(w, Goto(w, t, k), t, id, u, i)
    ensures Untouched(w, Put(w, id, f), t, id, u, i) && Untouched(w, Sign(w, id, s), t, id, u, i) && Untouched(w, See(w, o), t, id, u, i)
  {
  }

  lemma MovesLocal(w: World, t: TaskId, id: SwapId, to: State, live: bool, u: TaskId, i: SwapId)
    requires id in w.files && u != t && i != id && (t in w.tasks ==> w.tasks[t].id == id)
    ensures Move(w, id, to).Some? ==> id in Move(w, id, to).value.files && Untouched(w, Move(w, id, to).value, t, id, u, i)
    ensures Untouched(w, MoveAndFinish(w, t, id, to, live), t, id, u, i)
  {
  }

  lemma CloseLocal(w: World, t: TaskId, id: SwapId, to: State, live: bool, o: Outpoint, u: TaskId, i: SwapId)
    requires id in w.files && u != t && i != id && (t in w.tasks ==> w.tasks[t].id == id)
    ensures Untouched(w, Close(w, t, id, to, live, o), t, id, u, i)
  {
    hide MovedFile;
  }

  lemma ColumnsLocal(w: World, t: TaskId, id: SwapId, o: Outpoint, preimage: Option<string>, u: TaskId, i: SwapId)
    requires id in w.files && u != t && i != id && (t in w.tasks ==> w.tasks[t].id == id)
    ensures id in Record(w, id, o).files && Untouched(w, Record(w, id, o), t, id, u, i)
    ensures id in KeepPreimage(w, id, preimage).files && Untouched(w, KeepPreimage(w, id, preimage), t, id, u, i)
  {
  }

  lemma BeginLocal(w: World, t: TaskId, id: SwapId, leaf: Leaf, live: bool, u: TaskId, i: SwapId)
    requires id in w.files && u != t && i != id && (t in w.tasks ==> w.tasks[t].id == id)
    ensures Untouched(w, BeginUnwind(w, t, id, leaf, live), t, id, u, i)
  {
  }

  lemma SignClaimLocal(w: World, t: TaskId, id: SwapId, o: Outpoint, u: TaskId, i: SwapId)
    requires id in w.files && u != t && i != id && (t in w.tasks ==> w.tasks[t].id == id)
    ensures Untouched(w, StepSignClaim(w, t, id, o), t, id, u, i)
  {
    hide ClaimSplit.SplitOf, SplitArgs;
  }

  lemma HandOverLocal(w: World, t: TaskId, id: SwapId, s: Spend, u: TaskId, i: SwapId)
    requires id in w.files && u != t && i != id && (t in w.tasks ==> w.tasks[t].id == id)
    ensures Untouched(w, StepHandOver(w, t, id, s), t, id, u, i)
  {
    var f := w.files[id].(row := WithPresigs(w.files[id].row, s, w.now * 1000));
    var k := Sending(id, AwaitingBoltz(s.input));
    BlocksLocal(w, t, id, true, k, f, s, s.input, u, i);
    var w0 := Put(w, id, f);
    assert id in w0.files && (t in w0.tasks ==> w0.tasks[t].id == id);
    MovesLocal(w0, t, id, Funded, true, u, i);
    BlocksLocal(w0, t, id, true, k, f, s, s.input, u, i);
    match Move(w0, id, Funded)
    case None => FurtherUntouched(w, w0, Finish(w0, t, id, true), t, id, u, i);
    case Some(w1) =>
      FurtherUntouched(w, w0, w1, t, id, u, i);
      TwiceMovedLocal(w, w1, t, k, LnInflight, u, i);
  }

  /** A transition and a next stage, or leaving when the transition throws. */
  lemma TwiceMovedLocal(w: World, w1: World, t: TaskId, k: Task, to: State, u: TaskId, i: SwapId)
    requires k.id in w1.files && u != t && i != k.id && Untouched(w, w1, t, k.id, u, i)
    ensures match Move(w1, k.id, to)
      case None => Untouched(w, Finish(w1, t, k.id, true), t, k.id, u, i)
      case Some(w2) => Untouched(w, Goto(w2, t, k), t, k.id, u, i)
  {
    hide Move;
    var m := Move(w1, k.id, to);
    MovesLocal(w1, t, k.id, to, true, u, i);
  }

  lemma MovedBeginLocal(w: World, t: TaskId, id: SwapId, to: State, leaf: Leaf, live: bool, o: Outpoint, u: TaskId, i: SwapId)
    requires id in w.files && u != t && i != id && (t in w.tasks ==> w.tasks[t].id == id)
    ensures match Move(w, id, to)
      case None => Untouched(w, Finish(w, t, id, live), t, id, u, i)
      case Some(w1) => id in w1.files && Untouched(w, BeginUnwind(w1, t, id, leaf, live), t, id, u, i)
                       && Untouched(w, Close(w1, t, id, Refunded, live, o), t, id, u, i)
  {
    hide Move, BeginUnwind, Close, MoveAndFinish;
    var m := Move(w, id, to);
    MovesLocal(w, t, id, to, live, u, i);
    if m.Some? {
      BeginLocal(m.value, t, id, leaf, live, u, i);
      CloseLocal(m.value, t, id, Refunded, live, o, u, i);
    }
  }

  lemma RepliesLocal(w: World, t: TaskId, id: SwapId, o: Outpoint, reply: FundReply, u: TaskId, i: SwapId)
    requires id in w.files && u != t && i != id && (t in w.tasks ==> w.tasks[t].id == id)
    ensures Untouched(w, StepBoltzReplies(w, t, id, o, reply), t, id, u, i)
  {
    hide BeginUnwind, MoveAndFinish, Move;
    MovedBeginLocal(w, t, id, RefundWait, CancelLeaf, true, o, u, i);
    MovesLocal(w, t, id, Failed, true, u, i);
  }

  lemma ConfirmedLocal(w: World, t: TaskId, id: SwapId, o: Outpoint, preimage: string, spent: bool, u: TaskId, i: SwapId)
    requires id in w.files && u != t && i != id && (t in w.tasks ==> w.tasks[t].id == id)
    ensures Untouched(w, StepConfirmLive(w, t, id, o, preimage, spent), t, id, u, i)
  {
    hide MoveAndFinish, Close;
    ColumnsLocal(w, t, id, o, Some(preimage), u, i);
    CloseLocal(See(w, o), t, id, Claimed, true, o, u, i);
  }

  lemma FundedLocal(w: World, t: TaskId, id: SwapId, ok: bool, found: Option<Outpoint>, u: TaskId, i: SwapId)
    requires id in w.files && u != t && i != id && (t in w.tasks ==> w.tasks[t].id == id)
    ensures Untouched(w, StepFundingDone(w, t, id, ok), t, id, u, i) && Untouched(w, StepLocate(w, t, id, found), t, id, u, i)
  {
    hide Record;
    if found.Some? {
      ColumnsLocal(w, t, id, found.value, None, u, i);
    }
  }

  lemma SendLocal(w: World, t: TaskId, k: Task, a: Answer, u: TaskId, i: SwapId)
    requires k.Sending? && k.id in w.files && t in w.tasks && w.tasks[t] == k && u != t && i != k.id
    ensures Untouched(w, SendStep(w, t, k, a), t, k.id, u, i)
  {
    hide StepFundingDone, StepLocate, StepSignClaim, StepHandOver, StepBoltzReplies, StepConfirmLive, Untouched;
    SameUntouched(w, t, k.id, u, i);
    match (k.stage, a)
    case (FundingSent, FundingDone(ok)) => FundedLocal(w, t, k.id, ok, None, u, i);
    case (Locating, LocateAnswer(found)) => FundedLocal(w, t, k.id, true, found, u, i);
    case (Located(o), SignClaim) => SignClaimLocal(w, t, k.id, o, u, i);
    case (Presigned(s), HandOver) => HandOverLocal(w, t, k.id, s, u, i);
    case (AwaitingBoltz(o), BoltzReplies(reply)) => RepliesLocal(w, t, k.id, o, reply, u, i);
    case (Confirming(o, p), ConfirmAnswer(spent)) => ConfirmedLocal(w, t, k.id, o, p, spent, u, i);
    case _ =>
  }

  lemma RegisteredLocal(w: World, t: TaskId, k: Task, u: TaskId, i: SwapId)
    requires k.Unwinding? && k.id in w.files && (t in w.tasks ==> w.tasks[t].id == k.id) && u != t && i != k.id
    ensures Untouched(w, UnwindRegistered(w, t, k), t, k.id, u, i)
  {
    hide Close, Move;
    MovedBeginLocal(w, t, k.id, RefundWait, k.leaf, k.live, k.input, u, i);
    CloseLocal(w, t, k.id, Cancelled, k.live, k.input, u, i);
    CloseLocal(w, t, k.id, Refunded, k.live, k.input, u, i);
  }

  lemma UnwindLocal(w: World, t: TaskId, k: Task, a: Answer, u: TaskId, i: SwapId)
    requires k.Unwinding? && k.id in w.files && t in w.tasks && w.tasks[t] == k && u != t && i != k.id
    ensures Untouched(w, UnwindStep(w, t, k, a), t, k.id, u, i)
  {
    hide StepCoinLookup, StepUnwindSign, StepUnwindAnswer, StepUnwindCheck, Untouched, Unwind.AttemptCount;
    SameUntouched(w, t, k.id, u, i);
    match (k.stepAt, a)
    case (Looking, CoinAnswer(coin, mtpSeen)) => LookupLocal(w, t, k, coin, mtpSeen, u, i);
    case (Ready(value, dust, n), UnwindSign) =>
      if n < Unwind.AttemptCount(value, dust) {
        VariantLocal(w, t, k, u, i);
      }
    case (Sent(_, _, _), SubmitAnswer(accepted)) => SubmittedLocal(w, t, k, accepted, u, i);
    case (Checking(_, _, _), RegisteredAnswer(spent)) => CheckLocal(w, t, k, spent, u, i);
    case _ =>
  }

  lemma LookupLocal(w: World, t: TaskId, k: Task, coin: Option<(nat, nat)>, mtpSeen: Option<int>, u: TaskId, i: SwapId)
    requires k.Unwinding? && k.id in w.files && t in w.tasks && w.tasks[t] == k && u != t && i != k.id
    ensures Untouched(w, StepCoinLookup(w, t, k, coin, mtpSeen), t, k.id, u, i)
  {
  }

  lemma VariantLocal(w: World, t: TaskId, k: Task, u: TaskId, i: SwapId)
    requires k.Unwinding? && k.stepAt.Ready? && k.id in w.files && t in w.tasks && w.tasks[t] == k && u != t && i != k.id
    requires k.stepAt.k < Unwind.AttemptCount(k.stepAt.value, k.stepAt.dust)
    ensures Untouched(w, StepUnwindSign(w, t, k), t, k.id, u, i)
  {
    hide Unwind.AttemptCount, UnwindSpend;
  }

  lemma SubmittedLocal(w: World, t: TaskId, k: Task, accepted: bool, u: TaskId, i: SwapId)
    requires k.Unwinding? && k.stepAt.Sent? && k.id in w.files && t in w.tasks && w.tasks[t] == k && u != t && i != k.id
    ensures Untouched(w, StepUnwindAnswer(w, t, k, accepted), t, k.id, u, i)
  {
  }

  lemma CheckLocal(w: World, t: TaskId, k: Task, spent: bool, u: TaskId, i: SwapId)
    requires k.Unwinding? && k.stepAt.Checking? && k.id in w.files && t in w.tasks && w.tasks[t] == k && u != t && i != k.id
    ensures Untouched(w, StepUnwindCheck(w, t, k, spent), t, k.id, u, i)
  {
    hide Unwind.AttemptCount, UnwindRegistered;
    RegisteredLocal(See(w, k.input), t, k, u, i);
  }

  lemma WriteClaimedLocal(w: World, t: TaskId, id: SwapId, preimage: Option<string>, confirmed: Option<Outpoint>, u: TaskId, i: SwapId)
    requires id in w.files && u != t && i != id && (t in w.tasks ==> w.tasks[t].id == id)
    ensures Untouched(w, WriteClaimed(w, t, id, preimage, confirmed), t, id, u, i)
  {
    hide *;
    var k := ConfirmingClaim(id, Outpoint("", 0), None, false);
    var s := Spend(k.input, w.files[id].deal.script, ClaimLeaf, []);
    BlocksLocal(w, t, id, false, k, w.files[id], s, k.input, u, i);
    WriteClaimedIs(w, t, id, preimage, confirmed);
    match ClaimedFile(w.files[id], w.now)
    case None =>
    case Some(f) =>
      var g := f.(blind := f.blind || confirmed.None?);
      var v := Put(w, id, g);
      PutIn(w, id, g);
      BlocksLocal(w, t, id, false, k, g, s, k.input, u, i);
      ClaimEndsLocal(v, t, id, preimage, confirmed, u, i);
      FurtherUntouched(w, v, Finish(Release(KeepPreimage(v, id, preimage), confirmed), t, id, false), t, id, u, i);
  }

  lemma ClaimEndsLocal(w: World, t: TaskId, id: SwapId, preimage: Option<string>, confirmed: Option<Outpoint>, u: TaskId, i: SwapId)
    requires id in w.files && u != t && i != id && (t in w.tasks ==> w.tasks[t].id == id)
    ensures Untouched(w, Finish(Release(KeepPreimage(w, id, preimage), confirmed), t, id, false), t, id, u, i)
  {
  }

  lemma RecoverLocal(w: World, t: TaskId, k: Task, read: ScriptRead, u: TaskId, i: SwapId)
    requires k.Recovering? && k.id in w.files && (t in w.tasks ==> w.tasks[t].id == k.id) && u != t && i != k.id
    ensures Untouched(w, StepRecoverRead(w, t, k, read), t, k.id, u, i)
  {
    hide MoveAndFinish;
    MovesLocal(w, t, k.id, Failed, k.live, u, i);
    if read.SpendableAt? {
      ColumnsLocal(w, t, k.id, read.input, None, u, i);
      MovesLocal(Record(w, k.id, read.input), t, k.id, Funded, k.live, u, i);
    }
  }

  lemma StatusLocal(w: World, t: TaskId, k: Task, status: Status, stuck: bool, u: TaskId, i: SwapId)
    requires k.AskingStatus? && k.id in w.files && (t in w.tasks ==> w.tasks[t].id == k.id) && u != t && i != k.id
    ensures Untouched(w, StepStatusAnswer(w, t, k, status, stuck), t, k.id, u, i)
  {
    hide WriteClaimed, BeginUnwind, MoveAndFinish, Move;
    WriteClaimedLocal(w, t, k.id, if status.SaysClaimed? then status.preimage else None, None, u, i);
    BeginLocal(w, t, k.id, RefundLeaf, false, u, i);
    BeginLocal(w, t, k.id, CancelLeaf, false, u, i);
    MovedBeginLocal(w, t, k.id, RefundWait, CancelLeaf, false, Outpoint("", 0), u, i);
  }

  lemma ConfirmPassLocal(w: World, t: TaskId, k: Task, spent: bool, u: TaskId, i: SwapId)
    requires k.ConfirmingClaim? && k.id in w.files && (t in w.tasks ==> w.tasks[t].id == k.id) && u != t && i != k.id
    ensures Untouched(w, StepConfirmPass(w, t, k, spent), t, k.id, u, i)
  {
    hide WriteClaimed, BeginUnwind, KeepPreimage;
    WriteClaimedLocal(See(w, k.input), t, k.id, k.preimage, Some(k.input), u, i);
    ColumnsLocal(w, t, k.id, k.input, k.preimage, u, i);
    BeginLocal(KeepPreimage(w, k.id, k.preimage), t, k.id, RefundLeaf, false, u, i);
  }

  lemma PrePassLocal(w: World, t: TaskId, k: Task, u: TaskId, i: SwapId)
    requires k.Item? && k.id in w.files && (t in w.tasks ==> w.tasks[t].id == k.id) && u != t && i != k.id
    ensures Untouched(w, StepPrePass(w, t, k), t, k.id, u, i)
  {
  }

  lemma MainPassLocal(w: World, t: TaskId, k: Task, u: TaskId, i: SwapId)
    requires k.Item? && k.id in w.files && (t in w.tasks ==> w.tasks[t].id == k.id) && u != t && i != k.id
    ensures Untouched(w, StepMainPass(w, t, k), t, k.id, u, i)
  {
    hide BeginUnwind, ClassifyResume;
    BeginLocal(w, t, k.id, CancelLeaf, false, u, i);
  }

  lemma PassLocal(w: World, t: TaskId, k: Task, a: Answer, u: TaskId, i: SwapId)
    requires !k.Sending? && !k.Unwinding? && k.id in w.files && t in w.tasks && w.tasks[t] == k && u != t && i != k.id
    ensures Untouched(w, PassStep(w, t, k, a), t, k.id, u, i)
  {
    hide StepPrePass, StepMainPass, StepStatusAnswer, StepConfirmPass, StepRecoverRead, Untouched;
    SameUntouched(w, t, k.id, u, i);
    match (k, a)
    case (Item(_, _, _), PrePass) => PrePassLocal(w, t, k, u, i);
    case (Item(_, _, _), MainPass) => MainPassLocal(w, t, k, u, i);
    case (Recovering(_, _, _, _), RecoverAnswer(read)) => RecoverLocal(w, t, k, read, u, i);
    case (AskingStatus(_, _, _), StatusAnswer(status, stuck)) => StatusLocal(w, t, k, status, stuck, u, i);
    case (ConfirmingClaim(_, _, _, _), ConfirmAnswer(spent)) => ConfirmPassLocal(w, t, k, spent, u, i);
    case _ =>
  }

  lemma EndLocal(w: World, t: TaskId, k: Task, u: TaskId, i: SwapId)
    requires t in w.tasks && w.tasks[t] == k && u != t && i != k.id
    ensures Untouched(w, Finish(w, t, k.id, InLiveSend(k)), t, k.id, u, i)
  {
  }

  lemma TaskLocal(w: World, t: TaskId, k: Task, a: Answer, u: TaskId, i: SwapId)
    requires k.id in w.files && t in w.tasks && w.tasks[t] == k && u != t && i != k.id
    ensures Untouched(w, TaskStep(w, t, k, a), t, k.id, u, i)
  {
    hide SendStep, UnwindStep, PassStep, Untouched;
    EndLocal(w, t, k, u, i);
    match k
    case Sending(_, _) => SendLocal(w, t, k, a, u, i);
    case Unwinding(_, _, _, _, _, _) => UnwindLocal(w, t, k, a, u, i);
    case _ => PassLocal(w, t, k, a, u, i);
  }

  // ---- rows nobody comes back for ------------------------------------------------------------

  /** What a task may be that handles an `init` row whose outpoint is recorded. */
  ghost predicate Idle(k: Task) {
    || (k.Item? && k.snap.state == Init && k.snap.fundingOutpoint.Some?)
    || (k.AskingStatus? && !k.post)
    || k.ConfirmingClaim?
  }

  ghost predicate Waits(f: File) {
    f.row.direction == Send && f.row.state == Init && f.row.fundingOutpoint.Some?
  }

  /** The row is still `init` with its outpoint recorded, and the send that was to take it
      further is gone. */
  ghost predicate Stranded(w: World, id: SwapId) {
    id in w.files && Waits(w.files[id]) && forall t :: t in w.tasks && w.tasks[t].id == id ==> Idle(w.tasks[t])
  }

  lemma ClaimRefused(w: World, t: TaskId, id: SwapId, preimage: Option<string>, confirmed: Option<Outpoint>)
    requires id in w.files && Waits(w.files[id])
    ensures WriteClaimed(w, t, id, preimage, confirmed) == Finish(w, t, id, false)
    ensures forall leaf, live :: BeginUnwind(w, t, id, leaf, live) == Finish(w, t, id, live)
    ensures Move(w, id, RefundWait).None?
  {
  }

  /** The task did nothing to the row and ended or is still idle. */
  ghost predicate IdledOn(w: World, v: World, t: TaskId, id: SwapId) {
    && id in v.files && Waits(v.files[id]) && v.tasks - {t} == w.tasks - {t}
    && (t in v.tasks ==> v.tasks[t].id == id && Idle(v.tasks[t]))
  }

  lemma LeavesIdle(w: World, t: TaskId, id: SwapId, k: Task, preimage: Option<string>, o: Outpoint)
    requires id in w.files && Waits(w.files[id])
    ensures IdledOn(w, Finish(w, t, id, false), t, id) && IdledOn(w, Finish(See(w, o), t, id, false), t, id)
    ensures Waits(KeepPreimage(w, id, preimage).files[id]) && IdledOn(w, Finish(KeepPreimage(w, id, preimage), t, id, false), t, id)
    ensures k.id == id && Idle(k) ==> IdledOn(w, Goto(w, t, k), t, id)
    ensures t in w.tasks && w.tasks[t].id == id && Idle(w.tasks[t]) ==> IdledOn(w, w, t, id)
  {
  }

  lemma ItemIdles(w: World, t: TaskId, k: Task)
    requires k.id in w.files && Waits(w.files[k.id]) && k.Item? && Idle(k)
    ensures IdledOn(w, StepPrePass(w, t, k), t, k.id) && IdledOn(w, StepMainPass(w, t, k), t, k.id)
  {
    LeavesIdle(w, t, k.id, AskingStatus(k.id, k.snap, false), None, k.snap.fundingOutpoint.value);
    hide IdledOn, BeginUnwind;
  }

  lemma StatusIdles(w: World, t: TaskId, k: Task, status: Status, stuck: bool)
    requires k.id in w.files && Waits(w.files[k.id]) && k.AskingStatus? && Idle(k)
    ensures IdledOn(w, StepStatusAnswer(w, t, k, status, stuck), t, k.id)
  {
    var p := if status.SaysClaimed? then status.preimage else None;
    var o := k.snap.fundingOutpoint.GetOr(Outpoint("", 0));
    LeavesIdle(w, t, k.id, ConfirmingClaim(k.id, o, p, false), None, o);
    ClaimRefused(w, t, k.id, p, None);
    hide IdledOn, BeginUnwind, WriteClaimed, Move;
  }

  lemma ConfirmIdles(w: World, t: TaskId, k: Task, spent: bool)
    requires k.id in w.files && Waits(w.files[k.id]) && k.ConfirmingClaim?
    ensures IdledOn(w, StepConfirmPass(w, t, k, spent), t, k.id)
  {
    var kept := KeepPreimage(w, k.id, k.preimage);
    LeavesIdle(w, t, k.id, k, k.preimage, k.input);
    ClaimRefused(See(w, k.input), t, k.id, k.preimage, Some(k.input));
    assert k.id in kept.files;
    ClaimRefused(kept, t, k.id, None, None);
    hide IdledOn, BeginUnwind, WriteClaimed, KeepPreimage;
  }

  lemma IdleStep(w: World, t: TaskId, k: Task, a: Answer)
    requires k.id in w.files && Waits(w.files[k.id]) && Idle(k) && t in w.tasks && w.tasks[t] == k
    ensures IdledOn(w, TaskStep(w, t, k, a), t, k.id)
  {
    LeavesIdle(w, t, k.id, k, None, Outpoint("", 0));
    PassIdles(w, t, k, a);
    hide IdledOn, PassStep, Waits;
  }

  lemma PassIdles(w: World, t: TaskId, k: Task, a: Answer)
    requires k.id in w.files && Waits(w.files[k.id]) && Idle(k) && t in w.tasks && w.tasks[t] == k
    ensures IdledOn(w, PassStep(w, t, k, a), t, k.id)
  {
    LeavesIdle(w, t, k.id, k, None, Outpoint("", 0));
    hide IdledOn, StepPrePass, StepMainPass, StepStatusAnswer, StepConfirmPass;
    match (k, a)
    case (Item(_, _, _), _) => ItemIdles(w, t, k);
    case (AskingStatus(_, _, _), StatusAnswer(status, stuck)) => StatusIdles(w, t, k, status, stuck);
    case (ConfirmingClaim(_, _, _, _), ConfirmAnswer(spent)) => ConfirmIdles(w, t, k, spent);
    case _ =>
  }

  lemma OutsideStrands(w: World, h: Happening)
    ensures OutsideStep(w, h).files == w.files && (OutsideStep(w, h).tasks == w.tasks || OutsideStep(w, h).tasks == map[])
  {
    hide CanLand;
  }

  lemma StartStrands(w: World, t: TaskId, o: Order, id: SwapId)
    requires Stranded(w, id) && t !in w.tasks
    ensures Stranded(StepStartSend(w, t, o), id)
  {
    hide Accepts;
    if o.id == id {
      assert Taken(RowsOf(w), o.id, o.paymentHash);
    }
  }

  lemma PressStrands(w: World, t: TaskId, i: SwapId, id: SwapId)
    requires Stranded(w, id) && t !in w.tasks && i in w.files
    ensures Stranded(BeginUnwind(w, t, i, RefundLeaf, false), id)
  {
    if i == id {
      ClaimRefused(w, t, id, None, None);
    } else {
      forall u | u != t ensures Untouched(w, BeginUnwind(w, t, i, RefundLeaf, false), t, i, u, id) {
        BeginLocal(w, t, i, RefundLeaf, false, u, id);
      }
    }
  }

  /** Once stranded, a row stays stranded: no pass, no press of the refund button and no new
      send moves it. */
  lemma StepStrands(w: World, e: Event, id: SwapId)
    requires Stranded(w, id)
    ensures Stranded(Step(w, e), id)
  {
    match e
    case Outside(h) =>
      hide OutsideStep;
      OutsideStrands(w, h);
    case StartSend(t, order) =>
      if t !in w.tasks {
        hide StepStartSend;
        StartStrands(w, t, order, id);
      }
    case TakeSnapshot(_, _, _) =>
    case RefundPressed(t, i) =>
      if t !in w.tasks && i in w.files {
        hide BeginUnwind;
        PressStrands(w, t, i, id);
      }
    case Continue(t, a) =>
      if t in w.tasks && w.tasks[t].id in w.files {
        TaskStrands(w, t, w.tasks[t], a, id);
      }
  }

  lemma TaskStrands(w: World, t: TaskId, k: Task, a: Answer, id: SwapId)
    requires Stranded(w, id) && t in w.tasks && w.tasks[t] == k && k.id in w.files
    ensures Stranded(TaskStep(w, t, k, a), id)
  {
    hide TaskStep, Idle, Waits;
    var v := TaskStep(w, t, k, a);
    if k.id == id {
      IdleStep(w, t, k, a);
      assert forall u :: u in v.tasks && u != t ==> u in v.tasks - {t} && v.tasks[u] == (v.tasks - {t})[u];
      assert forall u :: u in v.tasks && u != t ==> u in w.tasks && w.tasks[u] == v.tasks[u];
    } else {
      TaskLocal(w, t, k, a, t + 1, id);
      forall u | u in v.tasks && v.tasks[u].id == id ensures Idle(v.tasks[u]) {
        TaskLocal(w, t, k, a, if u == t then t + 1 else u, id);
      }
    }
  }

  lemma {:induction false} StrandedForever(w: World, es: seq<Event>, id: SwapId)
    requires Stranded(w, id)
    ensures Stranded(Run(w, es), id)
    decreases |es|
  {
    hide Stranded, Step;
    if es != [] {
      StepStrands(w, es[0], id);
      StrandedForever(Step(w, es[0]), es[1..], id);
    }
  }

  // ---- the line between the two -----------------------------------------------------------------

  predicate Reclaimable(s: State) {
    s == Funded || s == LnInflight || s == RefundWait
  }

  lemma {:induction false} FreshTask(s: set<TaskId>) returns (t: TaskId)
    ensures forall u :: u in s ==> u < t
  {
    t := 0;
    if s != {} {
      var u :| u in s;
      var below := FreshTask(s - {u});
      t := if below > u then below else u + 1;
      assert forall x :: x in s ==> x == u || x in s - {u};
    }
  }

  /** The clocks reach T. */
  function Tick(w: World, at: int): Event {
    Outside(ClockTicks(if w.now > at then w.now else at, if w.mtp > at then w.mtp else at))
  }

  lemma Ticked(w: World, at: int)
    ensures var v := Run(w, [Tick(w, at)]);
      v == w.(now := v.now, mtp := v.mtp) && v.now >= at && v.mtp >= at
  {
    assert [Tick(w, at)][1..] == [];
  }

  /** A locked output recorded in a row of such a state comes home once T has passed. */
  lemma ComesHome(us: Key, server: Key, honest: bool, es: seq<Event>, id: SwapId) returns (more: seq<Event>)
    requires var w := Run(Start(us, server, honest), es);
      && id in w.files && Reclaimable(w.files[id].row.state) && w.files[id].row.fundingOutpoint.Some?
      && var o := w.files[id].row.fundingOutpoint.value;
        o in w.coins && w.coins[o].spentBy.None? && w.coins[o].script == w.files[id].deal.script
    ensures var v := Run(Run(Start(us, server, honest), es), more);
      id in v.files && v.files[id].row.state == Refunded
  {
    var s := Start(us, server, honest);
    var w := Run(s, es);
    var tick := [Tick(w, w.files[id].row.refundLocktime)];
    Ticked(w, w.files[id].row.refundLocktime);
    var t := FreshTask(w.tasks.Keys);
    var o := w.files[id].row.fundingOutpoint.value;
    var value := w.coins[o].value;
    assert 0 < Unwind.AttemptCount(value, 0);
    hide Step, Run, Start, Tick, Unwind.Attempts, Unwind.AttemptCount;
    AtomicRecovery.RunAppend(s, es, tick);
    AtomicRecovery.AlwaysRefundable(us, server, honest, es + tick, t, id, 0, 0);
    var refund := AtomicRecovery.RefundRun(t, id, value, 0, 0, Spend(o, w.files[id].deal.script, RefundLeaf, Unwind.Attempts(value, 0)[0]));
    more := tick + refund;
    AtomicRecovery.RunAppend(w, tick, refund);
  }

  /** The exact line. Take any reachable state in which a swap has no task left, say after a
      crash, and its recorded output is still locked and not refunded: some future brings it
      home through the bridge if and only if the row is funded, in flight or waiting for its
      refund. Any other row never changes its state again. */
  lemma ComesHomeExactlyWhen(us: Key, server: Key, honest: bool, es: seq<Event>, id: SwapId)
    requires var w := Run(Start(us, server, honest), es);
      && id in w.files && w.files[id].row.fundingOutpoint.Some? && w.files[id].row.state != Refunded
      && (forall t :: t in w.tasks ==> w.tasks[t].id != id)
      && var o := w.files[id].row.fundingOutpoint.value;
        o in w.coins && w.coins[o].spentBy.None? && w.coins[o].script == w.files[id].deal.script
    ensures var w := Run(Start(us, server, honest), es);
      && ((exists more :: id in Run(w, more).files && Run(w, more).files[id].row.state == Refunded) <==> Reclaimable(w.files[id].row.state))
      && (!Reclaimable(w.files[id].row.state) ==>
            forall more :: id in Run(w, more).files && Run(w, more).files[id].row.state == w.files[id].row.state)
  {
    var w := Run(Start(us, server, honest), es);
    StartOk(us, server, honest);
    RunKeeps(Start(us, server, honest), es);
    FileOf(w, id);
    var f := w.files[id];
    KnownState(f, w.gone);
    hide Inv, Run, Start, Terminal;
    if Reclaimable(f.row.state) {
      var more := ComesHome(us, server, honest, es, id);
    } else {
      forall more ensures id in Run(w, more).files && Run(w, more).files[id].row.state == f.row.state {
        if f.row.state == Init {
          StrandedForever(w, more, id);
        } else {
          AtomicTheorems.TerminalForever(us, server, honest, es, more, id);
        }
      }
    }
  }

  lemma KnownState(f: File, gone: set<Outpoint>)
    requires StateOk(f, gone)
    ensures f.row.direction == Send && (f.row.state == Init || Reclaimable(f.row.state) || Terminal(Send, f.row.state))
  {
    var n := |f.hist|;
    if n > 1 {
      assert Legal(Send, f.hist[n - 2], f.hist[n - 2 + 1]);
    }
  }

  // ---- outputs nobody recorded ------------------------------------------------------------------

  /** A pass that finds the row in `init` without an outpoint and asks for coins at its script. */
  function RecoverRun(w: World, t: TaskId, id: SwapId, read: ScriptRead): seq<Event> {
    [TakeSnapshot(t, id, w.now), Continue(t, PrePass), Continue(t, RecoverAnswer(read))]
  }

  ghost predicate Unrecorded(w: World, id: SwapId) {
    id in w.files && w.files[id].row.direction == Send && w.files[id].row.fundingOutpoint.None? && w.files[id].row.state == Init
  }

  lemma PrePassNext(w: World, t: TaskId, id: SwapId)
    requires Unrecorded(w, id) && id !in w.inflight && t !in w.tasks
    ensures Step(Step(w, TakeSnapshot(t, id, w.now)), Continue(t, PrePass)) == Goto(w, t, Recovering(id, w.files[id].row, w.now, false))
  {
    var k := Item(id, w.files[id].row, w.now);
    assert Step(w, TakeSnapshot(t, id, w.now)) == Goto(w, t, k);
    assert Goto(w, t, k).tasks[t := Recovering(id, w.files[id].row, w.now, false)] == w.tasks[t := Recovering(id, w.files[id].row, w.now, false)];
  }

  lemma RecoverNext(w: World, t: TaskId, id: SwapId, at: int, read: ScriptRead)
    requires Unrecorded(w, id) && t in w.tasks && w.tasks[t] == Recovering(id, w.files[id].row, at, false)
    ensures var v := Step(w, Continue(t, RecoverAnswer(read)));
      && id in v.files && v.coins == w.coins && v.files[id].deal == w.files[id].deal
      && v.files[id].row.state == (if read.SpendableAt? then Funded
                                   else if read.NoCoin? && at * 1000 - w.files[id].row.createdAt > UNFUNDED_GRACE_MS then Failed else Init)
      && v.files[id].row.fundingOutpoint == (if read.SpendableAt? then Some(read.input) else None)
  {
    assert Legal(Send, Init, Funded) && Legal(Send, Init, Failed);
    assert Step(w, Continue(t, RecoverAnswer(read))) == StepRecoverRead(w, t, w.tasks[t], read) by {
      hide StepRecoverRead;
    }
  }

  /** What the recovery makes of the row, exactly: funded with the coin it was told about,
      failed when it was told there never was one and the row is older than the grace, and
      otherwise nothing. */
  lemma RecoveryExactlyWhen(w: World, t: TaskId, id: SwapId, read: ScriptRead)
    requires Unrecorded(w, id) && id !in w.inflight && t !in w.tasks
    ensures var v := Run(w, RecoverRun(w, t, id, read));
      && id in v.files && v.coins == w.coins && v.files[id].deal == w.files[id].deal
      && (v.files[id].row.state == Funded <==> read.SpendableAt?)
      && (v.files[id].row.state == Failed <==> read.NoCoin? && w.now * 1000 - w.files[id].row.createdAt > UNFUNDED_GRACE_MS)
      && v.files[id].row.fundingOutpoint == (if read.SpendableAt? then Some(read.input) else None)
  {
    var es := RecoverRun(w, t, id, read);
    PrePassNext(w, t, id);
    var m := Goto(w, t, Recovering(id, w.files[id].row, w.now, false));
    assert Unrecorded(m, id) && m.tasks[t] == Recovering(id, m.files[id].row, w.now, false) && m.coins == w.coins;
    RecoverNext(m, t, id, w.now, read);
    hide Step, Run, Goto;
    AtomicTheorems.FirstThree(w, es);
    assert es[..3] == es;
  }

  /** An output locked to a swap's script that its row does not know of: when the swap has no
      task left, some future brings the row home if and only if it is still in `init`. */
  lemma UnrecordedComesHomeExactlyWhen(us: Key, server: Key, honest: bool, es: seq<Event>, id: SwapId, o: Outpoint)
    requires var w := Run(Start(us, server, honest), es);
      && id in w.files && w.files[id].row.fundingOutpoint.None? && id !in w.inflight
      && (forall t :: t in w.tasks ==> w.tasks[t].id != id)
      && o in w.coins && w.coins[o].spentBy.None? && w.coins[o].script == w.files[id].deal.script
    ensures var w := Run(Start(us, server, honest), es);
      && (w.files[id].row.state == Init || w.files[id].row.state == Failed)
      && ((exists more :: id in Run(w, more).files && Run(w, more).files[id].row.state == Refunded) <==> w.files[id].row.state == Init)
  {
    var s := Start(us, server, honest);
    var w := Run(s, es);
    StartOk(us, server, honest);
    RunKeeps(s, es);
    FileOf(w, id);
    NoOutpointMeans(w.files[id], w.gone);
    hide Inv, Run, Start, Terminal, Step, StateOk, TermsOk;
    if w.files[id].row.state == Init {
      var t := FreshTask(w.tasks.Keys);
      var found := RecoverRun(w, t, id, SpendableAt(o));
      RecoveryExactlyWhen(w, t, id, SpendableAt(o));
      AtomicRecovery.RunAppend(s, es, found);
      var more := ComesHome(us, server, honest, es + found, id);
      AtomicRecovery.RunAppend(w, found, more);
      assert Run(w, found + more).files[id].row.state == Refunded;
    } else {
      forall more ensures id in Run(w, more).files && Run(w, more).files[id].row.state == Failed {
        AtomicTheorems.TerminalForever(us, server, honest, es, more, id);
      }
    }
  }

  lemma NoOutpointMeans(f: File, gone: set<Outpoint>)
    requires StateOk(f, gone) && f.row.fundingOutpoint.None?
    ensures f.row.direction == Send && (f.row.state == Init || (f.row.state == Failed && Terminal(Send, Failed)))
  {
    KnownState(f, gone);
  }

  /** An answer that there never was a coin, given about a row older than the grace, gives the
      swap up for good, also when its output is locked all the same. */
  lemma NoCoinStrands(us: Key, server: Key, honest: bool, es: seq<Event>, t: TaskId, id: SwapId, more: seq<Event>)
    requires var w := Run(Start(us, server, honest), es);
      && Unrecorded(w, id) && id !in w.inflight && t !in w.tasks && w.now * 1000 - w.files[id].row.createdAt > UNFUNDED_GRACE_MS
    ensures var w := Run(Start(us, server, honest), es);
      var v := Run(w, RecoverRun(w, t, id, NoCoin));
      && v.coins == w.coins && id in Run(v, more).files && Run(v, more).files[id].row.state == Failed
  {
    var s := Start(us, server, honest);
    var w := Run(s, es);
    assert Terminal(Send, Failed);
    hide Run, Start, Step, Unrecorded;
    RecoveryExactlyWhen(w, t, id, NoCoin);
    AtomicRecovery.RunAppend(s, es, RecoverRun(w, t, id, NoCoin));
    AtomicTheorems.TerminalForever(us, server, honest, es + RecoverRun(w, t, id, NoCoin), more, id);
  }

  // ---- both sides of the line are reached ----------------------------------------------------

  /** The process dies after the outpoint was recorded and before the row became funded. */
  function CrashRun(o: Order, script: Options, c: Outpoint): seq<Event> {
    AtomicTheorems.StaleRun(o, script, c)[..5] + [Outside(Crash)]
  }

  /** Boltz answers the hand-over with neither 'claimed' nor 'failed'. */
  function RefusalRun(o: Order, script: Options, c: Outpoint): seq<Event> {
    AtomicTheorems.StaleRun(o, script, c)[..7] + [Continue(0, BoltzReplies(OtherReply))]
  }

  lemma CoinThere(w: World, o: Order, c: Outpoint)
    requires w == Start(w.us, w.server, w.honestIndexer) && Accepts(w, o)
    ensures var script := AtomicTheorems.FreshFile(w, o).deal.script;
      var v := Step(Step(Step(w, StartSend(0, o)), TakeSnapshot(1, o.id, 0)), Outside(CoinAppears(c, script, o.funding)));
      c in v.coins && v.coins[c].script == script && v.coins[c].value == o.funding
  {
    hide Accepts;
    var w1 := Step(w, StartSend(0, o));
    assert w1.coins == map[];
    assert Step(w1, TakeSnapshot(1, o.id, 0)).coins == map[];
  }

  lemma Shapes(o: Order, script: Options, c: Outpoint)
    ensures var all, es := AtomicTheorems.StaleRun(o, script, c), CrashRun(o, script, c);
      |all| == 11 && |es| == 6 && es[..3] == all[..3] && es[..5] == all[..5] && es == all[..5] + [Outside(Crash)]
    ensures var all, es := AtomicTheorems.StaleRun(o, script, c), RefusalRun(o, script, c);
      |es| == 8 && es[..3] == all[..3] && es[..7] == all[..7] && es[7] == Continue(0, BoltzReplies(OtherReply)) && es[..8] == es
  {
  }

  lemma ShapeBegins(o: Order, script: Options, c: Outpoint, es: seq<Event>)
    requires |es| >= 3 && es[..3] == AtomicTheorems.StaleRun(o, script, c)[..3]
    ensures es[0] == StartSend(0, o) && es[1] == TakeSnapshot(1, o.id, 0) && es[2] == Outside(CoinAppears(c, script, o.funding))
  {
    var all := AtomicTheorems.StaleRun(o, script, c);
    assert es[0] == all[..3][0] && es[1] == all[..3][1] && es[2] == all[..3][2];
  }

  /** What the ledger holds from there on. */
  lemma CoinStays(w: World, o: Order, c: Outpoint, es: seq<Event>)
    requires w == Start(w.us, w.server, w.honestIndexer) && Accepts(w, o) && |es| >= 3
    requires es[..3] == AtomicTheorems.StaleRun(o, AtomicTheorems.FreshFile(w, o).deal.script, c)[..3]
    ensures var v := Run(w, es);
      c in v.coins && v.coins[c].script == AtomicTheorems.FreshFile(w, o).deal.script && v.coins[c].value == o.funding
  {
    hide *;
    ShapeBegins(o, AtomicTheorems.FreshFile(w, o).deal.script, c, es);
    CoinThere(w, o, c);
    AtomicTheorems.FirstThree(w, es);
    AtomicRecovery.RunAppend(w, es[..3], es[3..]);
    assert es[..3] + es[3..] == es;
    CoinLasts(Run(w, es[..3]), es[3..], c);
  }

  lemma CoinLasts(w: World, es: seq<Event>, c: Outpoint)
    requires c in w.coins
    ensures c in Run(w, es).coins && Run(w, es).coins[c].script == w.coins[c].script && Run(w, es).coins[c].value == w.coins[c].value
  {
    hide Run, AtomicHistory.FileLater;
    AtomicHistory.RunGrows(w, es);
    assert AtomicHistory.CoinLater(w.coins[c], Run(w, es).coins[c]);
  }

  lemma Crashed(w: World, f: File, id: SwapId, snap: Row, c: Outpoint, stage: SendStage)
    requires AtomicTheorems.Midway(w, id, snap, c, f, stage)
    ensures var v := Step(w, Outside(Crash));
      && v.files == map[id := f] && v.tasks == map[] && v.gone == {} && c in v.coins && v.coins[c].spentBy.None?
  {
  }

  lemma CrashReaches(w: World, o: Order, c: Outpoint)
    requires w == Start(w.us, w.server, true) && Accepts(w, o) && o.amount > 0
    ensures var v := Run(w, CrashRun(o, AtomicTheorems.FreshFile(w, o).deal.script, c));
      && o.id in v.files && AtomicTheorems.Plain(v.files[o.id], Init, {c}) && v.files[o.id].deal == AtomicTheorems.FreshFile(w, o).deal
      && v.tasks == map[] && c in v.coins && v.coins[c].spentBy.None?
  {
    assert w.honestIndexer;
    hide *;
    var script := AtomicTheorems.FreshFile(w, o).deal.script;
    var all := AtomicTheorems.StaleRun(o, script, c);
    AtomicTheorems.SendLocates(w, o, c, all);
    var v := Run(w, all[..5]);
    Crashed(v, v.files[o.id], o.id, NewRow(w, o), c, Located(c));
    Shapes(o, script, c);
    AtomicRecovery.RunAppend(w, all[..5], [Outside(Crash)]);
    RunOne(v, Outside(Crash));
    IsNow(v, o.id, NewRow(w, o), c, Located(c));
  }

  lemma RunOne(w: World, e: Event)
    ensures Run(w, [e]) == Step(w, e)
  {
    hide Step;
    assert [e][1..] == [];
  }

  lemma IsNow(w: World, id: SwapId, snap: Row, c: Outpoint, stage: SendStage)
    requires id in w.files && AtomicTheorems.Midway(w, id, snap, c, w.files[id], stage)
    ensures w.files == map[id := w.files[id]]
  {
  }

  lemma RecordedIs(f: File, gone: set<Outpoint>, c: Outpoint)
    requires StateOk(f, gone) && AtomicTheorems.Plain(f, Init, {c})
    ensures f.row.fundingOutpoint == Some(c) && f.row.state == Init && Waits(f)
  {
  }

  /** For every order a caller may place there is a run, with a truthful indexer, that leaves
      its money locked under a row nothing of the bridge will ever move again. */
  lemma CrashStrands(us: Key, server: Key, o: Order, c: Outpoint, more: seq<Event>)
    requires Accepts(Start(us, server, true), o) && o.amount > 0
    ensures var s := Start(us, server, true);
      var w := Run(s, CrashRun(o, AtomicTheorems.FreshFile(s, o).deal.script, c));
      && o.id in w.files && w.files[o.id].row.state == Init && w.files[o.id].row.fundingOutpoint == Some(c) && w.tasks == map[]
      && c in w.coins && w.coins[c].spentBy.None? && w.coins[c].script == w.files[o.id].deal.script
      && o.id in Run(w, more).files && Run(w, more).files[o.id].row.state == Init
  {
    var s := Start(us, server, true);
    assert s == Start(s.us, s.server, true);
    hide Inv, Run, Start, Accepts, CrashRun, AtomicTheorems.FreshFile, AtomicTheorems.StaleRun, AtomicTheorems.Plain, Waits, Step, StateOk, TermsOk;
    var script := AtomicTheorems.FreshFile(s, o).deal.script;
    var es := CrashRun(o, script, c);
    Shapes(o, script, c);
    CrashReaches(s, o, c);
    CoinStays(s, o, c, es);
    var w := Run(s, es);
    StartOk(us, server, true);
    RunKeeps(s, es);
    FileOf(w, o.id);
    RecordedIs(w.files[o.id], w.gone, c);
    assert Stranded(w, o.id);
    StrandedForever(w, more, o.id);
    StaysInit(Run(w, more), o.id);
  }

  lemma StaysInit(w: World, id: SwapId)
    requires Stranded(w, id)
    ensures id in w.files && w.files[id].row.state == Init
  {
  }

  lemma Refused(w: World, f: File, id: SwapId, snap: Row, c: Outpoint)
    requires AtomicTheorems.Midway(w, id, snap, c, f, AwaitingBoltz(c)) && AtomicTheorems.Plain(f, LnInflight, {c})
    ensures var v := Step(w, Continue(0, BoltzReplies(OtherReply)));
      && c in w.coins && w.coins[c].spentBy.None?
      && id in v.files && v.files[id].row.state == Failed && v.files[id].recorded == {c} && v.coins == w.coins
  {
    assert Legal(Send, LnInflight, Failed);
  }

  /** So does an answer of boltz that is neither 'claimed' nor 'failed'. */
  lemma RefusalStrands(us: Key, server: Key, o: Order, c: Outpoint, more: seq<Event>)
    requires Accepts(Start(us, server, true), o) && o.amount > 0
    ensures var s := Start(us, server, true);
      var w := Run(s, RefusalRun(o, AtomicTheorems.FreshFile(s, o).deal.script, c));
      && o.id in w.files && w.files[o.id].row.state == Failed && w.files[o.id].recorded == {c}
      && c in w.coins && w.coins[c].spentBy.None? && w.coins[c].script == AtomicTheorems.FreshFile(s, o).deal.script
      && o.id in Run(w, more).files && Run(w, more).files[o.id].row.state == Failed
  {
    var s := Start(us, server, true);
    assert s == Start(s.us, s.server, true);
    assert Terminal(Send, Failed);
    hide Run, Start, Accepts, RefusalRun, AtomicTheorems.FreshFile, AtomicTheorems.StaleRun, AtomicTheorems.Plain, AtomicTheorems.Midway, Step;
    var script := AtomicTheorems.FreshFile(s, o).deal.script;
    var es := RefusalRun(o, script, c);
    Shapes(o, script, c);
    AtomicTheorems.SendRunsThrough(s, o, c, AtomicTheorems.StaleRun(o, script, c));
    var v := Run(s, es[..7]);
    Refused(v, v.files[o.id], o.id, NewRow(s, o), c);
    AtomicTheorems.OneMore(s, es, 7);
    CoinStays(s, o, c, es);
    AtomicTheorems.TerminalForever(us, server, true, es, more, o.id);
  }
}
