/** Nothing that happened in a run of the send system is ever undone. */
module AtomicHistory {
  import opened Wrappers
  import opened SwapState
  import opened SharedScript
  import opened SwapRepository
  import opened AtomicSend
  import ClaimSplit
  import Unwind

  ghost predicate FileLater(f: File, g: File) {
    f.hist <= g.hist && f.recorded <= g.recorded && g.deal == f.deal && (f.blind ==> g.blind)
  }

  ghost predicate CoinLater(c: Coin, d: Coin) {
    d.script == c.script && d.value == c.value && (c.spentBy.Some? ==> d.spentBy == c.spentBy)
  }

  /** Swaps stay, with their agreement, their past states as a prefix and their recorded
      outpoints; ledger outputs stay, and once spent stay spent by the same spend; signatures,
      shown preimages, spent-answers and releases are never forgotten. Only swaps in `marks` may have
      become marked blind. */
  ghost predicate Grows(w: World, v: World, marks: set<SwapId>) {
    && v.us == w.us && v.server == w.server && v.honestIndexer == w.honestIndexer
    && (forall id :: id in w.files ==> id in v.files && FileLater(w.files[id], v.files[id]))
    && (forall id :: id in v.files && id !in marks ==> v.files[id].blind == (id in w.files && w.files[id].blind))
    && (forall o :: o in w.coins ==> o in v.coins && CoinLater(w.coins[o], v.coins[o]))
    && w.signed.Keys <= v.signed.Keys && w.shown <= v.shown && w.gone <= v.gone && w.released <= v.released
  }

  lemma GrowsFurther(u: World, v: World, w: World, marks: set<SwapId>)
    requires Grows(u, v, marks) && Grows(v, w, marks)
    ensures Grows(u, w, marks)
  {
    forall id | id in u.files ensures id in w.files && FileLater(u.files[id], w.files[id]) {
      assert FileLater(u.files[id], v.files[id]) && FileLater(v.files[id], w.files[id]);
    }
    forall o | o in u.coins ensures o in w.coins && CoinLater(u.coins[o], w.coins[o]) {
      assert CoinLater(u.coins[o], v.coins[o]) && CoinLater(v.coins[o], w.coins[o]);
    }
  }

  lemma GrowsWith(w: World, v: World, marks: set<SwapId>, more: set<SwapId>)
    requires Grows(w, v, marks) && marks <= more
    ensures Grows(w, v, more)
  {
  }

  lemma SameRecordsGrow(w: World, v: World)
    requires v.us == w.us && v.server == w.server && v.honestIndexer == w.honestIndexer
    requires v.files == w.files && v.coins == w.coins && v.signed == w.signed && v.shown == w.shown && w.gone <= v.gone && w.released <= v.released
    ensures Grows(w, v, {})
  {
  }

  lemma SimpleGrows(w: World, t: TaskId, k: Task, id: SwapId, live: bool, o: Outpoint)
    ensures Grows(w, w, {}) && Grows(w, Finish(w, t, id, live), {}) && Grows(w, Goto(w, t, k), {}) && Grows(w, See(w, o), {})
  {
    hide Grows;
    SameRecordsGrow(w, w);
    SameRecordsGrow(w, Finish(w, t, id, live));
    SameRecordsGrow(w, Goto(w, t, k));
    SameRecordsGrow(w, See(w, o));
  }

  lemma ReleaseGrows(w: World, o: Option<Outpoint>)
    ensures Grows(w, Release(w, o), {})
  {
    hide Grows;
    SameRecordsGrow(w, Release(w, o));
  }

  lemma CloseGrows(w: World, t: TaskId, id: SwapId, to: State, live: bool, o: Outpoint)
    requires id in w.files
    ensures Grows(w, Close(w, t, id, to, live, o), {})
  {
    hide Grows, Finish, Move, Release;
    SimpleGrows(w, t, Sending("", Locating), id, live, o);
    MoveGrows(w, t, id, to, live);
    match Move(w, id, to)
    case None =>
    case Some(v) =>
      var u := Release(v, Some(o));
      ReleaseGrows(v, Some(o));
      SimpleGrows(u, t, Sending("", Locating), id, live, o);
      GrowsFurther(w, v, u, {});
      GrowsFurther(w, u, Finish(u, t, id, live), {});
  }

  function Marks(id: SwapId, yes: bool): set<SwapId> {
    if yes then {id} else {}
  }

  lemma PutGrows(w: World, id: SwapId, f: File)
    requires id in w.files && FileLater(w.files[id], f)
    ensures Grows(w, Put(w, id, f), Marks(id, f.blind && !w.files[id].blind))
  {
  }

  lemma ColumnsGrow(w: World, id: SwapId, o: Outpoint, preimage: Option<string>)
    requires id in w.files
    ensures Grows(w, Record(w, id, o), {}) && Grows(w, KeepPreimage(w, id, preimage), {})
  {
    hide Grows;
    SimpleGrows(w, 0, Sending("", Locating), "", false, o);
    PutGrows(w, id, Record(w, id, o).files[id]);
    if preimage.Some? {
      PutGrows(w, id, KeepPreimage(w, id, preimage).files[id]);
    }
  }

  lemma MoveGrows(w: World, t: TaskId, id: SwapId, to: State, live: bool)
    requires id in w.files
    ensures Move(w, id, to).Some? ==> Grows(w, Move(w, id, to).value, {})
    ensures Grows(w, MoveAndFinish(w, t, id, to, live), {})
  {
    hide Grows, Finish;
    SimpleGrows(w, t, Sending("", Locating), id, live, Outpoint("", 0));
    match MovedFile(w.files[id], to, w.now)
    case None =>
    case Some(f) =>
      var v := Put(w, id, f);
      PutGrows(w, id, f);
      SimpleGrows(v, t, Sending("", Locating), id, live, Outpoint("", 0));
      GrowsFurther(w, v, Finish(v, t, id, live), {});
  }

  lemma BeginUnwindGrows(w: World, t: TaskId, id: SwapId, leaf: Leaf, live: bool)
    requires id in w.files
    ensures Grows(w, BeginUnwind(w, t, id, leaf, live), {})
  {
    hide Grows, Finish, Goto;
    var row := w.files[id].row;
    var o := row.fundingOutpoint.GetOr(Outpoint("", 0));
    SimpleGrows(w, t, Unwinding(id, leaf, o, row.state, Looking, live), id, live, o);
  }

  /** A step that moves a row and then goes on from the moved world. */
  lemma MoveThenUnwindGrows(w: World, t: TaskId, id: SwapId, to: State, leaf: Leaf, live: bool)
    requires id in w.files
    ensures Move(w, id, to).Some? ==> Grows(w, BeginUnwind(Move(w, id, to).value, t, id, leaf, live), {})
    ensures Move(w, id, to).Some? ==> forall o :: Grows(w, Close(Move(w, id, to).value, t, id, Refunded, live, o), {})
  {
    MoveGrows(w, t, id, to, live);
    hide Grows, BeginUnwind, Close, Move;
    match Move(w, id, to)
    case None =>
    case Some(v) =>
      BeginUnwindGrows(v, t, id, leaf, live);
      GrowsFurther(w, v, BeginUnwind(v, t, id, leaf, live), {});
      forall o ensures Grows(w, Close(v, t, id, Refunded, live, o), {}) {
        CloseGrows(v, t, id, Refunded, live, o);
        GrowsFurther(w, v, Close(v, t, id, Refunded, live, o), {});
      }
  }

  lemma ClaimedFileLater(f: File, now: int)
    ensures ClaimedFile(f, now).Some? ==> FileLater(f, ClaimedFile(f, now).value) && ClaimedFile(f, now).value.blind == f.blind
  {
  }

  lemma WriteClaimedGrows(w: World, t: TaskId, id: SwapId, preimage: Option<string>, confirmed: Option<Outpoint>)
    requires id in w.files
    ensures Grows(w, WriteClaimed(w, t, id, preimage, confirmed), Marks(id, confirmed.None? && ClaimedFile(w.files[id], w.now).Some?))
  {
    hide Grows, ClaimedFile, Finish, KeepPreimage, Release;
    var blind := confirmed.None?;
    ClaimedFileLater(w.files[id], w.now);
    SimpleGrows(w, t, Sending("", Locating), id, false, Outpoint("", 0));
    match ClaimedFile(w.files[id], w.now)
    case None =>
    case Some(f) =>
      var g := f.(blind := f.blind || blind);
      var v := Put(w, id, g);
      var kept := KeepPreimage(v, id, preimage);
      var u := Release(kept, confirmed);
      PutGrows(w, id, g);
      ColumnsGrow(v, id, Outpoint("", 0), preimage);
      ReleaseGrows(kept, confirmed);
      GrowsFurther(v, kept, u, {});
      SimpleGrows(u, t, Sending("", Locating), id, false, Outpoint("", 0));
      GrowsFurther(v, u, Finish(u, t, id, false), {});
      GrowsWith(v, Finish(u, t, id, false), {}, Marks(id, blind));
      GrowsWith(w, v, Marks(id, g.blind && !w.files[id].blind), Marks(id, blind));
      GrowsFurther(w, v, Finish(u, t, id, false), Marks(id, blind));
  }

  lemma WriteClaimedMarks(w: World, t: TaskId, id: SwapId, preimage: Option<string>)
    requires id in w.files && ClaimedFile(w.files[id], w.now).Some?
    ensures id in WriteClaimed(w, t, id, preimage, None).files && WriteClaimed(w, t, id, preimage, None).files[id].blind
  {
    hide ClaimedFile;
  }

  lemma HandOverGrows(w: World, t: TaskId, id: SwapId, s: Spend)
    requires id in w.files
    ensures Grows(w, StepHandOver(w, t, id, s), {})
  {
    hide Grows, Move, Finish, Goto;
    var f := w.files[id].(row := WithPresigs(w.files[id].row, s, w.now * 1000));
    var w0 := Put(w, id, f);
    PutGrows(w, id, f);
    MoveGrows(w0, t, id, Funded, true);
    SimpleGrows(w0, t, Sending("", Locating), id, true, s.input);
    GrowsFurther(w, w0, Finish(w0, t, id, true), {});
    match Move(w0, id, Funded)
    case None =>
    case Some(w1) =>
      GrowsFurther(w, w0, w1, {});
      MovesThenGrow(w1, t, id, s.input);
      GrowsFurther(w, w1, Finish(w1, t, id, true), {});
      match Move(w1, id, LnInflight) {
        case None =>
        case Some(w2) => GrowsFurther(w, w1, Goto(w2, t, Sending(id, AwaitingBoltz(s.input))), {});
      }
  }

  lemma MovesThenGrow(w: World, t: TaskId, id: SwapId, o: Outpoint)
    requires id in w.files
    ensures Grows(w, Finish(w, t, id, true), {})
    ensures Move(w, id, LnInflight).Some? ==> Grows(w, Goto(Move(w, id, LnInflight).value, t, Sending(id, AwaitingBoltz(o))), {})
  {
    hide Grows, Move;
    SimpleGrows(w, t, Sending("", Locating), id, true, o);
    MoveGrows(w, t, id, LnInflight, true);
    match Move(w, id, LnInflight)
    case None =>
    case Some(v) =>
      SimpleGrows(v, t, Sending(id, AwaitingBoltz(o)), id, true, o);
      GrowsFurther(w, v, Goto(v, t, Sending(id, AwaitingBoltz(o))), {});
  }

  lemma RepliesGrow(w: World, t: TaskId, id: SwapId, o: Outpoint, preimage: string, reply: FundReply, spent: bool)
    requires id in w.files
    ensures Grows(w, StepBoltzReplies(w, t, id, o, reply), {}) && Grows(w, StepConfirmLive(w, t, id, o, preimage, spent), {})
  {
    hide Grows, Move, MoveAndFinish, Close, BeginUnwind;
    MoveGrows(w, t, id, Failed, true);
    MoveThenUnwindGrows(w, t, id, RefundWait, CancelLeaf, true);
    SimpleGrows(w, t, Sending(id, Confirming(o, if reply.PaidReply? then reply.preimage else "")), id, true, o);
    CloseGrows(See(w, o), t, id, Claimed, true, o);
    GrowsFurther(w, See(w, o), Close(See(w, o), t, id, Claimed, true, o), {});
    var v := KeepPreimage(w, id, Some(preimage));
    ColumnsGrow(w, id, o, Some(preimage));
    SimpleGrows(v, t, Sending(id, Locating), id, true, o);
    GrowsFurther(w, v, Finish(v, t, id, true), {});
  }

  lemma EarlyStagesGrow(w: World, t: TaskId, id: SwapId, ok: bool, found: Option<Outpoint>)
    requires id in w.files
    ensures Grows(w, StepFundingDone(w, t, id, ok), {}) && Grows(w, StepLocate(w, t, id, found), {})
  {
    hide Grows, Record, Finish, Goto;
    var o := found.GetOr(Outpoint("", 0));
    SimpleGrows(w, t, Sending(id, Locating), id, true, o);
    SimpleGrows(w, t, Recovering(id, w.files[id].row, w.now, true), id, true, o);
    ColumnsGrow(w, id, o, None);
    SimpleGrows(Record(w, id, o), t, Sending(id, Located(o)), id, true, o);
    GrowsFurther(w, Record(w, id, o), Goto(Record(w, id, o), t, Sending(id, Located(o))), {});
  }

  lemma SignClaimGrows(w: World, t: TaskId, id: SwapId, o: Outpoint)
    requires id in w.files
    ensures Grows(w, StepSignClaim(w, t, id, o), {})
  {
    hide ClaimSplit.SplitOf, SplitArgs;
  }

  lemma SendStepGrows(w: World, t: TaskId, k: Task, a: Answer)
    requires k.Sending? && k.id in w.files
    ensures Grows(w, SendStep(w, t, k, a), {})
  {
    hide Grows, StepHandOver, StepBoltzReplies, StepConfirmLive, StepFundingDone, StepLocate, StepSignClaim;
    SimpleGrows(w, t, k, k.id, true, Outpoint("", 0));
    match (k.stage, a)
    case (FundingSent, FundingDone(ok)) => EarlyStagesGrow(w, t, k.id, ok, None);
    case (Locating, LocateAnswer(found)) => EarlyStagesGrow(w, t, k.id, true, found);
    case (Located(o), SignClaim) => SignClaimGrows(w, t, k.id, o);
    case (Presigned(s), HandOver) => HandOverGrows(w, t, k.id, s);
    case (AwaitingBoltz(o), BoltzReplies(reply)) => RepliesGrow(w, t, k.id, o, "", reply, true);
    case (Confirming(o, preimage), ConfirmAnswer(spent)) => RepliesGrow(w, t, k.id, o, preimage, NoReply, spent);
    case _ =>
  }

  lemma UnwindRegisteredGrows(w: World, t: TaskId, k: Task)
    requires k.Unwinding? && k.id in w.files
    ensures Grows(w, UnwindRegistered(w, t, k), {})
  {
    hide Move, Close, Grows;
    SimpleGrows(w, t, k, k.id, k.live, k.input);
    CloseGrows(w, t, k.id, Cancelled, k.live, k.input);
    CloseGrows(w, t, k.id, Refunded, k.live, k.input);
    MoveThenUnwindGrows(w, t, k.id, RefundWait, k.leaf, k.live);
  }

  lemma UnwindCheckGrows(w: World, t: TaskId, k: Task, spent: bool)
    requires k.Unwinding? && k.stepAt.Checking? && k.id in w.files
    ensures Grows(w, StepUnwindCheck(w, t, k, spent), {})
  {
    hide Grows, UnwindRegistered;
    var v := See(w, k.input);
    SimpleGrows(w, t, k.(stepAt := Ready(k.stepAt.value, k.stepAt.dust, k.stepAt.k + 1)), k.id, k.live, k.input);
    UnwindRegisteredGrows(v, t, k);
    GrowsFurther(w, v, UnwindRegistered(v, t, k), {});
  }

  lemma LookupGrows(w: World, t: TaskId, k: Task, coin: Option<(nat, nat)>, mtpSeen: Option<int>)
    requires k.Unwinding? && k.id in w.files
    ensures Grows(w, StepCoinLookup(w, t, k, coin, mtpSeen), {})
  {
    hide Grows;
    var (value, dust) := coin.GetOr((0, 0));
    SimpleGrows(w, t, k.(stepAt := Ready(value, dust, 0)), k.id, k.live, k.input);
  }

  lemma UnwindSignGrows(w: World, t: TaskId, k: Task)
    requires k.Unwinding? && k.stepAt.Ready? && k.id in w.files && k.stepAt.k < Unwind.AttemptCount(k.stepAt.value, k.stepAt.dust)
    ensures Grows(w, StepUnwindSign(w, t, k), {})
  {
    hide UnwindSpend, Unwind.AttemptCount;
  }

  lemma UnwindAnswerGrows(w: World, t: TaskId, k: Task, accepted: bool)
    requires k.Unwinding? && k.stepAt.Sent?
    ensures Grows(w, StepUnwindAnswer(w, t, k, accepted), {})
  {
    hide Grows;
    SimpleGrows(w, t, k.(stepAt := Checking(k.stepAt.value, k.stepAt.dust, k.stepAt.k)), k.id, k.live, k.input);
  }

  /** The lookup, a signature, an answer: nothing but the process and the signatures move. */
  lemma UnwindMovesGrow(w: World, t: TaskId, k: Task, a: Answer)
    requires k.Unwinding? && k.id in w.files
    ensures k.stepAt.Looking? && a.CoinAnswer? ==> Grows(w, StepCoinLookup(w, t, k, a.coin, a.mtpSeen), {})
    ensures k.stepAt.Ready? && k.stepAt.k < Unwind.AttemptCount(k.stepAt.value, k.stepAt.dust) ==> Grows(w, StepUnwindSign(w, t, k), {})
    ensures k.stepAt.Sent? && a.SubmitAnswer? ==> Grows(w, StepUnwindAnswer(w, t, k, a.accepted), {})
  {
    hide Grows, StepCoinLookup, StepUnwindSign, StepUnwindAnswer, Unwind.AttemptCount;
    if k.stepAt.Looking? && a.CoinAnswer? {
      LookupGrows(w, t, k, a.coin, a.mtpSeen);
    }
    if k.stepAt.Ready? && k.stepAt.k < Unwind.AttemptCount(k.stepAt.value, k.stepAt.dust) {
      UnwindSignGrows(w, t, k);
    }
    if k.stepAt.Sent? && a.SubmitAnswer? {
      UnwindAnswerGrows(w, t, k, a.accepted);
    }
  }

  lemma UnwindStepGrows(w: World, t: TaskId, k: Task, a: Answer)
    requires k.Unwinding? && k.id in w.files
    ensures Grows(w, UnwindStep(w, t, k, a), {})
  {
    hide StepUnwindCheck, UnwindSpend, Unwind.AttemptCount, Grows;
    UnwindMovesGrow(w, t, k, a);
    SimpleGrows(w, t, k, k.id, k.live, k.input);
    if k.stepAt.Checking? && a.RegisteredAnswer? {
      UnwindCheckGrows(w, t, k, a.spent);
    }
  }

  lemma RecoverGrows(w: World, t: TaskId, k: Task, read: ScriptRead)
    requires k.Recovering? && k.id in w.files
    ensures Grows(w, StepRecoverRead(w, t, k, read), {})
  {
    hide Grows, MoveAndFinish;
    SimpleGrows(w, t, k, k.id, k.live, Outpoint("", 0));
    MoveGrows(w, t, k.id, Failed, k.live);
    match read
    case SpendableAt(o) =>
      ColumnsGrow(w, k.id, o, None);
      MoveGrows(Record(w, k.id, o), t, k.id, Funded, k.live);
      GrowsFurther(w, Record(w, k.id, o), MoveAndFinish(Record(w, k.id, o), t, k.id, Funded, k.live), {});
    case _ =>
  }

  /** The write of markClaimed that no indexer read precedes: boltz says claimed, the row's
      snapshot has no outpoint to ask about, and by now the row may be claimed. */
  predicate WritesBlind(w: World, k: Task, status: Status)
    requires k.AskingStatus? && k.id in w.files
  {
    && status.SaysClaimed? && (k.post ==> k.snap.state != RefundWait)
    && k.snap.fundingOutpoint.None?
    && ClaimedFile(w.files[k.id], w.now).Some?
  }

  lemma StatusGrows(w: World, t: TaskId, k: Task, status: Status, stuck: bool)
    requires k.AskingStatus? && k.id in w.files
    ensures Grows(w, StepStatusAnswer(w, t, k, status, stuck), Marks(k.id, WritesBlind(w, k, status)))
    ensures WritesBlind(w, k, status) ==> StepStatusAnswer(w, t, k, status, stuck).files[k.id].blind
  {
    hide Grows, Move, BeginUnwind, WriteClaimed, ClaimedFile;
    var preimage := if status.SaysClaimed? then status.preimage else None;
    SimpleGrows(w, t, k, k.id, false, Outpoint("", 0));
    BeginUnwindGrows(w, t, k.id, RefundLeaf, false);
    BeginUnwindGrows(w, t, k.id, CancelLeaf, false);
    MoveThenUnwindGrows(w, t, k.id, RefundWait, CancelLeaf, false);
    WriteClaimedGrows(w, t, k.id, preimage, None);
    if ClaimedFile(w.files[k.id], w.now).Some? {
      WriteClaimedMarks(w, t, k.id, preimage);
    }
    if k.snap.fundingOutpoint.Some? {
      SimpleGrows(w, t, ConfirmingClaim(k.id, k.snap.fundingOutpoint.value, preimage, k.post), k.id, false, Outpoint("", 0));
    }
  }

  lemma ConfirmPassGrows(w: World, t: TaskId, k: Task, spent: bool)
    requires k.ConfirmingClaim? && k.id in w.files
    ensures Grows(w, StepConfirmPass(w, t, k, spent), {})
  {
    hide Grows, BeginUnwind, WriteClaimed;
    var seen := See(w, k.input);
    SimpleGrows(w, t, k, k.id, false, k.input);
    WriteClaimedGrows(seen, t, k.id, k.preimage, Some(k.input));
    GrowsFurther(w, seen, WriteClaimed(seen, t, k.id, k.preimage, Some(k.input)), {});
    var v := KeepPreimage(w, k.id, k.preimage);
    ColumnsGrow(w, k.id, k.input, k.preimage);
    BeginUnwindGrows(v, t, k.id, RefundLeaf, false);
    SimpleGrows(v, t, k, k.id, false, k.input);
    GrowsFurther(w, v, BeginUnwind(v, t, k.id, RefundLeaf, false), {});
    GrowsFurther(w, v, Finish(v, t, k.id, false), {});
  }

  function PassMarks(w: World, k: Task, a: Answer): set<SwapId>
    requires k.id in w.files
  {
    if k.AskingStatus? && a.StatusAnswer? then Marks(k.id, WritesBlind(w, k, a.status)) else {}
  }

  lemma PassStepGrows(w: World, t: TaskId, k: Task, a: Answer)
    requires !k.Sending? && !k.Unwinding? && k.id in w.files
    ensures Grows(w, PassStep(w, t, k, a), PassMarks(w, k, a))
    ensures k.id in PassMarks(w, k, a) ==> PassStep(w, t, k, a).files[k.id].blind
  {
    hide Grows, BeginUnwind, StepRecoverRead, StepStatusAnswer, StepConfirmPass, ClassifyResume, WritesBlind;
    SimpleGrows(w, t, k, k.id, false, Outpoint("", 0));
    match (k, a)
    case (Item(_, snap, at), PrePass) => SimpleGrows(w, t, Recovering(k.id, snap, at, false), k.id, false, Outpoint("", 0));
    case (Item(_, snap, _), MainPass) =>
      BeginUnwindGrows(w, t, k.id, CancelLeaf, false);
      SimpleGrows(w, t, AskingStatus(k.id, snap, true), k.id, false, Outpoint("", 0));
      SimpleGrows(w, t, AskingStatus(k.id, snap, false), k.id, false, Outpoint("", 0));
    case (Recovering(_, _, _, _), RecoverAnswer(read)) => RecoverGrows(w, t, k, read);
    case (AskingStatus(_, _, _), StatusAnswer(status, stuck)) => StatusGrows(w, t, k, status, stuck);
    case (ConfirmingClaim(_, _, _, _), ConfirmAnswer(spent)) => ConfirmPassGrows(w, t, k, spent);
    case _ =>
  }

  lemma LandGrows(w: World, s: Spend)
    requires CanLand(w, s)
    ensures Grows(w, Land(w, s), {})
  {
    assert w.coins[s.input].spentBy.None?;
    hide CanLand;
  }

  lemma OutsideGrows(w: World, h: Happening)
    ensures Grows(w, OutsideStep(w, h), {})
  {
    hide Grows, CanLand, Land, ExitPaysUs, ScriptOf;
    SimpleGrows(w, 0, Sending("", Locating), "", false, Outpoint("", 0));
    match h
    case ClockTicks(now, mtp) => MemoryGrows(w, now, mtp);
    case CoinAppears(o, script, value) =>
      if o !in w.coins {
        CoinGrows(w, o, Coin(script, value, None, None));
      }
    case Unrolled(o) =>
      if o in w.coins {
        CoinGrows(w, o, w.coins[o].(unrolledAt := Some(w.mtp)));
      }
    case SpendLands(s) =>
      if CanLand(w, s) {
        LandGrows(w, s);
      }
    case ExitSigned(id, o, outs) =>
      if id in w.files {
        SignatureGrows(w, id, Spend(o, ScriptOf(w, w.files[id].row), UexitLeaf, outs));
      }
    case Crash => MemoryGrows(w, w.now, w.mtp);
  }

  lemma MemoryGrows(w: World, now: int, mtp: int)
    ensures Grows(w, w.(now := now, mtp := mtp), {}) && Grows(w, w.(tasks := map[], inflight := {}), {})
  {
  }

  lemma CoinGrows(w: World, o: Outpoint, c: Coin)
    requires o in w.coins ==> CoinLater(w.coins[o], c)
    ensures Grows(w, w.(coins := w.coins[o := c]), {})
  {
  }

  lemma SignatureGrows(w: World, id: SwapId, s: Spend)
    ensures Grows(w, Sign(w, id, s), {})
  {
  }

  lemma FreeId(w: World, id: SwapId, hash: Hash)
    requires !Taken(RowsOf(w), id, hash)
    ensures id !in w.files
  {
    assert id in w.files ==> id in RowsOf(w);
  }

  lemma StartSendGrows(w: World, t: TaskId, o: Order)
    requires t !in w.tasks
    ensures Grows(w, StepStartSend(w, t, o), {})
  {
    hide Accepts, NewRow, ScriptOf, Taken;
    SimpleGrows(w, t, Sending("", Locating), o.id, true, Outpoint("", 0));
    if Accepts(w, o) && !Taken(RowsOf(w), o.id, o.paymentHash) {
      FreeId(w, o.id, o.paymentHash);
    }
  }

  /** The swap a step marks blind, if it marks one. */
  function MarkedBy(w: World, e: Event): set<SwapId> {
    if e.Continue? && e.t in w.tasks && w.tasks[e.t].id in w.files then PassMarks(w, w.tasks[e.t], e.answer) else {}
  }

  lemma StepGrows(w: World, e: Event)
    ensures Grows(w, Step(w, e), MarkedBy(w, e))
    ensures forall id :: id in MarkedBy(w, e) ==> id in Step(w, e).files && Step(w, e).files[id].blind
  {
    hide Grows, SendStep, UnwindStep, PassStep, BeginUnwind, OutsideStep, StepStartSend, WritesBlind;
    SimpleGrows(w, 0, Sending("", Locating), "", false, Outpoint("", 0));
    match e
    case Outside(h) => OutsideGrows(w, h);
    case StartSend(t, order) =>
      if t !in w.tasks {
        StartSendGrows(w, t, order);
      }
    case TakeSnapshot(t, id, at) =>
      if id in w.files {
        SimpleGrows(w, t, Item(id, w.files[id].row, at), id, false, Outpoint("", 0));
      }
    case RefundPressed(t, id) =>
      if id in w.files {
        BeginUnwindGrows(w, t, id, RefundLeaf, false);
      }
    case Continue(t, a) =>
      if t in w.tasks && w.tasks[t].id in w.files {
        var k := w.tasks[t];
        SimpleGrows(w, t, k, k.id, InLiveSend(k), Outpoint("", 0));
        match k
        case Sending(_, _) => SendStepGrows(w, t, k, a);
        case Unwinding(_, _, _, _, _, _) => UnwindStepGrows(w, t, k, a);
        case _ =>
          PassStepGrows(w, t, k, a);
          SwapsStay(w, PassStep(w, t, k, a), PassMarks(w, k, a));
      }
  }

  lemma SwapsStay(w: World, v: World, marks: set<SwapId>)
    requires Grows(w, v, marks)
    ensures w.files.Keys <= v.files.Keys
  {
  }

  /** The swaps a run marks blind. */
  function MarkedIn(w: World, es: seq<Event>): set<SwapId>
    decreases |es|
  {
    if es == [] then {} else MarkedBy(w, es[0]) + MarkedIn(Step(w, es[0]), es[1..])
  }

  lemma {:induction false} RunGrows(w: World, es: seq<Event>)
    ensures Grows(w, Run(w, es), MarkedIn(w, es))
    decreases |es|
  {
    hide Grows, Step, MarkedBy;
    if es == [] {
      SimpleGrows(w, 0, Sending("", Locating), "", false, Outpoint("", 0));
    } else {
      var v := Step(w, es[0]);
      StepGrows(w, es[0]);
      RunGrows(v, es[1..]);
      GrowsWith(w, v, MarkedBy(w, es[0]), MarkedIn(w, es));
      GrowsWith(v, Run(v, es[1..]), MarkedIn(v, es[1..]), MarkedIn(w, es));
      GrowsFurther(w, v, Run(w, es), MarkedIn(w, es));
    }
  }
}
