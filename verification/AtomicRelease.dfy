/** When the sends let go of exit material: never before the outpoint it belongs to was shown
    spent; and what that means for the rows of the exit vault. */
module AtomicRelease {
  import opened Wrappers
  import opened SwapState
  import opened SharedScript
  import opened SwapRepository
  import opened AtomicSend
  import opened AtomicSafety
  import AtomicHistory
  import ClaimSplit
  import ProofSync
  import Unwind
  import Vault
  import VaultTheorems

  // ---- one step ------------------------------------------------------------------------------

  predicate Ending(s: State) {
    s == Claimed || s == Refunded || s == Cancelled
  }

  /** From `f` to `g` a swap ended, with evidence. */
  predicate Ends(f: File, g: File) {
    g.row.state != f.row.state && Ending(g.row.state) && g.blind == f.blind
  }

  /** The step let go of an outpoint of swap `id`, one that is shown spent, if it ended the swap
      with evidence, and of nothing otherwise. */
  ghost predicate Fits(w: World, v: World, id: SwapId) {
    && id in w.files && id in v.files
    && if Ends(w.files[id], v.files[id])
       then exists o :: o in v.files[id].recorded && o in v.gone && v.released == w.released + {o}
       else v.released == w.released
  }

  lemma QuietFits(w: World, v: World, id: SwapId)
    requires id in w.files && id in v.files && v.released == w.released
    requires v.files[id].row.state == w.files[id].row.state || !Ending(v.files[id].row.state)
    ensures Fits(w, v, id)
  {
  }

  /** A transition that ends no swap, thrown or not. */
  lemma MoveIsQuiet(w: World, t: TaskId, id: SwapId, to: State, live: bool)
    requires id in w.files
    ensures Move(w, id, to).Some? ==> var v := Move(w, id, to).value; id in v.files && v.released == w.released && v.files[id].row.state == to
    ensures var v := MoveAndFinish(w, t, id, to, live);
      id in v.files && v.released == w.released && (v.files[id].row.state == w.files[id].row.state || v.files[id].row.state == to)
  {
    hide CanTransition;
  }

  lemma MoveFits(w: World, t: TaskId, id: SwapId, to: State, live: bool)
    requires id in w.files && !Ending(to)
    ensures Fits(w, MoveAndFinish(w, t, id, to, live), id)
  {
    hide Fits, MoveAndFinish;
    MoveIsQuiet(w, t, id, to, live);
    QuietFits(w, MoveAndFinish(w, t, id, to, live), id);
  }

  lemma BeginFits(w: World, t: TaskId, id: SwapId, leaf: Leaf, live: bool)
    requires id in w.files
    ensures Fits(w, BeginUnwind(w, t, id, leaf, live), id)
  {
  }

  lemma BeginIsQuiet(w: World, t: TaskId, id: SwapId, leaf: Leaf, live: bool)
    requires id in w.files
    ensures BeginUnwind(w, t, id, leaf, live).files == w.files && BeginUnwind(w, t, id, leaf, live).released == w.released
  {
  }

  lemma MovedBeginFits(w: World, t: TaskId, id: SwapId, leaf: Leaf, live: bool)
    requires id in w.files && Move(w, id, RefundWait).Some?
    ensures Fits(w, BeginUnwind(Move(w, id, RefundWait).value, t, id, leaf, live), id)
  {
  }

  lemma EndedFits(w: World, v: World, id: SwapId, o: Outpoint)
    requires id in w.files && id in v.files && Ends(w.files[id], v.files[id])
    requires o in v.files[id].recorded && o in v.gone && v.released == w.released + {o}
    ensures Fits(w, v, id)
  {
  }

  /** `w` is the world before the read that showed `o` spent, `u` where the closing starts. */
  lemma CloseFits(w: World, u: World, t: TaskId, id: SwapId, to: State, live: bool, o: Outpoint)
    requires id in w.files && id in u.files && u.released == w.released && o in u.gone && o in u.files[id].recorded && Ending(to)
    requires w.files[id].row.state == u.files[id].row.state || (!Ending(w.files[id].row.state) && !Ending(u.files[id].row.state))
    requires w.files[id].blind == u.files[id].blind && u.files[id].row.direction == Send
    ensures Fits(w, Close(u, t, id, to, live, o), id)
  {
    hide Fits;
    var v := Close(u, t, id, to, live, o);
    if Legal(Send, u.files[id].row.state, to) {
      assert !Ending(u.files[id].row.state);
      EndedFits(w, v, id, o);
    } else {
      QuietFits(w, v, id);
    }
  }

  lemma ClaimedFileIs(f: File, now: int)
    requires f.row.direction == Send
    ensures ClaimedFile(f, now).Some? ==> !Ending(f.row.state)
    ensures ClaimedFile(f, now).Some? ==> var g := ClaimedFile(f, now).value;
      g.row.state == Claimed && g.recorded == f.recorded && g.blind == f.blind
  {
  }

  lemma ClaimFits(w: World, u: World, t: TaskId, id: SwapId, preimage: Option<string>, confirmed: Option<Outpoint>)
    requires id in w.files && u.files == w.files && u.released == w.released && (w.files[id].blind ==> w.files[id].row.state == Claimed)
    requires w.files[id].row.direction == Send && (confirmed.Some? ==> confirmed.value in u.gone && confirmed.value in w.files[id].recorded)
    ensures Fits(w, WriteClaimed(u, t, id, preimage, confirmed), id)
  {
    ClaimedFileIs(w.files[id], u.now);
    hide Fits, ClaimedFile;
    var v := WriteClaimed(u, t, id, preimage, confirmed);
    if ClaimedFile(u.files[id], u.now).None? {
      QuietFits(w, v, id);
    } else if confirmed.Some? {
      EndedFits(w, v, id, confirmed.value);
    } else {
      BlindFits(w, v, id);
    }
  }

  lemma BlindFits(w: World, v: World, id: SwapId)
    requires id in w.files && id in v.files && v.released == w.released && v.files[id].blind && !w.files[id].blind
    ensures Fits(w, v, id)
  {
  }

  /** What the invariant says about the swap of a task under way. */
  ghost predicate Tracked(w: World, k: Task) {
    && k.id in w.files
    && var f := w.files[k.id];
       && f.row.direction == Send && (f.blind ==> f.row.state == Claimed)
       && (k.Sending? && k.stage.Confirming? ==> k.stage.input in f.recorded)
       && (k.ConfirmingClaim? || k.Unwinding? ==> k.input in f.recorded)
  }

  lemma RunsIsTracked(w: World, t: TaskId, k: Task)
    requires Runs(w, t, k)
    ensures Tracked(w, k)
  {
    FileOf(w, k.id);
    hide TermsOk, FilesOk, TasksOk, SignaturesOk, CoinsOk, GoneOk;
  }

  // ---- every step of a swap --------------------------------------------------------------------

  lemma HandOverFits(w: World, t: TaskId, id: SwapId, s: Spend)
    requires id in w.files
    ensures Fits(w, StepHandOver(w, t, id, s), id)
  {
    hide Fits, Finish, Goto;
    var v := StepHandOver(w, t, id, s);
    HandOverIsQuiet(w, t, id, s);
    QuietFits(w, v, id);
  }

  lemma HandOverIsQuiet(w: World, t: TaskId, id: SwapId, s: Spend)
    requires id in w.files
    ensures var v := StepHandOver(w, t, id, s);
      id in v.files && v.released == w.released && (v.files[id].row.state == w.files[id].row.state || !Ending(v.files[id].row.state))
  {
    hide Move;
    var w0 := Put(w, id, w.files[id].(row := WithPresigs(w.files[id].row, s, w.now * 1000)));
    MoveIsQuiet(w0, t, id, Funded, true);
    if Move(w0, id, Funded).Some? {
      MoveIsQuiet(Move(w0, id, Funded).value, t, id, LnInflight, true);
    }
  }

  lemma SignClaimFits(w: World, t: TaskId, id: SwapId, o: Outpoint)
    requires id in w.files
    ensures Fits(w, StepSignClaim(w, t, id, o), id)
  {
    hide Fits, ClaimSplit.SplitOf, SplitArgs;
    QuietFits(w, StepSignClaim(w, t, id, o), id);
  }

  lemma EarlyFits(w: World, t: TaskId, id: SwapId, ok: bool, found: Option<Outpoint>)
    requires id in w.files
    ensures Fits(w, StepFundingDone(w, t, id, ok), id) && Fits(w, StepLocate(w, t, id, found), id)
  {
    hide Fits;
    QuietFits(w, StepFundingDone(w, t, id, ok), id);
    QuietFits(w, StepLocate(w, t, id, found), id);
  }

  lemma RepliesFit(w: World, t: TaskId, id: SwapId, o: Outpoint, reply: FundReply)
    requires id in w.files
    ensures Fits(w, StepBoltzReplies(w, t, id, o, reply), id)
  {
    hide Fits, BeginUnwind, MoveAndFinish, Move;
    MoveFits(w, t, id, Failed, true);
    match reply
    case NoReply => QuietFits(w, Finish(w, t, id, true), id);
    case PaidReply(p) => QuietFits(w, Goto(w, t, Sending(id, Confirming(o, p))), id);
    case FailedReply =>
      QuietFits(w, Finish(w, t, id, true), id);
      if Move(w, id, RefundWait).Some? {
        MovedBeginFits(w, t, id, CancelLeaf, true);
      }
    case OtherReply =>
  }

  lemma ConfirmFits(w: World, t: TaskId, id: SwapId, o: Outpoint, preimage: string, spent: bool)
    requires id in w.files && w.files[id].row.direction == Send && o in w.files[id].recorded
    ensures Fits(w, StepConfirmLive(w, t, id, o, preimage, spent), id)
  {
    hide Fits, Close;
    CloseFits(w, See(w, o), t, id, Claimed, true, o);
    QuietFits(w, Finish(KeepPreimage(w, id, Some(preimage)), t, id, true), id);
  }

  lemma SendFits(w: World, t: TaskId, k: Task, a: Answer)
    requires Tracked(w, k) && k.Sending?
    ensures Fits(w, SendStep(w, t, k, a), k.id)
  {
    hide Fits, StepFundingDone, StepLocate, StepSignClaim, StepHandOver, StepBoltzReplies, StepConfirmLive;
    QuietFits(w, w, k.id);
    match (k.stage, a)
    case (FundingSent, FundingDone(ok)) => EarlyFits(w, t, k.id, ok, None);
    case (Locating, LocateAnswer(found)) => EarlyFits(w, t, k.id, true, found);
    case (Located(o), SignClaim) => SignClaimFits(w, t, k.id, o);
    case (Presigned(s), HandOver) => HandOverFits(w, t, k.id, s);
    case (AwaitingBoltz(o), BoltzReplies(reply)) => RepliesFit(w, t, k.id, o, reply);
    case (Confirming(o, p), ConfirmAnswer(spent)) => ConfirmFits(w, t, k.id, o, p, spent);
    case _ =>
  }

  lemma RegisteredFits(w: World, u: World, t: TaskId, k: Task)
    requires k.Unwinding? && k.id in w.files && u == See(w, k.input) && w.files[k.id].row.direction == Send && k.input in w.files[k.id].recorded
    ensures Fits(w, UnwindRegistered(u, t, k), k.id)
  {
    hide Fits, Close;
    CloseFits(w, u, t, k.id, Cancelled, k.live, k.input);
    CloseFits(w, u, t, k.id, Refunded, k.live, k.input);
    match Move(u, k.id, RefundWait)
    case None => QuietFits(w, Finish(u, t, k.id, k.live), k.id);
    case Some(m) =>
      assert Legal(Send, w.files[k.id].row.state, RefundWait);
      CloseFits(w, m, t, k.id, Refunded, k.live, k.input);
  }

  lemma UnwindFits(w: World, t: TaskId, k: Task, a: Answer)
    requires Tracked(w, k) && k.Unwinding?
    ensures Fits(w, UnwindStep(w, t, k, a), k.id)
  {
    hide Fits, UnwindRegistered, Unwind.Attempts, Unwind.AttemptCount;
    QuietFits(w, w, k.id);
    match (k.stepAt, a)
    case (Looking, CoinAnswer(coin, mtpSeen)) => QuietFits(w, StepCoinLookup(w, t, k, coin, mtpSeen), k.id);
    case (Ready(value, dust, n), UnwindSign) =>
      if n < Unwind.AttemptCount(value, dust) {
        QuietFits(w, StepUnwindSign(w, t, k), k.id);
      }
    case (Sent(_, _, _), SubmitAnswer(accepted)) => QuietFits(w, StepUnwindAnswer(w, t, k, accepted), k.id);
    case (Checking(_, _, _), RegisteredAnswer(spent)) =>
      if spent {
        RegisteredFits(w, See(w, k.input), t, k);
      } else {
        QuietFits(w, StepUnwindCheck(w, t, k, false), k.id);
      }
    case _ =>
  }

  lemma StatusFits(w: World, t: TaskId, k: Task, status: Status, stuck: bool)
    requires Tracked(w, k) && k.AskingStatus?
    ensures Fits(w, StepStatusAnswer(w, t, k, status, stuck), k.id)
  {
    var p := if status.SaysClaimed? then status.preimage else None;
    var o := k.snap.fundingOutpoint.GetOr(Outpoint("", 0));
    ClaimFits(w, w, t, k.id, p, None);
    hide Fits, WriteClaimed, BeginUnwind, Move;
    BeginFits(w, t, k.id, RefundLeaf, false);
    BeginFits(w, t, k.id, CancelLeaf, false);
    QuietFits(w, Finish(w, t, k.id, false), k.id);
    QuietFits(w, Goto(w, t, ConfirmingClaim(k.id, o, p, k.post)), k.id);
    if Move(w, k.id, RefundWait).Some? {
      MovedBeginFits(w, t, k.id, CancelLeaf, false);
    }
  }

  lemma ConfirmPassFits(w: World, t: TaskId, k: Task, spent: bool)
    requires Tracked(w, k) && k.ConfirmingClaim?
    ensures Fits(w, StepConfirmPass(w, t, k, spent), k.id)
  {
    hide Fits, WriteClaimed, BeginUnwind;
    if spent {
      ClaimFits(w, See(w, k.input), t, k.id, k.preimage, Some(k.input));
    } else {
      var kept := KeepPreimage(w, k.id, k.preimage);
      QuietFits(w, Finish(kept, t, k.id, false), k.id);
      BeginIsQuiet(kept, t, k.id, RefundLeaf, false);
      QuietFits(w, BeginUnwind(kept, t, k.id, RefundLeaf, false), k.id);
    }
  }

  lemma RecoverFits(w: World, t: TaskId, k: Task, read: ScriptRead)
    requires k.Recovering? && k.id in w.files
    ensures Fits(w, StepRecoverRead(w, t, k, read), k.id)
  {
    hide Fits, MoveAndFinish;
    QuietFits(w, Finish(w, t, k.id, k.live), k.id);
    MoveFits(w, t, k.id, Failed, k.live);
    if read.SpendableAt? {
      var v := Record(w, k.id, read.input);
      MoveIsQuiet(v, t, k.id, Funded, k.live);
      QuietFits(w, MoveAndFinish(v, t, k.id, Funded, k.live), k.id);
    }
  }

  lemma PassFits(w: World, t: TaskId, k: Task, a: Answer)
    requires Tracked(w, k) && !k.Sending? && !k.Unwinding?
    ensures Fits(w, PassStep(w, t, k, a), k.id)
  {
    hide Fits, BeginUnwind, StepRecoverRead, StepStatusAnswer, StepConfirmPass, ClassifyResume;
    QuietFits(w, w, k.id);
    match (k, a)
    case (Item(_, _, _), PrePass) => QuietFits(w, StepPrePass(w, t, k), k.id);
    case (Item(_, _, _), MainPass) =>
      BeginFits(w, t, k.id, CancelLeaf, false);
      QuietFits(w, Finish(w, t, k.id, false), k.id);
      QuietFits(w, Goto(w, t, AskingStatus(k.id, k.snap, true)), k.id);
      QuietFits(w, Goto(w, t, AskingStatus(k.id, k.snap, false)), k.id);
    case (Recovering(_, _, _, _), RecoverAnswer(read)) => RecoverFits(w, t, k, read);
    case (AskingStatus(_, _, _), StatusAnswer(status, stuck)) => StatusFits(w, t, k, status, stuck);
    case (ConfirmingClaim(_, _, _, _), ConfirmAnswer(spent)) => ConfirmPassFits(w, t, k, spent);
    case _ =>
  }

  // ---- what follows ------------------------------------------------------------------------------

  /** In every reachable state: a step of a task lets go of exit material exactly when it ends
      its swap with evidence, and then of one outpoint of that swap, shown spent; nothing else
      that happens lets go of any. */
  lemma LetsGoExactlyWhen(us: Key, server: Key, honest: bool, es: seq<Event>, e: Event)
    ensures var w := Run(Start(us, server, honest), es);
      var v := Step(w, e);
      if e.Continue? && e.t in w.tasks then Fits(w, v, w.tasks[e.t].id) else v.released == w.released
  {
    var w := Run(Start(us, server, honest), es);
    StartOk(us, server, honest);
    RunKeeps(Start(us, server, honest), es);
    if e.Continue? && e.t in w.tasks {
      TaskRuns(w, e.t);
      TaskFits(w, e.t, w.tasks[e.t], e.answer);
    } else {
      hide Inv, Run, Start, Accepts, CanLand, Land, ExitPaysUs, BeginUnwind;
      OthersLetNothingGo(w, e);
    }
  }

  lemma TaskRuns(w: World, t: TaskId)
    requires Inv(w) && t in w.tasks
    ensures Runs(w, t, w.tasks[t])
  {
    hide FilesOk, SignaturesOk, CoinsOk, GoneOk;
  }

  lemma TaskFits(w: World, t: TaskId, k: Task, a: Answer)
    requires Runs(w, t, k)
    ensures Fits(w, Step(w, Continue(t, a)), k.id)
  {
    hide *;
    RunsIsTracked(w, t, k);
    StepIsTaskStep(w, t, k, a);
    TaskStepFits(w, t, k, a);
  }

  lemma StepIsTaskStep(w: World, t: TaskId, k: Task, a: Answer)
    requires Runs(w, t, k)
    ensures k.id in w.files && Step(w, Continue(t, a)) == TaskStep(w, t, k, a)
  {
    hide TaskStep, Inv, TaskOk;
  }

  lemma TaskStepFits(w: World, t: TaskId, k: Task, a: Answer)
    requires Tracked(w, k)
    ensures Fits(w, TaskStep(w, t, k, a), k.id)
  {
    hide Fits, SendStep, UnwindStep, PassStep;
    QuietFits(w, Finish(w, t, k.id, InLiveSend(k)), k.id);
    match k
    case Sending(_, _) => SendFits(w, t, k, a);
    case Unwinding(_, _, _, _, _, _) => UnwindFits(w, t, k, a);
    case _ => PassFits(w, t, k, a);
  }

  lemma OthersLetNothingGo(w: World, e: Event)
    requires !(e.Continue? && e.t in w.tasks)
    ensures Step(w, e).released == w.released
  {
    hide CanLand, Accepts, Taken, ExitPaysUs;
  }

  /** A claim written without a look at the indexer lets nothing go. */
  lemma BlindClaimsLetNothingGo(us: Key, server: Key, honest: bool, es: seq<Event>, e: Event)
    requires AtomicHistory.MarkedBy(Run(Start(us, server, honest), es), e) != {}
    ensures var w := Run(Start(us, server, honest), es);
      Step(w, e).released == w.released
  {
    var w := Run(Start(us, server, honest), es);
    LetsGoExactlyWhen(us, server, honest, es, e);
    StartOk(us, server, honest);
    RunKeeps(Start(us, server, honest), es);
    AtomicHistory.StepGrows(w, e);
    var id :| id in AtomicHistory.MarkedBy(w, e);
    FileOf(w, id);
    hide Inv, Run, Start, Step, AtomicHistory.Grows, TermsOk;
    NotYetBlind(w, e, id);
  }

  lemma NotYetBlind(w: World, e: Event, id: SwapId)
    requires id in AtomicHistory.MarkedBy(w, e) && id in w.files && StateOk(w.files[id], w.gone)
    ensures e.Continue? && e.t in w.tasks && w.tasks[e.t].id == id && !w.files[id].blind
  {
    ClaimedFileIs(w.files[id], w.now);
    hide ClaimedFile;
  }

  /** Over every run: exit material is let go only for an outpoint an indexer answer has shown
      spent; with a truthful indexer it is spent in the ledger. */
  lemma ReleasedWereSpent(us: Key, server: Key, honest: bool, es: seq<Event>, o: Outpoint)
    requires o in Run(Start(us, server, honest), es).released
    ensures var w := Run(Start(us, server, honest), es);
      o in w.gone && (honest ==> IsSpent(w, o))
  {
    var w := Run(Start(us, server, honest), es);
    StartOk(us, server, honest);
    RunKeeps(Start(us, server, honest), es);
    AtomicHistory.RunGrows(Start(us, server, honest), es);
    hide Run, FilesOk, TasksOk, SignaturesOk, CoinsOk;
  }

  /** The two halves together. Take any run of the exit vault whose releases are those of a run
      of the sends: a row captured for an atomic swap that is no longer there was swept by an
      exit of our own, or its outpoint was shown spent, and with a truthful indexer is spent. */
  lemma AtomicRowsOutlastTheirOutputs(us: Key, server: Key, honest: bool, es: seq<Event>, net: ProofSync.Net,
                                      steps: seq<VaultTheorems.VaultStep>, at: seq<nat>, ds: seq<VaultTheorems.Done>, ts: seq<Vault.Tables>,
                                      i: nat, j: nat, o: Outpoint)
    requires VaultTheorems.IsRun(net, steps, at, ds, ts) && i <= j < |ts|
    requires forall k :: i <= k < j ==> ProofSync.ReleasedIn(net, at[k], at[k + 1]) <= Run(Start(us, server, honest), es).released
    requires Vault.AtomicRow(ts[i], o) && o !in ts[j].rows
    ensures var w := Run(Start(us, server, honest), es);
      (exists k :: i <= k < j && o in VaultTheorems.SweptBy(steps[k], ds[k])) || (o in w.gone && (honest ==> IsSpent(w, o)))
  {
    var w := Run(Start(us, server, honest), es);
    if o in w.released {
      ReleasedWereSpent(us, server, honest, es, o);
    } else if forall k :: i <= k < j ==> o !in VaultTheorems.SweptBy(steps[k], ds[k]) {
      hide Run, Start, VaultTheorems.SweptBy, ProofSync.ReleasedIn, VaultTheorems.Executed;
      VaultTheorems.AtomicRowsLeaveTwoWays(net, steps, at, ds, ts, i, j, o);
      assert false;
    }
  }
}
