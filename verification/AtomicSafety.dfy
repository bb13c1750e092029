/** What every run of an atomic send keeps: where the money can go, what a row's state says,
    and the one way a row becomes 'claimed' without a look at the indexer. */
module AtomicSafety {
  import opened Wrappers
  import opened SwapState
  import opened SharedScript
  import opened SwapRepository
  import opened AtomicSend
  import ClaimSplit
  import Unwind

  // ---- the invariant -----------------------------------------------------------------

  ghost predicate PathTo(hist: seq<State>, s: State) {
    IsPath(Send, hist) && hist[0] == Init && hist[|hist| - 1] == s
  }

  predicate NeedsOutpoint(s: State) {
    s != Init && s != Failed
  }

  /** What a row's state says. `recorded` holds every outpoint the row ever had; a terminal
      row whose money left the shared output has one of them shown spent. */
  ghost predicate StateOk(f: File, gone: set<Outpoint>) {
    && f.row.direction == Send
    && PathTo(f.hist, f.row.state)
    && (f.row.fundingOutpoint.Some? <==> f.recorded != {})
    && (f.row.fundingOutpoint.Some? ==> f.row.fundingOutpoint.value in f.recorded)
    && (NeedsOutpoint(f.row.state) ==> f.recorded != {})
    && (f.row.state == Refunded || f.row.state == Cancelled ==> f.recorded * gone != {})
    && (f.row.state == Claimed && !f.blind ==> f.recorded * gone != {})
    && (f.blind ==> f.row.state == Claimed)
  }

  ghost predicate TermsOk(us: Key, server: Key, row: Row, deal: Deal) {
    && row.peerPubkey.Some? && row.exitDelay.Some?
    && deal.script == Options(us, row.peerPubkey.value, server, row.paymentHash, row.refundLocktime, row.exitDelay.value)
    && deal.amount == row.amount
  }

  ghost predicate FilesOk(us: Key, server: Key, files: map<SwapId, File>, gone: set<Outpoint>) {
    && (forall id :: id in files ==> StateOk(files[id], gone) && TermsOk(us, server, files[id].row, files[id].deal))
    && (forall i, j :: i in files && j in files && i != j ==> files[i].deal.script.paymentHash != files[j].deal.script.paymentHash)
  }

  ghost predicate TaskOk(k: Task, files: map<SwapId, File>) {
    && k.id in files
    && var f := files[k.id];
       match k
       case Sending(_, stage) =>
         (match stage
          case FundingSent => f.claim.None?
          case Locating => f.claim.None?
          case Located(o) => f.claim.None? && o in f.recorded
          case Presigned(s) => s.input in f.recorded
          case AwaitingBoltz(o) => o in f.recorded
          case Confirming(o, _) => o in f.recorded)
       case Item(_, snap, _) => snap.fundingOutpoint.Some? ==> snap.fundingOutpoint.value in f.recorded
       case Recovering(_, snap, _, _) => true
       case AskingStatus(_, snap, _) => snap.fundingOutpoint.Some? ==> snap.fundingOutpoint.value in f.recorded
       case ConfirmingClaim(_, o, _, _) => o in f.recorded
       case Unwinding(_, leaf, o, _, _, _) => o in f.recorded && (leaf == RefundLeaf || leaf == CancelLeaf)
  }

  ghost predicate TasksOk(tasks: map<TaskId, Task>, files: map<SwapId, File>) {
    && (forall t :: t in tasks ==> TaskOk(tasks[t], files))
    && (forall t, u :: t in tasks && u in tasks && t != u && tasks[t].Sending? && tasks[u].Sending? ==> tasks[t].id != tasks[u].id)
  }

  /** Our key signs two kinds of spend of a swap's output: the one agreed split on the claim
      leaf, and spends that pay everything to us on the other leaves. */
  ghost predicate SignedOk(s: Spend, id: SwapId, files: map<SwapId, File>) {
    && id in files && s.script == files[id].deal.script
    && if s.leaf == ClaimLeaf then
         && files[id].claim == Some(s)
         && ClaimSplit.SplitOf(SplitArgs(files[id].deal)).Success?
         && s.outputs == ClaimSplit.SplitOf(SplitArgs(files[id].deal)).value.outputs
       else AllTo(s.outputs, Us)
  }

  ghost predicate SignaturesOk(signed: map<Spend, SwapId>, files: map<SwapId, File>) {
    forall s :: s in signed ==> SignedOk(s, signed[s], files)
  }

  ghost predicate CoinOk(us: Key, o: Outpoint, c: Coin, signed: map<Spend, SwapId>, shown: set<Hash>) {
    && c.script.funder == us
    && (c.spentBy.Some? ==>
      var s := c.spentBy.value;
      && s in signed && s.input == o && s.script == c.script
      && (if s.leaf == UexitLeaf then Total(s.outputs) <= c.value else Total(s.outputs) == c.value)
      && (s.leaf == ClaimLeaf ==> s.script.paymentHash in shown))
  }

  ghost predicate CoinsOk(us: Key, coins: map<Outpoint, Coin>, signed: map<Spend, SwapId>, shown: set<Hash>) {
    forall o :: o in coins ==> CoinOk(us, o, coins[o], signed, shown)
  }

  ghost predicate GoneOk(honest: bool, gone: set<Outpoint>, coins: map<Outpoint, Coin>) {
    honest ==> forall o :: o in gone ==> o in coins && coins[o].spentBy.Some?
  }

  ghost predicate Inv(w: World) {
    && FilesOk(w.us, w.server, w.files, w.gone)
    && TasksOk(w.tasks, w.files)
    && SignaturesOk(w.signed, w.files)
    && CoinsOk(w.us, w.coins, w.signed, w.shown)
    && GoneOk(w.honestIndexer, w.gone, w.coins)
    && w.released <= w.gone
  }

  lemma StartOk(us: Key, server: Key, honest: bool)
    ensures Inv(Start(us, server, honest))
  {
  }

  lemma FileOf(w: World, id: SwapId)
    requires Inv(w) && id in w.files
    ensures StateOk(w.files[id], w.gone) && TermsOk(w.us, w.server, w.files[id].row, w.files[id].deal)
  {
  }

  // ---- the building blocks keep it ------------------------------------------------------

  lemma FinishKeeps(w: World, t: TaskId, id: SwapId, live: bool)
    requires Inv(w)
    ensures Inv(Finish(w, t, id, live))
  {
  }

  lemma TasksGoto(tasks: map<TaskId, Task>, files: map<SwapId, File>, t: TaskId, k: Task)
    requires TasksOk(tasks, files) && TaskOk(k, files)
    requires k.Sending? ==> (t in tasks && tasks[t].Sending? && tasks[t].id == k.id) || forall u :: u in tasks && tasks[u].Sending? ==> tasks[u].id != k.id
    ensures TasksOk(tasks[t := k], files)
  {
    var after := tasks[t := k];
    forall u | u in after ensures TaskOk(after[u], files) {
      if u != t {
        assert TaskOk(tasks[u], files);
      }
    }
  }

  lemma GotoKeeps(w: World, t: TaskId, k: Task)
    requires Inv(w) && TaskOk(k, w.files)
    requires k.Sending? ==> t in w.tasks && w.tasks[t].Sending? && w.tasks[t].id == k.id
    ensures Inv(Goto(w, t, k))
  {
    TasksGoto(w.tasks, w.files, t, k);
  }

  /** What may happen to a file besides the claim being signed. */
  ghost predicate FileGrows(f: File, g: File) {
    SameTerms(f.row, g.row) && f.recorded <= g.recorded && g.deal == f.deal && g.claim == f.claim
  }

  lemma TasksPut(tasks: map<TaskId, Task>, files: map<SwapId, File>, id: SwapId, f: File)
    requires TasksOk(tasks, files) && id in files && FileGrows(files[id], f)
    ensures TasksOk(tasks, files[id := f])
  {
    forall t | t in tasks ensures TaskOk(tasks[t], files[id := f]) {
      assert TaskOk(tasks[t], files);
    }
  }

  lemma SignaturesPut(signed: map<Spend, SwapId>, files: map<SwapId, File>, id: SwapId, f: File)
    requires SignaturesOk(signed, files) && id in files && f.deal == files[id].deal && f.claim == files[id].claim
    ensures SignaturesOk(signed, files[id := f])
  {
    forall s | s in signed ensures SignedOk(s, signed[s], files[id := f]) {
      assert SignedOk(s, signed[s], files);
    }
  }

  lemma FilesPut(us: Key, server: Key, files: map<SwapId, File>, gone: set<Outpoint>, id: SwapId, f: File)
    requires FilesOk(us, server, files, gone) && id in files && FileGrows(files[id], f) && StateOk(f, gone)
    ensures FilesOk(us, server, files[id := f], gone)
  {
    assert TermsOk(us, server, files[id].row, files[id].deal);
  }

  lemma PutKeeps(w: World, id: SwapId, f: File)
    requires Inv(w) && id in w.files
    requires FileGrows(w.files[id], f) && StateOk(f, w.gone)
    ensures Inv(Put(w, id, f))
  {
    FilesPut(w.us, w.server, w.files, w.gone, id, f);
    TasksPut(w.tasks, w.files, id, f);
    SignaturesPut(w.signed, w.files, id, f);
  }

  lemma RecordKeeps(w: World, id: SwapId, o: Outpoint)
    requires Inv(w) && id in w.files
    ensures Inv(Record(w, id, o))
  {
    var f := w.files[id];
    assert StateOk(f, w.gone);
    assert f.recorded * w.gone <= (f.recorded + {o}) * w.gone;
    assert o in f.recorded + {o};
    PutKeeps(w, id, Record(w, id, o).files[id]);
  }

  lemma PathToExtends(hist: seq<State>, s: State, to: State)
    requires PathTo(hist, s) && Legal(Send, s, to)
    ensures PathTo(hist + [to], to)
  {
    PathExtends(Send, hist, to);
  }

  /** What a file's state needs before it may move to `to`. */
  ghost predicate MayMove(f: File, to: State, gone: set<Outpoint>) {
    && ((to == Funded || to == Cancelled) && f.row.state == Init ==> f.recorded != {})
    && (to == Refunded || to == Cancelled || to == Claimed ==> f.recorded * gone != {})
  }

  lemma MovedFileOk(f: File, to: State, now: int, gone: set<Outpoint>)
    requires StateOk(f, gone) && MayMove(f, to, gone)
    ensures MovedFile(f, to, now).Some? <==> Legal(Send, f.row.state, to)
    ensures MovedFile(f, to, now).Some? ==>
      var g := MovedFile(f, to, now).value;
      StateOk(g, gone) && FileGrows(f, g) && g.row.state == to && g.recorded == f.recorded
  {
    if Legal(Send, f.row.state, to) {
      PathToExtends(f.hist, f.row.state, to);
    }
  }

  lemma MoveKeeps(w: World, id: SwapId, to: State)
    requires Inv(w) && id in w.files && MayMove(w.files[id], to, w.gone)
    ensures Move(w, id, to).Some? <==> Legal(Send, w.files[id].row.state, to)
    ensures Move(w, id, to).Some? ==> Inv(Move(w, id, to).value) && Move(w, id, to).value.files[id].row.state == to
  {
    MovedFileOk(w.files[id], to, w.now, w.gone);
    match MovedFile(w.files[id], to, w.now)
    case None =>
    case Some(g) => PutKeeps(w, id, g);
  }

  lemma MoveAndFinishKeeps(w: World, t: TaskId, id: SwapId, to: State, live: bool)
    requires Inv(w) && id in w.files && MayMove(w.files[id], to, w.gone)
    ensures Inv(MoveAndFinish(w, t, id, to, live))
  {
    MoveKeeps(w, id, to);
    match Move(w, id, to)
    case None => FinishKeeps(w, t, id, live);
    case Some(w1) => FinishKeeps(w1, t, id, live);
  }

  /** Exit material is let go only for an outpoint that was shown spent. */
  lemma ReleaseKeeps(w: World, o: Option<Outpoint>)
    requires Inv(w) && (o.Some? ==> o.value in w.gone)
    ensures Inv(Release(w, o))
  {
  }

  lemma CloseKeeps(w: World, t: TaskId, id: SwapId, to: State, live: bool, o: Outpoint)
    requires Inv(w) && id in w.files && MayMove(w.files[id], to, w.gone) && o in w.gone
    ensures Inv(Close(w, t, id, to, live, o))
  {
    MoveKeeps(w, id, to);
    match Move(w, id, to)
    case None => FinishKeeps(w, t, id, live);
    case Some(w1) =>
      assert w1.gone == w.gone;
      ReleaseKeeps(w1, Some(o));
      FinishKeeps(Release(w1, Some(o)), t, id, live);
  }

  lemma KeepPreimageKeeps(w: World, id: SwapId, preimage: Option<string>)
    requires Inv(w) && id in w.files
    ensures Inv(KeepPreimage(w, id, preimage))
  {
    assert StateOk(w.files[id], w.gone);
    if preimage.Some? {
      PutKeeps(w, id, KeepPreimage(w, id, preimage).files[id]);
    }
  }

  lemma FilesSee(us: Key, server: Key, files: map<SwapId, File>, gone: set<Outpoint>, more: set<Outpoint>)
    requires FilesOk(us, server, files, gone) && gone <= more
    ensures FilesOk(us, server, files, more)
  {
    forall id | id in files ensures StateOk(files[id], more) {
      assert StateOk(files[id], gone);
      assert files[id].recorded * gone <= files[id].recorded * more;
    }
  }

  lemma SeeKeeps(w: World, o: Outpoint)
    requires Inv(w) && AnswerAllowed(w, o, true)
    ensures Inv(See(w, o))
    ensures forall id :: id in w.files && o in w.files[id].recorded ==> w.files[id].recorded * See(w, o).gone != {}
  {
    SeenKeeps(w, o);
    hide Inv;
    forall id | id in w.files && o in w.files[id].recorded ensures w.files[id].recorded * See(w, o).gone != {} {
      assert o in w.files[id].recorded * See(w, o).gone;
    }
  }

  lemma SeenKeeps(w: World, o: Outpoint)
    requires Inv(w) && AnswerAllowed(w, o, true)
    ensures Inv(See(w, o))
  {
    FilesSee(w.us, w.server, w.files, w.gone, w.gone + {o});
    hide FilesOk, TasksOk, SignaturesOk, CoinsOk;
  }

  lemma SignKeeps(w: World, id: SwapId, s: Spend)
    requires Inv(w) && SignedOk(s, id, w.files)
    ensures Inv(Sign(w, id, s))
  {
    var signed := w.signed[s := id];
    forall o | o in w.coins ensures CoinOk(w.us, o, w.coins[o], signed, w.shown) {
      assert CoinOk(w.us, o, w.coins[o], w.signed, w.shown);
    }
    forall x | x in signed ensures SignedOk(x, signed[x], w.files) {
      if x != s {
        assert SignedOk(x, w.signed[x], w.files);
      }
    }
  }

  lemma BeginUnwindKeeps(w: World, t: TaskId, id: SwapId, leaf: Leaf, live: bool)
    requires Inv(w) && id in w.files && (leaf == RefundLeaf || leaf == CancelLeaf)
    ensures Inv(BeginUnwind(w, t, id, leaf, live))
  {
    FinishKeeps(w, t, id, live);
    assert StateOk(w.files[id], w.gone);
    var row := w.files[id].row;
    if row.fundingOutpoint.Some? {
      GotoKeeps(w, t, Unwinding(id, leaf, row.fundingOutpoint.value, row.state, Looking, live));
    }
  }

  // ---- the environment keeps it -----------------------------------------------------------

  /** Only a spend our key has signed can land. */
  lemma LandingNeedsOurSignature(w: World, s: Spend)
    requires CanLand(w, s) && s.script.funder == w.us
    ensures s in w.signed
  {
    var age: Option<nat> := if w.coins[s.input].unrolledAt.Some? && w.mtp >= w.coins[s.input].unrolledAt.value
               then Some(w.mtp - w.coins[s.input].unrolledAt.value) else None;
    if s !in w.signed {
      EveryLeafNeedsTheFunder(s.script, s.leaf, Signers(w, s), {s.script.paymentHash}, w.mtp, age);
    }
  }

  lemma CoinsReplace(us: Key, coins: map<Outpoint, Coin>, signed: map<Spend, SwapId>, shown: set<Hash>, more: set<Hash>, o: Outpoint, c: Coin)
    requires CoinsOk(us, coins, signed, shown) && CoinOk(us, o, c, signed, more) && shown <= more
    ensures CoinsOk(us, coins[o := c], signed, more)
  {
    var after := coins[o := c];
    forall p | p in after ensures CoinOk(us, p, after[p], signed, more) {
      if p != o {
        assert CoinOk(us, p, coins[p], signed, shown);
      }
    }
  }

  lemma LandKeeps(w: World, s: Spend)
    requires Inv(w) && CanLand(w, s)
    ensures Inv(Land(w, s))
  {
    assert CoinOk(w.us, s.input, w.coins[s.input], w.signed, w.shown);
    LandingNeedsOurSignature(w, s);
    var after := Land(w, s);
    CoinsReplace(w.us, w.coins, w.signed, w.shown, after.shown, s.input, after.coins[s.input]);
  }

  lemma AppearKeeps(w: World, o: Outpoint, script: Options, value: nat)
    requires Inv(w) && o !in w.coins && script.funder == w.us
    ensures Inv(w.(coins := w.coins[o := Coin(script, value, None, None)]))
  {
    CoinsReplace(w.us, w.coins, w.signed, w.shown, w.shown, o, Coin(script, value, None, None));
    hide FilesOk, TasksOk, SignaturesOk, CoinOk;
  }

  lemma UnrollKeeps(w: World, o: Outpoint)
    requires Inv(w) && o in w.coins
    ensures Inv(w.(coins := w.coins[o := w.coins[o].(unrolledAt := Some(w.mtp))]))
  {
    assert CoinOk(w.us, o, w.coins[o], w.signed, w.shown);
    CoinsReplace(w.us, w.coins, w.signed, w.shown, w.shown, o, w.coins[o].(unrolledAt := Some(w.mtp)));
    hide FilesOk, TasksOk, SignaturesOk, CoinOk;
  }

  lemma ExitKeeps(w: World, id: SwapId, o: Outpoint, outs: seq<Output>)
    requires Inv(w) && id in w.files && ExitPaysUs(outs)
    ensures Inv(Sign(w, id, Spend(o, ScriptOf(w, w.files[id].row), UexitLeaf, outs)))
  {
    assert TermsOk(w.us, w.server, w.files[id].row, w.files[id].deal);
    hide FilesOk, TasksOk, SignaturesOk, CoinsOk;
    SignKeeps(w, id, Spend(o, ScriptOf(w, w.files[id].row), UexitLeaf, outs));
  }

  lemma CrashKeeps(w: World)
    requires Inv(w)
    ensures Inv(w.(tasks := map[], inflight := {}))
  {
  }

  lemma OutsideKeeps(w: World, h: Happening)
    requires Inv(w)
    ensures Inv(OutsideStep(w, h))
  {
    hide FilesOk, TasksOk, SignaturesOk, CanLand, Land, CoinOk;
    match h
    case ClockTicks(_, _) =>
    case CoinAppears(o, script, value) =>
      if o !in w.coins && script.funder == w.us {
        AppearKeeps(w, o, script, value);
      }
    case Unrolled(o) =>
      if o in w.coins && w.coins[o].unrolledAt.None? {
        UnrollKeeps(w, o);
      }
    case SpendLands(s) =>
      if CanLand(w, s) {
        LandKeeps(w, s);
      }
    case ExitSigned(id, o, outs) =>
      if id in w.files && ExitPaysUs(outs) {
        ExitKeeps(w, id, o, outs);
      }
    case Crash => CrashKeeps(w);
  }

  // ---- a live send keeps it -----------------------------------------------------------------

  /** A task under way, in a world where everything holds. */
  ghost predicate Runs(w: World, t: TaskId, k: Task) {
    Inv(w) && t in w.tasks && w.tasks[t] == k && k.id in w.files && TaskOk(k, w.files)
  }

  lemma FileAdded(us: Key, server: Key, files: map<SwapId, File>, gone: set<Outpoint>, tasks: map<TaskId, Task>, signed: map<Spend, SwapId>,
                  id: SwapId, f: File)
    requires FilesOk(us, server, files, gone) && TasksOk(tasks, files) && SignaturesOk(signed, files) && id !in files
    requires StateOk(f, gone) && TermsOk(us, server, f.row, f.deal)
    requires forall i :: i in files ==> files[i].deal.script.paymentHash != f.deal.script.paymentHash
    ensures FilesOk(us, server, files[id := f], gone) && TasksOk(tasks, files[id := f]) && SignaturesOk(signed, files[id := f])
    ensures forall u :: u in tasks ==> tasks[u].id != id
  {
    forall u | u in tasks ensures TaskOk(tasks[u], files[id := f]) && tasks[u].id != id {
      assert TaskOk(tasks[u], files);
    }
    forall s | s in signed ensures SignedOk(s, signed[s], files[id := f]) {
      assert SignedOk(s, signed[s], files);
    }
  }

  lemma StartSendKeeps(w: World, t: TaskId, o: Order)
    requires Inv(w) && t !in w.tasks
    ensures Inv(StepStartSend(w, t, o))
  {
    var rows := RowsOf(w);
    if !Accepts(w, o) {
    } else if Taken(rows, o.id, o.paymentHash) {
      FinishKeeps(w, t, o.id, true);
    } else {
      var f := File(NewRow(w, o), [Init], {}, Deal(ScriptOf(w, NewRow(w, o)), o.amount, o.fee, o.dust, o.funding), None, false);
      forall i | i in w.files ensures w.files[i].deal.script.paymentHash != o.paymentHash {
        assert TermsOk(w.us, w.server, w.files[i].row, w.files[i].deal);
        assert i in rows && rows[i].paymentHash != o.paymentHash;
      }
      FileAdded(w.us, w.server, w.files, w.gone, w.tasks, w.signed, o.id, f);
      TasksGoto(w.tasks, w.files[o.id := f], t, Sending(o.id, FundingSent));
    }
  }

  lemma FundingDoneKeeps(w: World, t: TaskId, k: Task, ok: bool)
    requires Runs(w, t, k) && k.Sending? && k.stage.FundingSent?
    ensures Inv(StepFundingDone(w, t, k.id, ok))
  {
    hide Inv;
    FinishKeeps(w, t, k.id, true);
    GotoKeeps(w, t, Sending(k.id, Locating));
    GotoKeeps(w, t, Recovering(k.id, w.files[k.id].row, w.now, true));
  }

  lemma LocateKeeps(w: World, t: TaskId, k: Task, found: Option<Outpoint>)
    requires Runs(w, t, k) && k.Sending? && k.stage.Locating?
    ensures Inv(StepLocate(w, t, k.id, found))
  {
    FinishKeeps(w, t, k.id, true);
    if found.Some? {
      RecordKeeps(w, k.id, found.value);
      GotoKeeps(Record(w, k.id, found.value), t, Sending(k.id, Located(found.value)));
    }
  }

  /** The one place a claim is signed: no claim was signed for this swap before, so no
      signature of ours speaks about another claim of it. */
  lemma ClaimFiled(tasks: map<TaskId, Task>, signed: map<Spend, SwapId>, files: map<SwapId, File>, t: TaskId, id: SwapId, s: Spend)
    requires TasksOk(tasks, files) && SignaturesOk(signed, files) && id in files && files[id].claim.None?
    requires t in tasks && tasks[t].Sending? && tasks[t].id == id && s.input in files[id].recorded
    ensures TasksOk(tasks[t := Sending(id, Presigned(s))], files[id := files[id].(claim := Some(s))])
    ensures SignaturesOk(signed, files[id := files[id].(claim := Some(s))])
  {
    var after := files[id := files[id].(claim := Some(s))];
    forall u | u in tasks && u != t ensures TaskOk(tasks[u], after) {
      assert TaskOk(tasks[u], files);
    }
    forall x | x in signed ensures SignedOk(x, signed[x], after) {
      assert SignedOk(x, signed[x], files);
    }
  }

  lemma ClaimTermsKept(us: Key, server: Key, files: map<SwapId, File>, gone: set<Outpoint>, id: SwapId, s: Spend)
    requires FilesOk(us, server, files, gone) && id in files
    ensures FilesOk(us, server, files[id := files[id].(claim := Some(s))], gone)
  {
    hide TermsOk;
    assert StateOk(files[id], gone) && TermsOk(us, server, files[id].row, files[id].deal);
  }

  /** Filing a claim leaves everything but the signatures to check. */
  lemma FiledKeeps(w: World, t: TaskId, k: Task, s: Spend)
    requires Runs(w, t, k) && k.Sending? && k.stage.Located? && s.input == k.stage.input
    requires s.leaf == ClaimLeaf && s.script == w.files[k.id].deal.script
    requires ClaimSplit.SplitOf(SplitArgs(w.files[k.id].deal)).Success? && s.outputs == ClaimSplit.SplitOf(SplitArgs(w.files[k.id].deal)).value.outputs
    ensures var v := Goto(Put(w, k.id, w.files[k.id].(claim := Some(s))), t, Sending(k.id, Presigned(s)));
      Inv(v) && SignedOk(s, k.id, v.files)
  {
    var id := k.id;
    assert TaskOk(k, w.files);
    hide ClaimSplit.SplitOf, SplitArgs, FilesOk, CoinsOk, GoneOk, TasksOk, SignaturesOk;
    ClaimFiled(w.tasks, w.signed, w.files, t, id, s);
    ClaimTermsKept(w.us, w.server, w.files, w.gone, id, s);
  }

  lemma SignClaimKeeps(w: World, t: TaskId, k: Task)
    requires Runs(w, t, k) && k.Sending? && k.stage.Located?
    ensures Inv(StepSignClaim(w, t, k.id, k.stage.input))
  {
    hide Inv, SignedOk;
    var split := ClaimSplit.SplitOf(SplitArgs(w.files[k.id].deal));
    if split.Failure? {
      FinishKeeps(w, t, k.id, true);
    } else {
      var s := Spend(k.stage.input, w.files[k.id].deal.script, ClaimLeaf, split.value.outputs);
      var filed := Goto(Put(w, k.id, w.files[k.id].(claim := Some(s))), t, Sending(k.id, Presigned(s)));
      FiledKeeps(w, t, k, s);
      SignKeeps(filed, k.id, s);
      assert StepSignClaim(w, t, k.id, k.stage.input) == Sign(filed, k.id, s);
    }
  }

  lemma HandedOverKeeps(w: World, t: TaskId, k: Task, o: Outpoint)
    requires Inv(w) && t in w.tasks && w.tasks[t] == k && k.id in w.files && k.Sending? && o in w.files[k.id].recorded
    ensures Move(w, k.id, LnInflight).Some? ==> Inv(Goto(Move(w, k.id, LnInflight).value, t, Sending(k.id, AwaitingBoltz(o))))
  {
    MoveKeeps(w, k.id, LnInflight);
    var m := Move(w, k.id, LnInflight);
    if m.Some? {
      GotoKeeps(m.value, t, Sending(k.id, AwaitingBoltz(o)));
    }
  }

  lemma HandOverKeeps(w: World, t: TaskId, k: Task)
    requires Runs(w, t, k) && k.Sending? && k.stage.Presigned?
    ensures Inv(StepHandOver(w, t, k.id, k.stage.claim))
  {
    hide Inv;
    var id := k.id;
    var f := w.files[id].(row := WithPresigs(w.files[id].row, k.stage.claim, w.now * 1000));
    FileOf(w, id);
    PutKeeps(w, id, f);
    var w0 := Put(w, id, f);
    MoveKeeps(w0, id, Funded);
    match Move(w0, id, Funded)
    case None => FinishKeeps(w0, t, id, true);
    case Some(w1) =>
      HandedOverKeeps(w1, t, k, k.stage.claim.input);
      FinishKeeps(w1, t, id, true);
  }

  lemma BoltzRepliesKeeps(w: World, t: TaskId, k: Task, reply: FundReply)
    requires Runs(w, t, k) && k.Sending? && k.stage.AwaitingBoltz?
    ensures Inv(StepBoltzReplies(w, t, k.id, k.stage.input, reply))
  {
    match reply
    case NoReply => FinishKeeps(w, t, k.id, true);
    case PaidReply(p) => GotoKeeps(w, t, Sending(k.id, Confirming(k.stage.input, p)));
    case OtherReply => MoveAndFinishKeeps(w, t, k.id, Failed, true);
    case FailedReply =>
      MoveKeeps(w, k.id, RefundWait);
      match Move(w, k.id, RefundWait)
      case None => FinishKeeps(w, t, k.id, true);
      case Some(w1) => BeginUnwindKeeps(w1, t, k.id, CancelLeaf, true);
  }

  lemma ConfirmLiveKeeps(w: World, t: TaskId, k: Task, spent: bool)
    requires Runs(w, t, k) && k.Sending? && k.stage.Confirming? && AnswerAllowed(w, k.stage.input, spent)
    ensures Inv(StepConfirmLive(w, t, k.id, k.stage.input, k.stage.preimage, spent))
  {
    if spent {
      SeeKeeps(w, k.stage.input);
      CloseKeeps(See(w, k.stage.input), t, k.id, Claimed, true, k.stage.input);
    } else {
      KeepPreimageKeeps(w, k.id, Some(k.stage.preimage));
      FinishKeeps(KeepPreimage(w, k.id, Some(k.stage.preimage)), t, k.id, true);
    }
  }

  // ---- refunds and cancels keep it -------------------------------------------------------------

  lemma CoinLookupKeeps(w: World, t: TaskId, k: Task, coin: Option<(nat, nat)>, mtpSeen: Option<int>)
    requires Runs(w, t, k) && k.Unwinding?
    ensures Inv(StepCoinLookup(w, t, k, coin, mtpSeen))
  {
    hide Inv;
    FinishKeeps(w, t, k.id, k.live);
    if coin.Some? {
      GotoKeeps(w, t, k.(stepAt := Ready(coin.value.0, coin.value.1, 0)));
    }
  }

  lemma SubmittedKeeps(w: World, t: TaskId, k: Task, accepted: bool)
    requires Runs(w, t, k) && k.Unwinding? && k.stepAt.Sent?
    ensures Inv(StepUnwindAnswer(w, t, k, accepted))
  {
    hide Inv;
    if accepted {
      GotoKeeps(w, t, k.(stepAt := Checking(k.stepAt.value, k.stepAt.dust, k.stepAt.k)));
    } else {
      FinishKeeps(w, t, k.id, k.live);
    }
  }

  lemma UnwindSignKeeps(w: World, t: TaskId, k: Task)
    requires Runs(w, t, k) && k.Unwinding? && k.stepAt.Ready? && k.stepAt.k < Unwind.AttemptCount(k.stepAt.value, k.stepAt.dust)
    ensures Inv(StepUnwindSign(w, t, k))
  {
    Unwind.AttemptsReturnEverything(k.stepAt.value, k.stepAt.dust, k.stepAt.k);
    assert TermsOk(w.us, w.server, w.files[k.id].row, w.files[k.id].deal);
    SignKeeps(w, k.id, UnwindSpend(w, k));
    GotoKeeps(Sign(w, k.id, UnwindSpend(w, k)), t, k.(stepAt := Sent(k.stepAt.value, k.stepAt.dust, k.stepAt.k)));
  }

  lemma UnwindRegisteredKeeps(w: World, t: TaskId, k: Task)
    requires Inv(w) && k.Unwinding? && k.id in w.files && w.files[k.id].recorded * w.gone != {} && k.input in w.gone
    ensures Inv(UnwindRegistered(w, t, k))
  {
    if k.leaf != RefundLeaf {
      CloseKeeps(w, t, k.id, Cancelled, k.live, k.input);
    } else if k.readState == RefundWait {
      CloseKeeps(w, t, k.id, Refunded, k.live, k.input);
    } else {
      MoveKeeps(w, k.id, RefundWait);
      match Move(w, k.id, RefundWait)
      case None => FinishKeeps(w, t, k.id, k.live);
      case Some(w1) => CloseKeeps(w1, t, k.id, Refunded, k.live, k.input);
    }
  }

  lemma UnwindCheckKeeps(w: World, t: TaskId, k: Task, spent: bool)
    requires Runs(w, t, k) && k.Unwinding? && k.stepAt.Checking? && AnswerAllowed(w, k.input, spent)
    ensures Inv(StepUnwindCheck(w, t, k, spent))
  {
    hide Inv;
    if spent {
      SeeKeeps(w, k.input);
      UnwindRegisteredKeeps(See(w, k.input), t, k);
    } else {
      if k.stepAt.k + 1 < Unwind.AttemptCount(k.stepAt.value, k.stepAt.dust) {
        GotoKeeps(w, t, k.(stepAt := Ready(k.stepAt.value, k.stepAt.dust, k.stepAt.k + 1)));
      } else {
        FinishKeeps(w, t, k.id, k.live);
      }
    }
  }

  // ---- resume passes keep it ---------------------------------------------------------------------

  lemma PrePassKeeps(w: World, t: TaskId, k: Task)
    requires Runs(w, t, k) && k.Item?
    ensures Inv(StepPrePass(w, t, k))
  {
    hide Inv;
    if k.id in w.inflight || k.snap.fundingOutpoint.Some? || k.snap.state != Init {
      FinishKeeps(w, t, k.id, false);
    } else {
      GotoKeeps(w, t, Recovering(k.id, k.snap, k.at, false));
    }
  }

  lemma MainPassKeeps(w: World, t: TaskId, k: Task)
    requires Runs(w, t, k) && k.Item?
    ensures Inv(StepMainPass(w, t, k))
  {
    hide Inv;
    if k.id in w.inflight {
      FinishKeeps(w, t, k.id, false);
    } else {
      match ClassifyResume(Send, k.snap.state, k.snap.refundLocktime, k.at)
      case Success(DoRefund) => GotoKeeps(w, t, AskingStatus(k.id, k.snap, true));
      case Success(Poll) => GotoKeeps(w, t, AskingStatus(k.id, k.snap, false));
      case Success(DoCancel) => BeginUnwindKeeps(w, t, k.id, CancelLeaf, false);
      case _ => FinishKeeps(w, t, k.id, false);
    }
  }

  lemma RecoverReadKeeps(w: World, t: TaskId, k: Task, read: ScriptRead)
    requires Runs(w, t, k) && k.Recovering?
    ensures Inv(StepRecoverRead(w, t, k, read))
  {
    match read
    case SpendableAt(o) =>
      RecordKeeps(w, k.id, o);
      assert o in Record(w, k.id, o).files[k.id].recorded;
      MoveAndFinishKeeps(Record(w, k.id, o), t, k.id, Funded, k.live);
    case NoCoin =>
      MoveAndFinishKeeps(w, t, k.id, Failed, k.live);
      FinishKeeps(w, t, k.id, k.live);
    case _ => FinishKeeps(w, t, k.id, k.live);
  }

  lemma ClaimedFileOk(f: File, now: int, gone: set<Outpoint>, blind: bool)
    requires StateOk(f, gone) && (blind || f.recorded * gone != {})
    ensures ClaimedFile(f, now).Some? <==> f.row.state == Funded || f.row.state == LnInflight
    ensures ClaimedFile(f, now).Some? ==>
      var g := ClaimedFile(f, now).value.(blind := f.blind || blind);
      FileGrows(f, g) && StateOk(g, gone) && g.row.state == Claimed
  {
    if f.row.state == Funded {
      PathToExtends(f.hist, Funded, LnInflight);
      PathToExtends(f.hist + [LnInflight], LnInflight, Claimed);
    } else if f.row.state == LnInflight {
      PathToExtends(f.hist, LnInflight, Claimed);
    }
  }

  lemma PutIn(w: World, id: SwapId, f: File)
    ensures id in Put(w, id, f).files && Put(w, id, f).tasks == w.tasks && Put(w, id, f).gone == w.gone
  {
  }

  lemma WriteClaimedIs(w: World, t: TaskId, id: SwapId, preimage: Option<string>, confirmed: Option<Outpoint>)
    requires id in w.files
    ensures match ClaimedFile(w.files[id], w.now)
      case None => WriteClaimed(w, t, id, preimage, confirmed) == Finish(w, t, id, false)
      case Some(f) =>
        var v := Put(w, id, f.(blind := f.blind || confirmed.None?));
        id in v.files && WriteClaimed(w, t, id, preimage, confirmed) == Finish(Release(KeepPreimage(v, id, preimage), confirmed), t, id, false)
  {
    hide ClaimedFile, Finish, KeepPreimage, Release;
  }

  lemma PreimageSame(w: World, id: SwapId, preimage: Option<string>)
    requires id in w.files
    ensures KeepPreimage(w, id, preimage).gone == w.gone
  {
  }

  lemma WriteClaimedKeeps(w: World, t: TaskId, id: SwapId, preimage: Option<string>, confirmed: Option<Outpoint>)
    requires Inv(w) && id in w.files && (confirmed.Some? ==> confirmed.value in w.gone && w.files[id].recorded * w.gone != {})
    ensures Inv(WriteClaimed(w, t, id, preimage, confirmed))
  {
    hide *;
    var blind := confirmed.None?;
    FileOf(w, id);
    ClaimedFileOk(w.files[id], w.now, w.gone, blind);
    WriteClaimedIs(w, t, id, preimage, confirmed);
    match ClaimedFile(w.files[id], w.now)
    case None => FinishKeeps(w, t, id, false);
    case Some(f) =>
      var g := f.(blind := f.blind || blind);
      PutKeeps(w, id, g);
      PutIn(w, id, g);
      var w1 := Put(w, id, g);
      KeepPreimageKeeps(w1, id, preimage);
      PreimageSame(w1, id, preimage);
      var w2 := KeepPreimage(w1, id, preimage);
      ReleaseKeeps(w2, confirmed);
      FinishKeeps(Release(w2, confirmed), t, id, false);
  }

  lemma MarkClaimedKeeps(w: World, t: TaskId, k: Task, preimage: Option<string>)
    requires Runs(w, t, k) && k.AskingStatus?
    ensures Inv(MarkClaimed(w, t, k, preimage))
  {
    match k.snap.fundingOutpoint
    case Some(o) => GotoKeeps(w, t, ConfirmingClaim(k.id, o, preimage, k.post));
    case None => WriteClaimedKeeps(w, t, k.id, preimage, None);
  }

  lemma FailedStatusKeeps(w: World, t: TaskId, k: Task)
    requires Runs(w, t, k) && k.AskingStatus?
    ensures Move(w, k.id, RefundWait).Some? ==> Inv(BeginUnwind(Move(w, k.id, RefundWait).value, t, k.id, CancelLeaf, false))
  {
    MoveKeeps(w, k.id, RefundWait);
    match Move(w, k.id, RefundWait)
    case None =>
    case Some(w1) => BeginUnwindKeeps(w1, t, k.id, CancelLeaf, false);
  }

  lemma StatusAnswerKeeps(w: World, t: TaskId, k: Task, status: Status, stuck: bool)
    requires Runs(w, t, k) && k.AskingStatus?
    ensures Inv(StepStatusAnswer(w, t, k, status, stuck))
  {
    hide Inv;
    if status.SaysClaimed? && (!k.post || k.snap.state != RefundWait) {
      MarkClaimedKeeps(w, t, k, status.preimage);
    } else if k.post {
      BeginUnwindKeeps(w, t, k.id, RefundLeaf, false);
    } else if k.snap.state != RefundWait && (status.SaysFailed? || status.SaysRefundWait?) {
      FailedStatusKeeps(w, t, k);
      FinishKeeps(w, t, k.id, false);
    } else {
      BeginUnwindKeeps(w, t, k.id, CancelLeaf, false);
      FinishKeeps(w, t, k.id, false);
    }
  }

  lemma ConfirmPassKeeps(w: World, t: TaskId, k: Task, spent: bool)
    requires Runs(w, t, k) && k.ConfirmingClaim? && AnswerAllowed(w, k.input, spent)
    ensures Inv(StepConfirmPass(w, t, k, spent))
  {
    hide Inv;
    if spent {
      SeeKeeps(w, k.input);
      WriteClaimedKeeps(See(w, k.input), t, k.id, k.preimage, Some(k.input));
    } else {
      KeepPreimageKeeps(w, k.id, k.preimage);
      if k.post {
        BeginUnwindKeeps(KeepPreimage(w, k.id, k.preimage), t, k.id, RefundLeaf, false);
      } else {
        FinishKeeps(KeepPreimage(w, k.id, k.preimage), t, k.id, false);
      }
    }
  }

  // ---- every step, every run --------------------------------------------------------------

  lemma SendStepKeeps(w: World, t: TaskId, k: Task, a: Answer)
    requires Runs(w, t, k) && k.Sending?
    ensures Inv(SendStep(w, t, k, a))
  {
    hide Inv;
    match (k.stage, a)
    case (FundingSent, FundingDone(ok)) => FundingDoneKeeps(w, t, k, ok);
    case (Locating, LocateAnswer(found)) => LocateKeeps(w, t, k, found);
    case (Located(o), SignClaim) => SignClaimKeeps(w, t, k);
    case (Presigned(s), HandOver) => HandOverKeeps(w, t, k);
    case (AwaitingBoltz(o), BoltzReplies(reply)) => BoltzRepliesKeeps(w, t, k, reply);
    case (Confirming(o, preimage), ConfirmAnswer(spent)) =>
      if AnswerAllowed(w, o, spent) {
        ConfirmLiveKeeps(w, t, k, spent);
      }
    case _ =>
  }

  lemma UnwindStepKeeps(w: World, t: TaskId, k: Task, a: Answer)
    requires Runs(w, t, k) && k.Unwinding?
    ensures Inv(UnwindStep(w, t, k, a))
  {
    hide Inv;
    match (k.stepAt, a)
    case (Looking, CoinAnswer(coin, mtpSeen)) => CoinLookupKeeps(w, t, k, coin, mtpSeen);
    case (Ready(value, dust, n), UnwindSign) =>
      if n < Unwind.AttemptCount(value, dust) {
        UnwindSignKeeps(w, t, k);
      }
    case (Sent(_, _, _), SubmitAnswer(accepted)) => SubmittedKeeps(w, t, k, accepted);
    case (Checking(_, _, _), RegisteredAnswer(spent)) =>
      if AnswerAllowed(w, k.input, spent) {
        UnwindCheckKeeps(w, t, k, spent);
      }
    case _ =>
  }

  lemma PassStepKeeps(w: World, t: TaskId, k: Task, a: Answer)
    requires Runs(w, t, k) && !k.Sending? && !k.Unwinding?
    ensures Inv(PassStep(w, t, k, a))
  {
    hide Inv;
    match (k, a)
    case (Item(_, _, _), PrePass) => PrePassKeeps(w, t, k);
    case (Item(_, _, _), MainPass) => MainPassKeeps(w, t, k);
    case (Recovering(_, _, _, _), RecoverAnswer(read)) => RecoverReadKeeps(w, t, k, read);
    case (AskingStatus(_, _, _), StatusAnswer(status, stuck)) => StatusAnswerKeeps(w, t, k, status, stuck);
    case (ConfirmingClaim(_, o, _, _), ConfirmAnswer(spent)) =>
      if AnswerAllowed(w, o, spent) {
        ConfirmPassKeeps(w, t, k, spent);
      }
    case _ =>
  }

  lemma StepKeeps(w: World, e: Event)
    requires Inv(w)
    ensures Inv(Step(w, e))
  {
    match e
    case Outside(h) => OutsideKeeps(w, h);
    case StartSend(t, order) =>
      if t !in w.tasks {
        StartSendKeeps(w, t, order);
      }
    case TakeSnapshot(t, id, at) =>
      if Step(w, e) != w {
        assert StateOk(w.files[id], w.gone);
        GotoKeeps(w, t, Item(id, w.files[id].row, at));
      }
    case RefundPressed(t, id) =>
      if t !in w.tasks && id in w.files {
        BeginUnwindKeeps(w, t, id, RefundLeaf, false);
      }
    case Continue(t, answer) =>
      if t in w.tasks {
        var k := w.tasks[t];
        assert TaskOk(k, w.files);
        if answer.Throws? {
          FinishKeeps(w, t, k.id, InLiveSend(k));
        } else {
          match k
          case Sending(_, _) => SendStepKeeps(w, t, k, answer);
          case Unwinding(_, _, _, _, _, _) => UnwindStepKeeps(w, t, k, answer);
          case _ => PassStepKeeps(w, t, k, answer);
        }
      }
  }

  lemma {:induction false} RunKeeps(w: World, es: seq<Event>)
    requires Inv(w)
    ensures Inv(Run(w, es))
    decreases |es|
  {
    if es != [] {
      StepKeeps(w, es[0]);
      RunKeeps(Step(w, es[0]), es[1..]);
    }
  }
}
