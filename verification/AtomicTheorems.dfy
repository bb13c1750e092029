/** What holds after every run of the send system, stated without its invariant. */
module AtomicTheorems {
  import opened Wrappers
  import opened SwapState
  import opened SharedScript
  import opened SwapRepository
  import opened AtomicSend
  import opened AtomicSafety
  import opened AtomicHistory
  import ClaimSplit

  /** Two outputs of one swap that were both claimed are the same output, and the spend is
      the one claim the swap's send signed. */
  lemma OneClaim(w: World, id: SwapId, o: Outpoint)
    requires Inv(w) && id in w.files && o in w.coins && w.coins[o].script == w.files[id].deal.script
    requires w.coins[o].spentBy.Some?
    ensures var s := w.coins[o].spentBy.value;
      && s.input == o
      && (s.leaf == UexitLeaf || Total(s.outputs) == w.coins[o].value)
      && Total(s.outputs) <= w.coins[o].value
      && (s.leaf == ClaimLeaf ==>
            && w.files[id].claim == Some(s) && s.script.paymentHash in w.shown
            && ClaimSplit.SplitOf(SplitArgs(w.files[id].deal)).Success?
            && s.outputs == ClaimSplit.SplitOf(SplitArgs(w.files[id].deal)).value.outputs)
      && (s.leaf != ClaimLeaf ==> AllTo(s.outputs, Us))
  {
    var s := w.coins[o].spentBy.value;
    assert CoinOk(w.us, o, w.coins[o], w.signed, w.shown);
    assert SignedOk(s, w.signed[s], w.files);
    assert w.signed[s] == id;
  }

  /** Whatever boltz, arkd, the indexer and crashes do, a shared output of a swap is still
      locked, or was spent once: by a claim, which pays the counterparty exactly amount + fee,
      us all the rest, and shows the preimage; or by a refund, a cancel or an exit, which pays
      the counterparty nothing and us everything (an exit less its onchain fee). */
  lemma FundsAreSafe(us: Key, server: Key, honest: bool, es: seq<Event>, id: SwapId, o: Outpoint)
    requires var w := Run(Start(us, server, honest), es);
      id in w.files && o in w.coins && w.coins[o].script == w.files[id].deal.script && w.coins[o].spentBy.Some?
    ensures var w := Run(Start(us, server, honest), es);
      var c, d, s := w.coins[o], w.files[id].deal, w.coins[o].spentBy.value;
      && s.input == o
      && (s.leaf == ClaimLeaf ==>
            && Paid(s.outputs, Peer) == d.amount + d.fee
            && Paid(s.outputs, Us) == c.value - d.amount - d.fee
            && d.script.paymentHash in w.shown)
      && (s.leaf == RefundLeaf || s.leaf == CancelLeaf ==> Paid(s.outputs, Us) == c.value && Paid(s.outputs, Peer) == 0)
      && (s.leaf == UexitLeaf ==> Paid(s.outputs, Us) == Total(s.outputs) <= c.value && Paid(s.outputs, Peer) == 0)
  {
    var w := Run(Start(us, server, honest), es);
    StartOk(us, server, honest);
    RunKeeps(Start(us, server, honest), es);
    OneClaim(w, id, o);
    var s := w.coins[o].spentBy.value;
    hide Inv;
    if s.leaf == ClaimLeaf {
      ClaimSplit.SplitConserves(SplitArgs(w.files[id].deal), Us);
      ClaimSplit.SplitConserves(SplitArgs(w.files[id].deal), Peer);
    } else {
      PaidInFull(s.outputs, Us, Peer);
    }
  }

  /** However many outputs are locked to a swap's script, at most one of them is ever
      claimed: over its whole life a swap pays the counterparty at most amount + fee. Two
      swaps never share a script, so this holds for every payment hash too. */
  lemma ClaimedAtMostOnce(us: Key, server: Key, honest: bool, es: seq<Event>, i: SwapId, j: SwapId, o: Outpoint, p: Outpoint)
    requires var w := Run(Start(us, server, honest), es);
      && i in w.files && j in w.files && o in w.coins && p in w.coins
      && w.coins[o].script == w.files[i].deal.script && w.coins[p].script == w.files[j].deal.script
      && w.files[i].row.paymentHash == w.files[j].row.paymentHash
      && w.coins[o].spentBy.Some? && w.coins[o].spentBy.value.leaf == ClaimLeaf
      && w.coins[p].spentBy.Some? && w.coins[p].spentBy.value.leaf == ClaimLeaf
    ensures i == j && o == p
  {
    var w := Run(Start(us, server, honest), es);
    StartOk(us, server, honest);
    RunKeeps(Start(us, server, honest), es);
    FileOf(w, i);
    FileOf(w, j);
    OneClaim(w, i, o);
    OneClaim(w, j, p);
  }

  /** What a row's state means, after any run. Its history is a walk of the transition table
      with at most four moves; a row past `init` and not failed has an outpoint; a refunded or
      cancelled row has an outpoint an indexer answer has shown spent, and so has a claimed
      one unless it was written blind; with a truthful indexer such an outpoint is spent in
      the ledger. */
  lemma RowsMeanWhatTheySay(us: Key, server: Key, honest: bool, es: seq<Event>, id: SwapId)
    requires id in Run(Start(us, server, honest), es).files
    ensures var w := Run(Start(us, server, honest), es);
      var f := w.files[id];
      && IsPath(Send, f.hist) && f.hist[0] == Init && f.hist[|f.hist| - 1] == f.row.state && |f.hist| <= 5
      && (f.row.state != Init && f.row.state != Failed ==> f.row.fundingOutpoint.Some?)
      && (f.row.state == Refunded || f.row.state == Cancelled || (f.row.state == Claimed && !f.blind) ==>
            exists o :: o in f.recorded && o in w.gone && (honest ==> IsSpent(w, o)))
      && (f.blind ==> f.row.state == Claimed)
  {
    var w := Run(Start(us, server, honest), es);
    StartOk(us, server, honest);
    RunKeeps(Start(us, server, honest), es);
    RunGrows(Start(us, server, honest), es);
    var f := w.files[id];
    assert StateOk(f, w.gone) && GoneOk(honest, w.gone, w.coins);
    AtMostFourTransitions(Send, f.hist);
    if f.recorded * w.gone != {} {
      var o :| o in f.recorded * w.gone;
      assert o in f.recorded && o in w.gone && (honest ==> IsSpent(w, o));
    }
  }

  /** A terminal row stays exactly as terminal as it is, and a spent output stays spent by
      the same transaction, whatever happens afterwards. */
  lemma TerminalForever(us: Key, server: Key, honest: bool, es: seq<Event>, more: seq<Event>, id: SwapId)
    requires id in Run(Start(us, server, honest), es).files
    requires Terminal(Send, Run(Start(us, server, honest), es).files[id].row.state)
    ensures var w := Run(Start(us, server, honest), es);
      var v := Run(w, more);
      && id in v.files && v.files[id].row.state == w.files[id].row.state && v.files[id].hist == w.files[id].hist
      && (forall o :: o in w.coins && w.coins[o].spentBy.Some? ==> o in v.coins && v.coins[o].spentBy == w.coins[o].spentBy)
  {
    hide Inv, Terminal;
    var w := Run(Start(us, server, honest), es);
    var v := Run(w, more);
    StartOk(us, server, honest);
    RunKeeps(Start(us, server, honest), es);
    RunKeeps(w, more);
    RunGrows(w, more);
    FileOf(w, id);
    FileOf(v, id);
    assert FileLater(w.files[id], v.files[id]);
    PathStuck(w.files[id].hist, w.files[id].row.state, v.files[id].hist, v.files[id].row.state);
    forall o | o in w.coins && w.coins[o].spentBy.Some? ensures o in v.coins && v.coins[o].spentBy == w.coins[o].spentBy {
      assert CoinLater(w.coins[o], v.coins[o]);
    }
  }

  lemma PathStuck(h: seq<State>, s: State, g: seq<State>, to: State)
    requires PathTo(h, s) && PathTo(g, to) && h <= g && Terminal(Send, s)
    ensures g == h && to == s
  {
    AtMostFourTransitions(Send, g);
    assert g[|h| - 1] == s;
  }

  /** When 'claimed' can be believed. A run writes 'claimed' without a confirming indexer
      read exactly when a pass asks boltz about a snapshot that has no outpoint, boltz says
      claimed, and by then the row is funded or in flight (WritesBlind). A run in which that
      never happens has evidence for every claimed row. */
  lemma ClaimsAreCheckedExactlyWhen(us: Key, server: Key, honest: bool, es: seq<Event>)
    ensures var w := Run(Start(us, server, honest), es);
      && (MarkedIn(Start(us, server, honest), es) == {} <==> forall id :: id in w.files ==> !w.files[id].blind)
      && (MarkedIn(Start(us, server, honest), es) == {} ==>
            forall id :: id in w.files && w.files[id].row.state == Claimed ==> w.files[id].recorded * w.gone != {})
  {
    var s := Start(us, server, honest);
    var w := Run(s, es);
    StartOk(us, server, honest);
    RunKeeps(s, es);
    MarksAreFinal(us, server, honest, es);
    forall id | id in w.files ensures StateOk(w.files[id], w.gone) {
      FileOf(w, id);
    }
  }

  lemma BlindWriteIs(w: World, t: TaskId, k: Task, a: Answer)
    requires t in w.tasks && w.tasks[t] == k && k.id in w.files && k.id in PassMarks(w, k, a)
    ensures a.StatusAnswer? && a.status.SaysClaimed? && Step(w, Continue(t, a)) == WriteClaimed(w, t, k.id, a.status.preimage, None)
    ensures ClaimedFile(w.files[k.id], w.now).Some?
  {
    hide WriteClaimed, ClaimedFile;
  }

  lemma BlindWriteKeeps(w: World, t: TaskId, id: SwapId, preimage: Option<string>)
    requires id in w.files && w.files[id].row.direction == Send && ClaimedFile(w.files[id], w.now).Some?
    ensures var v := WriteClaimed(w, t, id, preimage, None);
      && id in v.files && v.files[id].row.state == Claimed && w.files[id].row.state != Claimed
      && v.files[id].recorded == w.files[id].recorded && v.gone == w.gone
  {
  }

  /** The same against the evidence itself. In every reachable state, a step makes a row claimed
      while no outpoint of it is shown spent exactly when it marks the row blind and none was
      shown spent before. */
  lemma UncheckedExactlyWhen(us: Key, server: Key, honest: bool, es: seq<Event>, t: TaskId, a: Answer)
    requires t in Run(Start(us, server, honest), es).tasks
    ensures var w := Run(Start(us, server, honest), es);
      var id, v := w.tasks[t].id, Step(w, Continue(t, a));
      && id in w.files && id in v.files
      && (v.files[id].row.state == Claimed != w.files[id].row.state && v.files[id].recorded * v.gone == {}
          <==> id in PassMarks(w, w.tasks[t], a) && w.files[id].recorded * w.gone == {})
  {
    var w := Run(Start(us, server, honest), es);
    StartOk(us, server, honest);
    RunKeeps(Start(us, server, honest), es);
    TaskHasFile(w, t);
    hide Run, Start;
    UncheckedNext(w, t, w.tasks[t], a);
  }

  lemma TaskHasFile(w: World, t: TaskId)
    requires Inv(w) && t in w.tasks
    ensures w.tasks[t].id in w.files
  {
    assert TaskOk(w.tasks[t], w.files);
    hide FilesOk, SignaturesOk, CoinsOk, GoneOk;
  }

  lemma UncheckedNext(w: World, t: TaskId, k: Task, a: Answer)
    requires Inv(w) && t in w.tasks && w.tasks[t] == k && k.id in w.files
    ensures var v := Step(w, Continue(t, a));
      && k.id in v.files
      && (v.files[k.id].row.state == Claimed != w.files[k.id].row.state && v.files[k.id].recorded * v.gone == {}
          <==> k.id in PassMarks(w, k, a) && w.files[k.id].recorded * w.gone == {})
  {
    hide *;
    var id := k.id;
    var v := Step(w, Continue(t, a));
    StepGrows(w, Continue(t, a));
    StepKeeps(w, Continue(t, a));
    GrowsParts(w, v, t, k, a);
    FileOf(w, id);
    FileOf(v, id);
    StateParts(w.files[id], w.gone);
    StateParts(v.files[id], v.gone);
    assert w.files[id].recorded * w.gone <= v.files[id].recorded * v.gone;
    if id in PassMarks(w, k, a) {
      BlindWriteIs(w, t, k, a);
      BlindWriteKeeps(w, t, id, a.status.preimage);
    }
  }

  lemma StateParts(f: File, gone: set<Outpoint>)
    requires StateOk(f, gone)
    ensures f.row.direction == Send && (f.blind ==> f.row.state == Claimed)
    ensures f.row.state == Claimed && f.recorded * gone == {} ==> f.blind
  {
  }

  lemma GrowsParts(w: World, v: World, t: TaskId, k: Task, a: Answer)
    requires Grows(w, v, MarkedBy(w, Continue(t, a))) && t in w.tasks && w.tasks[t] == k && k.id in w.files
    ensures k.id in v.files && w.files[k.id].recorded <= v.files[k.id].recorded && w.gone <= v.gone
    ensures k.id !in PassMarks(w, k, a) ==> v.files[k.id].blind == w.files[k.id].blind
  {
    hide PassMarks;
  }

  /** The swaps marked blind at the end of a run from the start are those the run marked. */
  lemma MarksAreFinal(us: Key, server: Key, honest: bool, es: seq<Event>)
    ensures var w := Run(Start(us, server, honest), es);
      && (forall id :: id in w.files ==> (w.files[id].blind <==> id in MarkedIn(Start(us, server, honest), es)))
      && MarkedIn(Start(us, server, honest), es) <= w.files.Keys
  {
    RunGrows(Start(us, server, honest), es);
    MarkedStay(Start(us, server, honest), es);
  }

  lemma {:induction false} MarkedStay(w: World, es: seq<Event>)
    ensures forall id :: id in MarkedIn(w, es) ==> id in Run(w, es).files && Run(w, es).files[id].blind
    decreases |es|
  {
    hide Step, MarkedBy;
    if es != [] {
      var v := Step(w, es[0]);
      StepGrows(w, es[0]);
      MarkedStay(v, es[1..]);
      RunGrows(v, es[1..]);
      forall id | id in MarkedBy(w, es[0]) ensures id in Run(w, es).files && Run(w, es).files[id].blind {
        assert id in v.files && FileLater(v.files[id], Run(v, es[1..]).files[id]);
      }
    }
  }

  // ---- a claimed row without a claim -----------------------------------------------------

  lemma {:induction false} OneMore(w: World, es: seq<Event>, i: nat)
    requires i < |es|
    ensures Run(w, es[..i + 1]) == Step(Run(w, es[..i]), es[i])
    decreases i
  {
    hide Step;
    if i == 0 {
      assert es[..1][1..] == [] && es[..0] == [];
    } else {
      var v := Step(w, es[0]);
      OneMore(v, es[1..], i - 1);
      assert es[..i + 1][1..] == es[1..][..i] && es[..i][1..] == es[1..][..i - 1];
    }
  }

  /** A pass reads the row while its send is still funding, the send then runs to its end, and
      only then does the pass get to the row: the send is no longer in flight, the snapshot has
      no outpoint, and a boltz that says claimed is believed. Nothing was ever spent. */
  function StaleRun(o: Order, script: Options, point: Outpoint): seq<Event> {
    [
      StartSend(0, o),
      TakeSnapshot(1, o.id, 0),
      Outside(CoinAppears(point, script, o.funding)),
      Continue(0, FundingDone(true)),
      Continue(0, LocateAnswer(Some(point))),
      Continue(0, SignClaim),
      Continue(0, HandOver),
      Continue(0, BoltzReplies(PaidReply("p"))),
      Continue(0, ConfirmAnswer(false)),
      Continue(1, MainPass),
      Continue(1, StatusAnswer(SaysClaimed(Some("p")), false))
    ]
  }

  /** The world of that run while its send is in a given stage and its pass is waiting. */
  ghost predicate Midway(w: World, id: SwapId, snap: Row, c: Outpoint, f: File, stage: SendStage) {
    && w.now == 0 && w.gone == {}
    && w.files == map[id := f] && w.inflight == {id}
    && w.tasks == map[0 := Sending(id, stage), 1 := Item(id, snap, 0)]
    && c in w.coins && w.coins[c].spentBy.None?
  }

  lemma PutOver(w: World, id: SwapId, snap: Row, c: Outpoint, f: File, g: File, stage: SendStage, next: SendStage)
    requires Midway(w, id, snap, c, f, stage)
    ensures Midway(Goto(Put(w, id, g), 0, Sending(id, next)), id, snap, c, g, next)
  {
    assert w.files[id := g] == map[id := g];
    assert w.tasks[0 := Sending(id, next)] == map[0 := Sending(id, next), 1 := Item(id, snap, 0)];
  }

  /** The row and agreement of a send that has just started. */
  function FreshFile(w: World, o: Order): File
    requires Accepts(w, o)
  {
    File(NewRow(w, o), [Init], {}, Deal(ScriptOf(w, NewRow(w, o)), o.amount, o.fee, o.dust, o.funding), None, false)
  }

  lemma BeginsUnderASnapshot(w: World, o: Order, c: Outpoint)
    requires w == Start(w.us, w.server, w.honestIndexer) && Accepts(w, o)
    ensures var script := FreshFile(w, o).deal.script;
      Midway(Step(Step(Step(w, StartSend(0, o)), TakeSnapshot(1, o.id, 0)), Outside(CoinAppears(c, script, o.funding))),
             o.id, NewRow(w, o), c, FreshFile(w, o), FundingSent)
  {
    hide Accepts;
    var f := FreshFile(w, o);
    var w1 := Step(w, StartSend(0, o));
    assert w1 == w.(files := map[o.id := f], inflight := {o.id}, tasks := map[0 := Sending(o.id, FundingSent)]);
    var w2 := Step(w1, TakeSnapshot(1, o.id, 0));
    assert w2 == w1.(tasks := map[0 := Sending(o.id, FundingSent), 1 := Item(o.id, f.row, 0)]);
  }

  ghost predicate Plain(f: File, state: State, recorded: set<Outpoint>) {
    f.row.direction == Send && f.row.state == state && f.recorded == recorded && !f.blind
  }

  lemma LocatedNext(w: World, id: SwapId, snap: Row, c: Outpoint, f: File)
    requires Midway(w, id, snap, c, f, FundingSent) && Plain(f, Init, {})
    ensures var v := Step(Step(w, Continue(0, FundingDone(true))), Continue(0, LocateAnswer(Some(c))));
      id in v.files && Midway(v, id, snap, c, v.files[id], Located(c)) && Plain(v.files[id], Init, {c}) && v.files[id].deal == f.deal
  {
    PutOver(w, id, snap, c, f, f, FundingSent, Locating);
    var v := Step(w, Continue(0, FundingDone(true)));
    assert Put(w, id, f) == w;
    var g := f.(row := WithOutpoint(f.row, c, 0), recorded := f.recorded + {c});
    PutOver(v, id, snap, c, f, g, Locating, Located(c));
  }

  lemma SignedNext(w: World, id: SwapId, snap: Row, c: Outpoint, f: File, s: Spend)
    requires Midway(w, id, snap, c, f, Located(c)) && Plain(f, Init, {c}) && ClaimSplit.SplitOf(SplitArgs(f.deal)).Success?
    requires s == Spend(c, f.deal.script, ClaimLeaf, ClaimSplit.SplitOf(SplitArgs(f.deal)).value.outputs)
    ensures var v := Step(w, Continue(0, SignClaim));
      Midway(v, id, snap, c, f.(claim := Some(s)), Presigned(s)) && s in v.signed
  {
    hide ClaimSplit.SplitOf, SplitArgs;
    PutOver(Sign(w, id, s), id, snap, c, f, f.(claim := Some(s)), Located(c), Presigned(s));
  }

  lemma PaidNext(w: World, id: SwapId, snap: Row, c: Outpoint, f: File, s: Spend)
    requires Midway(w, id, snap, c, f, Presigned(s)) && Plain(f, Init, {c}) && s.input == c
    ensures var v := Step(w, Continue(0, HandOver));
      id in v.files && Midway(v, id, snap, c, v.files[id], AwaitingBoltz(c)) && Plain(v.files[id], LnInflight, {c})
      && v.files[id].deal == f.deal && v.files[id].claim == f.claim && v.signed == w.signed
  {
    hide StepHandOver, Goto;
    var h := f.(row := WithPresigs(f.row, s, 0).(state := LnInflight), hist := f.hist + [Funded] + [LnInflight]);
    HandedOver(w, id, s);
    PutOver(w, id, snap, c, f, h, Presigned(s), AwaitingBoltz(c));
    assert Step(w, Continue(0, HandOver)) == Goto(Put(w, id, h), 0, Sending(id, AwaitingBoltz(c)));
    GotoKeepsFiles(Put(w, id, h), 0, Sending(id, AwaitingBoltz(c)));
  }

  lemma GotoKeepsFiles(w: World, t: TaskId, k: Task)
    ensures Goto(w, t, k).files == w.files && Goto(w, t, k).signed == w.signed
  {
  }

  /** Handing over from init goes through funded to ln_inflight. */
  lemma HandedOver(w: World, id: SwapId, s: Spend)
    requires id in w.files && w.files[id].row.direction == Send && w.files[id].row.state == Init && w.now == 0
    ensures var g := w.files[id];
      StepHandOver(w, 0, id, s) == Goto(Put(w, id, g.(row := WithPresigs(g.row, s, 0).(state := LnInflight), hist := g.hist + [Funded] + [LnInflight])),
                                        0, Sending(id, AwaitingBoltz(s.input)))
  {
    hide Goto;
    var g := w.files[id];
    var g0 := g.(row := WithPresigs(g.row, s, 0));
    var w0 := Put(w, id, g0);
    var g1 := g0.(row := g0.row.(state := Funded), hist := g.hist + [Funded]);
    assert Move(w0, id, Funded) == Some(Put(w0, id, g1));
    var w1 := Put(w0, id, g1);
    var g2 := g1.(row := g1.row.(state := LnInflight), hist := g1.hist + [LnInflight]);
    assert Move(w1, id, LnInflight) == Some(Put(w1, id, g2));
    assert Put(Put(Put(w, id, g0), id, g1), id, g2) == Put(w, id, g2);
  }

  lemma SendEnds(w: World, id: SwapId, snap: Row, c: Outpoint, f: File)
    requires Midway(w, id, snap, c, f, AwaitingBoltz(c)) && Plain(f, LnInflight, {c})
    ensures var v := Step(Step(w, Continue(0, BoltzReplies(PaidReply("p")))), Continue(0, ConfirmAnswer(false)));
      && v.inflight == {} && v.tasks == map[1 := Item(id, snap, 0)] && id in v.files && Plain(v.files[id], LnInflight, {c})
      && v.gone == {} && c in v.coins && v.coins[c].spentBy.None?
  {
    var v := Goto(w, 0, Sending(id, Confirming(c, "p")));
    assert Step(w, Continue(0, BoltzReplies(PaidReply("p")))) == v;
    assert v.tasks == map[0 := Sending(id, Confirming(c, "p")), 1 := Item(id, snap, 0)];
    UnconfirmedEnd(v, id, snap, c, f);
  }

  lemma UnconfirmedEnd(w: World, id: SwapId, snap: Row, c: Outpoint, f: File)
    requires Midway(w, id, snap, c, f, Confirming(c, "p")) && Plain(f, LnInflight, {c})
    ensures var v := Step(w, Continue(0, ConfirmAnswer(false)));
      && v.inflight == {} && v.tasks == map[1 := Item(id, snap, 0)] && id in v.files && Plain(v.files[id], LnInflight, {c})
      && v.gone == {} && c in v.coins && v.coins[c].spentBy.None?
  {
    assert Step(w, Continue(0, ConfirmAnswer(false))) == Finish(KeepPreimage(w, id, Some("p")), 0, id, true);
  }

  lemma PassAsks(w: World, id: SwapId, snap: Row)
    requires w.inflight == {} && w.tasks == map[1 := Item(id, snap, 0)] && id in w.files
    requires snap.direction == Send && snap.state == Init
    ensures Step(w, Continue(1, MainPass)) == Goto(w, 1, AskingStatus(id, snap, false))
  {
  }

  lemma PassWrites(w: World, id: SwapId, snap: Row)
    requires 1 in w.tasks && w.tasks[1] == AskingStatus(id, snap, false) && id in w.files && snap.fundingOutpoint.None?
    ensures Step(w, Continue(1, StatusAnswer(SaysClaimed(Some("p")), false))) == WriteClaimed(w, 1, id, Some("p"), None)
  {
    hide WriteClaimed;
  }

  lemma BlindClaim(w: World, id: SwapId, c: Outpoint)
    requires id in w.files && Plain(w.files[id], LnInflight, {c})
    ensures var v := WriteClaimed(w, 1, id, Some("p"), None);
      && id in v.files && v.files[id].row.state == Claimed && v.files[id].recorded == {c} && v.files[id].blind
      && v.gone == w.gone && v.coins == w.coins
  {
  }

  lemma PassBelieves(w: World, id: SwapId, snap: Row, c: Outpoint)
    requires w.inflight == {} && w.tasks == map[1 := Item(id, snap, 0)] && id in w.files && Plain(w.files[id], LnInflight, {c})
    requires snap.direction == Send && snap.state == Init && snap.fundingOutpoint.None?
    ensures var v := Step(Step(w, Continue(1, MainPass)), Continue(1, StatusAnswer(SaysClaimed(Some("p")), false)));
      && id in v.files && v.files[id].row.state == Claimed && v.files[id].recorded == {c} && v.files[id].blind
      && v.gone == w.gone && v.coins == w.coins
  {
    hide Step, WriteClaimed, Plain;
    PassAsks(w, id, snap);
    var v := Goto(w, 1, AskingStatus(id, snap, false));
    PassWrites(v, id, snap);
    BlindClaim(v, id, c);
  }

  lemma FreshSplits(w: World, o: Order)
    requires Accepts(w, o) && o.amount > 0
    ensures ClaimSplit.SplitOf(SplitArgs(FreshFile(w, o).deal)).Success? && Plain(FreshFile(w, o), Init, {})
  {
    ClaimSplit.RefusedExactlyWhen(SplitArgs(FreshFile(w, o).deal));
  }

  lemma FirstThree(w: World, es: seq<Event>)
    requires |es| >= 3
    ensures Run(w, es[..3]) == Step(Step(Step(w, es[0]), es[1]), es[2])
  {
    hide Step;
    assert es[..0] == [];
    OneMore(w, es, 0);
    OneMore(w, es, 1);
    OneMore(w, es, 2);
  }

  lemma SendLocates(w: World, o: Order, c: Outpoint, es: seq<Event>)
    requires w == Start(w.us, w.server, w.honestIndexer) && Accepts(w, o) && o.amount > 0
    requires es == StaleRun(o, FreshFile(w, o).deal.script, c)
    ensures var v := Run(w, es[..5]);
      && o.id in v.files && Midway(v, o.id, NewRow(w, o), c, v.files[o.id], Located(c))
      && Plain(v.files[o.id], Init, {c}) && v.files[o.id].deal == FreshFile(w, o).deal
  {
    hide Run, Step, Start, Accepts, ScriptOf, FreshFile, NewRow, Midway, Plain;
    var f := FreshFile(w, o);
    FirstThree(w, es);
    BeginsUnderASnapshot(w, o, c);
    FreshSplits(w, o);
    LocatedNext(Run(w, es[..3]), o.id, NewRow(w, o), c, f);
    OneMore(w, es, 3);
    OneMore(w, es, 4);
  }

  /** The one claim a send signs. */
  function AgreedClaim(d: Deal, c: Outpoint): Spend
    requires ClaimSplit.SplitOf(SplitArgs(d)).Success?
  {
    Spend(c, d.script, ClaimLeaf, ClaimSplit.SplitOf(SplitArgs(d)).value.outputs)
  }

  lemma SignsAndHandsOver(w: World, id: SwapId, snap: Row, c: Outpoint, f: File)
    requires Midway(w, id, snap, c, f, Located(c)) && Plain(f, Init, {c}) && ClaimSplit.SplitOf(SplitArgs(f.deal)).Success?
    ensures var v := Step(Step(w, Continue(0, SignClaim)), Continue(0, HandOver));
      && id in v.files && Midway(v, id, snap, c, v.files[id], AwaitingBoltz(c)) && Plain(v.files[id], LnInflight, {c})
      && v.files[id].deal == f.deal && v.files[id].claim == Some(AgreedClaim(f.deal, c)) && v.files[id].claim.value in v.signed
  {
    hide ClaimSplit.SplitOf, SplitArgs, Step, Midway;
    var s := AgreedClaim(f.deal, c);
    SignedNext(w, id, snap, c, f, s);
    PaidNext(Step(w, Continue(0, SignClaim)), id, snap, c, f.(claim := Some(s)), s);
  }

  lemma SendRunsThrough(w: World, o: Order, c: Outpoint, es: seq<Event>)
    requires w == Start(w.us, w.server, w.honestIndexer) && Accepts(w, o) && o.amount > 0
    requires es == StaleRun(o, FreshFile(w, o).deal.script, c)
    ensures var v := Run(w, es[..7]);
      && o.id in v.files && Midway(v, o.id, NewRow(w, o), c, v.files[o.id], AwaitingBoltz(c))
      && Plain(v.files[o.id], LnInflight, {c}) && v.files[o.id].deal == FreshFile(w, o).deal
      && ClaimSplit.SplitOf(SplitArgs(FreshFile(w, o).deal)).Success?
      && v.files[o.id].claim == Some(AgreedClaim(FreshFile(w, o).deal, c)) && v.files[o.id].claim.value in v.signed
  {
    hide *;
    FreshSplits(w, o);
    SendLocates(w, o, c, es);
    ShapeOfStale(o, FreshFile(w, o).deal.script, c);
    SignsAndHandsOver(Run(w, es[..5]), o.id, NewRow(w, o), c, Run(w, es[..5]).files[o.id]);
    OneMore(w, es, 5);
    OneMore(w, es, 6);
  }

  lemma ShapeOfStale(o: Order, script: Options, c: Outpoint)
    ensures var es := StaleRun(o, script, c);
      |es| == 11 && es[5] == Continue(0, SignClaim) && es[6] == Continue(0, HandOver)
  {
  }

  /** Whatever a caller agrees to send, even with a truthful indexer there is a run that ends
      with its row 'claimed' while its only recorded output is still unspent. */
  lemma ClaimedWithoutASpend(us: Key, server: Key, o: Order, c: Outpoint)
    requires Accepts(Start(us, server, true), o) && o.amount > 0
    ensures var w := Start(us, server, true);
      var v := Run(w, StaleRun(o, FreshFile(w, o).deal.script, c));
      && o.id in v.files && v.files[o.id].row.state == Claimed && v.files[o.id].recorded == {c}
      && c in v.coins && v.coins[c].spentBy.None? && v.gone == {}
  {
    var w := Start(us, server, true);
    var es := StaleRun(o, FreshFile(w, o).deal.script, c);
    SendRunsThrough(w, o, c, es);
    hide Step, Accepts, ScriptOf, Midway, Plain;
    var w7 := Run(w, es[..7]);
    SendEnds(w7, o.id, NewRow(w, o), c, w7.files[o.id]);
    OneMore(w, es, 7);
    OneMore(w, es, 8);
    PassBelieves(Run(w, es[..9]), o.id, NewRow(w, o), c);
    OneMore(w, es, 9);
    OneMore(w, es, 10);
    assert es[..11] == es;
  }
}
