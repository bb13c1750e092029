/** What the mirror guarantees over whole runs, and where it does not. */
module VaultTheorems {
  import opened Wrappers
  import opened SharedScript
  import opened ExitChain
  import opened Vault
  import opened Evidence
  import opened ProofSync
  import opened ProofGc

  // ---- runs ----------------------------------------------------------------------------------

  /** What happens next to the mirror: a pass, a capture, or only other parts of the bridge. */
  datatype VaultStep =
    | Pass(vtxos: seq<LiveVtxo>, now: int)
    | Capture(o: Outpoint, snapshot: Snapshot, now: int)
    | Idle

  /** What a step did. Of a pass: the answer and the tables its second half started from, the
      rows it had to ask about and what it decided about each. */
  datatype Done =
    | DidPass(mid: nat, first: Tables, need: seq<Outpoint>, fates: map<Outpoint, Fate>)
    | DidCapture(r: CaptureResult)
    | DidNothing

  /** A step from the answer `from` to the answer `to` took the tables from `t` to `u`. */
  ghost predicate Executed(net: Net, from: nat, to: nat, step: VaultStep, d: Done, t: Tables, u: Tables) {
    from <= to &&
    match (step, d)
    case (Pass(vtxos, now), DidPass(mid, first, need, fates)) =>
      && from <= mid
      && TapsStay(t, first, Foreign(net, from, mid) + DriftingAll(t, vtxos))
      && Holds(t, first, Foreign(net, from, mid)) && AtomicStay(t, first, ReleasedIn(net, from, mid)) && (Filed(t) ==> Filed(first))
      && Accounted(first, u, net, mid, to, vtxos, need, fates, now)
    case (Capture(o, v, now), DidCapture(r)) => CaptureDone(t, u, net, from, to, o, v, now, r)
    case (Idle, DidNothing) => u == DidAll(t, ActsBetween(net, from, to))
    case _ => false
  }

  /** The outpoints whose own row a step was aimed at or had evidence against: those other
      parts of the bridge captured, released or forgot meanwhile, the one it captured, and the
      ones it forgot as swept by us, absorbed or verifiably spent. */
  function Aimed(net: Net, from: nat, to: nat, step: VaultStep, d: Done): set<Outpoint> {
    match (step, d)
    case (Pass(vtxos, _), DidPass(_, first, _, fates)) => Foreign(net, from, to) + Forgotten(first, Points(vtxos), fates)
    case (Capture(o, _, _), _) => Foreign(net, from, to) + {o}
    case _ => Foreign(net, from, to)
  }

  /** The rows a step dropped because an exit of our own had swept them. */
  function SweptBy(step: VaultStep, d: Done): set<Outpoint> {
    match (step, d)
    case (Pass(vtxos, _), DidPass(_, first, _, _)) => Exited(first, Points(vtxos))
    case _ => {}
  }

  ghost predicate IsRun(net: Net, steps: seq<VaultStep>, at: seq<nat>, ds: seq<Done>, ts: seq<Tables>) {
    && |at| == |ts| == |steps| + 1 && |ds| == |steps|
    && forall i :: 0 <= i < |steps| ==> Executed(net, at[i], at[i + 1], steps[i], ds[i], ts[i], ts[i + 1])
  }

  lemma StepHolds(net: Net, from: nat, to: nat, step: VaultStep, d: Done, t: Tables, u: Tables)
    requires Executed(net, from, to, step, d, t, u)
    ensures Holds(t, u, Aimed(net, from, to, step, d)) && (Filed(t) ==> Filed(u))
    ensures AtomicStay(t, u, ReleasedIn(net, from, to) + SweptBy(step, d))
  {
    hide Holds, Filed, AtomicStay, TapsStay, Justified, SameOutside, Released, Touched, DidAll, ActsBetween, Sorted, Settled, NeedsEvidence, Deleted, ExitedByUs;
    match (step, d)
    case (Pass(vtxos, now), DidPass(mid, first, need, fates)) =>
      ActsSplit(net, from, mid, to);
      var all := Aimed(net, from, to, step, d);
      HoldsBut(t, first, Foreign(net, from, mid), all);
      HoldsBut(first, u, Foreign(net, mid, to) + Forgotten(first, Points(vtxos), fates), all);
      HoldsFurther(t, first, u, all);
      AtomicStayFurther(t, first, u, ReleasedIn(net, from, mid), ReleasedIn(net, mid, to) + Exited(first, Points(vtxos)));
      assert ReleasedIn(net, from, mid) + (ReleasedIn(net, mid, to) + Exited(first, Points(vtxos))) == ReleasedIn(net, from, to) + SweptBy(step, d);
    case (Capture(_, _, _), DidCapture(_)) => assert ReleasedIn(net, from, to) + {} == ReleasedIn(net, from, to);
    case (Idle, DidNothing) =>
      WaitHolds(t, net, from, to, Outpoint("", 0));
      assert ReleasedIn(net, from, to) + {} == ReleasedIn(net, from, to);
    case _ =>
  }

  /** Over any run of passes, captures, releases, forgets and collections, against arbitrary
      answers: a row no step was aimed at stays, keeps its owner, its expiry never shrinks, and
      once ready it is ready at every later time, under the same chain. */
  lemma {:induction false} NeverDegraded(net: Net, steps: seq<VaultStep>, at: seq<nat>, ds: seq<Done>, ts: seq<Tables>, i: nat, j: nat, o: Outpoint)
    requires IsRun(net, steps, at, ds, ts) && i <= j < |ts| && o in ts[i].rows
    requires forall k :: i <= k < j ==> o !in Aimed(net, at[k], at[k + 1], steps[k], ds[k])
    ensures RowHolds(ts[i], ts[j], o)
    decreases j - i
  {
    hide Executed, Aimed;
    if i < j {
      NeverDegraded(net, steps, at, ds, ts, i, j - 1, o);
      StepHolds(net, at[j - 1], at[j], steps[j - 1], ds[j - 1], ts[j - 1], ts[j]);
      assert RowHolds(ts[j - 1], ts[j], o);
    }
  }

  /** The rows a step gives another script or tap tree because the live set reports it so. */
  function DriftedBy(step: VaultStep, t: Tables): set<Outpoint> {
    match step
    case Pass(vtxos, _) => DriftingAll(t, vtxos)
    case _ => {}
  }

  lemma StepTaps(net: Net, from: nat, to: nat, step: VaultStep, d: Done, t: Tables, u: Tables)
    requires Executed(net, from, to, step, d, t, u)
    ensures TapsStay(t, u, Aimed(net, from, to, step, d) + DriftedBy(step, t))
  {
    hide Holds, Filed, AtomicStay, TapsStay, Justified, SameOutside, Foreign, DidAll, ActsBetween, Sorted, Settled, NeedsEvidence, Forgotten, DriftingAll;
    var all := Aimed(net, from, to, step, d) + DriftedBy(step, t);
    match (step, d)
    case (Pass(vtxos, now), DidPass(mid, first, need, fates)) =>
      ActsSplit(net, from, mid, to);
      AccountedTaps(first, u, net, mid, to, vtxos, need, fates, now);
      TapsFurther(t, first, u, Foreign(net, from, mid) + DriftingAll(t, vtxos), Foreign(net, mid, to) + Forgotten(first, Points(vtxos), fates), all);
    case (Capture(o, _, _), DidCapture(_)) => assert all == Foreign(net, from, to) + {o};
    case (Idle, DidNothing) =>
      WaitHolds(t, net, from, to, Outpoint("", 0));
      assert all == Foreign(net, from, to);
    case _ =>
  }

  /** Over any such run, a row no step was aimed at keeps the script of its output and the tree
      it is spent with, as long as every pass reports the vtxo with the same ones or not at
      all. Ready or not, what an exit sweeps it by stays what it was. */
  lemma {:induction false} SpendDataStays(net: Net, steps: seq<VaultStep>, at: seq<nat>, ds: seq<Done>, ts: seq<Tables>, i: nat, j: nat, o: Outpoint)
    requires IsRun(net, steps, at, ds, ts) && i <= j < |ts| && o in ts[i].rows
    requires forall k :: i <= k < j ==> o !in Aimed(net, at[k], at[k + 1], steps[k], ds[k])
    requires forall k, v :: i <= k < j && steps[k].Pass? && v in steps[k].vtxos && v.point == o ==>
      v.script == ts[i].rows[o].script && v.tapTree == ts[i].rows[o].tapTree
    ensures o in ts[j].rows && ts[j].rows[o].script == ts[i].rows[o].script && ts[j].rows[o].tapTree == ts[i].rows[o].tapTree
    decreases j - i
  {
    hide Executed, Aimed;
    if i < j {
      SpendDataStays(net, steps, at, ds, ts, i, j - 1, o);
      StepTaps(net, at[j - 1], at[j], steps[j - 1], ds[j - 1], ts[j - 1], ts[j]);
      assert o !in DriftedBy(steps[j - 1], ts[j - 1]);
    }
  }

  /** Proofs stay filed under the txid they decode to. */
  lemma {:induction false} StaysFiled(net: Net, steps: seq<VaultStep>, at: seq<nat>, ds: seq<Done>, ts: seq<Tables>, i: nat, j: nat)
    requires IsRun(net, steps, at, ds, ts) && i <= j < |ts| && Filed(ts[i])
    ensures Filed(ts[j])
    decreases j - i
  {
    hide Executed;
    if i < j {
      StaysFiled(net, steps, at, ds, ts, i, j - 1);
      StepHolds(net, at[j - 1], at[j], steps[j - 1], ds[j - 1], ts[j - 1], ts[j]);
    }
  }

  /** A row of an atomic swap leaves the vault in one of two ways only: its send released it,
      or an exit of our own had swept it when a pass came by. No answer of the server, no
      capture and no operator takes it away. */
  lemma {:induction false} AtomicRowsLeaveTwoWays(net: Net, steps: seq<VaultStep>, at: seq<nat>, ds: seq<Done>, ts: seq<Tables>, i: nat, j: nat, o: Outpoint)
    requires IsRun(net, steps, at, ds, ts) && i <= j < |ts| && AtomicRow(ts[i], o)
    requires forall k :: i <= k < j ==> o !in ReleasedIn(net, at[k], at[k + 1]) && o !in SweptBy(steps[k], ds[k])
    ensures AtomicRow(ts[j], o)
    decreases j - i
  {
    hide Executed, SweptBy, ReleasedIn, AtomicRow;
    if i < j {
      AtomicRowsLeaveTwoWays(net, steps, at, ds, ts, i, j - 1, o);
      StepHolds(net, at[j - 1], at[j], steps[j - 1], ds[j - 1], ts[j - 1], ts[j]);
    }
  }

  /** One step, executed. */
  method RunStep(vault: ExitVault, net: Net, at: nat, step: VaultStep) returns (next: nat, ghost d: Done)
    modifies vault
    ensures Executed(net, at, next, step, d, old(vault.Now()), vault.Now())
  {
    hide Holds, Filed, AtomicStay, TapsStay, Accounted, CaptureDone, DidAll, ActsBetween, Forgotten, DriftingAll;
    match step {
      case Pass(vtxos, now) =>
        ghost var mid, first, need;
        var report;
        report, next, mid, first, need := SyncProofs(vault, net, at, vtxos, now);
        d := DidPass(mid, first, need, report.fates);
      case Capture(o, snapshot, now) =>
        var r;
        r, next := CaptureVtxo(vault, net, at, o, snapshot, now);
        CaptureEnds(old(vault.Now()), vault.Now(), net, at, next, o, snapshot, now, r);
        d := DidCapture(r);
      case Idle =>
        var reply;
        reply, next := Await(vault, net, at);
        d := DidNothing;
    }
  }

  lemma CaptureEnds(start: Tables, t: Tables, net: Net, at: nat, next: nat, o: Outpoint, v: Snapshot, now: int, r: CaptureResult)
    requires CaptureDone(start, t, net, at, next, o, v, now, r)
    ensures at < next
  {
  }

  /** Any number of steps, executed one after the other. */
  method RunAll(vault: ExitVault, net: Net, from: nat, steps: seq<VaultStep>)
    returns (next: nat, ghost at: seq<nat>, ghost ds: seq<Done>, ghost ts: seq<Tables>)
    modifies vault
    ensures IsRun(net, steps, at, ds, ts)
    ensures at[0] == from && at[|steps|] == next && ts[0] == old(vault.Now()) && ts[|steps|] == vault.Now()
    ensures forall o :: o in old(vault.rows) && (forall k :: 0 <= k < |steps| ==> o !in Aimed(net, at[k], at[k + 1], steps[k], ds[k])) ==>
      RowHolds(old(vault.Now()), vault.Now(), o)
    ensures Filed(old(vault.Now())) ==> Filed(vault.Now())
  {
    hide Executed, Aimed, RowHolds, Filed;
    next, at, ds, ts := from, [from], [], [vault.Now()];
    for n := 0 to |steps|
      invariant |at| == |ts| == n + 1 && |ds| == n
      invariant at[0] == from && at[n] == next && ts[0] == old(vault.Now()) && ts[n] == vault.Now()
      invariant forall i :: 0 <= i < n ==> Executed(net, at[i], at[i + 1], steps[i], ds[i], ts[i], ts[i + 1])
    {
      ghost var d;
      next, d := RunStep(vault, net, next, steps[n]);
      at, ds, ts := at + [next], ds + [d], ts + [vault.Now()];
    }
    forall o | o in old(vault.rows) && (forall k :: 0 <= k < |steps| ==> o !in Aimed(net, at[k], at[k + 1], steps[k], ds[k]))
      ensures RowHolds(old(vault.Now()), vault.Now(), o)
    {
      NeverDegraded(net, steps, at, ds, ts, 0, |steps|, o);
    }
    if Filed(ts[0]) {
      StaysFiled(net, steps, at, ds, ts, 0, |steps|);
    }
  }

  // ---- what a pass forgets -----------------------------------------------------------------------

  /** A row a pass forgets was not live, and either our own exit of it had completed, or it is
      a row of the wallet that no exit of ours explains and for which there is evidence: a
      balanced settlement, or a transaction the indexer served in this pass that carries our
      own signature over exactly this outpoint. */
  lemma ForgottenNeedsEvidence(first: Tables, t: Tables, net: Net, mid: nat, next: nat, vtxos: seq<LiveVtxo>,
                               need: seq<Outpoint>, fates: map<Outpoint, Fate>, now: int, o: Outpoint)
    requires Accounted(first, t, net, mid, next, vtxos, need, fates, now)
    requires o in Forgotten(first, Points(vtxos), fates)
    ensures o in first.rows && o !in Points(vtxos)
    ensures (o in first.ops && first.ops[o] == Swept)
         || (first.rows[o].source == FromWallet && (o in first.ops ==> first.ops[o] == FailedOp)
             && (o in AbsorbedAt(net, mid, first.rows, need, vtxos)
                 || exists p: Psbt :: ServedBetween(net, mid, next, p) && o in p.ourSpends))
  {
    hide Holds, SameOutside, Settled, Sorted, Filed, AbsorbedAt, Foreign;
    if !ExitedByUs(first, Points(vtxos), o) {
      assert o in fates && Deletes(fates[o]);
      if fates[o].Judged? {
        HeardIsServed(net, mid, fates[o].k, next, first.rows[o], o, now, fates[o].verdict);
      }
    }
  }

  lemma HeardIsServed(net: Net, mid: nat, k: nat, next: nat, r: Row, o: Outpoint, now: int, v: Verdict)
    requires mid <= k && Heard(net, k, next, r, o, now, v) && v.SpentVerified?
    ensures exists p: Psbt :: ServedBetween(net, mid, next, p) && o in p.ourSpends
  {
    VerifiedExactlyWhen(r, o, now, net(k).coins.value, net(k + 1).served.value.0);
    var p: Psbt :| Tx(p) in net(k + 1).served.value.0 && o in p.ourSpends;
    assert ServedAt(net, k + 1, p);
  }

  /** Whatever the server answers, a live row, an unswept row of an atomic swap and one whose
      exit is under way outlast the pass: the live one released from quarantine, the others
      untouched. */
  lemma LiveAndAtomicStay(first: Tables, t: Tables, net: Net, mid: nat, next: nat, vtxos: seq<LiveVtxo>,
                          need: seq<Outpoint>, fates: map<Outpoint, Fate>, now: int, o: Outpoint)
    requires Accounted(first, t, net, mid, next, vtxos, need, fates, now)
    requires o in first.rows && o !in Foreign(net, mid, next)
    ensures o in Points(vtxos) ==> o in t.rows && t.rows[o] == ReleasedRow(first.rows[o]) && t.rows[o].quarantinedAt.None?
    ensures o !in Points(vtxos) && first.rows[o].source == FromAtomic && !(o in first.ops && first.ops[o] == Swept)
         ==> o in t.rows && t.rows[o] == first.rows[o]
    ensures o !in Points(vtxos) && o in first.ops && (first.ops[o] == Unrolling || first.ops[o] == Waiting || first.ops[o] == Sweepable)
         ==> o in t.rows && t.rows[o] == first.rows[o]
  {
    assert o in fates ==> o in need;
  }

  /** A row the server cannot explain stays with its proofs, flagged since it was first
      unexplained; one whose check failed on the network stays exactly as it was. */
  lemma UnexplainedIsFlagged(first: Tables, t: Tables, net: Net, mid: nat, next: nat, vtxos: seq<LiveVtxo>,
                             need: seq<Outpoint>, fates: map<Outpoint, Fate>, now: int, o: Outpoint)
    requires Accounted(first, t, net, mid, next, vtxos, need, fates, now)
    requires NeedsEvidence(first, Points(vtxos), o) && o !in Foreign(net, mid, next)
    ensures o in fates
    ensures Deletes(fates[o]) <==> o !in t.rows
    ensures fates[o].Undecided? ==> t.rows[o] == first.rows[o]
    ensures fates[o].Judged? && !Deletes(fates[o]) ==>
      && t.rows[o].quarantinedAt == Some(first.rows[o].quarantinedAt.GetOr(now))
      && t.rows[o].chain == first.rows[o].chain && t.rows[o].script == first.rows[o].script && t.rows[o].tapTree == first.rows[o].tapTree
      && t.rows[o].reason == Some(if fates[o].verdict.Unproven? then fates[o].verdict.reason else EXPIRED_REASON)
      && (fates[o].verdict.Expired? <==> PastExpiry(first.rows[o], now))
  {
    hide Holds, Filed, Foreign, AbsorbedAt;
    assert o in need;
  }

  /** The sats of the rows a pass forgets as absorbed are exactly the sats of the live vtxos
      that came out of the balanced settlements those rows are credited to. */
  lemma ForgottenSatsAreBacked(first: Tables, t: Tables, net: Net, mid: nat, next: nat, vtxos: seq<LiveVtxo>,
                               need: seq<Outpoint>, fates: map<Outpoint, Fate>, now: int)
    requires Accounted(first, t, net, mid, next, vtxos, need, fates, now) && net(mid).coins.Some?
    ensures var cs := Candidates(first.rows, need, net(mid).coins.value);
      && (forall o :: o in fates && fates[o].Absorbed? ==> exists c :: c in cs && c.point == o && c.valueSat == first.rows[o].valueSat)
      && SatsAt(cs, set o | o in fates && fates[o].Absorbed?) == CreatedSat(vtxos, BalancedRounds(cs, vtxos)) <= LiveSat(vtxos)
  {
    hide *;
    var coins := net(mid).coins.value;
    AskedParts(first, t, net, mid, next, vtxos, need, fates, now);
    AbsorbedAreCandidates(first.rows, need, coins, vtxos);
    var cs := Candidates(first.rows, need, coins);
    AbsorptionIsBacked(cs, vtxos);
    assert (set o | o in fates && fates[o].Absorbed?) == AbsorbedBy(cs, vtxos);
  }

  lemma AskedParts(first: Tables, t: Tables, net: Net, mid: nat, next: nat, vtxos: seq<LiveVtxo>,
                   need: seq<Outpoint>, fates: map<Outpoint, Fate>, now: int)
    requires Accounted(first, t, net, mid, next, vtxos, need, fates, now) && net(mid).coins.Some?
    ensures (forall i, j :: 0 <= i < j < |need| ==> need[i] != need[j]) && (forall o :: o in need ==> o in first.rows)
    ensures forall o :: o in fates <==> o in need
    ensures need != [] ==> forall o :: o in fates ==> (fates[o].Absorbed? <==> o in AbsorbedBy(Candidates(first.rows, need, net(mid).coins.value), vtxos))
  {
    hide Holds, SameOutside, AtomicStay, Sorted, Settled, Foreign, Forgotten, Heard, NotHeard, AbsorbedBy, Candidates, Filed;
  }

  lemma AbsorbedAreCandidates(rows: RowMap, need: seq<Outpoint>, coins: seq<VirtualCoin>, vtxos: seq<LiveVtxo>)
    requires (forall o :: o in need ==> o in rows) && forall i, j :: 0 <= i < j < |need| ==> need[i] != need[j]
    ensures var cs := Candidates(rows, need, coins);
      && OneEach(cs) && AbsorbedBy(cs, vtxos) <= (set o | o in need) && (need == [] ==> AbsorbedBy(cs, vtxos) == {})
      && forall o :: o in need ==> exists c :: c in cs && c.point == o && c.valueSat == rows[o].valueSat
  {
    var cs := Candidates(rows, need, coins);
    forall o | o in need ensures exists c :: c in cs && c.point == o && c.valueSat == rows[o].valueSat {
      var i :| 0 <= i < |need| && need[i] == o;
      assert cs[i] in cs;
    }
  }

  // ---- where the guarantee ends --------------------------------------------------------------------

  /** Nothing counted on is lost during a wait in which nobody collects orphans. */
  lemma {:induction false} OnlyCollectingLoses(t: Tables, acts: seq<Act>, chain: seq<ChainTx>)
    requires CollectAct !in acts
    ensures NoneLost(t, DidAll(t, acts), chain)
    decreases |acts|
  {
    if acts != [] {
      OnlyCollectingLoses(t, acts[..|acts| - 1], chain);
      var before, a := DidAll(t, acts[..|acts| - 1]), acts[|acts| - 1];
      assert a in acts;
      if a.StoreAct? {
        InsertKeeps(before.proofs, a.proofs);
      }
    }
  }

  /** A capture of a ready row while nobody else works on the tables: the row stays ready
      exactly when the capture wrote nothing, or the chain just served is whole and every proof
      it needs was stored or served. */
  lemma RecaptureExactlyWhen(start: Tables, t: Tables, net: Net, at: nat, next: nat, o: Outpoint, v: Snapshot, now: int, r: CaptureResult)
    requires CaptureDone(start, t, net, at, next, o, v, now, r) && Ready(start, o) && ActsBetween(net, at, next) == []
    ensures Ready(t, o) <==>
      r.Threw? || (Whole(net(at).chain.value) && forall x :: x in ProofTxids(net(at).chain.value) && x !in start.proofs ==>
                     exists p: Psbt :: ServedBetween(net, at + 1, next, p) && p.id == x)
  {
    ActsSplit(net, at, at + 1, next);
    assert ActsBetween(net, at, at + 1) == [];
    hide Holds, Filed, AtomicStay, DanglingEntries, ProofTxids, Rejected, ServedBetween, ActsBetween;
    if r.Captured? {
      var chain := net(at).chain.value;
      forall x | x in ProofTxids(chain) && x !in start.proofs
        ensures x in r.unserved <==> !exists p: Psbt :: ServedBetween(net, at + 1, next, p) && p.id == x
      {
        assert x in r.unserved <==> Unserved(start, net, at + 1, next, chain, x);
      }
    }
  }

  const A := Outpoint("a", 0)
  const B := Outpoint("b", 0)
  const SHARED_TX := ChainTx("x", Ark, [])
  const OWN_TX := ChainTx("y", Ark, [])
  const HOLED_TX := ChainTx("x", Ark, ["gone"])

  function PlainSnapshot(chain: seq<ChainTx>): Snapshot {
    Snapshot(1000, FromAtomic, "", "", "", None, chain)
  }

  /** An indexer that serves one chain and one transaction, while `acts` happen during the
      second request. */
  function Serving(chain: seq<ChainTx>, p: Psbt, acts: seq<Act>): Net {
    k => Reply(if k == 1 then acts else [], Some(chain), Some(([Tx(p)], None)), None)
  }

  lemma ServesAll(chain: seq<ChainTx>, p: Psbt, acts: seq<Act>, i: nat, j: nat)
    requires chain != []
    ensures var net := Serving(chain, p, acts);
      && net(0).chain == Some(chain) && net(0).meanwhile == []
      && !Rejected(net, i, j) && (i < j ==> ServedBetween(net, i, j, p))
  {
    assert i < j ==> ServedAt(Serving(chain, p, acts), i, p);
  }

  lemma {:induction false} ActsOnce(chain: seq<ChainTx>, p: Psbt, acts: seq<Act>, j: nat)
    ensures ActsBetween(Serving(chain, p, acts), 0, j) == if j >= 2 then acts else []
  {
    if j > 0 {
      ActsOnce(chain, p, acts, j - 1);
    }
  }

  /** Whatever ready row a capture is aimed at, one answer with a hole in it costs the row its
      readiness. */
  method RecaptureDegrades(vault: ExitVault, o: Outpoint, v: Snapshot, now: int) returns (r: CaptureResult)
    requires Ready(vault.Now(), o)
    modifies vault
    ensures r.Captured? && o in vault.rows && !Ready(vault.Now(), o)
  {
    var net := Serving([HOLED_TX], Psbt("x", {}), []);
    var next;
    r, next := CaptureVtxo(vault, net, 0, o, v, now);
    ServesAll([HOLED_TX], Psbt("x", {}), [], 1, next);
    Holed();
  }

  lemma Holed()
    ensures !Whole([HOLED_TX])
  {
    var tx := HOLED_TX;
    var s := "gone";
    assert s[0] in s && s in tx.spends;
    BlankExactlyWhen("", s[0]);
    assert Names(tx, s, TxidPart(s));
    hide BLANKS, TxidPart;
    ParentsAreNamed(tx);
    assert TxidPart(s) in ParentTxids(tx);
    OnlyTxid(tx);
    assert Dangles(tx, Txids([tx])) && tx in [tx];
  }

  lemma OnlyTxid(tx: ChainTx)
    ensures Txids([tx]) == {tx.txid} && tx.txid !in ParentTxids(tx)
  {
    ParentsAreNamed(tx);
    hide BLANKS, TxidPart, ParentTxids;
  }

  /** A capture can say complete and leave a row that cannot be exited: while it fetches the
      one proof it lacks, a send releases its row and the orphans are collected, among them a
      proof the new chain shares with that row. */
  method CompleteButNotReady() returns (before: Tables, r: CaptureResult, after: Tables)
    ensures Ready(before, A) && r.Captured? && r.complete && B in after.rows && !Ready(after, B)
  {
    var vault := new ExitVault();
    vault.StoreVtxoWithProofs(A, PlainSnapshot([SHARED_TX]), [ProofTx("x", Ark, Psbt("x", {}))], 0);
    before := vault.Now();
    var acts := [ReleaseAct(A), CollectAct];
    var chain := [SHARED_TX, OWN_TX];
    var next;
    r, next := CaptureVtxo(vault, Serving(chain, Psbt("y", {}), acts), 0, B, PlainSnapshot([]), 0);
    after := vault.Now();
    StoredIsReady();
    SharedProofLost(before, after, next, r);
  }

  /** The tables after the first store. */
  function Before(): Tables {
    Stored(Tables(map[], map[], map[]), A, PlainSnapshot([SHARED_TX]), [ProofTx("x", Ark, Psbt("x", {}))], 0)
  }

  lemma StoredIsReady()
    ensures Ready(Before(), A) && Before().proofs.Keys == {"x"} && Before().rows.Keys == {A}
  {
    var proofs := [ProofTx("x", Ark, Psbt("x", {}))];
    StoreHolds(Tables(map[], map[], map[]), A, PlainSnapshot([SHARED_TX]), proofs, 0);
    InsertKeeps(map[], proofs);
    RootsAreWhole([SHARED_TX]);
    assert proofs[0] in proofs;
    assert ProofTxids([SHARED_TX]) == ["x"];
    assert Before().proofs == InsertProofs(map[], proofs);
    assert forall x :: x in Before().proofs <==> x == "x";
  }

  lemma SharedProofLost(before: Tables, after: Tables, next: nat, r: CaptureResult)
    requires before == Before()
    requires CaptureDone(before, after, Serving([SHARED_TX, OWN_TX], Psbt("y", {}), [ReleaseAct(A), CollectAct]), 0, next, B, PlainSnapshot([]), 0, r)
    ensures r.Captured? && r.complete && B in after.rows && !Ready(after, B)
  {
    var acts := [ReleaseAct(A), CollectAct];
    var chain := [SHARED_TX, OWN_TX];
    var p := Psbt("y", {});
    var net := Serving(chain, p, acts);
    StoredIsReady();
    RootsAreWhole(chain);
    ProofsOfTwo(SHARED_TX, OWN_TX);
    ActsOnce(chain, p, acts, 1);
    ActsOnce(chain, p, acts, next);
    ServesAll(chain, p, acts, 1, next);
    Emptied(before);
    hide *;
    NotAllStored(before, chain, "y");
    LostAndServed(before, after, net, next, B, PlainSnapshot([]), r, chain, p, "x");
  }

  lemma NotAllStored(t: Tables, chain: seq<ChainTx>, x: Txid)
    requires x in ProofTxids(chain) && x !in t.proofs
    ensures !AllStored(t.proofs, chain)
  {
  }

  lemma Emptied(t: Tables)
    requires t.rows.Keys == {A}
    ensures DidAll(t, []) == t && DidAll(t, [ReleaseAct(A), CollectAct]).proofs == map[]
  {
    DidTwo(t, ReleaseAct(A), CollectAct);
    assert Removed(t, A).rows == map[];
  }

  /** All that was missing was served, and one that was counted on is gone. */
  lemma LostAndServed(start: Tables, t: Tables, net: Net, next: nat, o: Outpoint, v: Snapshot, r: CaptureResult, chain: seq<ChainTx>, p: Psbt, x: Txid)
    requires CaptureDone(start, t, net, 0, next, o, v, 0, r)
    requires net(0).chain == Some(chain) && chain != [] && Whole(chain) && ActsBetween(net, 0, 1) == [] && DidAll(start, []) == start
    requires !Rejected(net, 1, next) && (1 < next ==> ServedBetween(net, 1, next, p))
    requires !AllStored(start.proofs, chain) && forall y :: y in ProofTxids(chain) && y !in start.proofs ==> y == p.id
    requires x in ProofTxids(chain) && x in start.proofs && (1 < next ==> x !in DidAll(start, ActsBetween(net, 0, next)).proofs)
    ensures r.Captured? && r.complete && o in t.rows && !Ready(t, o)
  {
    hide Holds, Filed, AtomicStay, Rejected, ServedBetween, ActsBetween, DanglingEntries, ProofTxids, DidAll, Ready, AllStored;
    forall y ensures !Unserved(start, net, 1, next, chain, y) {
    }
    assert r.Captured?;
    FirstIsIn(r.unserved);
  }

  lemma FirstIsIn(s: seq<Txid>)
    ensures s == [] || s[0] in s
  {
  }

  lemma DidTwo(t: Tables, a: Act, b: Act)
    ensures DidAll(t, [a, b]) == Did(Did(t, a), b)
  {
    hide Did;
    assert [a, b][..1] == [a] && [a][..0] == [];
    assert DidAll(t, [a]) == Did(DidAll(t, []), a);
  }

  lemma ProofsOfTwo(a: ChainTx, b: ChainTx)
    requires NeedsProof(a) && NeedsProof(b)
    ensures ProofTxids([a, b]) == [a.txid, b.txid]
  {
    assert [a, b][1..] == [b] && [b][1..] == [];
    assert ProofTxids([b]) == [b.txid] + ProofTxids([]);
  }

  lemma RootsAreWhole(chain: seq<ChainTx>)
    requires forall tx :: tx in chain ==> tx.spends == []
    ensures Whole(chain)
  {
  }
}
