/** The offline mirror of exit material: vtxo rows with their chains, and the pre-signed
    transactions the chains need (src/exit/vault.ts). Each database transaction of the source
    is one operation here. */
module Vault {
  import opened Wrappers
  import opened SharedScript
  import opened ExitChain

  type Txid = string

  datatype Source = FromWallet | FromAtomic

  /** A pre-signed transaction: the txid it decodes to, and the outpoints whose spending input
      carries a valid signature of our own key. */
  datatype Psbt = Psbt(id: Txid, ourSpends: set<Outpoint>)

  datatype Proof = Proof(kind: TxKind, psbt: Psbt)

  /** A proof as it is handed to the vault, with the txid to file it under. */
  datatype ProofTx = ProofTx(txid: Txid, kind: TxKind, psbt: Psbt)

  predicate Labelled(proofs: seq<ProofTx>) {
    forall p :: p in proofs ==> p.psbt.id == p.txid
  }

  predicate Brings(proofs: seq<ProofTx>, x: Txid) {
    exists p :: p in proofs && p.txid == x
  }

  datatype Row = Row(
    valueSat: nat,
    source: Source,
    script: string,
    tapTree: string,
    status: string,
    expiresAt: Option<int>,
    chain: seq<ChainTx>,
    syncedAt: int,
    quarantinedAt: Option<int>,
    reason: Option<string>
  )

  /** What a capture stores about a vtxo; quarantine is not part of it. */
  datatype Snapshot = Snapshot(
    valueSat: nat,
    source: Source,
    script: string,
    tapTree: string,
    status: string,
    expiresAt: Option<int>,
    chain: seq<ChainTx>
  )

  datatype OpState = Unrolling | Waiting | Sweepable | Swept | FailedOp

  datatype Tables = Tables(rows: map<Outpoint, Row>, proofs: map<Txid, Proof>, ops: map<Outpoint, OpState>)

  // ---- what each operation does to the tables ---------------------------------------

  /** Proofs are insert-once: the first copy of a txid stays. */
  function InsertProofs(stored: map<Txid, Proof>, proofs: seq<ProofTx>): map<Txid, Proof> {
    if proofs == [] then stored
    else
      var before := InsertProofs(stored, proofs[..|proofs| - 1]);
      var p := proofs[|proofs| - 1];
      if p.txid in before then before else before[p.txid := Proof(p.kind, p.psbt)]
  }

  /** An outpoint's expiry never shrinks, and a missing one never erases a known one. */
  function LaterExpiry(stored: Option<int>, offered: Option<int>): Option<int> {
    if offered.None? then stored
    else if stored.None? then offered
    else Some(if stored.value >= offered.value then stored.value else offered.value)
  }

  function UpsertedRow(rows: map<Outpoint, Row>, o: Outpoint, s: Snapshot, now: int): Row {
    if o in rows then
      rows[o].(valueSat := s.valueSat, script := s.script, tapTree := s.tapTree, status := s.status,
               expiresAt := LaterExpiry(rows[o].expiresAt, s.expiresAt), chain := s.chain, syncedAt := now)
    else Row(s.valueSat, s.source, s.script, s.tapTree, s.status, s.expiresAt, s.chain, now, None, None)
  }

  function Stored(t: Tables, o: Outpoint, s: Snapshot, proofs: seq<ProofTx>, now: int): Tables {
    t.(rows := t.rows[o := UpsertedRow(t.rows, o, s, now)], proofs := InsertProofs(t.proofs, proofs))
  }

  function Removed(t: Tables, o: Outpoint): Tables {
    t.(rows := t.rows - {o})
  }

  function FlaggedRow(r: Row, reason: string, now: int): Row {
    r.(quarantinedAt := if r.quarantinedAt.None? then Some(now) else r.quarantinedAt, reason := Some(reason))
  }

  function Quarantined(t: Tables, o: Outpoint, reason: string, now: int): Tables {
    if o in t.rows then t.(rows := t.rows[o := FlaggedRow(t.rows[o], reason, now)]) else t
  }

  function Cleared(t: Tables, o: Outpoint): Tables {
    if o in t.rows && t.rows[o].quarantinedAt.Some?
    then t.(rows := t.rows[o := t.rows[o].(quarantinedAt := None, reason := None)]) else t
  }

  function Referenced(rows: map<Outpoint, Row>): set<Txid> {
    set o, x | o in rows && x in ProofTxids(rows[o].chain) :: x
  }

  function Only(proofs: map<Txid, Proof>, keep: set<Txid>): map<Txid, Proof> {
    map x | x in proofs && x in keep :: proofs[x]
  }

  /** Collecting orphans drops the proofs no row's chain needs. */
  function Collected(t: Tables): Tables {
    t.(proofs := Only(t.proofs, Referenced(t.rows)))
  }

  lemma OnlyOwn(proofs: map<Txid, Proof>, keep: set<Txid>)
    ensures Only(proofs, proofs.Keys) == proofs
    ensures Only(proofs, keep * proofs.Keys) == Only(proofs, keep)
  {
  }

  lemma OneLess(proofs: map<Txid, Proof>, keep: set<Txid>, x: Txid)
    requires x in proofs && x in keep
    ensures Only(proofs, keep - {x}) == Only(proofs, keep) - {x}
    ensures |Only(proofs, keep - {x})| == |Only(proofs, keep)| - 1
  {
    assert Only(proofs, keep).Keys == Only(proofs, keep - {x}).Keys + {x};
  }

  // ---- readiness ------------------------------------------------------------------------

  predicate AllStored(proofs: map<Txid, Proof>, chain: seq<ChainTx>) {
    forall x :: x in ProofTxids(chain) ==> x in proofs
  }

  predicate Whole(chain: seq<ChainTx>) {
    DanglingEntries(chain) == []
  }

  /** Exitable offline right now: every proof is there and the ancestry is unbroken. */
  predicate Ready(t: Tables, o: Outpoint) {
    o in t.rows && AllStored(t.proofs, t.rows[o].chain) && Whole(t.rows[o].chain)
  }

  /** A proof under a txid is the transaction of that txid. */
  ghost predicate Filed(t: Tables) {
    forall x :: x in t.proofs ==> t.proofs[x].psbt.id == x
  }

  predicate ExpiryHolds(before: Option<int>, after: Option<int>) {
    before.Some? ==> after.Some? && after.value >= before.value
  }

  ghost predicate RowHolds(t: Tables, u: Tables, o: Outpoint)
    requires o in t.rows
  {
    && o in u.rows
    && u.rows[o].source == t.rows[o].source
    && ExpiryHolds(t.rows[o].expiresAt, u.rows[o].expiresAt)
    && (Ready(t, o) ==> u.rows[o].chain == t.rows[o].chain && Ready(u, o))
  }

  /** No row outside `but` is lost, changes its owner, sees its expiry shrink, or, once ready,
      stops being ready. */
  ghost predicate Holds(t: Tables, u: Tables, but: set<Outpoint>) {
    forall o :: o in t.rows && o !in but ==> RowHolds(t, u, o)
  }

  lemma HoldsFurther(t: Tables, u: Tables, v: Tables, but: set<Outpoint>)
    requires Holds(t, u, but) && Holds(u, v, but)
    ensures Holds(t, v, but)
  {
    forall o | o in t.rows && o !in but ensures RowHolds(t, v, o) {
      assert RowHolds(t, u, o) && RowHolds(u, v, o);
    }
  }

  lemma HoldsBut(t: Tables, u: Tables, but: set<Outpoint>, more: set<Outpoint>)
    requires Holds(t, u, but) && but <= more
    ensures Holds(t, u, more)
  {
  }

  lemma {:induction false} InsertKeeps(stored: map<Txid, Proof>, proofs: seq<ProofTx>)
    ensures var r := InsertProofs(stored, proofs);
      && (forall x :: x in stored ==> x in r && r[x] == stored[x])
      && (forall x :: x in r <==> x in stored || Brings(proofs, x))
      && ((forall x :: x in stored ==> stored[x].psbt.id == x) && Labelled(proofs) ==> forall x :: x in r ==> r[x].psbt.id == x)
  {
    if proofs != [] {
      var rest, p := proofs[..|proofs| - 1], proofs[|proofs| - 1];
      InsertKeeps(stored, rest);
      assert forall q :: q in proofs <==> q in rest || q == p;
      assert forall x :: Brings(proofs, x) <==> Brings(rest, x) || x == p.txid;
    }
  }

  ghost predicate FirstCopy(stored: map<Txid, Proof>, proofs: seq<ProofTx>, i: int) {
    0 <= i < |proofs| && proofs[i].txid !in stored && forall k :: 0 <= k < i ==> proofs[k].txid != proofs[i].txid
  }

  /** A transaction not stored before is stored as its first copy among the new ones. */
  lemma {:induction false} InsertFirst(stored: map<Txid, Proof>, proofs: seq<ProofTx>, i: nat)
    requires FirstCopy(stored, proofs, i)
    ensures proofs[i].txid in InsertProofs(stored, proofs)
    ensures InsertProofs(stored, proofs)[proofs[i].txid] == Proof(proofs[i].kind, proofs[i].psbt)
    decreases |proofs|
  {
    var n := |proofs| - 1;
    InsertKeeps(stored, proofs[..n]);
    if i < n {
      InsertFirst(stored, proofs[..n], i);
    }
  }

  // ---- what a row says about spending its output ---------------------------------------------

  /** The row says what the capture said; what it knew of owner and quarantine before, it
      knows still, and of the expiry no less. */
  ghost predicate Says(before: Tables, t: Tables, o: Outpoint, s: Snapshot, now: int) {
    && o in t.rows
    && var r := t.rows[o];
       && r.valueSat == s.valueSat && r.script == s.script && r.tapTree == s.tapTree && r.status == s.status && r.chain == s.chain && r.syncedAt == now
       && (if o in before.rows
           then var was := before.rows[o];
             && r.source == was.source && r.quarantinedAt == was.quarantinedAt && r.reason == was.reason
             && (s.expiresAt.None? ==> r.expiresAt == was.expiresAt)
             && (s.expiresAt.Some? ==>
                   && r.expiresAt.Some? && r.expiresAt.value >= s.expiresAt.value && ExpiryHolds(was.expiresAt, r.expiresAt)
                   && (r.expiresAt == s.expiresAt || r.expiresAt == was.expiresAt))
           else r.source == s.source && r.quarantinedAt.None? && r.reason.None? && r.expiresAt == s.expiresAt)
  }

  /** What a store leaves behind: the row says what the capture said, the other rows are as
      they were; of each transaction the copy that was there stays, and one that was not is
      there as its first new copy. */
  ghost predicate Persisted(t: Tables, u: Tables, o: Outpoint, s: Snapshot, proofs: seq<ProofTx>, now: int) {
    && Says(t, u, o, s, now)
    && u.rows.Keys == t.rows.Keys + {o} && u.ops == t.ops && (forall p :: p in t.rows && p != o ==> u.rows[p] == t.rows[p])
    && (forall x :: x in t.proofs ==> x in u.proofs && u.proofs[x] == t.proofs[x])
    && (forall k :: FirstCopy(t.proofs, proofs, k) ==> proofs[k].txid in u.proofs && u.proofs[proofs[k].txid] == Proof(proofs[k].kind, proofs[k].psbt))
    && (forall x :: x in u.proofs && x !in t.proofs ==> Brings(proofs, x))
  }

  lemma StoredSays(t: Tables, o: Outpoint, s: Snapshot, proofs: seq<ProofTx>, now: int)
    ensures Says(t, Stored(t, o, s, proofs, now), o, s, now)
  {
    hide InsertProofs;
  }

  lemma PersistedByStore(t: Tables, o: Outpoint, s: Snapshot, proofs: seq<ProofTx>, now: int)
    ensures Persisted(t, Stored(t, o, s, proofs, now), o, s, proofs, now)
  {
    StoredSays(t, o, s, proofs, now);
    InsertKeeps(t.proofs, proofs);
    forall k | FirstCopy(t.proofs, proofs, k)
      ensures proofs[k].txid in InsertProofs(t.proofs, proofs) && InsertProofs(t.proofs, proofs)[proofs[k].txid] == Proof(proofs[k].kind, proofs[k].psbt)
    {
      InsertFirst(t.proofs, proofs, k);
    }
    hide Says, Brings, FirstCopy, InsertProofs;
  }

  predicate SameTap(a: Row, b: Row) {
    a.script == b.script && a.tapTree == b.tapTree
  }

  /** Outside `but` no row is lost or changes the script of its output or the tree it is spent
      with. */
  ghost predicate TapsStay(t: Tables, u: Tables, but: set<Outpoint>) {
    forall o :: o in t.rows && o !in but ==> o in u.rows && SameTap(t.rows[o], u.rows[o])
  }

  lemma TapsFurther(t: Tables, u: Tables, v: Tables, a: set<Outpoint>, b: set<Outpoint>, all: set<Outpoint>)
    requires TapsStay(t, u, a) && TapsStay(u, v, b) && a <= all && b <= all
    ensures TapsStay(t, v, all)
  {
  }

  lemma StoreTaps(t: Tables, o: Outpoint, s: Snapshot, proofs: seq<ProofTx>, now: int)
    ensures var u := Stored(t, o, s, proofs, now);
      TapsStay(t, u, {o}) && (o in t.rows && s.script == t.rows[o].script && s.tapTree == t.rows[o].tapTree ==> TapsStay(t, u, {}))
  {
    hide InsertProofs, LaterExpiry;
  }

  /** Captures and releases of other parts change what their own rows say and nothing else. */
  lemma {:induction false} ActsKeepTaps(t: Tables, acts: seq<Act>)
    ensures TapsStay(t, DidAll(t, acts), Touched(acts))
    decreases |acts|
  {
    if acts != [] {
      var rest, a := acts[..|acts| - 1], acts[|acts| - 1];
      ActsKeepTaps(t, rest);
      assert TapsStay(DidAll(t, rest), DidAll(t, acts), Touches(a)) by {
        ActTaps(DidAll(t, rest), a);
      }
      assert Touched(rest) <= Touched(acts) && Touches(a) <= Touched(acts) by {
        assert a in acts;
      }
      hide DidAll, Touched, Touches, TapsStay;
      TapsFurther(t, DidAll(t, rest), DidAll(t, acts), Touched(rest), Touches(a), Touched(acts));
    }
  }

  lemma ActTaps(t: Tables, a: Act)
    ensures TapsStay(t, Did(t, a), Touches(a))
  {
    hide InsertProofs, LaterExpiry;
  }

  // ---- stores ---------------------------------------------------------------------------------

  /** A store changes no row but its own, and leaves that one ready exactly when its new chain
      is whole and stored; with proofs labelled by what they decode to, filing stays right. */
  lemma StoreHolds(t: Tables, o: Outpoint, s: Snapshot, proofs: seq<ProofTx>, now: int)
    ensures var u := Stored(t, o, s, proofs, now);
      && Holds(t, u, {o})
      && (Ready(u, o) <==> Whole(s.chain) && forall x :: x in ProofTxids(s.chain) ==> x in t.proofs || Brings(proofs, x))
      && o in u.rows && u.rows[o].chain == s.chain
      && (o in t.rows ==> u.rows[o].source == t.rows[o].source && ExpiryHolds(t.rows[o].expiresAt, u.rows[o].expiresAt))
      && (o in t.rows && s.chain == t.rows[o].chain ==> Holds(t, u, {}))
      && (Filed(t) && Labelled(proofs) ==> Filed(u))
  {
    InsertKeeps(t.proofs, proofs);
    var u := Stored(t, o, s, proofs, now);
    forall p | p in t.rows && p != o ensures RowHolds(t, u, p) {
      assert AllStored(t.proofs, t.rows[p].chain) ==> AllStored(u.proofs, t.rows[p].chain);
    }
    assert o in t.rows && s.chain == t.rows[o].chain ==> RowHolds(t, u, o);
  }

  lemma RemoveHolds(t: Tables, o: Outpoint)
    ensures Holds(t, Removed(t, o), {o}) && (Filed(t) ==> Filed(Removed(t, o)))
  {
  }

  lemma FlagHolds(t: Tables, o: Outpoint, reason: string, now: int)
    ensures Holds(t, Quarantined(t, o, reason, now), {}) && (Filed(t) ==> Filed(Quarantined(t, o, reason, now)))
    ensures Holds(t, Cleared(t, o), {}) && (Filed(t) ==> Filed(Cleared(t, o)))
  {
  }

  /** Collecting orphans never costs any row its readiness, quarantined rows included. */
  lemma CollectHolds(t: Tables)
    ensures Holds(t, Collected(t), {}) && (Filed(t) ==> Filed(Collected(t)))
    ensures forall x :: x in Collected(t).proofs <==> x in t.proofs && exists o :: o in t.rows && x in ProofTxids(t.rows[o].chain)
  {
    forall o | o in t.rows ensures RowHolds(t, Collected(t), o) {
      assert forall x :: x in ProofTxids(t.rows[o].chain) ==> x in Referenced(t.rows);
    }
  }

  lemma CollectedSame(t: Tables)
    ensures forall x :: x in Collected(t).proofs ==> x in t.proofs && Collected(t).proofs[x] == t.proofs[x]
  {
  }

  // ---- what other parts of the bridge do ---------------------------------------------------

  /** An operation of another part of the bridge: a capture of an atomic output, the release
      of one by its send, an operator's forget, which is refused unless the row is quarantined,
      a collection of orphans, an exit op moving on. Any of them may run while a pass awaits an
      answer. */
  datatype Act =
    | StoreAct(o: Outpoint, s: Snapshot, proofs: seq<ProofTx>, now: int)
    | ReleaseAct(o: Outpoint)
    | ForgetAct(o: Outpoint)
    | CollectAct
    | OpAct(o: Outpoint, state: OpState)

  function Did(t: Tables, a: Act): Tables {
    match a
    case StoreAct(o, s, proofs, now) => if Labelled(proofs) then Stored(t, o, s, proofs, now) else t
    case ReleaseAct(o) => Removed(t, o)
    case ForgetAct(o) => if o in t.rows && t.rows[o].quarantinedAt.Some? then Removed(t, o) else t
    case CollectAct => Collected(t)
    case OpAct(o, state) => t.(ops := t.ops[o := state])
  }

  function DidAll(t: Tables, acts: seq<Act>): Tables
    decreases |acts|
  {
    if acts == [] then t else Did(DidAll(t, acts[..|acts| - 1]), acts[|acts| - 1])
  }

  /** The outpoints whose own row an act replaces or deletes. */
  function Touches(a: Act): set<Outpoint> {
    match a
    case StoreAct(o, _, _, _) => {o}
    case ReleaseAct(o) => {o}
    case ForgetAct(o) => {o}
    case _ => {}
  }

  function Touched(acts: seq<Act>): set<Outpoint> {
    set a, o | a in acts && o in Touches(a) :: o
  }

  lemma ActHolds(t: Tables, a: Act)
    ensures Holds(t, Did(t, a), Touches(a)) && (Filed(t) ==> Filed(Did(t, a)))
  {
    match a
    case StoreAct(o, s, proofs, now) => StoreHolds(t, o, s, proofs, now);
    case ReleaseAct(o) => RemoveHolds(t, o);
    case ForgetAct(o) => RemoveHolds(t, o);
    case CollectAct => CollectHolds(t);
    case OpAct(_, _) =>
  }

  lemma {:induction false} ActsHold(t: Tables, acts: seq<Act>)
    ensures Holds(t, DidAll(t, acts), Touched(acts)) && (Filed(t) ==> Filed(DidAll(t, acts)))
    decreases |acts|
  {
    assert Holds(t, t, {});
    hide Did, Touches, RowHolds;
    if acts != [] {
      var rest, a := acts[..|acts| - 1], acts[|acts| - 1];
      ActsHold(t, rest);
      ActHolds(DidAll(t, rest), a);
      assert Touched(rest) <= Touched(acts) && Touches(a) <= Touched(acts) by {
        assert a in acts;
      }
      HoldsBut(t, DidAll(t, rest), Touched(rest), Touched(acts));
      HoldsBut(DidAll(t, rest), DidAll(t, acts), Touches(a), Touched(acts));
      HoldsFurther(t, DidAll(t, rest), DidAll(t, acts), Touched(acts));
    }
  }

  // ---- rows of atomic swaps ------------------------------------------------------------------

  /** A row captured for an atomic swap; it is never quarantined. */
  predicate AtomicRow(t: Tables, o: Outpoint) {
    o in t.rows && t.rows[o].source == FromAtomic && t.rows[o].quarantinedAt.None?
  }

  ghost predicate AtomicStay(t: Tables, u: Tables, but: set<Outpoint>) {
    forall o :: AtomicRow(t, o) && o !in but ==> AtomicRow(u, o)
  }

  lemma AtomicStayFurther(t: Tables, u: Tables, v: Tables, but: set<Outpoint>, more: set<Outpoint>)
    requires AtomicStay(t, u, but) && AtomicStay(u, v, more)
    ensures AtomicStay(t, v, but + more)
  {
  }

  /** The outpoints the sends behind them let go. */
  function Released(acts: seq<Act>): set<Outpoint> {
    set a | a in acts && a.ReleaseAct? :: a.o
  }

  lemma ReleasedBoth(a: seq<Act>, b: seq<Act>)
    ensures Released(a + b) == Released(a) + Released(b)
  {
  }

  /** Of everything other parts of the bridge do, only a release takes such a row away: a
      capture leaves its owner and its quarantine alone, and it cannot be forgotten. */
  lemma {:induction false} OnlyReleasesTake(t: Tables, acts: seq<Act>)
    ensures AtomicStay(t, DidAll(t, acts), Released(acts))
    decreases |acts|
  {
    if acts != [] {
      var rest, a := acts[..|acts| - 1], acts[|acts| - 1];
      OnlyReleasesTake(t, rest);
      assert acts == rest + [a];
      ReleasedBoth(rest, [a]);
      assert a in [a];
      assert AtomicStay(DidAll(t, rest), Did(DidAll(t, rest), a), Released([a]));
      AtomicStayFurther(t, DidAll(t, rest), DidAll(t, acts), Released(rest), Released([a]));
    }
  }

  // ---- the vault ---------------------------------------------------------------------------

  class ExitVault {
    var rows: map<Outpoint, Row>
    var proofs: map<Txid, Proof>
    var ops: map<Outpoint, OpState>

    constructor ()
      ensures Now() == Tables(map[], map[], map[])
    {
      rows, proofs, ops := map[], map[], map[];
    }

    function Now(): Tables
      reads this
    {
      Tables(rows, proofs, ops)
    }

    method StoreVtxoWithProofs(o: Outpoint, s: Snapshot, fetched: seq<ProofTx>, now: int)
      modifies this
      ensures Now() == Stored(old(Now()), o, s, fetched, now)
      ensures Persisted(old(Now()), Now(), o, s, fetched, now)
    {
      PersistedByStore(Now(), o, s, fetched, now);
      hide Persisted;
      var i := 0;
      while i < |fetched|
        invariant 0 <= i <= |fetched|
        invariant proofs == InsertProofs(old(proofs), fetched[..i])
        invariant rows == old(rows) && ops == old(ops)
      {
        assert fetched[..i + 1][..i] == fetched[..i];
        if fetched[i].txid !in proofs {
          proofs := proofs[fetched[i].txid := Proof(fetched[i].kind, fetched[i].psbt)];
        }
        i := i + 1;
      }
      assert fetched[..i] == fetched;
      if o in rows {
        rows := rows[o := rows[o].(valueSat := s.valueSat, script := s.script, tapTree := s.tapTree, status := s.status,
                                   expiresAt := LaterExpiry(rows[o].expiresAt, s.expiresAt), chain := s.chain, syncedAt := now)];
      } else {
        rows := rows[o := Row(s.valueSat, s.source, s.script, s.tapTree, s.status, s.expiresAt, s.chain, now, None, None)];
      }
    }

    method RemoveVtxo(o: Outpoint) returns (changed: bool)
      modifies this
      ensures Now() == Removed(old(Now()), o) && changed == (o in old(rows))
      ensures rows == old(rows) - {o} && proofs == old(proofs) && ops == old(ops)
    {
      changed := o in rows;
      rows := rows - {o};
    }

    /** True only when the row is newly flagged. */
    method QuarantineVtxo(o: Outpoint, reason: string, now: int) returns (newly: bool)
      modifies this
      ensures Now() == Quarantined(old(Now()), o, reason, now)
      ensures newly == (o !in old(rows) || old(rows)[o].quarantinedAt.None?)
      ensures rows.Keys == old(rows).Keys && proofs == old(proofs) && ops == old(ops) && forall p :: p in rows && p != o ==> rows[p] == old(rows)[p]
      ensures o in rows ==> rows[o] == old(rows)[o].(quarantinedAt := Some(old(rows)[o].quarantinedAt.GetOr(now)), reason := Some(reason))
    {
      newly := o !in rows || rows[o].quarantinedAt.None?;
      if o in rows {
        rows := rows[o := FlaggedRow(rows[o], reason, now)];
      }
    }

    method ClearQuarantine(o: Outpoint) returns (changed: bool)
      modifies this
      ensures Now() == Cleared(old(Now()), o)
      ensures changed == (o in old(rows) && old(rows)[o].quarantinedAt.Some?)
      ensures rows.Keys == old(rows).Keys && proofs == old(proofs) && ops == old(ops) && forall p :: p in rows && p != o ==> rows[p] == old(rows)[p]
      ensures changed ==> rows[o] == old(rows)[o].(quarantinedAt := None, reason := None)
      ensures !changed ==> rows == old(rows)
    {
      changed := o in rows && rows[o].quarantinedAt.Some?;
      if changed {
        rows := rows[o := rows[o].(quarantinedAt := None, reason := None)];
      }
    }

    method ReferencedTxids() returns (referenced: set<Txid>)
      ensures referenced == Referenced(rows)
    {
      referenced := {};
      var todo := rows.Keys;
      while todo != {}
        invariant todo <= rows.Keys
        invariant forall x :: x in referenced <==> exists o :: o in rows && o !in todo && x in ProofTxids(rows[o].chain)
        decreases |todo|
      {
        var o :| o in todo;
        referenced := referenced + (set x | x in ProofTxids(rows[o].chain));
        todo := todo - {o};
      }
    }

    method GcOrphanProofs() returns (removed: nat)
      modifies this
      ensures Now() == Collected(old(Now())) && removed == |old(proofs)| - |proofs|
      ensures rows == old(rows) && ops == old(ops) && forall x :: x in proofs ==> x in old(proofs) && proofs[x] == old(proofs)[x]
      ensures forall x :: x in old(proofs) ==> (x in proofs <==> exists o :: o in rows && x in ProofTxids(rows[o].chain))
    {
      CollectHolds(Now());
      CollectedSame(Now());
      hide Holds, Filed;
      hide Only, Referenced;
      var referenced := ReferencedTxids();
      ghost var before := proofs;
      var candidates := proofs.Keys;
      ghost var keep := before.Keys;
      OnlyOwn(before, referenced);
      removed := 0;
      while candidates != {}
        invariant candidates <= before.Keys && rows == old(rows) && ops == old(ops)
        invariant keep == candidates + referenced * before.Keys
        invariant proofs == Only(before, keep) && removed == |before| - |proofs|
        decreases |candidates|
      {
        var x :| x in candidates;
        candidates := candidates - {x};
        if x !in referenced {
          OneLess(before, keep, x);
          proofs := proofs - {x};
          removed := removed + 1;
          keep := keep - {x};
        }
      }
      assert keep == referenced * before.Keys;
    }

    function MissingProofTxids(chain: seq<ChainTx>): (r: seq<Txid>)
      reads this
      ensures forall x :: x in r <==> x in ProofTxids(chain) && x !in proofs
      ensures r == [] <==> AllStored(proofs, chain)
    {
      var wanted := ProofTxids(chain);
      var r := Without(wanted, proofs.Keys);
      assert r != [] ==> r[0] in r;
      r
    }

    /** Operations of other parts of the bridge, in their order. */
    method Meanwhile(acts: seq<Act>)
      modifies this
      ensures Now() == DidAll(old(Now()), acts)
    {
      var i := 0;
      while i < |acts|
        invariant 0 <= i <= |acts| && Now() == DidAll(old(Now()), acts[..i])
      {
        assert acts[..i + 1][..i] == acts[..i];
        match acts[i] {
          case StoreAct(o, s, fetched, now) =>
            if Labelled(fetched) {
              StoreVtxoWithProofs(o, s, fetched, now);
            }
          case ReleaseAct(o) => var _ := RemoveVtxo(o);
          case ForgetAct(o) =>
            if o in rows && rows[o].quarantinedAt.Some? {
              var _ := RemoveVtxo(o);
            }
          case CollectAct => var _ := GcOrphanProofs();
          case OpAct(o, state) => ops := ops[o := state];
        }
        i := i + 1;
      }
      assert acts[..i] == acts;
    }
  }

  function Without(xs: seq<Txid>, known: set<Txid>): (r: seq<Txid>)
    ensures forall x :: x in r <==> x in xs && x !in known
  {
    if xs == [] then [] else (if xs[0] in known then [] else [xs[0]]) + Without(xs[1..], known)
  }
}
