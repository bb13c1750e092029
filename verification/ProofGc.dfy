/** The second half of a pass: what happens to rows the live set no longer lists
    (src/exit/proof_sync.ts, src/exit/evidence.ts). */
module ProofGc {
  import opened Wrappers
  import opened SharedScript
  import opened Vault
  import opened Evidence
  import opened ProofSync

  type RowMap = map<Outpoint, Row>

  // ---- rows our own records explain ---------------------------------------------------------

  /** A completed exit of our own is its own evidence. */
  predicate ExitedByUs(t: Tables, live: set<Outpoint>, o: Outpoint) {
    o in t.rows && o !in live && o in t.ops && t.ops[o] == Swept
  }

  /** A disappearance the server has to account for: no exit of ours is under way, and the row
      is one whose life cycle the wallet owns. */
  predicate NeedsEvidence(t: Tables, live: set<Outpoint>, o: Outpoint) {
    o in t.rows && o !in live && (o in t.ops ==> t.ops[o] == FailedOp) && t.rows[o].source == FromWallet
  }

  function ReleasedRow(r: Row): Row {
    r.(quarantinedAt := None, reason := if r.quarantinedAt.Some? then None else r.reason)
  }

  /** The rows after the first sweep: completed exits gone, re-listed rows released. */
  function Sorted(t: Tables, live: set<Outpoint>): RowMap {
    map o | o in t.rows && !ExitedByUs(t, live, o) :: if o in live then ReleasedRow(t.rows[o]) else t.rows[o]
  }

  /** Every row, by what is known of it before the server is asked: a live one loses its flag;
      one we have swept is gone; one whose exit is under way, and one of an atomic swap, stays as
      it is, unasked; about any other the server has to be asked. */
  lemma SortedExactly(t: Tables, live: set<Outpoint>, o: Outpoint)
    requires o in t.rows
    ensures var s := Sorted(t, live);
      if o in live then
        && o in s && !NeedsEvidence(t, live, o)
        && s[o] == (if t.rows[o].quarantinedAt.Some? then t.rows[o].(quarantinedAt := None, reason := None) else t.rows[o])
      else if o in t.ops && t.ops[o] == Swept then o !in s && !NeedsEvidence(t, live, o)
      else if o in t.ops && (t.ops[o] == Unrolling || t.ops[o] == Waiting || t.ops[o] == Sweepable) then o in s && s[o] == t.rows[o] && !NeedsEvidence(t, live, o)
      else o in s && s[o] == t.rows[o] && (NeedsEvidence(t, live, o) <==> t.rows[o].source == FromWallet)
  {
  }

  /** The rows while the sweep still has `todo` ahead of it. */
  function SortedBut(t: Tables, live: set<Outpoint>, todo: set<Outpoint>): RowMap {
    map o | o in t.rows && (o in todo || !ExitedByUs(t, live, o)) :: if o in live && o !in todo then ReleasedRow(t.rows[o]) else t.rows[o]
  }

  lemma SortedNext(t: Tables, live: set<Outpoint>, todo: set<Outpoint>, o: Outpoint)
    requires o in todo && o in t.rows
    ensures var rows := SortedBut(t, live, todo);
      o in rows && rows[o] == t.rows[o] &&
      SortedBut(t, live, todo - {o}) == if ExitedByUs(t, live, o) then rows - {o}
                                        else if o in live then rows[o := ReleasedRow(rows[o])] else rows
  {
    var rows, next := SortedBut(t, live, todo), SortedBut(t, live, todo - {o});
    if ExitedByUs(t, live, o) {
      assert next == rows - {o};
    } else if o in live {
      assert next == rows[o := ReleasedRow(rows[o])];
    } else {
      assert next == rows;
    }
  }

  /** One row of the first sweep. */
  method SortRow(vault: ExitVault, live: set<Outpoint>, o: Outpoint) returns (ask: bool, released: bool)
    requires o in vault.rows
    modifies vault
    ensures vault.proofs == old(vault.proofs) && vault.ops == old(vault.ops)
    ensures vault.rows == if ExitedByUs(old(vault.Now()), live, o) then old(vault.rows) - {o}
                          else if o in live then old(vault.rows)[o := ReleasedRow(old(vault.rows)[o])] else old(vault.rows)
    ensures ask == NeedsEvidence(old(vault.Now()), live, o)
    ensures released == (o in live && old(vault.rows)[o].quarantinedAt.Some?)
  {
    var row := vault.rows[o];
    ask, released := false, false;
    if o in live {
      if row.quarantinedAt.Some? {
        released := vault.ClearQuarantine(o);
      }
    } else if o in vault.ops && vault.ops[o] != FailedOp {
      if vault.ops[o] == Swept {
        var _ := vault.RemoveVtxo(o);
      }
    } else {
      ask := row.source != FromAtomic;
    }
  }

  method SortDisappearances(vault: ExitVault, live: set<Outpoint>) returns (need: seq<Outpoint>, released: set<Outpoint>)
    modifies vault
    ensures vault.Now() == old(vault.Now()).(rows := Sorted(old(vault.Now()), live))
    ensures forall i, j :: 0 <= i < j < |need| ==> need[i] != need[j]
    ensures forall o :: o in need <==> NeedsEvidence(old(vault.Now()), live, o)
    ensures forall o :: o in released <==> o in live && o in old(vault.rows) && old(vault.rows)[o].quarantinedAt.Some?
  {
    ghost var start := vault.Now();
    need, released := [], {};
    var todo := vault.rows.Keys;
    assert SortedBut(start, live, todo) == start.rows && Sorted(start, live) == SortedBut(start, live, {});
    hide ReleasedRow, SortedBut;
    while todo != {}
      invariant todo <= start.rows.Keys && vault.proofs == start.proofs && vault.ops == start.ops
      invariant vault.rows == SortedBut(start, live, todo)
      invariant forall i, j :: 0 <= i < j < |need| ==> need[i] != need[j]
      invariant forall o :: o in need <==> o !in todo && NeedsEvidence(start, live, o)
      invariant forall o :: o in released <==> o !in todo && o in live && o in start.rows && start.rows[o].quarantinedAt.Some?
      decreases |todo|
    {
      var o :| o in todo;
      SortedNext(start, live, todo, o);
      todo := todo - {o};
      var ask, changed := SortRow(vault, live, o);
      if ask {
        need := need + [o];
      }
      if changed {
        released := released + {o};
      }
    }
  }

  lemma SortHolds(t: Tables, live: set<Outpoint>)
    ensures var u := t.(rows := Sorted(t, live));
      Holds(t, u, set o | o in t.rows && ExitedByUs(t, live, o)) && (Filed(t) ==> Filed(u))
      && AtomicStay(t, u, set o | o in t.rows && ExitedByUs(t, live, o))
  {
  }

  // ---- rows the server has to account for -----------------------------------------------------

  /** What became of a row that needs evidence: absorbed by a settlement, judged from the
      answers starting at a given one, or undecided because a request was rejected. */
  datatype Fate = Absorbed | Judged(k: nat, verdict: Verdict) | Undecided(k: nat)

  predicate Deletes(f: Fate) {
    f.Absorbed? || (f.Judged? && f.verdict.SpentVerified?)
  }

  const EXPIRED_REASON := "batch expired before a refresh and the server dropped it — nothing left to exit; review and forget"

  /** A judged row that stays is flagged, with the first flag's time kept. */
  function FatedRow(r: Row, f: Fate, now: int): Row {
    if f.Judged? && f.verdict.Expired? then FlaggedRow(r, EXPIRED_REASON, now)
    else if f.Judged? && f.verdict.Unproven? then FlaggedRow(r, f.verdict.reason, now)
    else r
  }

  /** What each fate makes of a row. */
  lemma FateIs(t: Tables, o: Outpoint, f: Fate, now: int)
    requires o in t.rows
    ensures var u := AfterFate(t, o, f, now);
      && u.proofs == t.proofs && u.ops == t.ops && (forall p :: p in t.rows && p != o ==> p in u.rows && u.rows[p] == t.rows[p])
      && (f.Absorbed? || (f.Judged? && f.verdict.SpentVerified?) ==> u.rows == t.rows - {o})
      && (f.Undecided? ==> u == t)
      && (f.Judged? && !f.verdict.SpentVerified? ==>
            && u.rows.Keys == t.rows.Keys
            && u.rows[o] == t.rows[o].(quarantinedAt := Some(t.rows[o].quarantinedAt.GetOr(now)),
                                       reason := Some(if f.verdict.Unproven? then f.verdict.reason else EXPIRED_REASON)))
  {
    assert t.rows[o := t.rows[o]] == t.rows;
  }

  function AfterFate(t: Tables, o: Outpoint, f: Fate, now: int): Tables {
    if Deletes(f) then Removed(t, o)
    else if o in t.rows then t.(rows := t.rows[o := FatedRow(t.rows[o], f, now)]) else t
  }

  /** The verdict the answers k and k + 1 lead to, as far as they came before `end`. */
  predicate Heard(net: Net, k: nat, end: nat, r: Row, o: Outpoint, now: int, v: Verdict) {
    if PastExpiry(r, now) then v == Expired
    else
      k < end && net(k).coins.Some? &&
      match SpendNamed(net(k).coins.value, o)
      case Failure(reason) => v == Unproven(reason)
      case Success(spender) => k + 1 < end && net(k + 1).served.Some? && v == Judge(spender, net(k + 1).served.value.0, o)
  }

  /** No verdict: the row has not expired, and one of the two requests was rejected. */
  predicate NotHeard(net: Net, k: nat, end: nat, r: Row, now: int) {
    !PastExpiry(r, now) && k < end && (net(k).coins.None? || (k + 1 < end && net(k + 1).served.None?))
  }

  method ClassifyDisappearance(vault: ExitVault, net: Net, at: nat, o: Outpoint, row: Row, now: int) returns (v: Option<Verdict>, next: nat)
    modifies vault
    ensures at <= next && vault.Now() == DidAll(old(vault.Now()), ActsBetween(net, at, next))
    ensures v.Some? ==> Heard(net, at, next, row, o, now, v.value)
    ensures v.None? ==> NotHeard(net, at, next, row, now)
  {
    next := at;
    assert DidAll(vault.Now(), ActsBetween(net, at, at)) == vault.Now();
    hide DidAll, ActsBetween;
    if PastExpiry(row, now) {
      return Some(Expired), next;
    }
    ghost var start := vault.Now();
    var reply;
    reply, next := Await(vault, net, at);
    if reply.coins.None? {
      return None, next;
    }
    match SpendNamed(reply.coins.value, o) {
      case Failure(reason) => return Some(Unproven(reason)), next;
      case Success(spender) =>
        reply, next := Await(vault, net, next);
        DidBetween(start, net, at, at + 1, next);
        if reply.served.None? {
          return None, next;
        }
        v := Some(Judge(spender, reply.served.value.0, o));
    }
  }

  method SettleRow(vault: ExitVault, net: Net, at: nat, o: Outpoint, row: Row, absorbed: bool, now: int) returns (f: Fate, next: nat)
    modifies vault
    ensures at <= next && vault.Now() == AfterFate(DidAll(old(vault.Now()), ActsBetween(net, at, next)), o, f, now)
    ensures f.Absorbed? <==> absorbed
    ensures f.Judged? ==> f.k == at && Heard(net, at, next, row, o, now, f.verdict)
    ensures f.Undecided? ==> f.k == at && NotHeard(net, at, next, row, now)
  {
    next := at;
    if absorbed {
      var _ := vault.RemoveVtxo(o);
      return Absorbed, next;
    }
    hide DidAll, ActsBetween, Heard;
    var v;
    v, next := ClassifyDisappearance(vault, net, at, o, row, now);
    if v.None? {
      assert o in vault.rows ==> vault.rows[o := vault.rows[o]] == vault.rows;
      return Undecided(at), next;
    }
    match v.value {
      case SpentVerified(_) => var _ := vault.RemoveVtxo(o);
      case Expired => var _ := vault.QuarantineVtxo(o, EXPIRED_REASON, now);
      case Unproven(reason) => var _ := vault.QuarantineVtxo(o, reason, now);
    }
    f := Judged(at, v.value);
  }

  // ---- which rows change ------------------------------------------------------------------------

  ghost predicate SameOutside(a: RowMap, b: RowMap, f: set<Outpoint>) {
    forall o :: o !in f ==> (o in a <==> o in b) && (o in a ==> a[o] == b[o])
  }

  lemma {:induction false} ActsAreLocal(t: Tables, acts: seq<Act>)
    ensures SameOutside(t.rows, DidAll(t, acts).rows, Touched(acts))
    decreases |acts|
  {
    if acts != [] {
      ActsAreLocal(t, acts[..|acts| - 1]);
      assert Touched(acts[..|acts| - 1]) <= Touched(acts);
      var a := acts[|acts| - 1];
      assert a in acts;
      assert Touches(a) <= Touched(acts);
    }
  }

  /** The rows once every fate is carried out. */
  function Settled(rows: RowMap, fates: map<Outpoint, Fate>, now: int): RowMap {
    map o | o in rows && !(o in fates && Deletes(fates[o])) :: if o in fates then FatedRow(rows[o], fates[o], now) else rows[o]
  }

  function Deleted(fates: map<Outpoint, Fate>): set<Outpoint> {
    set o | o in fates && Deletes(fates[o])
  }

  /** Where the loop over the rows that need evidence stands. */
  ghost predicate Settling(start: Tables, t: Tables, net: Net, mid: nat, next: nat, fates: map<Outpoint, Fate>, now: int) {
    && mid <= next
    && SameOutside(t.rows, Settled(start.rows, fates, now), Foreign(net, mid, next))
    && Holds(start, t, Foreign(net, mid, next) + Deleted(fates))
    && AtomicStay(start, t, ReleasedIn(net, mid, next) + fates.Keys)
    && (Filed(start) ==> Filed(t))
  }

  lemma FateHolds(t: Tables, o: Outpoint, f: Fate, now: int)
    ensures Holds(t, AfterFate(t, o, f, now), if Deletes(f) then {o} else {})
    ensures Filed(t) ==> Filed(AfterFate(t, o, f, now))
    ensures AtomicStay(t, AfterFate(t, o, f, now), {o})
  {
  }

  lemma SettleNext(start: Tables, t: Tables, net: Net, mid: nat, at: nat, next: nat, fates: map<Outpoint, Fate>, o: Outpoint, f: Fate, now: int)
    requires Settling(start, t, net, mid, at, fates, now) && at <= next && o !in fates
    ensures Settling(start, AfterFate(DidAll(t, ActsBetween(net, at, next)), o, f, now), net, mid, next, fates[o := f], now)
  {
    var acts := ActsBetween(net, at, next);
    var v := DidAll(t, acts);
    var u := AfterFate(v, o, f, now);
    ActsAreLocal(t, acts);
    ActsHold(t, acts);
    ActsSplit(net, mid, at, next);
    FateHolds(v, o, f, now);
    SettledNext(start, t, v, o, f, Foreign(net, mid, at), Foreign(net, at, next), fates, now);
    var all := Foreign(net, mid, next) + Deleted(fates[o := f]);
    assert Touched(acts) <= all;
    assert Deleted(fates) <= Deleted(fates[o := f]) && (Deletes(f) ==> o in Deleted(fates[o := f]));
    hide Holds, DidAll, AfterFate, Foreign, SameOutside, Settled, FatedRow;
    HoldsBut(start, t, Foreign(net, mid, at) + Deleted(fates), all);
    HoldsBut(t, v, Touched(acts), all);
    HoldsBut(v, u, if Deletes(f) then {o} else {}, all);
    HoldsFurther(start, t, v, all);
    HoldsFurther(start, v, u, all);
    SettleStays(start, t, net, mid, at, next, fates, o, f, now);
  }

  lemma SettleStays(start: Tables, t: Tables, net: Net, mid: nat, at: nat, next: nat, fates: map<Outpoint, Fate>, o: Outpoint, f: Fate, now: int)
    requires mid <= at <= next && AtomicStay(start, t, ReleasedIn(net, mid, at) + fates.Keys)
    ensures AtomicStay(start, AfterFate(DidAll(t, ActsBetween(net, at, next)), o, f, now), ReleasedIn(net, mid, next) + fates[o := f].Keys)
  {
    var v := DidAll(t, ActsBetween(net, at, next));
    OnlyReleasesTake(t, ActsBetween(net, at, next));
    ActsSplit(net, mid, at, next);
    FateHolds(v, o, f, now);
    hide AtomicStay, DidAll, AfterFate, Released, ActsBetween;
    AtomicStayFurther(start, t, v, ReleasedIn(net, mid, at) + fates.Keys, ReleasedIn(net, at, next));
    AtomicStayFurther(start, v, AfterFate(v, o, f, now), ReleasedIn(net, mid, at) + fates.Keys + ReleasedIn(net, at, next), {o});
    assert ReleasedIn(net, mid, at) + fates.Keys + ReleasedIn(net, at, next) + {o} == ReleasedIn(net, mid, next) + fates[o := f].Keys;
  }

  lemma SettledNext(start: Tables, t: Tables, v: Tables, o: Outpoint, f: Fate, before: set<Outpoint>, during: set<Outpoint>,
                    fates: map<Outpoint, Fate>, now: int)
    requires SameOutside(t.rows, Settled(start.rows, fates, now), before) && SameOutside(t.rows, v.rows, during) && o !in fates
    ensures SameOutside(AfterFate(v, o, f, now).rows, Settled(start.rows, fates[o := f], now), before + during)
  {
  }

  // ---- absorption over the pass ----------------------------------------------------------------

  /** The settlement the indexer credits an outpoint to: the last coin it lists for it. */
  function SettledBy(coins: seq<VirtualCoin>, o: Outpoint): Option<string> {
    if coins == [] then None
    else if coins[|coins| - 1].point == o then coins[|coins| - 1].settledBy
    else SettledBy(coins[..|coins| - 1], o)
  }

  function Candidates(rows: RowMap, need: seq<Outpoint>, coins: seq<VirtualCoin>): (cs: seq<Candidate>)
    requires forall o :: o in need ==> o in rows
    ensures |cs| == |need| && forall i :: 0 <= i < |need| ==> cs[i] == Candidate(need[i], rows[need[i]].valueSat, SettledBy(coins, need[i]))
  {
    seq(|need|, i requires 0 <= i < |need| => Candidate(need[i], rows[need[i]].valueSat, SettledBy(coins, need[i])))
  }

  /** One batched read over all unexplained rows; a rejected read absorbs nothing. */
  method AbsorbedRows(vault: ExitVault, net: Net, at: nat, rows: RowMap, need: seq<Outpoint>, live: seq<LiveVtxo>)
    returns (absorbed: set<Outpoint>, next: nat)
    requires forall o :: o in need ==> o in rows
    modifies vault
    ensures at <= next && vault.Now() == DidAll(old(vault.Now()), ActsBetween(net, at, next))
    ensures absorbed == if need == [] || net(at).coins.None? then {} else AbsorbedBy(Candidates(rows, need, net(at).coins.value), live)
  {
    next := at;
    absorbed := {};
    if need == [] {
      return;
    }
    hide DidAll, ActsBetween, Candidates;
    var reply;
    reply, next := Await(vault, net, at);
    if reply.coins.Some? {
      absorbed := ResolveAbsorbedByConservation(Candidates(rows, need, reply.coins.value), live);
    }
  }

  // ---- the pass ---------------------------------------------------------------------------------

  /** What a pass decided about the rows that need evidence, and on which answers. */
  ghost predicate Justified(first: Tables, need: seq<Outpoint>, absorbed: set<Outpoint>, net: Net, mid: nat, end: nat,
                            fates: map<Outpoint, Fate>, now: int)
    requires forall o :: o in need ==> o in first.rows
  {
    forall o :: o in fates ==>
      && o in need
      && (fates[o].Absorbed? <==> o in absorbed)
      && (fates[o].Judged? ==> mid <= fates[o].k && Heard(net, fates[o].k, end, first.rows[o], o, now, fates[o].verdict))
      && (fates[o].Undecided? ==> mid <= fates[o].k && NotHeard(net, fates[o].k, end, first.rows[o], now))
  }

  lemma FateJustified(first: Tables, need: seq<Outpoint>, absorbed: set<Outpoint>, net: Net, mid: nat, at: nat, next: nat,
                      fates: map<Outpoint, Fate>, o: Outpoint, f: Fate, now: int)
    requires (forall p :: p in need ==> p in first.rows) && o in need && mid <= at <= next
    requires Justified(first, need, absorbed, net, mid, at, fates, now)
    requires f.Absorbed? <==> o in absorbed
    requires f.Judged? ==> f.k == at && Heard(net, at, next, first.rows[o], o, now, f.verdict)
    requires f.Undecided? ==> f.k == at && NotHeard(net, at, next, first.rows[o], now)
    ensures Justified(first, need, absorbed, net, mid, next, fates[o := f], now)
  {
    hide SpendNamed, Judge, PastExpiry;
  }

  method SettleAll(vault: ExitVault, net: Net, mid: nat, rows: RowMap, need: seq<Outpoint>, absorbed: set<Outpoint>, now: int, ghost first: Tables)
    returns (fates: map<Outpoint, Fate>, next: nat)
    requires rows == first.rows && forall o :: o in need ==> o in rows
    requires forall i, j :: 0 <= i < j < |need| ==> need[i] != need[j]
    modifies vault
    ensures mid <= next && Settling(old(vault.Now()), vault.Now(), net, mid, next, fates, now)
    ensures forall o :: o in fates <==> o in need
    ensures Justified(first, need, absorbed, net, mid, next, fates, now)
  {
    hide Heard, AfterFate, DidAll, ActsBetween;
    ghost var start := vault.Now();
    fates, next := map[], mid;
    assert Settling(start, start, net, mid, mid, fates, now) by {
      NothingSettled(start, net, mid, now);
    }
    hide Settling, Justified;
    for i := 0 to |need|
      invariant mid <= next
      invariant Settling(start, vault.Now(), net, mid, next, fates, now)
      invariant forall o :: o in fates <==> o in need[..i]
      invariant Justified(first, need, absorbed, net, mid, next, fates, now)
    {
      var o := need[i];
      assert o !in need[..i];
      ghost var t, at := vault.Now(), next;
      var f;
      f, next := SettleRow(vault, net, next, o, rows[o], o in absorbed, now);
      SettleNext(start, t, net, mid, at, next, fates, o, f, now);
      FateJustified(first, need, absorbed, net, mid, at, next, fates, o, f, now);
      fates := fates[o := f];
      assert need[..i + 1] == need[..i] + [o];
    }
    assert need[..|need|] == need;
  }

  lemma NothingSettled(t: Tables, net: Net, mid: nat, now: int)
    ensures Settling(t, t, net, mid, mid, map[], now)
  {
    assert ActsBetween(net, mid, mid) == [];
    assert Settled(t.rows, map[], now) == t.rows;
  }

  datatype Report = Report(outcomes: seq<Outcome>, released: set<Outpoint>, fates: map<Outpoint, Fate>, removedProofs: nat)

  function Points(vtxos: seq<LiveVtxo>): set<Outpoint> {
    set v | v in vtxos :: v.point
  }

  function Exited(t: Tables, live: set<Outpoint>): set<Outpoint> {
    set o | o in t.rows && ExitedByUs(t, live, o)
  }

  /** The rows a pass forgets. */
  function Forgotten(t: Tables, live: set<Outpoint>, fates: map<Outpoint, Fate>): set<Outpoint> {
    Exited(t, live) + Deleted(fates)
  }

  /** The outpoints a batched answer settles, given the rows that need evidence. */
  function AbsorbedAt(net: Net, at: nat, rows: RowMap, need: seq<Outpoint>, live: seq<LiveVtxo>): set<Outpoint>
    requires forall o :: o in need ==> o in rows
  {
    if need == [] || net(at).coins.None? then {} else AbsorbedBy(Candidates(rows, need, net(at).coins.value), live)
  }

  /** The rows of which the live set reports another script or tap tree. */
  function DriftingAll(t: Tables, vtxos: seq<LiveVtxo>): set<Outpoint> {
    set v, o | v in vtxos && o in Drifting(t, v) :: o
  }

  lemma MirrorTaps(start: Tables, t: Tables, u: Tables, vtxos: seq<LiveVtxo>, v: LiveVtxo, a: set<Outpoint>, b: set<Outpoint>)
    requires TapsStay(start, t, a + DriftingAll(start, vtxos)) && TapsStay(t, u, b + Drifting(t, v)) && v in vtxos
    ensures TapsStay(start, u, a + b + DriftingAll(start, vtxos))
  {
    forall o | o in start.rows && o !in a + b + DriftingAll(start, vtxos) ensures o in u.rows && SameTap(start.rows[o], u.rows[o]) {
      assert o in t.rows && SameTap(start.rows[o], t.rows[o]);
      assert o in Drifting(t, v) ==> o in Drifting(start, v);
    }
  }

  /** The second half of a pass changes no script and no tap tree. */
  lemma AccountedTaps(first: Tables, t: Tables, net: Net, mid: nat, next: nat, vtxos: seq<LiveVtxo>,
                      need: seq<Outpoint>, fates: map<Outpoint, Fate>, now: int)
    requires Accounted(first, t, net, mid, next, vtxos, need, fates, now)
    ensures TapsStay(first, t, Foreign(net, mid, next) + Forgotten(first, Points(vtxos), fates))
  {
    hide Holds, Filed, AtomicStay, Justified, NeedsEvidence, Foreign;
    SettledTaps(first, Points(vtxos), fates, now);
    hide Settled, Sorted, Forgotten;
  }

  lemma SettledTaps(first: Tables, live: set<Outpoint>, fates: map<Outpoint, Fate>, now: int)
    ensures forall o :: o in first.rows && o !in Forgotten(first, live, fates) ==>
      var s := Settled(Sorted(first, live), fates, now);
      o in s && SameTap(first.rows[o], s[o])
  {
  }

  /** The first half of a pass, vtxo by vtxo. */
  method MirrorAll(vault: ExitVault, net: Net, at: nat, vtxos: seq<LiveVtxo>, now: int) returns (outcomes: seq<Outcome>, next: nat)
    modifies vault
    ensures at <= next && |outcomes| == |vtxos|
    ensures Holds(old(vault.Now()), vault.Now(), Foreign(net, at, next)) && (Filed(old(vault.Now())) ==> Filed(vault.Now()))
    ensures AtomicStay(old(vault.Now()), vault.Now(), ReleasedIn(net, at, next))
    ensures TapsStay(old(vault.Now()), vault.Now(), Foreign(net, at, next) + DriftingAll(old(vault.Now()), vtxos))
  {
    ghost var start := vault.Now();
    outcomes, next := [], at;
    WaitHolds(start, net, at, at, Outpoint("", 0));
    assert ActsBetween(net, at, at) == [];
    TapsFurther(start, start, start, {}, Foreign(net, at, at), Foreign(net, at, at) + DriftingAll(start, vtxos));
    hide Holds, Filed, Mirrored, Ready, Foreign, AtomicStay, ReleasedIn, TapsStay, DriftingAll, Drifting, Refreshed;
    for i := 0 to |vtxos|
      invariant at <= next && |outcomes| == i
      invariant Holds(start, vault.Now(), Foreign(net, at, next)) && (Filed(start) ==> Filed(vault.Now()))
      invariant AtomicStay(start, vault.Now(), ReleasedIn(net, at, next))
      invariant TapsStay(start, vault.Now(), Foreign(net, at, next) + DriftingAll(start, vtxos))
    {
      ghost var t, before := vault.Now(), next;
      var r;
      r, next := SyncOne(vault, net, next, vtxos[i], now);
      outcomes := outcomes + [r];
      ActsSplit(net, at, before, next);
      HoldsBut(start, t, Foreign(net, at, before), Foreign(net, at, next));
      HoldsBut(t, vault.Now(), Foreign(net, before, next), Foreign(net, at, next));
      HoldsFurther(start, t, vault.Now(), Foreign(net, at, next));
      AtomicStayFurther(start, t, vault.Now(), ReleasedIn(net, at, before), ReleasedIn(net, before, next));
      MirrorTaps(start, t, vault.Now(), vtxos, vtxos[i], Foreign(net, at, before), Foreign(net, before, next));
    }
  }

  /** What the second half of a pass, starting at the tables `first` and the answer `mid`,
      has done by the tables `t`: each row that needed evidence has a fate the answers
      justify; outside the outpoints others worked on, the rows are the first ones with
      exits and releases sorted out and the fates carried out; nothing else is at risk. */
  ghost predicate Accounted(first: Tables, t: Tables, net: Net, mid: nat, next: nat, vtxos: seq<LiveVtxo>,
                            need: seq<Outpoint>, fates: map<Outpoint, Fate>, now: int) {
    var live := Points(vtxos);
    && mid <= next
    && (forall i, j :: 0 <= i < j < |need| ==> need[i] != need[j])
    && (forall o :: o in need <==> NeedsEvidence(first, live, o))
    && (forall o :: o in need <==> o in fates)
    && Justified(first, need, AbsorbedAt(net, mid, first.rows, need, vtxos), net, mid, next, fates, now)
    && SameOutside(t.rows, Settled(Sorted(first, live), fates, now), Foreign(net, mid, next))
    && Holds(first, t, Foreign(net, mid, next) + Forgotten(first, live, fates))
    && AtomicStay(first, t, ReleasedIn(net, mid, next) + Exited(first, live))
    && (Filed(first) ==> Filed(t))
  }

  lemma SettledOutside(a: RowMap, b: RowMap, f: set<Outpoint>, fates: map<Outpoint, Fate>, now: int)
    requires SameOutside(a, b, f)
    ensures SameOutside(Settled(a, fates, now), Settled(b, fates, now), f)
  {
  }

  /** Sorting, then a wait, then the fates: what is at risk. */
  lemma SortedThenSettled(first: Tables, t: Tables, net: Net, mid: nat, asked: nat, next: nat, live: set<Outpoint>,
                          fates: map<Outpoint, Fate>, now: int)
    requires mid <= asked
    requires Settling(DidAll(first.(rows := Sorted(first, live)), ActsBetween(net, mid, asked)), t, net, asked, next, fates, now)
    ensures Holds(first, t, Foreign(net, mid, next) + Forgotten(first, live, fates)) && (Filed(first) ==> Filed(t))
  {
    var sorted := first.(rows := Sorted(first, live));
    var acts := ActsBetween(net, mid, asked);
    var read := DidAll(sorted, acts);
    SortHolds(first, live);
    ActsHold(sorted, acts);
    ActsSplit(net, mid, asked, next);
    var all := Foreign(net, mid, next) + Forgotten(first, live, fates);
    hide Holds, DidAll, SameOutside, Settled, Sorted, Filed;
    HoldsBut(first, sorted, Exited(first, live), all);
    HoldsBut(sorted, read, Touched(acts), all);
    HoldsBut(read, t, Foreign(net, asked, next) + Deleted(fates), all);
    HoldsFurther(first, sorted, read, all);
    HoldsFurther(first, read, t, all);
  }

  /** Sorting, then a wait, then the fates: no row of an atomic swap is ever asked about. */
  lemma SettledStays(first: Tables, t: Tables, net: Net, mid: nat, asked: nat, next: nat, live: set<Outpoint>,
                     fates: map<Outpoint, Fate>, now: int)
    requires mid <= asked && forall o :: o in fates ==> NeedsEvidence(first, live, o)
    requires Settling(DidAll(first.(rows := Sorted(first, live)), ActsBetween(net, mid, asked)), t, net, asked, next, fates, now)
    ensures AtomicStay(first, t, ReleasedIn(net, mid, next) + Exited(first, live))
  {
    var sorted := first.(rows := Sorted(first, live));
    var read := DidAll(sorted, ActsBetween(net, mid, asked));
    SortHolds(first, live);
    OnlyReleasesTake(sorted, ActsBetween(net, mid, asked));
    ActsSplit(net, mid, asked, next);
    hide DidAll, SameOutside, Settled, Sorted, Filed, Holds, Released, ActsBetween, Foreign, ReleasedIn;
    AtomicStayFurther(first, sorted, read, Exited(first, live), ReleasedIn(net, mid, asked));
    AtomicStayFurther(first, read, t, Exited(first, live) + ReleasedIn(net, mid, asked), ReleasedIn(net, asked, next) + fates.Keys);
    forall o | AtomicRow(first, o) && o !in ReleasedIn(net, mid, next) + Exited(first, live) ensures AtomicRow(t, o) {
      assert o !in fates.Keys;
    }
  }

  /** Sorting, then a wait, then the fates: the rows. */
  lemma RowsSettled(first: Tables, t: Tables, net: Net, mid: nat, asked: nat, next: nat, live: set<Outpoint>,
                    fates: map<Outpoint, Fate>, now: int)
    requires mid <= asked
    requires Settling(DidAll(first.(rows := Sorted(first, live)), ActsBetween(net, mid, asked)), t, net, asked, next, fates, now)
    ensures SameOutside(t.rows, Settled(Sorted(first, live), fates, now), Foreign(net, mid, next))
  {
    var sorted := first.(rows := Sorted(first, live));
    var acts := ActsBetween(net, mid, asked);
    var read := DidAll(sorted, acts);
    ActsAreLocal(sorted, acts);
    ActsSplit(net, mid, asked, next);
    hide Holds, DidAll, Settled, Sorted, Filed, Touched;
    SettledOutside(sorted.rows, read.rows, Touched(acts), fates, now);
  }

  lemma PartsAccount(first: Tables, t: Tables, net: Net, mid: nat, next: nat, vtxos: seq<LiveVtxo>,
                     need: seq<Outpoint>, fates: map<Outpoint, Fate>, now: int)
    requires mid <= next && forall i, j :: 0 <= i < j < |need| ==> need[i] != need[j]
    requires forall o :: (o in need <==> NeedsEvidence(first, Points(vtxos), o)) && (o in need <==> o in fates) && (o in need ==> o in first.rows)
    requires Justified(first, need, AbsorbedAt(net, mid, first.rows, need, vtxos), net, mid, next, fates, now)
    requires SameOutside(t.rows, Settled(Sorted(first, Points(vtxos)), fates, now), Foreign(net, mid, next))
    requires Holds(first, t, Foreign(net, mid, next) + Forgotten(first, Points(vtxos), fates)) && (Filed(first) ==> Filed(t))
    requires AtomicStay(first, t, ReleasedIn(net, mid, next) + Exited(first, Points(vtxos)))
    ensures Accounted(first, t, net, mid, next, vtxos, need, fates, now)
  {
    hide Holds, SameOutside, Filed, Heard, AtomicStay;
  }

  lemma CollectedAreReferenced(t: Tables)
    ensures forall x :: x in Collected(t).proofs ==> x in Referenced(Collected(t).rows)
  {
  }

  lemma OrphansGone(first: Tables, t: Tables, net: Net, mid: nat, next: nat, vtxos: seq<LiveVtxo>,
                    need: seq<Outpoint>, fates: map<Outpoint, Fate>, now: int)
    requires Accounted(first, t, net, mid, next, vtxos, need, fates, now)
    ensures Accounted(first, Collected(t), net, mid, next, vtxos, need, fates, now)
  {
    var all := Foreign(net, mid, next) + Forgotten(first, Points(vtxos), fates);
    CollectHolds(t);
    assert AtomicStay(t, Collected(t), {});
    AtomicStayFurther(first, t, Collected(t), ReleasedIn(net, mid, next) + Exited(first, Points(vtxos)), {});
    assert ReleasedIn(net, mid, next) + Exited(first, Points(vtxos)) + {} == ReleasedIn(net, mid, next) + Exited(first, Points(vtxos));
    HoldsBut(t, Collected(t), {}, all);
    HoldsFurther(first, t, Collected(t), all);
  }

  /** The second half of a pass. */
  method CollectGone(vault: ExitVault, net: Net, mid: nat, vtxos: seq<LiveVtxo>, now: int)
    returns (released: set<Outpoint>, fates: map<Outpoint, Fate>, removedProofs: nat, next: nat, ghost need: seq<Outpoint>)
    modifies vault
    ensures Accounted(old(vault.Now()), vault.Now(), net, mid, next, vtxos, need, fates, now)
    ensures forall x :: x in vault.proofs ==> x in Referenced(vault.rows)
  {
    hide Holds, Filed, Settled, DidAll, SameOutside, Heard, AbsorbedBy, Candidates, Settling, Sorted, Referenced, ActsBetween, Accounted, AtomicStay, ReleasedIn;
    ghost var first := vault.Now();
    var rows := vault.rows;
    var seen;
    seen, released := SortDisappearances(vault, Points(vtxos));
    need := seen;
    var absorbed, asked := AbsorbedRows(vault, net, mid, rows, seen, vtxos);
    fates, next := SettleAll(vault, net, asked, rows, seen, absorbed, now, first);
    SortedThenSettled(first, vault.Now(), net, mid, asked, next, Points(vtxos), fates, now);
    RowsSettled(first, vault.Now(), net, mid, asked, next, Points(vtxos), fates, now);
    SettledStays(first, vault.Now(), net, mid, asked, next, Points(vtxos), fates, now);
    PartsAccount(first, vault.Now(), net, mid, next, vtxos, need, fates, now);
    OrphansGone(first, vault.Now(), net, mid, next, vtxos, need, fates, now);
    CollectedAreReferenced(vault.Now());
    removedProofs := vault.GcOrphanProofs();
  }

  /** One full pass: mirror every live vtxo, then account for the rows the live set dropped. */
  method SyncProofs(vault: ExitVault, net: Net, at: nat, vtxos: seq<LiveVtxo>, now: int)
    returns (report: Report, next: nat, ghost mid: nat, ghost first: Tables, ghost need: seq<Outpoint>)
    modifies vault
    ensures at <= mid <= next && |report.outcomes| == |vtxos|
    ensures Holds(old(vault.Now()), first, Foreign(net, at, mid)) && AtomicStay(old(vault.Now()), first, ReleasedIn(net, at, mid))
    ensures Filed(old(vault.Now())) ==> Filed(first)
    ensures TapsStay(old(vault.Now()), first, Foreign(net, at, mid) + DriftingAll(old(vault.Now()), vtxos))
    ensures Accounted(first, vault.Now(), net, mid, next, vtxos, need, report.fates, now)
    ensures Holds(old(vault.Now()), vault.Now(), Foreign(net, at, next) + Forgotten(first, Points(vtxos), report.fates))
    ensures AtomicStay(old(vault.Now()), vault.Now(), ReleasedIn(net, at, next) + Exited(first, Points(vtxos)))
    ensures Filed(old(vault.Now())) ==> Filed(vault.Now())
    ensures forall x :: x in vault.proofs ==> x in Referenced(vault.rows)
  {
    hide AtomicStay, ReleasedIn, Exited, Holds, Filed, Justified, SameOutside, Referenced, Foreign, Forgotten, NeedsEvidence, Settled, TapsStay, DriftingAll;
    ghost var start := vault.Now();
    var outcomes, from := MirrorAll(vault, net, at, vtxos, now);
    mid := from;
    first := vault.Now();
    var released, fates, removed;
    released, fates, removed, next, need := CollectGone(vault, net, from, vtxos, now);
    report := Report(outcomes, released, fates, removed);
    ActsSplit(net, at, mid, next);
    var all := Foreign(net, at, next) + Forgotten(first, Points(vtxos), fates);
    HoldsBut(start, first, Foreign(net, at, mid), all);
    HoldsBut(first, vault.Now(), Foreign(net, mid, next) + Forgotten(first, Points(vtxos), fates), all);
    HoldsFurther(start, first, vault.Now(), all);
    AtomicStayFurther(start, first, vault.Now(), ReleasedIn(net, at, mid), ReleasedIn(net, mid, next) + Exited(first, Points(vtxos)));
    assert ReleasedIn(net, at, mid) + (ReleasedIn(net, mid, next) + Exited(first, Points(vtxos))) == ReleasedIn(net, at, next) + Exited(first, Points(vtxos));
  }
}
