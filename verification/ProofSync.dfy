/** One pass of the offline mirror, and the one-shot capture (src/exit/proof_sync.ts). The
    indexer's answers are arbitrary, and at every await other parts of the bridge may work on
    the same tables. */
module ProofSync {
  import opened Wrappers
  import opened SharedScript
  import opened ExitChain
  import opened Vault
  import opened Evidence

  datatype Page = Page(current: int, next: int)

  /** One await: what other parts of the bridge do meanwhile, and what the indexer answers to
      whichever question was asked; None is a rejected request. */
  datatype Reply = Reply(
    meanwhile: seq<Act>,
    chain: Option<seq<ChainTx>>,
    served: Option<(seq<Served>, Option<Page>)>,
    coins: Option<seq<VirtualCoin>>
  )

  /** The replies of a run by the number of the await. */
  type Net = nat -> Reply

  const MAX_PAGES: nat := 50
  const SECONDS_MAX: nat := 1_000_000_000_000

  // ---- what happened meanwhile -----------------------------------------------------------

  function ActsBetween(net: Net, i: nat, j: nat): seq<Act> {
    if j <= i then [] else ActsBetween(net, i, j - 1) + net(j - 1).meanwhile
  }

  /** The outpoints whose rows other parts of the bridge replaced or deleted meanwhile. */
  function Foreign(net: Net, i: nat, j: nat): set<Outpoint> {
    Touched(ActsBetween(net, i, j))
  }

  /** The outpoints the sends behind them let go meanwhile. */
  function ReleasedIn(net: Net, i: nat, j: nat): set<Outpoint> {
    Released(ActsBetween(net, i, j))
  }

  lemma {:induction false} DidBoth(t: Tables, a: seq<Act>, b: seq<Act>)
    ensures DidAll(t, a + b) == DidAll(DidAll(t, a), b)
    decreases |b|
  {
    if b == [] {
      assert a + b == a;
    } else {
      DidBoth(t, a, b[..|b| - 1]);
      assert (a + b)[..|a + b| - 1] == a + b[..|b| - 1];
    }
  }

  lemma {:induction false} ActsSplit(net: Net, i: nat, j: nat, k: nat)
    requires i <= j <= k
    ensures ActsBetween(net, i, k) == ActsBetween(net, i, j) + ActsBetween(net, j, k)
    ensures Foreign(net, i, k) == Foreign(net, i, j) + Foreign(net, j, k)
    ensures ReleasedIn(net, i, k) == ReleasedIn(net, i, j) + ReleasedIn(net, j, k)
    decreases k - j
  {
    if j < k {
      ActsSplit(net, i, j, k - 1);
      assert ActsBetween(net, i, k) == ActsBetween(net, i, j) + (ActsBetween(net, j, k - 1) + net(k - 1).meanwhile);
    }
    hide *;
    TouchedBoth(net, i, j, k);
  }

  lemma TouchedBoth(net: Net, i: nat, j: nat, k: nat)
    requires ActsBetween(net, i, k) == ActsBetween(net, i, j) + ActsBetween(net, j, k)
    ensures Foreign(net, i, k) == Foreign(net, i, j) + Foreign(net, j, k)
    ensures ReleasedIn(net, i, k) == ReleasedIn(net, i, j) + ReleasedIn(net, j, k)
  {
    hide ActsBetween, Touches;
  }

  lemma DidBetween(t: Tables, net: Net, i: nat, j: nat, k: nat)
    requires i <= j <= k
    ensures DidAll(DidAll(t, ActsBetween(net, i, j)), ActsBetween(net, j, k)) == DidAll(t, ActsBetween(net, i, k))
  {
    ActsSplit(net, i, j, k);
    DidBoth(t, ActsBetween(net, i, j), ActsBetween(net, j, k));
  }

  /** An await: the others act, then the answer is here. */
  method Await(vault: ExitVault, net: Net, at: nat) returns (reply: Reply, next: nat)
    modifies vault
    ensures next == at + 1 && reply == net(at)
    ensures vault.Now() == DidAll(old(vault.Now()), ActsBetween(net, at, next))
  {
    reply, next := net(at), at + 1;
    vault.Meanwhile(reply.meanwhile);
    assert ActsBetween(net, at, next) == ActsBetween(net, at, at) + reply.meanwhile == reply.meanwhile;
  }

  // ---- fetching ------------------------------------------------------------------------------

  method FetchChain(vault: ExitVault, net: Net, at: nat) returns (chain: Option<seq<ChainTx>>, next: nat)
    modifies vault
    ensures next == at + 1 && chain == net(at).chain
    ensures vault.Now() == DidAll(old(vault.Now()), ActsBetween(net, at, next))
  {
    var reply;
    reply, next := Await(vault, net, at);
    chain := reply.chain;
  }

  /** Keys every served transaction by the txid it decodes to; bytes that do not parse end the
      fetch. */
  method FileByTxid(filed: map<Txid, Psbt>, served: seq<Served>) returns (out: Option<map<Txid, Psbt>>)
    requires forall x :: x in filed ==> filed[x].id == x
    ensures out.None? <==> Garbage in served
    ensures out.Some? ==> forall x :: x in out.value ==> out.value[x].id == x
    ensures out.Some? ==> forall x :: x in out.value <==> x in filed || exists s :: s in served && s.Tx? && s.psbt.id == x
    ensures out.Some? ==> forall x :: x in out.value ==> Tx(out.value[x]) in served || (x in filed && filed[x] == out.value[x])
  {
    var m := filed;
    for i := 0 to |served|
      invariant Garbage !in served[..i]
      invariant forall x :: x in m ==> m[x].id == x
      invariant forall x :: x in m <==> x in filed || exists s :: s in served[..i] && s.Tx? && s.psbt.id == x
      invariant forall x :: x in m ==> Tx(m[x]) in served[..i] || (x in filed && filed[x] == m[x])
    {
      assert forall s :: s in served[..i + 1] <==> s in served[..i] || s == served[i];
      if served[i].Garbage? {
        return None;
      }
      m := m[served[i].psbt.id := served[i].psbt];
    }
    assert served[..|served|] == served;
    out := Some(m);
  }

  predicate ServedAt(net: Net, k: nat, p: Psbt) {
    net(k).served.Some? && Tx(p) in net(k).served.value.0
  }

  predicate ServedBetween(net: Net, i: nat, j: nat, p: Psbt) {
    exists k: nat :: i <= k < j && ServedAt(net, k, p)
  }

  lemma ServedOneMore(net: Net, i: nat, j: nat, p: Psbt)
    requires i <= j
    ensures ServedBetween(net, i, j + 1, p) <==> ServedBetween(net, i, j, p) || ServedAt(net, j, p)
  {
  }

  /** What has been filed from the answers i..j. */
  ghost predicate FiledFrom(net: Net, i: nat, j: nat, filed: map<Txid, Psbt>) {
    && (forall x :: x in filed ==> filed[x].id == x && ServedBetween(net, i, j, filed[x]))
    && (forall p: Psbt :: ServedBetween(net, i, j, p) ==> p.id in filed)
  }

  /** Some request of i..j was rejected, or served bytes that do not parse. */
  ghost predicate Rejected(net: Net, i: nat, j: nat) {
    exists k: nat :: i <= k < j && RejectedAt(net, k)
  }

  predicate RejectedAt(net: Net, k: nat) {
    net(k).served.None? || Garbage in net(k).served.value.0
  }

  /** One page of an answer. */
  method FetchPage(vault: ExitVault, net: Net, from: nat, at: nat, filed: map<Txid, Psbt>)
    returns (out: Option<map<Txid, Psbt>>, page: Option<Page>)
    requires from <= at && FiledFrom(net, from, at, filed)
    modifies vault
    ensures vault.Now() == DidAll(old(vault.Now()), ActsBetween(net, at, at + 1))
    ensures out.Some? ==> FiledFrom(net, from, at + 1, out.value)
    ensures out.None? ==> RejectedAt(net, at)
  {
    hide DidAll, ServedBetween;
    var reply, _ := Await(vault, net, at);
    if reply.served.None? {
      return None, None;
    }
    page := reply.served.value.1;
    out := FileByTxid(filed, reply.served.value.0);
    forall p: Psbt ensures ServedBetween(net, from, at + 1, p) <==> ServedBetween(net, from, at, p) || ServedAt(net, at, p) {
      ServedOneMore(net, from, at, p);
    }
    if out.Some? {
      forall p: Psbt | ServedBetween(net, from, at + 1, p) ensures p.id in out.value {
        if ServedAt(net, at, p) {
          assert Tx(p).psbt.id == p.id;
        }
      }
      forall x | x in out.value ensures ServedBetween(net, from, at + 1, out.value[x]) {
        if Tx(out.value[x]) in reply.served.value.0 {
          assert ServedAt(net, at, out.value[x]);
        }
      }
    }
  }

  /** The proofs an indexer serves for some txids, page by page. */
  method FetchProofPsbts(vault: ExitVault, net: Net, at: nat, txids: seq<Txid>) returns (out: Option<map<Txid, Psbt>>, next: nat)
    modifies vault
    ensures at <= next <= at + MAX_PAGES && (txids == [] <==> next == at) && (txids == [] ==> out == Some(map[]))
    ensures vault.Now() == DidAll(old(vault.Now()), ActsBetween(net, at, next))
    ensures out.Some? ==> FiledFrom(net, at, next, out.value)
    ensures out.None? ==> Rejected(net, at, next)
  {
    next := at;
    var filed: map<Txid, Psbt> := map[];
    assert DidAll(vault.Now(), []) == vault.Now() && ActsBetween(net, at, at) == [];
    assert FiledFrom(net, at, at, filed);
    if txids == [] {
      return Some(filed), next;
    }
    hide DidAll, FiledFrom, ActsBetween;
    for i := 0 to MAX_PAGES
      invariant next == at + i
      invariant vault.Now() == DidAll(old(vault.Now()), ActsBetween(net, at, next))
      invariant FiledFrom(net, at, next, filed)
    {
      DidBetween(old(vault.Now()), net, at, next, next + 1);
      var more, page := FetchPage(vault, net, at, next, filed);
      next := next + 1;
      if more.None? {
        return None, next;
      }
      filed := more.value;
      if page.None? || page.value.next <= page.value.current {
        return Some(filed), next;
      }
    }
    out := Some(filed);
  }

  /** The kind of the last entry with a txid. */
  function KindOf(chain: seq<ChainTx>, x: Txid): TxKind {
    if chain == [] then Unspecified
    else if chain[|chain| - 1].txid == x then chain[|chain| - 1].kind
    else KindOf(chain[..|chain| - 1], x)
  }

  /** The kind of a transaction is that of the last entry the chain lists for it. */
  ghost predicate OfKind(chain: seq<ChainTx>, x: Txid, kind: TxKind) {
    exists i :: 0 <= i < |chain| && chain[i].txid == x && chain[i].kind == kind && forall k :: i < k < |chain| ==> chain[k].txid != x
  }

  lemma {:induction false} KindOfEntry(chain: seq<ChainTx>, x: Txid)
    requires x in ProofTxids(chain)
    ensures OfKind(chain, x, KindOf(chain, x))
  {
    var tx :| tx in chain && tx.txid == x;
    LastKind(chain, x);
  }

  lemma {:induction false} LastKind(chain: seq<ChainTx>, x: Txid)
    requires exists tx :: tx in chain && tx.txid == x
    ensures OfKind(chain, x, KindOf(chain, x))
    decreases |chain|
  {
    var n := |chain| - 1;
    if chain[n].txid != x {
      var tx :| tx in chain && tx.txid == x;
      assert tx in chain[..n];
      LastKind(chain[..n], x);
      var i :| 0 <= i < n && chain[..n][i].txid == x && chain[..n][i].kind == KindOf(chain, x) && forall k :: i < k < n ==> chain[..n][k].txid != x;
      assert chain[i].txid == x && forall k :: i < k < |chain| ==> k == n || chain[k] == chain[..n][k];
    }
  }

  ghost predicate Kinds(chain: seq<ChainTx>, proofs: seq<ProofTx>) {
    forall q :: q in proofs ==> OfKind(chain, q.txid, q.kind)
  }

  lemma NoKinds(chain: seq<ChainTx>)
    ensures Kinds(chain, [])
  {
  }

  lemma MoreKinds(chain: seq<ChainTx>, proofs: seq<ProofTx>, x: Txid, psbt: Psbt)
    requires Kinds(chain, proofs) && x in ProofTxids(chain)
    ensures Kinds(chain, proofs + [ProofTx(x, KindOf(chain, x), psbt)])
  {
    KindOfEntry(chain, x);
    hide OfKind;
  }

  /** Fetches what a chain lacks: the proofs to store, and the txids the indexer did not
      serve. None when a request is rejected. */
  method GatherProofs(vault: ExitVault, net: Net, at: nat, chain: seq<ChainTx>)
    returns (r: Option<(seq<ProofTx>, seq<Txid>)>, next: nat)
    modifies vault
    ensures at <= next && (AllStored(old(vault.proofs), chain) <==> next == at) && (next == at ==> r == Some(([], [])))
    ensures vault.Now() == DidAll(old(vault.Now()), ActsBetween(net, at, next))
    ensures r.None? ==> Rejected(net, at, next)
    ensures r.Some? ==> Kinds(chain, r.value.0)
    ensures r.Some? ==> Labelled(r.value.0) && forall q :: q in r.value.0 ==> ServedBetween(net, at, next, q.psbt)
    ensures r.Some? ==> forall x :: x in ProofTxids(chain) && x !in old(vault.proofs) <==> Brings(r.value.0, x) || x in r.value.1
    ensures r.Some? ==> forall x :: x in r.value.1 ==> !Brings(r.value.0, x) && forall p: Psbt :: ServedBetween(net, at, next, p) ==> p.id != x
  {
    hide DidAll, ActsBetween, ProofTxids, Kinds, KindOf, ServedBetween, AllStored;
    NoKinds(chain);
    var missing := vault.MissingProofTxids(chain);
    var served;
    served, next := FetchProofPsbts(vault, net, at, missing);
    if served.None? {
      return None, next;
    }
    var proofs: seq<ProofTx>, unserved: seq<Txid> := [], [];
    for i := 0 to |missing|
      invariant vault.Now() == DidAll(old(vault.Now()), ActsBetween(net, at, next))
      invariant Kinds(chain, proofs)
      invariant Labelled(proofs) && forall q :: q in proofs ==> ServedBetween(net, at, next, q.psbt)
      invariant forall x :: x in missing[..i] <==> Brings(proofs, x) || x in unserved
      invariant forall x :: x in unserved ==> x !in served.value
      invariant forall x :: Brings(proofs, x) ==> x in served.value
      invariant i == 0 ==> proofs == [] && unserved == []
    {
      var x := missing[i];
      assert forall y :: y in missing[..i + 1] <==> y in missing[..i] || y == x;
      if x in served.value {
        ghost var before := proofs;
        MoreKinds(chain, proofs, x, served.value[x]);
        var p := ProofTx(x, KindOf(chain, x), served.value[x]);
        proofs := proofs + [p];
        assert forall q :: q in proofs <==> q in before || q == p;
        assert forall y :: Brings(proofs, y) <==> Brings(before, y) || y == x;
      } else {
        unserved := unserved + [x];
      }
    }
    assert missing[..|missing|] == missing;
    r := Some((proofs, unserved));
  }

  // ---- capture -----------------------------------------------------------------------------

  datatype CaptureResult = Threw | Captured(complete: bool, unserved: seq<Txid>, dangling: seq<ChainTx>)

  /** A proof the chain needs, that was not stored and that no answer brought. */
  ghost predicate Unserved(counted: Tables, net: Net, i: nat, j: nat, chain: seq<ChainTx>, x: Txid) {
    x in ProofTxids(chain) && x !in counted.proofs && forall p: Psbt :: ServedBetween(net, i, j, p) ==> p.id != x
  }

  /** The proofs of a chain that were there at one time and gone at a later one. */
  ghost predicate NoneLost(before: Tables, after: Tables, chain: seq<ChainTx>) {
    forall x :: x in ProofTxids(chain) && x in before.proofs ==> x in after.proofs
  }

  /** Storing what was gathered leaves the row ready exactly when its chain is whole, none of
      the proofs counted on was collected meanwhile, and every proof that was not served is
      there all the same, because somebody else has stored it. */
  lemma GatheredIsReady(counted: Tables, t: Tables, o: Outpoint, s: Snapshot, proofs: seq<ProofTx>, unserved: seq<Txid>, now: int)
    requires forall x :: x in ProofTxids(s.chain) && x !in counted.proofs <==> Brings(proofs, x) || x in unserved
    requires forall x :: x in unserved ==> !Brings(proofs, x)
    ensures Ready(Stored(t, o, s, proofs, now), o) <==>
      Whole(s.chain) && NoneLost(counted, t, s.chain) && forall x :: x in unserved ==> x in t.proofs
  {
    StoreHolds(t, o, s, proofs, now);
    hide Stored, Ready, DanglingEntries, ProofTxids, Brings;
  }

  /** A store takes no atomic row away and flags none. */
  lemma StoreStays(t: Tables, o: Outpoint, s: Snapshot, proofs: seq<ProofTx>, now: int)
    ensures AtomicStay(t, Stored(t, o, s, proofs, now), {})
  {
    hide InsertProofs, LaterExpiry;
  }

  lemma RestoredHolds(t: Tables, v: Tables, o: Outpoint, s: Snapshot, proofs: seq<ProofTx>, now: int)
    requires o in t.rows && RowHolds(t, v, o)
    requires Ready(t, o) ==> s.chain == t.rows[o].chain
    ensures RowHolds(t, Stored(v, o, s, proofs, now), o)
  {
    StoreHolds(v, o, s, proofs, now);
    hide Stored;
    if Ready(t, o) {
      assert RowHolds(v, Stored(v, o, s, proofs, now), o);
    }
  }

  /** A store at the end of a wait: nothing but the row itself is at risk, and that one only
      when it was ready before under another chain. */
  lemma WaitThenStore(t: Tables, acts: seq<Act>, o: Outpoint, s: Snapshot, proofs: seq<ProofTx>, now: int)
    requires Labelled(proofs)
    ensures var u := Stored(DidAll(t, acts), o, s, proofs, now);
      && Holds(t, u, Touched(acts) + {o}) && (Filed(t) ==> Filed(u))
      && ((Ready(t, o) ==> s.chain == t.rows[o].chain) ==> Holds(t, u, Touched(acts)))
      && AtomicStay(t, u, Released(acts))
  {
    var v := DidAll(t, acts);
    var u := Stored(v, o, s, proofs, now);
    ActsHold(t, acts);
    StoreHolds(v, o, s, proofs, now);
    OnlyReleasesTake(t, acts);
    StoreStays(v, o, s, proofs, now);
    AtomicStayFurther(t, v, u, Released(acts), {});
    assert Released(acts) + {} == Released(acts);
    hide DidAll, Stored, Touched, RowHolds;
    HoldsBut(t, v, Touched(acts), Touched(acts) + {o});
    HoldsBut(v, u, {o}, Touched(acts) + {o});
    HoldsFurther(t, v, u, Touched(acts) + {o});
    if (Ready(t, o) ==> s.chain == t.rows[o].chain) && o in t.rows && o !in Touched(acts) {
      assert RowHolds(t, v, o);
      RestoredHolds(t, v, o, s, proofs, now);
    }
  }

  lemma UnservedExactly(counted: Tables, net: Net, i: nat, j: nat, chain: seq<ChainTx>, proofs: seq<ProofTx>, unserved: seq<Txid>)
    requires Labelled(proofs) && forall q :: q in proofs ==> ServedBetween(net, i, j, q.psbt)
    requires forall x :: x in ProofTxids(chain) && x !in counted.proofs <==> Brings(proofs, x) || x in unserved
    requires forall x :: x in unserved ==> forall p: Psbt :: ServedBetween(net, i, j, p) ==> p.id != x
    ensures forall x :: x in unserved <==> Unserved(counted, net, i, j, chain, x)
  {
    hide ServedBetween, ProofTxids;
  }

  /** The proofs a store brought have the kinds of the chain's entries. */
  ghost predicate NewKinds(before: Tables, t: Tables, chain: seq<ChainTx>) {
    forall x :: x in t.proofs && x !in before.proofs ==> OfKind(chain, x, t.proofs[x].kind)
  }

  lemma {:induction false} InsertedKinds(stored: map<Txid, Proof>, proofs: seq<ProofTx>, chain: seq<ChainTx>)
    requires Kinds(chain, proofs)
    ensures forall x :: x in InsertProofs(stored, proofs) && x !in stored ==> OfKind(chain, x, InsertProofs(stored, proofs)[x].kind)
  {
    if proofs != [] {
      var rest, p := proofs[..|proofs| - 1], proofs[|proofs| - 1];
      assert forall q :: q in rest ==> q in proofs;
      InsertedKinds(stored, rest, chain);
      assert p in proofs;
      hide OfKind;
    }
  }

  /** What a wait and a store make of the rows and of the new proofs. */
  lemma WaitThenSays(t: Tables, acts: seq<Act>, o: Outpoint, s: Snapshot, proofs: seq<ProofTx>, now: int)
    requires Kinds(s.chain, proofs)
    ensures var v := DidAll(t, acts);
      var u := Stored(v, o, s, proofs, now);
      && Says(v, u, o, s, now) && NewKinds(v, u, s.chain)
      && TapsStay(t, u, Touched(acts) + {o})
      && ((o in t.rows ==> s.script == t.rows[o].script && s.tapTree == t.rows[o].tapTree) ==> TapsStay(t, u, Touched(acts)))
  {
    var v := DidAll(t, acts);
    var u := Stored(v, o, s, proofs, now);
    StoredSays(v, o, s, proofs, now);
    InsertedKinds(v.proofs, proofs, s.chain);
    ActsKeepTaps(t, acts);
    StoreTaps(v, o, s, proofs, now);
    hide DidAll, InsertProofs, LaterExpiry, Says, OfKind, Touched;
    TapsFurther(t, v, u, Touched(acts), {o}, Touched(acts) + {o});
  }

  /** What a capture of `o` that starts at the answer `at` and ends before `next` makes of the
      tables. Nothing but its own row is at risk, and it takes no atomic row away. When it
      throws, nothing was written. Otherwise its row has the chain just served, and is ready
      exactly if that chain is whole, no proof counted on was collected while the others were
      fetched, and every unserved one was stored by somebody else meanwhile: `counted` are the
      tables when the proofs to fetch were chosen, `stored` those right before the store. The
      row says what the capture was given, and new proofs are of the kind the chain says. */
  ghost predicate CaptureDone(start: Tables, t: Tables, net: Net, at: nat, next: nat, o: Outpoint, v: Snapshot, now: int, r: CaptureResult) {
    var counted, stored := DidAll(start, ActsBetween(net, at, at + 1)), DidAll(start, ActsBetween(net, at, next));
    && at < next
    && Holds(start, t, Foreign(net, at, next) + {o}) && (Filed(start) ==> Filed(t))
    && TapsStay(start, t, Foreign(net, at, next) + {o})
    && AtomicStay(start, t, ReleasedIn(net, at, next))
    && (net(at).chain.Some? && net(at).chain.value != [] ==> (next == at + 1 <==> AllStored(counted.proofs, net(at).chain.value)))
    && (r.Threw? ==> t == stored && (net(at).chain.None? || net(at).chain.value == [] || Rejected(net, at + 1, next)))
    && (r.Captured? ==>
          && net(at).chain.Some? && net(at).chain.value != []
          && var chain := net(at).chain.value;
             && o in t.rows && t.rows[o].chain == chain
             && Says(stored, t, o, v.(chain := chain), now) && NewKinds(stored, t, chain)
             && r.dangling == DanglingEntries(chain)
             && (forall x :: x in r.unserved <==> Unserved(counted, net, at + 1, next, chain, x))
             && r.complete == (r.unserved == [] && r.dangling == []) && (r.dangling == [] <==> Whole(chain))
             && (Ready(t, o) <==> Whole(chain) && NoneLost(counted, stored, chain) && forall x :: x in r.unserved ==> x in stored.proofs))
  }

  /** Captures one vtxo the wallet does not own. */
  method CaptureVtxo(vault: ExitVault, net: Net, at: nat, o: Outpoint, v: Snapshot, now: int) returns (r: CaptureResult, next: nat)
    modifies vault
    ensures CaptureDone(old(vault.Now()), vault.Now(), net, at, next, o, v, now, r)
  {
    hide DidAll, ActsBetween, Ready, Holds, Filed, NoneLost, AtomicStay, Unserved, ServedBetween, Released, Touched, Says, TapsStay, NewKinds, Kinds, Persisted;
    ghost var start := vault.Now();
    var chain;
    chain, next := FetchChain(vault, net, at);
    ghost var counted := vault.Now();
    if chain.None? || chain.value == [] {
      WaitHolds(start, net, at, next, o);
      return Threw, next;
    }
    var g;
    g, next := GatherProofs(vault, net, next, chain.value);
    DidBetween(start, net, at, at + 1, next);
    ghost var stored := vault.Now();
    if g.None? {
      WaitHolds(start, net, at, next, o);
      return Threw, next;
    }
    var (proofs, unserved) := g.value;
    var s := v.(chain := chain.value);
    vault.StoreVtxoWithProofs(o, s, proofs, now);
    WaitThenStore(start, ActsBetween(net, at, next), o, s, proofs, now);
    WaitThenSays(start, ActsBetween(net, at, next), o, s, proofs, now);
    GatheredIsReady(counted, stored, o, s, proofs, unserved, now);
    UnservedExactly(counted, net, at + 1, next, chain.value, proofs, unserved);
    var dangling := DanglingEntries(chain.value);
    r := Captured(unserved == [] && dangling == [], unserved, dangling);
  }

  lemma WaitHolds(t: Tables, net: Net, i: nat, j: nat, o: Outpoint)
    ensures var u := DidAll(t, ActsBetween(net, i, j));
      && Holds(t, u, Foreign(net, i, j)) && Holds(t, u, Foreign(net, i, j) + {o}) && (Filed(t) ==> Filed(u))
      && AtomicStay(t, u, ReleasedIn(net, i, j)) && TapsStay(t, u, Foreign(net, i, j)) && TapsStay(t, u, Foreign(net, i, j) + {o})
  {
    ActsKeepTaps(t, ActsBetween(net, i, j));
    OnlyReleasesTake(t, ActsBetween(net, i, j));
    ActsHold(t, ActsBetween(net, i, j));
    HoldsBut(t, DidAll(t, ActsBetween(net, i, j)), Foreign(net, i, j), Foreign(net, i, j) + {o});
  }

  // ---- one vtxo of a pass ------------------------------------------------------------------

  /** The SDK gives a batch expiry in milliseconds or in seconds; the vault keeps seconds. */
  function ExpirySec(raw: Option<nat>): Option<int> {
    match raw
    case None => None
    case Some(n) => Some(if n > SECONDS_MAX then n / 1000 else n)
  }

  function ToSnapshot(v: LiveVtxo, chain: seq<ChainTx>): Snapshot {
    Snapshot(v.value, FromWallet, v.script, v.tapTree, v.state.GetOr("unknown"), ExpirySec(v.batchExpiry), chain)
  }

  /** The row says what the live set says of the vtxo: FromWallet on a first store, an expiry
      in seconds, and an unknown state by that name. */
  ghost predicate SaysLive(before: Tables, t: Tables, v: LiveVtxo, chain: seq<ChainTx>, now: int) {
    exists s: Snapshot :: IsLive(s, v, chain) && Says(before, t, v.point, s, now)
  }

  ghost predicate IsLive(s: Snapshot, v: LiveVtxo, chain: seq<ChainTx>) {
    && s.valueSat == v.value && s.source == FromWallet && s.script == v.script && s.tapTree == v.tapTree && s.chain == chain
    && s.status == (if v.state.Some? then v.state.value else "unknown")
    && (v.batchExpiry.None? ==> s.expiresAt.None?)
    && (v.batchExpiry.Some? ==> s.expiresAt == Some(if v.batchExpiry.value > 1_000_000_000_000 then v.batchExpiry.value / 1000 else v.batchExpiry.value))
  }

  lemma LiveIsLive(v: LiveVtxo, chain: seq<ChainTx>)
    ensures IsLive(ToSnapshot(v, chain), v, chain)
  {
  }

  /** The vtxo, if the live set reports another script or tap tree than the row has. */
  function Drifting(t: Tables, v: LiveVtxo): set<Outpoint> {
    if v.point in t.rows && (v.script != t.rows[v.point].script || v.tapTree != t.rows[v.point].tapTree) then {v.point} else {}
  }

  datatype Outcome = Skipped | Synced | Failed

  /** The chain a pass stores for a vtxo: a whole one it has is kept, anything else is asked
      for again. */
  function ChainFor(t: Tables, o: Outpoint, answer: Option<seq<ChainTx>>): Option<seq<ChainTx>> {
    if o in t.rows && Whole(t.rows[o].chain) && t.rows[o].chain != [] then Some(t.rows[o].chain) else answer
  }

  function Asks(t: Tables, o: Outpoint): nat {
    if o in t.rows && Whole(t.rows[o].chain) && t.rows[o].chain != [] then 0 else 1
  }

  /** What a fetch that starts at `at` and ends before `next` leaves behind: `counted` are the
      tables when the proofs to fetch were chosen, `stored` those right before the store. */
  ghost predicate Mirrored(start: Tables, t: Tables, net: Net, at: nat, next: nat, v: LiveVtxo, now: int, r: Outcome) {
    var o := v.point;
    var asked := at + Asks(start, o);
    var counted, stored := DidAll(start, ActsBetween(net, at, asked)), DidAll(start, ActsBetween(net, at, next));
    && asked <= next
    && Holds(start, t, Foreign(net, at, next)) && (Filed(start) ==> Filed(t))
    && AtomicStay(start, t, ReleasedIn(net, at, next))
    && TapsStay(start, t, Foreign(net, at, next) + Drifting(start, v))
    && (r.Failed? ==>
          var chain := ChainFor(start, o, net(at).chain);
          if chain.Some? && chain.value != [] && !Rejected(net, asked, next)
          then (exists x :: Unserved(counted, net, asked, next, chain.value, x)) && SaysLive(stored, t, v, chain.value, now) && NewKinds(stored, t, chain.value)
          else t == stored || (chain.Some? && SaysLive(stored, t, v, chain.value, now) && NewKinds(stored, t, chain.value)))
    && (r.Synced? ==>
          var chain := ChainFor(start, o, net(at).chain);
          && chain.Some? && chain.value != []
          && SaysLive(stored, t, v, chain.value, now) && NewKinds(stored, t, chain.value)
          && o in t.rows && t.rows[o].chain == chain.value
          && (Ready(t, o) <==> Whole(chain.value) && NoneLost(counted, stored, chain.value)))
  }

  lemma NothingStored(start: Tables, net: Net, at: nat, next: nat, v: LiveVtxo, now: int)
    requires at + Asks(start, v.point) <= next
    requires var chain := ChainFor(start, v.point, net(at).chain);
      chain.None? || chain.value == [] || Rejected(net, at + Asks(start, v.point), next)
    ensures Mirrored(start, DidAll(start, ActsBetween(net, at, next)), net, at, next, v, now, Failed)
  {
    WaitHolds(start, net, at, next, v.point);
    hide DidAll, Foreign, Holds, Filed, AtomicStay;
  }

  lemma GatheredStored(start: Tables, net: Net, at: nat, next: nat, v: LiveVtxo, chain: seq<ChainTx>, proofs: seq<ProofTx>, unserved: seq<Txid>, now: int)
    requires at + Asks(start, v.point) <= next && !Ready(start, v.point) && Labelled(proofs) && Kinds(chain, proofs)
    requires ChainFor(start, v.point, net(at).chain) == Some(chain) && chain != []
    requires var counted := DidAll(start, ActsBetween(net, at, at + Asks(start, v.point)));
      && (forall x :: x in ProofTxids(chain) && x !in counted.proofs <==> Brings(proofs, x) || x in unserved)
      && (forall x :: x in unserved ==> !Brings(proofs, x))
      && (unserved != [] ==> Unserved(counted, net, at + Asks(start, v.point), next, chain, unserved[0]))
    ensures Mirrored(start, Stored(DidAll(start, ActsBetween(net, at, next)), v.point, ToSnapshot(v, chain), proofs, now), net, at, next, v, now,
                     if unserved == [] then Synced else Failed)
  {
    hide DidAll, Holds, Filed, RowHolds, Ready, NoneLost, Says, TapsStay, NewKinds, Kinds, AtomicStay;
    var s := ToSnapshot(v, chain);
    var counted, stored := DidAll(start, ActsBetween(net, at, at + Asks(start, v.point))), DidAll(start, ActsBetween(net, at, next));
    WaitThenStore(start, ActsBetween(net, at, next), v.point, s, proofs, now);
    WaitThenSays(start, ActsBetween(net, at, next), v.point, s, proofs, now);
    GatheredIsReady(counted, stored, v.point, s, proofs, unserved, now);
    LiveIsLive(v, chain);
    hide Unserved, IsLive, Stored;
    assert SaysLive(stored, Stored(stored, v.point, s, proofs, now), v, chain, now);
    hide SaysLive;
    NoDrift(start, v, Foreign(net, at, next));
  }

  lemma NoDrift(t: Tables, v: LiveVtxo, f: set<Outpoint>)
    ensures f + Drifting(t, v) == if v.point in t.rows && (v.script != t.rows[v.point].script || v.tapTree != t.rows[v.point].tapTree) then f + {v.point} else f
  {
  }

  lemma SomeUnserved(counted: Tables, net: Net, i: nat, j: nat, chain: seq<ChainTx>, proofs: seq<ProofTx>, unserved: seq<Txid>)
    requires forall x :: x in ProofTxids(chain) && x !in counted.proofs <==> Brings(proofs, x) || x in unserved
    requires forall x :: x in unserved ==> forall p: Psbt :: ServedBetween(net, i, j, p) ==> p.id != x
    ensures unserved != [] ==> Unserved(counted, net, i, j, chain, unserved[0])
  {
    assert unserved != [] ==> unserved[0] in unserved;
  }

  /** The chain to store: the one the row has, or a fresh one. */
  method ChooseChain(vault: ExitVault, net: Net, at: nat, o: Outpoint) returns (chain: Option<seq<ChainTx>>, next: nat)
    modifies vault
    ensures chain == ChainFor(old(vault.Now()), o, net(at).chain) && next == at + Asks(old(vault.Now()), o)
    ensures if o in old(vault.rows) && old(vault.rows)[o].chain != [] && DanglingEntries(old(vault.rows)[o].chain) == []
            then chain == Some(old(vault.rows)[o].chain) && next == at && vault.Now() == old(vault.Now())
            else chain == net(at).chain && next == at + 1
    ensures vault.Now() == DidAll(old(vault.Now()), ActsBetween(net, at, next))
  {
    next := at;
    assert vault.Now() == DidAll(vault.Now(), ActsBetween(net, at, at));
    hide DidAll, ActsBetween;
    if o in vault.rows && vault.rows[o].chain != [] && Whole(vault.rows[o].chain) {
      chain := Some(vault.rows[o].chain);
    } else {
      chain, next := FetchChain(vault, net, at);
    }
  }

  /** Fetches the proofs a chosen chain lacks and stores what arrived. */
  method StoreGathered(vault: ExitVault, net: Net, at: nat, asked: nat, v: LiveVtxo, chain: seq<ChainTx>, now: int, ghost start: Tables)
    returns (r: Outcome, next: nat)
    requires asked == at + Asks(start, v.point) && ChainFor(start, v.point, net(at).chain) == Some(chain) && chain != [] && !Ready(start, v.point)
    requires vault.Now() == DidAll(start, ActsBetween(net, at, asked))
    modifies vault
    ensures !r.Skipped? && Mirrored(start, vault.Now(), net, at, next, v, now, r)
  {
    hide DidAll, ActsBetween, Ready, Mirrored, Stored, Rejected, Unserved, ServedBetween, DanglingEntries, ProofTxids, Labelled, Brings, ChainFor, Asks, Kinds, Persisted;
    ghost var counted := vault.Now();
    var g;
    g, next := GatherProofs(vault, net, asked, chain);
    DidBetween(start, net, at, asked, next);
    if g.None? {
      NothingStored(start, net, at, next, v, now);
      return Failed, next;
    }
    var (proofs, unserved) := g.value;
    SomeUnserved(counted, net, asked, next, chain, proofs, unserved);
    GatheredStored(start, net, at, next, v, chain, proofs, unserved, now);
    vault.StoreVtxoWithProofs(v.point, ToSnapshot(v, chain), proofs, now);
    r := if unserved != [] then Failed else Synced;
  }

  method MirrorOne(vault: ExitVault, net: Net, at: nat, v: LiveVtxo, now: int) returns (r: Outcome, next: nat)
    requires !Ready(vault.Now(), v.point)
    modifies vault
    ensures !r.Skipped? && Mirrored(old(vault.Now()), vault.Now(), net, at, next, v, now, r)
  {
    hide DidAll, ActsBetween, Ready, Mirrored, Rejected, ChainFor, Asks;
    ghost var start := vault.Now();
    var chain;
    chain, next := ChooseChain(vault, net, at, v.point);
    if chain.None? || chain.value == [] {
      NothingStored(start, net, at, next, v, now);
      return Failed, next;
    }
    r, next := StoreGathered(vault, net, at, next, v, chain.value, now, start);
  }

  /** A skipped row is written only when the live set reports another state or expiry. */
  ghost predicate Refreshed(t: Tables, u: Tables, v: LiveVtxo, now: int) {
    v.point in t.rows &&
    exists s: Snapshot :: IsLive(s, v, t.rows[v.point].chain) &&
      if s.status == t.rows[v.point].status && s.expiresAt == t.rows[v.point].expiresAt then u == t else Says(t, u, v.point, s, now)
  }

  /** One vtxo of a pass. A row is skipped, without a request, exactly when it is ready; no row
      is lost or degraded; a synced row is ready exactly when its chain is whole and no proof it
      counted on was collected while it was fetched. */
  method SyncOne(vault: ExitVault, net: Net, at: nat, v: LiveVtxo, now: int) returns (r: Outcome, next: nat)
    modifies vault
    ensures at <= next && (r.Skipped? <==> Ready(old(vault.Now()), v.point))
    ensures r.Skipped? ==> next == at && Ready(vault.Now(), v.point) && vault.proofs == old(vault.proofs)
    ensures Holds(old(vault.Now()), vault.Now(), Foreign(net, at, next)) && (Filed(old(vault.Now())) ==> Filed(vault.Now()))
    ensures AtomicStay(old(vault.Now()), vault.Now(), ReleasedIn(net, at, next))
    ensures TapsStay(old(vault.Now()), vault.Now(), Foreign(net, at, next) + Drifting(old(vault.Now()), v))
    ensures r.Skipped? ==> Refreshed(old(vault.Now()), vault.Now(), v, now)
    ensures !r.Skipped? ==> Mirrored(old(vault.Now()), vault.Now(), net, at, next, v, now, r)
  {
    ghost var start := vault.Now();
    var o := v.point;
    if o in vault.rows && Whole(vault.rows[o].chain) && vault.MissingProofTxids(vault.rows[o].chain) == [] {
      var snap := ToSnapshot(v, vault.rows[o].chain);
      assert ActsBetween(net, at, at) == [];
      ActsHold(start, []);
      StoreHolds(start, o, snap, [], now);
      StoreStays(start, o, snap, [], now);
      StoredSays(start, o, snap, [], now);
      StoreTaps(start, o, snap, [], now);
      LiveIsLive(v, vault.rows[o].chain);
      hide Says;
      if snap.status != vault.rows[o].status || snap.expiresAt != vault.rows[o].expiresAt {
        vault.StoreVtxoWithProofs(o, snap, [], now);
      }
      r, next := Skipped, at;
    } else {
      r, next := MirrorOne(vault, net, at, v, now);
    }
  }
}
