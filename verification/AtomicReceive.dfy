/** The bridge's side of an atomic sub-dust receive (src/atomic/receive.ts, verifyPair of
    src/atomic/tx.ts). Passes over one swap run one at a time; a pass may die at any await, and
    the ledger moves meanwhile. `Us` is the claimer here and `Peer` the funder. */
module AtomicReceive {
  import opened Wrappers
  import opened SwapState
  import opened SharedScript
  import ClaimSplit

  // ---- advanceReceive ------------------------------------------------------------------

  datatype Target = ToSettled | ToRefunded

  function TargetState(t: Target): State {
    if t.ToSettled? then Settled else Refunded
  }

  /** The states a row is taken through, and the ones it is taken from. */
  function AdvancePath(t: Target, s: State): seq<State> {
    match t
    case ToSettled => if s == InvoiceIssued then [Funded, Claimed, Settled] else if s == Funded then [Claimed, Settled] else if s == Claimed then [Settled] else []
    case ToRefunded => if s == InvoiceIssued || s == Funded then [RefundWait, Refunded] else if s == RefundWait then [Refunded] else []
  }

  /** Boltz's terminal answers converge the row: settled is reached from every live state of a
      receive that was not given back, refunded from every one that was not claimed, and from
      anywhere else nothing moves. */
  lemma AdvanceEnds(t: Target, s: State)
    ensures AdvancePath(t, s) != [] ==> IsPath(Receive, [s] + AdvancePath(t, s)) && AdvancePath(t, s)[|AdvancePath(t, s)| - 1] == TargetState(t)
    ensures TargetState(ToSettled) == Settled && TargetState(ToRefunded) == Refunded
    ensures AdvancePath(t, s) != [] <==> !Terminal(Receive, s) && (if t.ToSettled? then s == InvoiceIssued || s == Funded || s == Claimed
                                                                   else s == InvoiceIssued || s == Funded || s == RefundWait)
  {
    var p := [s] + AdvancePath(t, s);
    if AdvancePath(t, s) != [] {
      forall i | 0 <= i < |p| - 1 ensures Legal(Receive, p[i], p[i + 1]) {
        assert i == 0 || i == 1 || i == 2;
      }
    }
  }

  function Stops(t: Target): seq<State> {
    if t.ToSettled? then [Funded, Claimed, Settled] else [RefundWait, Refunded]
  }

  /** Walking towards a target: take each stop that is legal, until the row is terminal. */
  function Walk(t: Target, stops: seq<State>, s: State): seq<State> {
    if stops == [] || s == TargetState(t) || Terminal(Receive, s) then []
    else if Legal(Receive, s, stops[0]) then [stops[0]] + Walk(t, stops[1..], stops[0])
    else Walk(t, stops[1..], s)
  }

  lemma WalkIsThePath(t: Target, s: State)
    ensures Walk(t, Stops(t), s) == AdvancePath(t, s)
  {
    if t.ToSettled? {
      WalkThree(t, Funded, Claimed, Settled, s);
      WalkTwo(t, Claimed, Settled, s);
      WalkTwo(t, Claimed, Settled, Funded);
      WalkTwo(t, Claimed, Settled, Claimed);
    } else {
      WalkTwo(t, RefundWait, Refunded, s);
      WalkTwo(t, RefundWait, Refunded, RefundWait);
    }
    hide Walk;
  }

  lemma WalkTwo(t: Target, a: State, b: State, s: State)
    ensures Walk(t, [a, b], s) ==
      if s == TargetState(t) || Terminal(Receive, s) then []
      else if Legal(Receive, s, a) then [a] + Walk(t, [b], a) else Walk(t, [b], s)
    ensures Walk(t, [b], s) == if s != TargetState(t) && !Terminal(Receive, s) && Legal(Receive, s, b) then [b] else []
  {
    assert [a, b][1..] == [b] && [b][1..] == [];
    assert Walk(t, [b], s) == if s != TargetState(t) && !Terminal(Receive, s) && Legal(Receive, s, b) then [b] + Walk(t, [], b) else [];
  }

  lemma WalkThree(t: Target, a: State, b: State, c: State, s: State)
    ensures Walk(t, [a, b, c], s) ==
      if s == TargetState(t) || Terminal(Receive, s) then []
      else if Legal(Receive, s, a) then [a] + Walk(t, [b, c], a) else Walk(t, [b, c], s)
  {
    assert [a, b, c][1..] == [b, c];
  }

  lemma WalkNext(t: Target, stops: seq<State>, s: State)
    ensures Walk(t, [], s) == []
    ensures stops != [] ==>
      Walk(t, stops, s) == (if s == TargetState(t) || Terminal(Receive, s) then []
                            else if Legal(Receive, s, stops[0]) then [stops[0]] + Walk(t, stops[1..], stops[0])
                            else Walk(t, stops[1..], s))
  {
  }

  function Moves(states: seq<State>): (r: seq<Entry>)
    ensures |r| == |states| && forall i :: 0 <= i < |r| ==> r[i] == MovedTo(states[i])
  {
    seq(|states|, i requires 0 <= i < |states| => MovedTo(states[i]))
  }

  lemma MovesNext(before: seq<Entry>, moved: seq<State>, s: State)
    ensures before + Moves([]) == before
    ensures before + Moves(moved) + [MovedTo(s)] == before + Moves(moved + [s])
  {
  }

  lemma StatesNext(moved: seq<State>, s: State, rest: seq<State>)
    ensures moved + ([s] + rest) == moved + [s] + rest
  {
  }

  // ---- what the pass leaves behind -----------------------------------------------------------

  datatype Entry =
    | Recorded(o: Outpoint)      // funding outpoint written to the row
    | MovedTo(s: State)          // transition written to the row
    | Submitted(spend: Spend)    // claim signed and handed to arkd
    | SawSpent(o: Outpoint)      // an indexer read shows the outpoint spent
    | Posted(o: Outpoint)        // preimage posted to the settle endpoint, working on this outpoint

  datatype Terms = Terms(us: Key, paymentHash: Hash, amount: nat)

  /** The row's state after a log. */
  function StateOf(log: seq<Entry>): State {
    if log == [] then InvoiceIssued
    else if log[|log| - 1].MovedTo? then log[|log| - 1].s
    else StateOf(log[..|log| - 1])
  }

  function ReceiveArgs(value: nat, amount: nat, dust: int): ClaimSplit.Args {
    ClaimSplit.Args(Peer, Us, value, amount, dust, 0, None, ClaimSplit.MAX_OP_RETURN_OUTPUTS)
  }

  ghost predicate IsSplitOf(outputs: seq<Output>, value: nat, amount: nat, dust: int) {
    var r := ClaimSplit.SplitOf(ReceiveArgs(value, amount, dust));
    r.Success? && r.value.outputs == outputs
  }

  /** A claim of our own making: on the claim leaf of an output locked to our key and our
      payment hash, with outputs recomputed from the value found and the amount of the row. */
  ghost predicate OurClaim(terms: Terms, s: Spend) {
    && s.leaf == ClaimLeaf && s.script.claimer == terms.us && s.script.paymentHash == terms.paymentHash
    && exists value: nat, dust: int :: IsSplitOf(s.outputs, value, terms.amount, dust)
  }

  ghost predicate Unrecorded(log: seq<Entry>) {
    forall i :: 0 <= i < |log| ==> !log[i].Recorded?
  }

  /** When an entry may follow a log. */
  ghost predicate EntryOk(terms: Terms, before: seq<Entry>, e: Entry) {
    match e
    case Recorded(_) => StateOf(before) == InvoiceIssued && Unrecorded(before)
    case MovedTo(s) => Legal(Receive, StateOf(before), s)
    case Submitted(s) => StateOf(before) == Funded && OurClaim(terms, s)
    case SawSpent(_) => StateOf(before) == Claimed
    case Posted(o) => before != [] && before[|before| - 1] == SawSpent(o) && StateOf(before) == Claimed
  }

  ghost predicate LogOk(terms: Terms, log: seq<Entry>) {
    forall i :: 0 <= i < |log| ==> EntryOk(terms, log[..i], log[i])
  }

  lemma LogNext(terms: Terms, log: seq<Entry>, e: Entry)
    requires LogOk(terms, log) && EntryOk(terms, log, e)
    ensures LogOk(terms, log + [e])
    ensures StateOf(log + [e]) == if e.MovedTo? then e.s else StateOf(log)
  {
    hide EntryOk;
    var next := log + [e];
    assert next[..|log|] == log;
    forall i | 0 <= i < |next| ensures EntryOk(terms, next[..i], next[i]) {
      if i < |log| {
        assert next[..i] == log[..i];
      }
    }
  }

  // ---- the ledger ---------------------------------------------------------------------------------

  datatype Coin = Coin(script: Options, value: nat, unrolledAt: Option<int>, spentBy: Option<Spend>)

  datatype Ledger = Ledger(coins: map<Outpoint, Coin>, mtp: int)

  datatype Happening =
    | MtpTicks(mtp: int)
    | CoinAppears(o: Outpoint, script: Options, value: nat)
    | Unrolled(o: Outpoint)
    | SpendLands(s: Spend)

  predicate HasSubmitted(log: seq<Entry>, s: Spend) {
    Submitted(s) in log
  }

  function Age(c: Coin, mtp: int): Option<nat> {
    if c.unrolledAt.Some? && mtp >= c.unrolledAt.value then Some(mtp - c.unrolledAt.value) else None
  }

  /** Everybody but us colludes and knows every preimage; our key has signed only what we
      submitted. */
  predicate CanLand(us: Key, l: Ledger, log: seq<Entry>, s: Spend) {
    && s.input in l.coins
    && var c := l.coins[s.input];
       && c.script == s.script && c.spentBy.None?
       && LeafOpens(s.script, s.leaf, ({s.script.funder, s.script.claimer, s.script.server} - {us}) + (if HasSubmitted(log, s) then {us} else {}),
                    {s.script.paymentHash}, l.mtp, Age(c, l.mtp))
  }

  function Happened(us: Key, l: Ledger, log: seq<Entry>, h: Happening): Ledger {
    match h
    case MtpTicks(mtp) => if mtp >= l.mtp then l.(mtp := mtp) else l
    case CoinAppears(o, script, value) => if o in l.coins then l else l.(coins := l.coins[o := Coin(script, value, None, None)])
    case Unrolled(o) => if o in l.coins && l.coins[o].unrolledAt.None? then l.(coins := l.coins[o := l.coins[o].(unrolledAt := Some(l.mtp))]) else l
    case SpendLands(s) => if CanLand(us, l, log, s) then l.(coins := l.coins[s.input := l.coins[s.input].(spentBy := Some(s))]) else l
  }

  function HappenedAll(us: Key, l: Ledger, log: seq<Entry>, hs: seq<Happening>): Ledger {
    if hs == [] then l else Happened(us, HappenedAll(us, l, log, hs[..|hs| - 1]), log, hs[|hs| - 1])
  }

  /** The ledger after `n` awaits in which the pass writes nothing. */
  function Waited(us: Key, l: Ledger, log: seq<Entry>, net: Net, at: nat, n: nat): Ledger {
    if n == 0 then l else HappenedAll(us, Waited(us, l, log, net, at, n - 1), log, net(at + n - 1).meanwhile)
  }

  predicate IsSpent(l: Ledger, o: Outpoint) {
    o in l.coins && l.coins[o].spentBy.Some?
  }

  /** The output is there and locked to our key. */
  predicate LockedTo(us: Key, l: Ledger, o: Outpoint) {
    o in l.coins && l.coins[o].script.claimer == us
  }

  /** An output keeps its script, and a spent one stays spent by the same transaction. */
  ghost predicate CoinsStay(l: Ledger, m: Ledger) {
    && (forall o :: o in l.coins ==> o in m.coins && m.coins[o].script == l.coins[o].script)
    && (forall o :: IsSpent(l, o) ==> IsSpent(m, o) && m.coins[o].spentBy == l.coins[o].spentBy)
  }

  lemma {:induction false} CoinsStayAll(us: Key, l: Ledger, log: seq<Entry>, hs: seq<Happening>)
    ensures CoinsStay(l, HappenedAll(us, l, log, hs))
    decreases |hs|
  {
    if hs != [] {
      hide Happened;
      CoinsStayAll(us, l, log, hs[..|hs| - 1]);
      CoinsStayNext(us, HappenedAll(us, l, log, hs[..|hs| - 1]), log, hs[|hs| - 1]);
    }
  }

  lemma CoinsStayNext(us: Key, l: Ledger, log: seq<Entry>, h: Happening)
    ensures CoinsStay(l, Happened(us, l, log, h))
  {
  }

  lemma {:induction false} CoinsStayWaiting(us: Key, l: Ledger, log: seq<Entry>, net: Net, at: nat, n: nat)
    ensures CoinsStay(l, Waited(us, l, log, net, at, n))
    decreases n
  {
    hide HappenedAll, IsSpent;
    if n > 0 {
      CoinsStayWaiting(us, l, log, net, at, n - 1);
      CoinsStayAll(us, Waited(us, l, log, net, at, n - 1), log, net(at + n - 1).meanwhile);
    }
  }

  /** The output was published onchain long enough ago for its funder to take it alone. */
  predicate Ripe(c: Coin, mtp: int) {
    Age(c, mtp).Some? && Age(c, mtp).value >= c.script.exitDelay
  }

  /** A spent output that is locked to our key went by a claim we submitted, or back to its
      funder after T or after an onchain exit. */
  ghost predicate CoinOk(us: Key, l: Ledger, log: seq<Entry>, o: Outpoint)
    requires o in l.coins
  {
    var c := l.coins[o];
    c.spentBy.Some? && c.script.claimer == us ==>
      var s := c.spentBy.value;
      && s.input == o && s.script == c.script
      && (s.leaf == ClaimLeaf ==> HasSubmitted(log, s))
      && s.leaf != CancelLeaf
      && (s.leaf == RefundLeaf ==> l.mtp >= c.script.refundLocktime)
      && (s.leaf == UexitLeaf ==> Ripe(c, l.mtp))
  }

  ghost predicate LedgerOk(us: Key, l: Ledger, log: seq<Entry>) {
    forall o :: o in l.coins ==> CoinOk(us, l, log, o)
  }

  /** A seen spend is a spend of an output locked to our key: the indexer answered truthfully
      when the pass looked for the coin, and when it looked whether it is gone. */
  ghost predicate SeenOk(us: Key, l: Ledger, log: seq<Entry>) {
    forall o :: SawSpent(o) in log ==> IsSpent(l, o) && LockedTo(us, l, o)
  }

  lemma OnlyClaimsSubmitted(terms: Terms, log: seq<Entry>, s: Spend)
    requires LogOk(terms, log) && HasSubmitted(log, s)
    ensures OurClaim(terms, s)
  {
    var i :| 0 <= i < |log| && log[i] == Submitted(s);
    assert EntryOk(terms, log[..i], log[i]);
  }

  lemma HappenedKeeps(terms: Terms, l: Ledger, log: seq<Entry>, h: Happening)
    requires LogOk(terms, log) && LedgerOk(terms.us, l, log)
    ensures LedgerOk(terms.us, Happened(terms.us, l, log, h), log)
    ensures SeenOk(terms.us, l, log) ==> SeenOk(terms.us, Happened(terms.us, l, log, h), log)
  {
    hide LogOk;
    var us := terms.us;
    if h.SpendLands? && HasSubmitted(log, h.s) {
      OnlyClaimsSubmitted(terms, log, h.s);
    }
    hide OurClaim, HasSubmitted;
    var m := Happened(us, l, log, h);
    forall o | o in m.coins ensures CoinOk(us, m, log, o) {
      if o in l.coins {
        assert CoinOk(us, l, log, o);
      }
    }
  }

  lemma LogGrows(us: Key, l: Ledger, log: seq<Entry>, e: Entry)
    requires LedgerOk(us, l, log)
    ensures LedgerOk(us, l, log + [e])
    ensures SeenOk(us, l, log) && (e.SawSpent? ==> IsSpent(l, e.o) && LockedTo(us, l, e.o)) ==> SeenOk(us, l, log + [e])
  {
    forall o | o in l.coins ensures CoinOk(us, l, log + [e], o) {
      assert CoinOk(us, l, log, o);
    }
  }

  // ---- answers ----------------------------------------------------------------------------------

  /** Boltz's pre-signature: the spend it commits to, and whether its signatures verify. */
  datatype Presig = Presig(spend: Spend, signed: bool)

  datatype Status =
    | SaysSettled
    | SaysRefunded
    | SaysFunded(o: Outpoint, presig: Presig, boltzKey: Key, refundLocktime: int)
    | SaysOther

  datatype Info = Info(server: Key, exitDelay: int, dust: int)

  /** One await: what the ledger does meanwhile, whether the process dies, and the answer to
      whatever was asked (None when the request fails). */
  datatype Reply = Reply(meanwhile: seq<Happening>, dies: bool, status: Option<Status>, info: Option<Info>,
                         value: Option<nat>, ok: bool, spent: bool)

  type Net = nat -> Reply

  /** The claim leaf's spend, rebuilt from the row and what boltz, arkd and the indexer say. */
  function ClaimFor(terms: Terms, o: Outpoint, boltzKey: Key, refundLocktime: int, info: Info, value: nat): Option<Spend> {
    var script := Options(boltzKey, terms.us, info.server, terms.paymentHash, refundLocktime, info.exitDelay);
    var split := ClaimSplit.SplitOf(ReceiveArgs(value, terms.amount, info.dust));
    if Build(script).Failure? || split.Failure? then None else Some(Spend(o, script, ClaimLeaf, split.value.outputs))
  }

  /** The indexer answers spent at `at`, and boltz takes the preimage at the next await. */
  predicate Answered(net: Net, at: nat, settles: bool) {
    !net(at).dies && net(at).spent && (settles ==> !net(at + 1).dies && net(at + 1).ok)
  }

  predicate SignedAsRebuilt(terms: Terms, st: Status, info: Info, value: nat)
    requires st.SaysFunded?
  {
    var claim := ClaimFor(terms, st.o, st.boltzKey, st.refundLocktime, info, value);
    claim.Some? && st.presig == Presig(claim.value, true)
  }

  /** Every answer of a drive is good, and boltz has signed the claim we rebuild. */
  predicate GoesWell(terms: Terms, net: Net, at: nat) {
    && !net(at).dies && net(at).status.Some? && net(at).status.value.SaysFunded?
    && !net(at + 1).dies && net(at + 1).info.Some?
    && !net(at + 2).dies && net(at + 2).value.Some?
    && SignedAsRebuilt(terms, net(at).status.value, net(at + 1).info.value, net(at + 2).value.value)
    && !net(at + 3).dies && net(at + 3).ok && Answered(net, at + 4, true)
  }

  /** What a pass finds when it looks for a spendable coin at the script it rebuilt: with a
      truthful indexer, only one that is there and unspent. */
  predicate Finds(honest: bool, l: Ledger, o: Outpoint, script: Options, value: Option<nat>) {
    value.Some? && (honest ==> o in l.coins && l.coins[o].spentBy.None? && l.coins[o].script == script && l.coins[o].value == value.value)
  }

  /** The pass gets as far as the claim: boltz says funded, arkd and the indexer answer, and the
      claim can be rebuilt. `l` is the ledger at the lookup. */
  predicate Reaches(terms: Terms, honest: bool, net: Net, at: nat, l: Ledger) {
    && !net(at).dies && net(at).status.Some? && net(at).status.value.SaysFunded?
    && !net(at + 1).dies && net(at + 1).info.Some? && !net(at + 2).dies
    && var st, info := net(at).status.value, net(at + 1).info.value;
       && Finds(honest, l, st.o, Options(st.boltzKey, terms.us, info.server, terms.paymentHash, st.refundLocktime, info.exitDelay), net(at + 2).value)
       && ClaimFor(terms, st.o, st.boltzKey, st.refundLocktime, info, net(at + 2).value.value).Some?
  }

  /** The read shows the outpoint gone; `l` is the ledger at the read. */
  predicate Sees(honest: bool, net: Net, at: nat, l: Ledger, o: Outpoint) {
    !net(at).dies && net(at).spent && (honest ==> IsSpent(l, o))
  }

  /** The ledger at the look, for a pass that has its claim acknowledged on the way: `l` is the
      ledger at the lookup, `log` what was written before the claim is submitted. */
  function AtLook(us: Key, l: Ledger, log: seq<Entry>, claim: Spend, net: Net, at: nat): Ledger {
    HappenedAll(us, HappenedAll(us, l, log + [Submitted(claim)], net(at + 3).meanwhile), log + [Submitted(claim)] + [MovedTo(Claimed)],
                net(at + 4).meanwhile)
  }

  /** A pass over a row that is not claimed yet records the outpoint if it has not, and then
      submits. */
  function BeforeClaim(log: seq<Entry>, state: State, o: Outpoint): seq<Entry> {
    if state == InvoiceIssued then log + [Recorded(o)] + [MovedTo(Funded)] else log
  }

  /** Boltz has signed what we rebuilt, arkd acknowledges the claim, the look shows the coin
      gone and boltz takes the preimage. */
  predicate CarriesThrough(terms: Terms, honest: bool, net: Net, at: nat, l: Ledger, log: seq<Entry>, claim: Spend, presig: Presig, o: Outpoint) {
    && presig == Presig(claim, true) && !net(at + 3).dies && net(at + 3).ok
    && Sees(honest, net, at + 4, AtLook(terms.us, l, log, claim, net, at), o)
    && !net(at + 5).dies && net(at + 5).ok
  }

  /** What it takes for a pass to settle a row that is not claimed yet, from the answers and the
      ledger alone. */
  predicate FreshSettles(terms: Terms, honest: bool, before: Ledger, log: seq<Entry>, state: State, net: Net, at: nat)
    requires net(at).status.Some? && net(at).status.value.SaysFunded?
  {
    var st := net(at).status.value;
    var found := Waited(terms.us, before, log, net, at, 3);
    && Reaches(terms, honest, net, at, found)
    && CarriesThrough(terms, honest, net, at, found, BeforeClaim(log, state, st.o),
                      ClaimFor(terms, st.o, st.boltzKey, st.refundLocktime, net(at + 1).info.value, net(at + 2).value.value).value, st.presig, st.o)
  }

  /** The claim is among what the ledger is offered between its submission and the look. */
  predicate ClaimIsOffered(net: Net, at: nat, claim: Spend) {
    SpendLands(claim) in net(at + 3).meanwhile || SpendLands(claim) in net(at + 4).meanwhile
  }

  /** With a truthful indexer too: when every answer is good, the coin is there at the lookup
      and the claim is offered to the ledger before the look, the pass settles. */
  lemma GoodPassSettles(terms: Terms, honest: bool, before: Ledger, log: seq<Entry>, state: State, net: Net, at: nat)
    requires GoesWell(terms, net, at)
    requires var st, info := net(at).status.value, net(at + 1).info.value;
      honest ==>
        && Finds(true, Waited(terms.us, before, log, net, at, 3), st.o,
                 Options(st.boltzKey, terms.us, info.server, terms.paymentHash, st.refundLocktime, info.exitDelay), net(at + 2).value)
        && ClaimIsOffered(net, at, st.presig.spend)
    ensures FreshSettles(terms, honest, before, log, state, net, at)
  {
    var st := net(at).status.value;
    var found := Waited(terms.us, before, log, net, at, 3);
    var script := st.presig.spend.script;
    hide Waited, HappenedAll, IsSpent;
    if honest {
      ClaimLands(terms.us, found, BeforeClaim(log, state, st.o), st.presig.spend, net, at);
    }
  }

  /** Once submitted, a claim that is offered leaves its coin spent, by itself or by what came
      before it. */
  lemma ClaimLands(us: Key, l: Ledger, log: seq<Entry>, claim: Spend, net: Net, at: nat)
    requires LockedTo(us, l, claim.input) && l.coins[claim.input].script == claim.script && claim.leaf == ClaimLeaf
    requires ClaimIsOffered(net, at, claim)
    ensures IsSpent(AtLook(us, l, log, claim, net, at), claim.input)
  {
    var submitted := log + [Submitted(claim)];
    var mid := HappenedAll(us, l, submitted, net(at + 3).meanwhile);
    CoinsStayAll(us, l, submitted, net(at + 3).meanwhile);
    CoinsStayAll(us, mid, submitted + [MovedTo(Claimed)], net(at + 4).meanwhile);
    hide HappenedAll;
    if SpendLands(claim) in net(at + 3).meanwhile {
      OfferedIsSpent(us, l, submitted, net(at + 3).meanwhile, claim);
    } else {
      OfferedIsSpent(us, mid, submitted + [MovedTo(Claimed)], net(at + 4).meanwhile, claim);
    }
  }

  lemma {:induction false} OfferedIsSpent(us: Key, l: Ledger, log: seq<Entry>, hs: seq<Happening>, claim: Spend)
    requires claim.input in l.coins && l.coins[claim.input].script == claim.script && claim.script.claimer == us && claim.leaf == ClaimLeaf
    requires HasSubmitted(log, claim) && SpendLands(claim) in hs
    ensures IsSpent(HappenedAll(us, l, log, hs), claim.input)
    decreases |hs|
  {
    var n := |hs| - 1;
    var m := HappenedAll(us, l, log, hs[..n]);
    CoinsStayAll(us, l, log, hs[..n]);
    CoinsStayNext(us, m, log, hs[n]);
    if hs[n] == SpendLands(claim) {
      OfferLands(us, m, log, claim);
    } else {
      assert hs == hs[..n] + [hs[n]];
      OfferedIsSpent(us, l, log, hs[..n], claim);
    }
  }

  lemma OfferLands(us: Key, l: Ledger, log: seq<Entry>, claim: Spend)
    requires claim.input in l.coins && l.coins[claim.input].script == claim.script && claim.script.claimer == us && claim.leaf == ClaimLeaf
    requires HasSubmitted(log, claim)
    ensures IsSpent(Happened(us, l, log, SpendLands(claim)), claim.input)
  {
    hide HasSubmitted;
  }

  /** What a pass over a claimed row made of ledger and log: the preimage was posted exactly if
      the pass first found the coin spendable and then saw it gone. `found` and `read` are the
      ledgers at the lookup and at the look. */
  ghost predicate ResumedClaim(terms: Terms, honest: bool, before: Ledger, log: seq<Entry>, after: Ledger, next: seq<Entry>,
                               net: Net, at: nat, settled: bool)
    requires net(at).status.Some? && net(at).status.value.SaysFunded?
  {
    var o := net(at).status.value.o;
    var found := Waited(terms.us, before, log, net, at, 3);
    var read := HappenedAll(terms.us, found, log, net(at + 4).meanwhile);
    var posts := Reaches(terms, honest, net, at, found) && Sees(honest, net, at + 4, read, o);
    && next == log + (if posts then [SawSpent(o)] + [Posted(o)] else []) + (if settled then [MovedTo(Settled)] else [])
    && (settled <==> posts && !net(at + 5).dies && net(at + 5).ok)
    && (posts ==> LedgerOk(terms.us, read, next) && after == HappenedAll(terms.us, read, log + [SawSpent(o)] + [Posted(o)], net(at + 5).meanwhile))
  }

  lemma NotReached(terms: Terms, honest: bool, before: Ledger, log: seq<Entry>, after: Ledger, net: Net, at: nat)
    requires net(at).status.Some? && net(at).status.value.SaysFunded?
    requires !Reaches(terms, honest, net, at, Waited(terms.us, before, log, net, at, 3))
    ensures ResumedClaim(terms, honest, before, log, after, log, net, at, false)
  {
    assert log + [] + [] == log;
  }

  lemma Resumed(terms: Terms, honest: bool, before: Ledger, log: seq<Entry>, after: Ledger, next: seq<Entry>, net: Net, at: nat, settled: bool, read: Ledger)
    requires net(at).status.Some? && net(at).status.value.SaysFunded?
    requires var found := Waited(terms.us, before, log, net, at, 3);
      Reaches(terms, honest, net, at, found) && read == HappenedAll(terms.us, found, log, net(at + 4).meanwhile) && LedgerOk(terms.us, read, next)
    requires var o := net(at).status.value.o;
      && next == log + (if Sees(honest, net, at + 4, read, o) then [SawSpent(o)] + [Posted(o)] else []) + (if settled then [MovedTo(Settled)] else [])
      && (settled <==> Sees(honest, net, at + 4, read, o) && !net(at + 5).dies && net(at + 5).ok)
      && after == if Sees(honest, net, at + 4, read, o) then HappenedAll(terms.us, read, log + [SawSpent(o)] + [Posted(o)], net(at + 5).meanwhile) else read
    ensures ResumedClaim(terms, honest, before, log, after, next, net, at, settled)
  {
    hide Waited, HappenedAll, Reaches, Sees, LedgerOk;
  }

  /** A coin that was gone before the pass began is not found spendable. */
  lemma GoneIsNotFound(terms: Terms, before: Ledger, log: seq<Entry>, after: Ledger, next: seq<Entry>, net: Net, at: nat, settled: bool)
    requires net(at).status.Some? && net(at).status.value.SaysFunded? && IsSpent(before, net(at).status.value.o)
    requires ResumedClaim(terms, true, before, log, after, next, net, at, settled)
    ensures next == log && !settled
  {
    CoinsStayWaiting(terms.us, before, log, net, at, 3);
    hide Waited, HappenedAll, ClaimFor, LedgerOk;
    assert !Reaches(terms, true, net, at, Waited(terms.us, before, log, net, at, 3));
    assert log + [] + [] == log;
  }

  lemma WaitedThree(us: Key, l: Ledger, log: seq<Entry>, net: Net, at: nat)
    ensures Waited(us, l, log, net, at, 3)
         == HappenedAll(us, HappenedAll(us, HappenedAll(us, l, log, net(at).meanwhile), log, net(at + 1).meanwhile), log, net(at + 2).meanwhile)
  {
    hide HappenedAll;
    assert Waited(us, l, log, net, at, 0) == l;
    assert Waited(us, l, log, net, at, 1) == HappenedAll(us, l, log, net(at).meanwhile);
    assert Waited(us, l, log, net, at, 2) == HappenedAll(us, Waited(us, l, log, net, at, 1), log, net(at + 1).meanwhile);
  }

  class Receiver {
    const terms: Terms
    const honestIndexer: bool
    var state: State
    var outpoint: Option<Outpoint>
    var ledger: Ledger
    var log: seq<Entry>

    ghost predicate Valid()
      reads this
    {
      && LogOk(terms, log) && LedgerOk(terms.us, ledger, log)
      && state == StateOf(log) && (outpoint.None? <==> Unrecorded(log))
      && (honestIndexer ==> SeenOk(terms.us, ledger, log))
    }

    /** A freshly issued receive. */
    constructor (terms: Terms, honestIndexer: bool, ledger: Ledger)
      requires forall o :: o in ledger.coins ==> ledger.coins[o].spentBy.None?
      ensures Valid() && this.terms == terms && this.honestIndexer == honestIndexer && log == [] && this.ledger == ledger
    {
      this.terms, this.honestIndexer, this.ledger := terms, honestIndexer, ledger;
      state, outpoint, log := InvoiceIssued, None, [];
    }

    method Note(e: Entry)
      requires Valid() && EntryOk(terms, log, e) && (honestIndexer && e.SawSpent? ==> IsSpent(ledger, e.o) && LockedTo(terms.us, ledger, e.o))
      modifies this
      ensures Valid() && log == old(log) + [e] && ledger == old(ledger)
      ensures state == (if e.MovedTo? then e.s else old(state))
      ensures outpoint == (if e.Recorded? then Some(e.o) else old(outpoint))
    {
      LogNext(terms, log, e);
      LogGrows(terms.us, ledger, log, e);
      log := log + [e];
      if e.MovedTo? {
        state := e.s;
      }
      if e.Recorded? {
        outpoint := Some(e.o);
      }
    }

    method Move(s: State)
      requires Valid() && Legal(Receive, state, s)
      modifies this
      ensures Valid() && log == old(log) + [MovedTo(s)] && ledger == old(ledger) && outpoint == old(outpoint) && state == s
    {
      hide LogOk, LedgerOk, SeenOk, StateOf, Unrecorded;
      Note(MovedTo(s));
    }

    /** Only the ledger moves while a request is under way. */
    method Await(net: Net, at: nat) returns (reply: Reply)
      requires Valid()
      modifies this`ledger
      ensures Valid() && reply == net(at) && ledger == HappenedAll(terms.us, old(ledger), log, net(at).meanwhile)
      ensures CoinsStay(old(ledger), ledger)
    {
      CoinsStayAll(terms.us, ledger, log, net(at).meanwhile);
      hide LogOk, LedgerOk, SeenOk, Happened;
      reply := net(at);
      for i := 0 to |reply.meanwhile|
        invariant Valid() && ledger == HappenedAll(terms.us, old(ledger), log, reply.meanwhile[..i])
      {
        assert reply.meanwhile[..i + 1][..i] == reply.meanwhile[..i];
        HappenedKeeps(terms, ledger, log, reply.meanwhile[i]);
        ledger := Happened(terms.us, ledger, log, reply.meanwhile[i]);
      }
      assert reply.meanwhile[..|reply.meanwhile|] == reply.meanwhile;
    }

    /** Walks the row through whatever is legal towards a terminal state. */
    method AdvanceReceive(target: Target)
      requires Valid()
      modifies this
      ensures Valid() && ledger == old(ledger) && outpoint == old(outpoint)
      ensures log == old(log) + Moves(AdvancePath(target, old(state)))
      ensures state == (if AdvancePath(target, old(state)) == [] then old(state) else TargetState(target))
    {
      hide *;
      var path := Stops(target);
      ghost var start, before := state, log;
      ghost var moved: seq<State> := [];
      WalkIsThePath(target, start);
      MovesNext(before, [], Init);
      assert path[0..] == path;
      hide Moves;
      for i := 0 to |path|
        invariant Valid() && ledger == old(ledger) && outpoint == old(outpoint)
        invariant log == before + Moves(moved)
        invariant state == (if moved == [] then start else moved[|moved| - 1])
        invariant moved + Walk(target, path[i..], state) == AdvancePath(target, start)
      {
        WalkNext(target, path[i..], state);
        if state == TargetState(target) || Terminal(Receive, state) {
          break;
        }
        assert path[i..][1..] == path[i + 1..];
        if Legal(Receive, state, path[i]) {
          MovesNext(before, moved, path[i]);
          StatesNext(moved, path[i], Walk(target, path[i + 1..], path[i]));
          Move(path[i]);
          moved := moved + [path[i]];
        }
      }
      WalkNext(target, [], state);
      assert path[|path|..] == [];
      assert moved == AdvancePath(target, start);
      AdvanceEnds(target, start);
    }

    /** Between passes: never halfway through a walk, and an outpoint exactly once funded. */
    predicate Resting()
      reads this
    {
      && (state == InvoiceIssued || state == Funded || state == Claimed || state == Settled || state == Refunded)
      && (state == InvoiceIssued ==> outpoint.None?)
    }

    method Rebuild(o: Outpoint, boltzKey: Key, refundLocktime: int, info: Info, value: nat) returns (r: Option<Spend>)
      ensures r == ClaimFor(terms, o, boltzKey, refundLocktime, info, value)
      ensures r.Some? ==> OurClaim(terms, r.value)
      ensures var script := Options(boltzKey, terms.us, info.server, terms.paymentHash, refundLocktime, info.exitDelay);
        && (r.Some? <==> Build(script).Success? && 0 < terms.amount < info.dust && terms.amount <= value)
        && (r.Some? ==>
              && r.value.input == o && r.value.script == script && r.value.leaf == ClaimLeaf
              && var rest := value - terms.amount;
                 r.value.outputs == [Output(Subdust(Us), terms.amount)]
                                  + (if rest == 0 then [] else [Output(if rest < info.dust then Subdust(Peer) else Regular(Peer), rest)]))
    {
      ClaimSplit.FoldedSplitIs(Peer, Us, value, terms.amount, info.dust, 0);
      var script := Options(boltzKey, terms.us, info.server, terms.paymentHash, refundLocktime, info.exitDelay);
      if Build(script).Failure? {
        return None;
      }
      var split := ClaimSplit.ComputeClaimSplit(ReceiveArgs(value, terms.amount, info.dust));
      if split.Failure? {
        return None;
      }
      assert IsSplitOf(split.value.outputs, value, terms.amount, info.dust);
      r := Some(Spend(o, script, ClaimLeaf, split.value.outputs));
    }

    /** The claim is submitted only when boltz's pre-signature is over the very spend we
        rebuilt; the row becomes claimed exactly when arkd has then acknowledged it. */
    method FinishClaim(net: Net, at: nat, claim: Spend, presig: Presig) returns (ok: bool)
      requires Valid() && Resting() && state == Funded && OurClaim(terms, claim)
      modifies this
      ensures Valid() && Resting() && outpoint == old(outpoint)
      ensures presig != Presig(claim, true) ==> log == old(log) && ledger == old(ledger)
      ensures presig == Presig(claim, true) ==>
        && log == old(log) + [Submitted(claim)] + (if ok then [MovedTo(Claimed)] else [])
        && ledger == HappenedAll(terms.us, old(ledger), old(log) + [Submitted(claim)], net(at).meanwhile)
      ensures ok <==> presig == Presig(claim, true) && !net(at).dies && net(at).ok
      ensures state == if ok then Claimed else Funded
      ensures CoinsStay(old(ledger), ledger)
    {
      hide LogOk, LedgerOk, SeenOk, StateOf, Unrecorded, OurClaim;
      if presig.spend != claim || !presig.signed {
        return false;
      }
      Note(Submitted(claim));
      var reply := Await(net, at);
      if reply.dies || !reply.ok {
        return false;
      }
      Move(Claimed);
      ok := true;
    }

    /** One look at the outpoint of this pass, then, exactly if it is gone, the preimage. `read`
        is the ledger at the look. */
    method ConfirmAndSettle(net: Net, at: nat, o: Outpoint) returns (done: bool, ghost read: Ledger)
      requires Valid() && Resting() && state == Claimed && (honestIndexer ==> LockedTo(terms.us, ledger, o))
      modifies this
      ensures Valid() && Resting() && outpoint == old(outpoint)
      ensures state == if done then Settled else Claimed
      ensures read == HappenedAll(terms.us, old(ledger), old(log), net(at).meanwhile) && LedgerOk(terms.us, read, log)
      ensures log == old(log) + (if Sees(honestIndexer, net, at, read, o) then [SawSpent(o)] + [Posted(o)] else []) + (if done then [MovedTo(Settled)] else [])
      ensures done <==> Sees(honestIndexer, net, at, read, o) && !net(at + 1).dies && net(at + 1).ok
      ensures ledger == if Sees(honestIndexer, net, at, read, o)
                        then HappenedAll(terms.us, read, old(log) + [SawSpent(o)] + [Posted(o)], net(at + 1).meanwhile) else read
      ensures CoinsStay(old(ledger), ledger)
    {
      hide LogOk, LedgerOk, SeenOk, StateOf, Unrecorded, HappenedAll, IsSpent;
      var reply := Await(net, at);
      read := ledger;
      if reply.dies || !reply.spent || (honestIndexer && !IsSpent(ledger, o)) {
        return false, read;
      }
      Note(SawSpent(o));
      LogGrows(terms.us, read, old(log), SawSpent(o));
      Note(Posted(o));
      LogGrows(terms.us, read, old(log) + [SawSpent(o)], Posted(o));
      reply := Await(net, at + 1);
      if reply.dies || !reply.ok {
        return false, read;
      }
      LogGrows(terms.us, read, old(log) + [SawSpent(o)] + [Posted(o)], MovedTo(Settled));
      Move(Settled);
      done := true;
    }

    /** One drive of the swap. Boltz's terminal answers converge the row; a funded answer is
        acted on only with a claim of our own making; when every answer is good the swap
        settles, from wherever an earlier pass left it. Of a row that is already claimed: the
        preimage is posted exactly if the pass finds the coin spendable first and gone later. */
    method Drive(net: Net, at: nat) returns (settled: bool)
      requires Valid() && Resting()
      modifies this
      ensures Valid() && Resting()
      ensures Terminal(Receive, old(state)) || net(at).dies || net(at).status.None? || net(at).status == Some(SaysOther) ==>
        log == old(log) && state == old(state) && settled == (old(state) == Settled)
      ensures !Terminal(Receive, old(state)) && !net(at).dies && net(at).status == Some(SaysSettled) ==>
        settled && log == old(log) + Moves(AdvancePath(ToSettled, old(state)))
      ensures !Terminal(Receive, old(state)) && !net(at).dies && net(at).status == Some(SaysRefunded) ==>
        !settled && log == old(log) + Moves(AdvancePath(ToRefunded, old(state)))
      ensures settled ==> state == Settled
      ensures !Terminal(Receive, old(state)) && !honestIndexer && GoesWell(terms, net, at) ==> settled && state == Settled
      ensures (old(state) == InvoiceIssued || old(state) == Funded) && !net(at).dies && net(at).status.Some? && net(at).status.value.SaysFunded? ==>
        (settled <==> FreshSettles(terms, honestIndexer, old(ledger), old(log), old(state), net, at))
      ensures old(state) == Claimed && !net(at).dies && net(at).status.Some? && net(at).status.value.SaysFunded? ==>
        && ResumedClaim(terms, honestIndexer, old(ledger), old(log), ledger, log, net, at, settled)
        && state == if settled then Settled else Claimed
      ensures CoinsStay(old(ledger), ledger)
    {
      hide LogOk, LedgerOk, SeenOk, EntryOk, StateOf, OurClaim, Unrecorded, HappenedAll, IsSpent, ResumedClaim, SignedAsRebuilt, FreshSettles;
      if Terminal(Receive, state) {
        return state == Settled;
      }
      ghost var start := ledger;
      var reply := Await(net, at);
      if reply.dies || reply.status.None? {
        return false;
      }
      match reply.status.value {
        case SaysSettled => AdvanceReceive(ToSettled); settled := true;
        case SaysRefunded => AdvanceReceive(ToRefunded); settled := false;
        case SaysOther => settled := false;
        case SaysFunded(_, _, _, _) => settled := DriveFunded(net, at, reply.status.value, start);
      }
    }

    /** The drive once boltz has said funded; `start` is the ledger before that answer. */
    method DriveFunded(net: Net, at: nat, st: Status, ghost start: Ledger) returns (settled: bool)
      requires Valid() && Resting() && !Terminal(Receive, state)
      requires !net(at).dies && net(at).status == Some(st) && st.SaysFunded?
      requires ledger == HappenedAll(terms.us, start, log, net(at).meanwhile)
      modifies this
      ensures Valid() && Resting() && (settled ==> state == Settled)
      ensures !honestIndexer && GoesWell(terms, net, at) ==> settled
      ensures old(state) != Claimed ==> (settled <==> FreshSettles(terms, honestIndexer, start, old(log), old(state), net, at))
      ensures old(state) == Claimed ==>
        ResumedClaim(terms, honestIndexer, start, old(log), ledger, log, net, at, settled) && state == if settled then Settled else Claimed
      ensures CoinsStay(old(ledger), ledger)
    {
      hide LogOk, LedgerOk, SeenOk, EntryOk, StateOf, OurClaim, Unrecorded, ClaimFor, HappenedAll, Waited, IsSpent, ResumedClaim, Sees, Terminal;
      ghost var written := log;
      WaitedThree(terms.us, start, written, net, at);
      var info := Await(net, at + 1);
      if info.dies || info.info.None? {
        NotReached(terms, honestIndexer, start, written, ledger, net, at);
        return false;
      }
      var found := Await(net, at + 2);
      var script := Options(st.boltzKey, terms.us, info.info.value.server, terms.paymentHash, st.refundLocktime, info.info.value.exitDelay);
      if found.dies || !Finds(honestIndexer, ledger, st.o, script, found.value) {
        NotReached(terms, honestIndexer, start, written, ledger, net, at);
        return false;
      }
      var claim := Rebuild(st.o, st.boltzKey, st.refundLocktime, info.info.value, found.value.value);
      if claim.None? {
        NotReached(terms, honestIndexer, start, written, ledger, net, at);
        return false;
      }
      assert Reaches(terms, honestIndexer, net, at, ledger);
      assert honestIndexer ==> LockedTo(terms.us, ledger, st.o);
      hide Reaches, Finds, LockedTo;
      ghost var read, was := ledger, state;
      settled, read := ClaimAndSettle(net, at, st.o, claim.value, st.presig);
      if was == Claimed {
        Resumed(terms, honestIndexer, start, written, ledger, log, net, at, settled, read);
      }
    }

    method ClaimAndSettle(net: Net, at: nat, o: Outpoint, claim: Spend, presig: Presig) returns (settled: bool, ghost read: Ledger)
      requires Valid() && Resting() && !Terminal(Receive, state) && OurClaim(terms, claim) && (honestIndexer ==> LockedTo(terms.us, ledger, o))
      modifies this
      ensures Valid() && Resting() && (settled ==> state == Settled)
      ensures !honestIndexer && presig == Presig(claim, true) && !net(at + 3).dies && net(at + 3).ok && Answered(net, at + 4, true) ==> settled
      ensures CoinsStay(old(ledger), ledger)
      ensures old(state) != Claimed ==>
        (settled <==> CarriesThrough(terms, honestIndexer, net, at, old(ledger), BeforeClaim(old(log), old(state), o), claim, presig, o))
      ensures old(state) == Claimed ==>
        && read == HappenedAll(terms.us, old(ledger), old(log), net(at + 4).meanwhile) && LedgerOk(terms.us, read, log)
        && state == (if settled then Settled else Claimed)
        && log == old(log) + (if Sees(honestIndexer, net, at + 4, read, o) then [SawSpent(o)] + [Posted(o)] else []) + (if settled then [MovedTo(Settled)] else [])
        && (settled <==> Sees(honestIndexer, net, at + 4, read, o) && !net(at + 5).dies && net(at + 5).ok)
        && ledger == if Sees(honestIndexer, net, at + 4, read, o)
                     then HappenedAll(terms.us, read, old(log) + [SawSpent(o)] + [Posted(o)], net(at + 5).meanwhile) else read
    {
      hide LogOk, LedgerOk, SeenOk, StateOf, OurClaim, Unrecorded, HappenedAll, IsSpent;
      read := ledger;
      if state == InvoiceIssued {
        RecordFunding(o);
      }
      hide Terminal, Legal, Resting;
      if state == Funded {
        var ok := FinishClaim(net, at + 3, claim, presig);
        if !ok {
          return false, read;
        }
      }
      settled, read := ConfirmAndSettle(net, at + 4, o);
    }

    /** The funding outpoint and the move to funded, with nothing in between. */
    method RecordFunding(o: Outpoint)
      requires Valid() && Resting() && state == InvoiceIssued
      modifies this
      ensures Valid() && Resting() && state == Funded && outpoint == Some(o) && ledger == old(ledger)
      ensures log == old(log) + [Recorded(o)] + [MovedTo(Funded)]
    {
      hide LogOk, LedgerOk, SeenOk, StateOf;
      Note(Recorded(o));
      Move(Funded);
    }

    /** Any number of passes, each of which may die anywhere. */
    method DriveAll(net: Net, passes: nat)
      requires Valid() && Resting()
      modifies this
      ensures Valid() && Resting()
    {
      for i := 0 to passes
        invariant Valid() && Resting()
      {
        var _ := Drive(net, 6 * i);
      }
    }

    /** Every pass looks for a spendable coin before it looks whether the coin is gone. So with a
        truthful indexer, once the outpoint of a claimed row is spent, no later pass gets to post
        the preimage: as long as boltz goes on answering funded, the row stays claimed. */
    method ComesTooLate(net: Net, passes: nat, o: Outpoint)
      requires Valid() && Resting() && honestIndexer && state == Claimed && IsSpent(ledger, o)
      requires forall i: nat :: i < passes ==> StillFunded(net(6 * i), o)
      modifies this
      ensures Valid() && state == Claimed && log == old(log)
    {
      hide LogOk, LedgerOk, SeenOk, StateOf, Unrecorded, ResumedClaim, GoesWell;
      for i := 0 to passes
        invariant Valid() && Resting() && state == Claimed && IsSpent(ledger, o) && log == old(log)
      {
        ghost var before := ledger;
        assert StillFunded(net(6 * i), o);
        var settled := Drive(net, 6 * i);
        if !net(6 * i).dies && net(6 * i).status.Some? && net(6 * i).status.value.SaysFunded? {
          GoneIsNotFound(terms, before, old(log), ledger, log, net, 6 * i, settled);
        }
      }
    }
  }

  /** Boltz says nothing, nothing new, or that this outpoint is funded. */
  predicate StillFunded(reply: Reply, o: Outpoint) {
    reply.status.None? || reply.status.value.SaysOther? || (reply.status.value.SaysFunded? && reply.status.value.o == o)
  }

  // ---- what every run guarantees ------------------------------------------------------------------

  /** The preimage is posted only right after a read that shows this pass's outpoint spent, and
      only once the claim was recorded. */
  lemma PostedAfterASpentRead(terms: Terms, log: seq<Entry>, i: nat)
    requires LogOk(terms, log) && i < |log| && log[i].Posted?
    ensures i > 0 && log[i - 1] == SawSpent(log[i].o) && StateOf(log[..i]) == Claimed
  {
    assert EntryOk(terms, log[..i], log[i]);
  }

  lemma {:induction false} StateLater(terms: Terms, log: seq<Entry>, i: nat, j: nat)
    requires LogOk(terms, log) && i <= j <= |log|
    ensures Remaining(Receive, StateOf(log[..j])) <= Remaining(Receive, StateOf(log[..i]))
    ensures Known(Receive, StateOf(log[..i])) ==> Known(Receive, StateOf(log[..j]))
    decreases j - i
  {
    hide LogOk;
    if i < j {
      StateLater(terms, log, i, j - 1);
      EntryAt(terms, log, j - 1);
      assert log[..j][..j - 1] == log[..j - 1];
    }
  }

  lemma EntryAt(terms: Terms, log: seq<Entry>, i: nat)
    requires LogOk(terms, log) && i < |log|
    ensures EntryOk(terms, log[..i], log[i])
  {
  }

  /** However often passes die and come back: no transition is taken twice, nothing is claimed
      again once the claim is recorded, no outpoint is recorded twice. */
  lemma PhasesRunOnce(terms: Terms, log: seq<Entry>, i: nat, j: nat)
    requires LogOk(terms, log) && i < j < |log|
    ensures log[i].MovedTo? ==> log[j] != log[i]
    ensures log[i] == MovedTo(Claimed) ==> !log[j].Submitted?
    ensures !(log[i].Recorded? && log[j].Recorded?)
  {
    hide LogOk, OurClaim;
    EntryAt(terms, log, i);
    EntryAt(terms, log, j);
    StateLater(terms, log, i + 1, j);
    assert log[..i + 1][..i] == log[..i];
    if log[i].Recorded? {
      assert log[..j][i] == log[i];
    }
  }

  /** A submitted claim pays us exactly the amount of the row and the funder everything else. */
  lemma ClaimsPayUs(terms: Terms, log: seq<Entry>, i: nat)
    requires LogOk(terms, log) && i < |log| && log[i].Submitted?
    ensures OurClaim(terms, log[i].spend)
    ensures Paid(log[i].spend.outputs, Us) == terms.amount && Paid(log[i].spend.outputs, Peer) == Total(log[i].spend.outputs) - terms.amount
  {
    EntryAt(terms, log, i);
    var s := log[i].spend;
    var value: nat, dust: int :| IsSplitOf(s.outputs, value, terms.amount, dust);
    ClaimSplit.SplitConserves(ReceiveArgs(value, terms.amount, dust), Us);
    ClaimSplit.SplitConserves(ReceiveArgs(value, terms.amount, dust), Peer);
  }

  /** What the posted preimage was worth, at the look that let it go and ever after. With a
      truthful indexer the outpoint was locked to our key and is spent in the ledger. It went
      by the claim leaf exactly when it went by a spend we submitted, and then it paid us the
      amount; otherwise its funder took it back, after T or after an onchain exit had ripened. */
  lemma PaidExactlyWhenClaimed(terms: Terms, l: Ledger, log: seq<Entry>, i: nat)
    requires LogOk(terms, log) && LedgerOk(terms.us, l, log) && SeenOk(terms.us, l, log)
    requires i < |log| && log[i].Posted?
    ensures IsSpent(l, log[i].o) && LockedTo(terms.us, l, log[i].o)
    ensures var c := l.coins[log[i].o];
      var s := c.spentBy.value;
      && (s.leaf == ClaimLeaf <==> HasSubmitted(log, s))
      && (s.leaf == ClaimLeaf ==> Paid(s.outputs, Us) == terms.amount)
      && (s.leaf != ClaimLeaf ==> TakenBack(c, l.mtp, s.leaf))
  {
    hide LogOk;
    PostedAfterASpentRead(terms, log, i);
    assert SawSpent(log[i].o) in log;
    assert CoinOk(terms.us, l, log, log[i].o);
    var s := l.coins[log[i].o].spentBy.value;
    if HasSubmitted(log, s) {
      OnlyClaimsSubmitted(terms, log, s);
      var k :| 0 <= k < |log| && log[k] == Submitted(s);
      ClaimsPayUs(terms, log, k);
    }
  }

  /** The ways back to the funder that need nobody's claim: T has passed, or the output was
      unrolled long enough ago. */
  predicate TakenBack(c: Coin, mtp: int, leaf: Leaf) {
    (leaf == RefundLeaf && mtp >= c.script.refundLocktime) || (leaf == UexitLeaf && Ripe(c, mtp))
  }

  predicate Losable(c: Coin, mtp: int) {
    mtp >= c.script.refundLocktime || Ripe(c, mtp)
  }

  /** The whole output, back to its funder. */
  function BackToFunder(o: Outpoint, c: Coin, leaf: Leaf): Spend {
    Spend(o, c.script, leaf, [Output(Regular(Peer), c.value)])
  }

  /** An output locked to our key that is still unspent can go without our claim exactly when T
      has passed or it has ripened onchain, whatever script and terms; and then it can go so
      that nothing of it is paid to us. */
  lemma SpentMayBeRefunded(terms: Terms, l: Ledger, log: seq<Entry>, o: Outpoint)
    requires LogOk(terms, log) && o in l.coins && l.coins[o].spentBy.None?
    requires var x := l.coins[o].script; x.claimer == terms.us && x.funder != terms.us && x.server != terms.us
    ensures (exists s: Spend :: s.input == o && s.leaf != ClaimLeaf && CanLand(terms.us, l, log, s)) <==> Losable(l.coins[o], l.mtp)
    ensures forall leaf :: TakenBack(l.coins[o], l.mtp, leaf) ==>
      && CanLand(terms.us, l, log, BackToFunder(o, l.coins[o], leaf)) && Paid(BackToFunder(o, l.coins[o], leaf).outputs, Us) == 0
  {
    hide LogOk;
    var c := l.coins[o];
    forall leaf | TakenBack(c, l.mtp, leaf)
      ensures CanLand(terms.us, l, log, BackToFunder(o, c, leaf)) && Paid(BackToFunder(o, c, leaf).outputs, Us) == 0
    {
      assert Paid(BackToFunder(o, c, leaf).outputs[1..], Us) == 0;
    }
    if Losable(c, l.mtp) {
      var leaf := if l.mtp >= c.script.refundLocktime then RefundLeaf else UexitLeaf;
      assert TakenBack(c, l.mtp, leaf);
      assert CanLand(terms.us, l, log, BackToFunder(o, c, leaf));
    }
    if s: Spend :| s.input == o && s.leaf != ClaimLeaf && CanLand(terms.us, l, log, s) {
      if HasSubmitted(log, s) {
        OnlyClaimsSubmitted(terms, log, s);
      }
    }
  }

  /** The answers of a pass in which the output goes back to its funder between the lookup and
      the look. */
  function TakenBackNet(o: Outpoint, c: Coin, leaf: Leaf, dust: int): Net {
    k => Reply(if k == 4 then [SpendLands(BackToFunder(o, c, leaf))] else [], false,
               Some(SaysFunded(o, Presig(BackToFunder(o, c, leaf), false), c.script.funder, c.script.refundLocktime)),
               Some(Info(c.script.server, c.script.exitDelay, dust)), Some(c.value), true, true)
  }

  /** The gate lets it pass. Whatever claimed row, with a truthful indexer or not: when its
      output is still unspent although the claim was acknowledged, and T has passed or the
      output has ripened onchain, there is a pass that posts the preimage and writes 'settled'
      while the output goes back to its funder and we are paid nothing. */
  method PostsOverARefund(r: Receiver, o: Outpoint, leaf: Leaf, dust: int)
    requires r.Valid() && r.Resting() && r.state == Claimed && o in r.ledger.coins
    requires var c := r.ledger.coins[o];
      && c.spentBy.None? && TakenBack(c, r.ledger.mtp, leaf)
      && c.script.claimer == r.terms.us && c.script.paymentHash == r.terms.paymentHash && c.script.funder != r.terms.us && c.script.server != r.terms.us
      && ClaimFor(r.terms, o, c.script.funder, c.script.refundLocktime, Info(c.script.server, c.script.exitDelay, dust), c.value).Some?
    modifies r
    ensures r.state == Settled && r.log == old(r.log) + [SawSpent(o)] + [Posted(o)] + [MovedTo(Settled)]
    ensures IsSpent(r.ledger, o) && r.ledger.coins[o].spentBy.value.leaf == leaf && Paid(r.ledger.coins[o].spentBy.value.outputs, Us) == 0
  {
    var c := r.ledger.coins[o];
    var net := TakenBackNet(o, c, leaf, dust);
    ghost var before, log := r.ledger, r.log;
    SpentMayBeRefunded(r.terms, before, log, o);
    PassTakesBack(r.terms, r.honestIndexer, before, log, o, leaf, dust);
    hide LogOk, LedgerOk, SeenOk, StateOf, Unrecorded, Reaches, CanLand, ResumedClaim;
    var settled := r.Drive(net, 0);
    Over(r.terms, r.honestIndexer, before, log, r.ledger, r.log, o, leaf, dust, settled);
  }

  /** And it does: the first pass of a fresh receive has its claim acknowledged and dropped, the
      second one posts over the refund. */
  method AcknowledgedThenLost(terms: Terms, honest: bool, o: Outpoint, c: Coin, mtp: int, leaf: Leaf, dust: int) returns (r: Receiver)
    requires c.spentBy.None? && TakenBack(c, mtp, leaf)
    requires c.script.claimer == terms.us && c.script.paymentHash == terms.paymentHash && c.script.funder != terms.us && c.script.server != terms.us
    requires ClaimFor(terms, o, c.script.funder, c.script.refundLocktime, Info(c.script.server, c.script.exitDelay, dust), c.value).Some?
    ensures fresh(r) && r.terms == terms && r.honestIndexer == honest
    ensures r.state == Settled && Posted(o) in r.log
    ensures IsSpent(r.ledger, o) && r.ledger.coins[o].spentBy.value.leaf == leaf && Paid(r.ledger.coins[o].spentBy.value.outputs, Us) == 0
  {
    r := new Receiver(terms, honest, Ledger(map[o := c], mtp));
    hide LogOk, LedgerOk, SeenOk, StateOf, Unrecorded, ClaimFor;
    r.RecordFunding(o);
    var claim := r.Rebuild(o, c.script.funder, c.script.refundLocktime, Info(c.script.server, c.script.exitDelay, dust), c.value);
    var ok := r.FinishClaim(k => Reply([], false, None, None, None, true, false), 0, claim.value, Presig(claim.value, true));
    PostsOverARefund(r, o, leaf, dust);
  }

  lemma PassTakesBack(terms: Terms, honest: bool, before: Ledger, log: seq<Entry>, o: Outpoint, leaf: Leaf, dust: int)
    requires o in before.coins
    requires var c := before.coins[o];
      && c.spentBy.None? && CanLand(terms.us, before, log, BackToFunder(o, c, leaf))
      && c.script.claimer == terms.us && c.script.paymentHash == terms.paymentHash
      && ClaimFor(terms, o, c.script.funder, c.script.refundLocktime, Info(c.script.server, c.script.exitDelay, dust), c.value).Some?
    ensures var c := before.coins[o];
      var net := TakenBackNet(o, c, leaf, dust);
      var read := before.(coins := before.coins[o := c.(spentBy := Some(BackToFunder(o, c, leaf)))]);
      && Waited(terms.us, before, log, net, 0, 3) == before && HappenedAll(terms.us, before, log, net(4).meanwhile) == read
      && Reaches(terms, honest, net, 0, before) && Sees(honest, net, 4, read, o)
      && HappenedAll(terms.us, read, log + [SawSpent(o)] + [Posted(o)], net(5).meanwhile) == read
  {
    var c := before.coins[o];
    var net := TakenBackNet(o, c, leaf, dust);
    WaitedThree(terms.us, before, log, net, 0);
    var h := SpendLands(BackToFunder(o, c, leaf));
    assert net(4).meanwhile == [h] && [h][..0] == [];
    hide CanLand, ClaimFor;
  }

  lemma Over(terms: Terms, honest: bool, before: Ledger, log: seq<Entry>, after: Ledger, next: seq<Entry>, o: Outpoint, leaf: Leaf, dust: int, settled: bool)
    requires o in before.coins
    requires var c := before.coins[o];
      var net := TakenBackNet(o, c, leaf, dust);
      var read := before.(coins := before.coins[o := c.(spentBy := Some(BackToFunder(o, c, leaf)))]);
      && Waited(terms.us, before, log, net, 0, 3) == before && HappenedAll(terms.us, before, log, net(4).meanwhile) == read
      && Reaches(terms, honest, net, 0, before) && Sees(honest, net, 4, read, o)
      && HappenedAll(terms.us, read, log + [SawSpent(o)] + [Posted(o)], net(5).meanwhile) == read
      && ResumedClaim(terms, honest, before, log, after, next, net, 0, settled)
    ensures settled && next == log + [SawSpent(o)] + [Posted(o)] + [MovedTo(Settled)]
    ensures after.coins == before.coins[o := before.coins[o].(spentBy := Some(BackToFunder(o, before.coins[o], leaf)))]
  {
    hide Waited, HappenedAll, Reaches, Sees, LedgerOk;
  }
}
