/** What counts as evidence that a vtxo may be forgotten (src/exit/evidence.ts): our own
    signature on its spend, or value conservation over a whole settlement. */
module Evidence {
  import opened Wrappers
  import opened SharedScript
  import opened Vault

  /** An outpoint as the indexer describes it. */
  datatype VirtualCoin = VirtualCoin(point: Outpoint, spentBy: Option<string>, settledBy: Option<string>, isUnrolled: bool, state: Option<string>)

  /** A vtxo of the wallet's live set. */
  datatype LiveVtxo = LiveVtxo(point: Outpoint, value: nat, script: string, tapTree: string, state: Option<string>,
                               batchExpiry: Option<nat>, commitmentTxIds: Option<seq<string>>)

  /** An entry the indexer serves: a transaction, or bytes that do not parse as one. */
  datatype Served = Garbage | Tx(psbt: Psbt)

  datatype Verdict = SpentVerified(spender: string) | Expired | Unproven(reason: string)

  /** A missing and an empty string are both "not named". */
  predicate Given(s: Option<string>) {
    s.Some? && s.value != ""
  }

  // ---- one row ----------------------------------------------------------------------------

  predicate PastExpiry(r: Row, now: int) {
    r.expiresAt.Some? && now > r.expiresAt.value
  }

  function FirstCoin(coins: seq<VirtualCoin>, o: Outpoint): (r: Option<VirtualCoin>)
    ensures r.Some? ==> r.value in coins && r.value.point == o
    ensures r.None? <==> forall c :: c in coins ==> c.point != o
  {
    if coins == [] then None else if coins[0].point == o then Some(coins[0]) else FirstCoin(coins[1..], o)
  }

  /** The last served transaction that decodes to `id`. */
  function LastServed(served: seq<Served>, id: Txid): (r: Option<Psbt>)
    ensures r.Some? ==> Tx(r.value) in served && r.value.id == id
    ensures r.None? <==> forall s :: s in served && s.Tx? ==> s.psbt.id != id
  {
    if served == [] then None
    else
      var s := served[|served| - 1];
      assert forall x :: x in served <==> x in served[..|served| - 1] || x == s;
      if s.Tx? && s.psbt.id == id then Some(s.psbt) else LastServed(served[..|served| - 1], id)
  }

  const NOT_ACKNOWLEDGED := "indexer no longer acknowledges the outpoint"
  const UNROLLED_ELSEWHERE := "broadcast onchain via unilateral exit, but no exit op on this bridge — unrolled from another device or a failed local op; the CSV clock is running, sweep it from /exit"

  /** What an outpoint's coin says once the row has not expired: the spend to look at, or why
      there is none. */
  function SpendNamed(coins: seq<VirtualCoin>, o: Outpoint): Result<string, string> {
    match FirstCoin(coins, o)
    case None => Failure(NOT_ACKNOWLEDGED)
    case Some(c) =>
      if Given(c.spentBy) then Success(c.spentBy.value)
      else if c.isUnrolled then Failure(UNROLLED_ELSEWHERE)
      else Failure("outpoint still " + c.state.GetOr("unspent") + " per the indexer, yet dropped from the live set")
  }

  function Judge(spender: string, served: seq<Served>, o: Outpoint): Verdict {
    match LastServed(served, spender)
    case None => Unproven("indexer names spentBy " + spender + " but does not serve it")
    case Some(p) =>
      if o in p.ourSpends then SpentVerified(spender)
      else Unproven("spentBy " + spender + " does not carry our signature over this outpoint")
  }

  /** The specification of ClassifyDisappearance, given the two answers. */
  function Classified(r: Row, o: Outpoint, now: int, coins: seq<VirtualCoin>, served: seq<Served>): Verdict {
    if PastExpiry(r, now) then Expired
    else
      match SpendNamed(coins, o)
      case Failure(reason) => Unproven(reason)
      case Success(spender) => Judge(spender, served, o)
  }

  /** The first coin listed for the outpoint. */
  predicate FirstAt(coins: seq<VirtualCoin>, o: Outpoint, i: nat) {
    i < |coins| && coins[i].point == o && forall k :: 0 <= k < i ==> coins[k].point != o
  }

  /** The last served transaction of the txid; transactions that do not parse do not count. */
  predicate LastAt(served: seq<Served>, id: Txid, i: nat) {
    i < |served| && served[i].Tx? && served[i].psbt.id == id && forall k :: i < k < |served| ==> !(served[k].Tx? && served[k].psbt.id == id)
  }

  lemma {:induction false} FirstCoinIs(coins: seq<VirtualCoin>, o: Outpoint, i: nat)
    requires FirstAt(coins, o, i)
    ensures FirstCoin(coins, o) == Some(coins[i])
  {
    if i > 0 {
      FirstCoinIs(coins[1..], o, i - 1);
    }
  }

  lemma {:induction false} LastServedIs(served: seq<Served>, id: Txid, i: nat)
    requires LastAt(served, id, i)
    ensures LastServed(served, id) == Some(served[i].psbt)
    decreases |served|
  {
    if i < |served| - 1 {
      LastServedIs(served[..|served| - 1], id, i);
    }
  }

  /** Every verdict, from the answers alone. Past its expiry a row is expired, whatever the
      server says. Before that, an outpoint nobody lists, one unspent, and one whose named spend
      is not served or lacks our signature are unproven, each with its own reason; what is left
      is a verified spend. */
  lemma VerdictsAre(r: Row, o: Outpoint, now: int, coins: seq<VirtualCoin>, served: seq<Served>, i: nat, k: nat)
    ensures var v := Classified(r, o, now, coins, served);
      && (v.Expired? <==> r.expiresAt.Some? && r.expiresAt.value < now)
      && (!v.Expired? && (forall c :: c in coins ==> c.point != o) ==> v == Unproven("indexer no longer acknowledges the outpoint"))
      && (!v.Expired? && FirstAt(coins, o, i) ==>
            if coins[i].spentBy == None || coins[i].spentBy == Some("") then
              v == Unproven(if coins[i].isUnrolled then UNROLLED_ELSEWHERE
                            else "outpoint still " + coins[i].state.GetOr("unspent") + " per the indexer, yet dropped from the live set")
            else
              var spender := coins[i].spentBy.value;
              && ((forall s :: s in served && s.Tx? ==> s.psbt.id != spender) ==> v == Unproven("indexer names spentBy " + spender + " but does not serve it"))
              && (LastAt(served, spender, k) ==>
                    v == if o in served[k].psbt.ourSpends then SpentVerified(spender)
                         else Unproven("spentBy " + spender + " does not carry our signature over this outpoint")))
  {
    if FirstAt(coins, o, i) {
      FirstCoinIs(coins, o, i);
      if coins[i].spentBy.Some? && LastAt(served, coins[i].spentBy.value, k) {
        LastServedIs(served, coins[i].spentBy.value, k);
      }
    }
  }

  ghost predicate Proves(coins: seq<VirtualCoin>, served: seq<Served>, o: Outpoint, spender: string) {
    && (exists i: nat :: FirstAt(coins, o, i) && coins[i].spentBy == Some(spender)) && spender != ""
    && exists k: nat :: LastAt(served, spender, k) && o in served[k].psbt.ourSpends
  }

  lemma {:induction false} SomeFirst(coins: seq<VirtualCoin>, o: Outpoint) returns (i: nat)
    requires FirstCoin(coins, o).Some?
    ensures FirstAt(coins, o, i)
  {
    if coins[0].point == o {
      i := 0;
    } else {
      i := SomeFirst(coins[1..], o);
      i := i + 1;
    }
  }

  lemma {:induction false} SomeLast(served: seq<Served>, id: Txid) returns (k: nat)
    requires LastServed(served, id).Some?
    ensures LastAt(served, id, k)
    decreases |served|
  {
    var n := |served| - 1;
    if served[n].Tx? && served[n].psbt.id == id {
      k := n;
    } else {
      k := SomeLast(served[..n], id);
    }
  }

  /** A spend is believed only with our own signature over that very outpoint in a transaction
      that decodes to the named txid; nothing the server merely says is enough. */
  lemma VerifiedExactlyWhen(r: Row, o: Outpoint, now: int, coins: seq<VirtualCoin>, served: seq<Served>)
    ensures var v := Classified(r, o, now, coins, served);
      && (v.SpentVerified? <==> !(r.expiresAt.Some? && r.expiresAt.value < now) && exists spender :: Proves(coins, served, o, spender))
      && (v.SpentVerified? ==> Proves(coins, served, o, v.spender) && exists p: Psbt :: Tx(p) in served && o in p.ourSpends && p.id == v.spender)
  {
    if FirstCoin(coins, o).Some? {
      var i := SomeFirst(coins, o);
      FirstCoinIs(coins, o, i);
      if Given(coins[i].spentBy) && LastServed(served, coins[i].spentBy.value).Some? {
        var k := SomeLast(served, coins[i].spentBy.value);
        LastServedIs(served, coins[i].spentBy.value, k);
        assert Tx(served[k].psbt) in served;
        assert o in served[k].psbt.ourSpends ==> Proves(coins, served, o, coins[i].spentBy.value);
      }
    }
    if spender :| Proves(coins, served, o, spender) {
      var i: nat :| FirstAt(coins, o, i) && coins[i].spentBy == Some(spender);
      var k: nat :| LastAt(served, spender, k) && o in served[k].psbt.ourSpends;
      FirstCoinIs(coins, o, i);
      LastServedIs(served, spender, k);
    }
  }

  // ---- absorption ---------------------------------------------------------------------------

  /** A vault row missing from the live set, with the settlement the indexer credits it to. */
  datatype Candidate = Candidate(point: Outpoint, valueSat: nat, settledBy: Option<string>)

  function ConsumedSat(cs: seq<Candidate>, rounds: set<string>): (n: nat) {
    if cs == [] then 0
    else ConsumedSat(cs[..|cs| - 1], rounds) + (var c := cs[|cs| - 1]; if Given(c.settledBy) && c.settledBy.value in rounds then c.valueSat else 0)
  }

  /** A live vtxo is a settlement's output when that settlement is its only commitment. */
  predicate FromRound(v: LiveVtxo, round: string) {
    v.commitmentTxIds.Some? && v.commitmentTxIds.value != [] && forall id :: id in v.commitmentTxIds.value ==> id == round
  }

  function CreatedSat(live: seq<LiveVtxo>, rounds: set<string>): (n: nat) {
    if live == [] then 0
    else CreatedSat(live[..|live| - 1], rounds) + (if exists r :: r in rounds && FromRound(live[|live| - 1], r) then live[|live| - 1].value else 0)
  }

  function LiveSat(live: seq<LiveVtxo>): (n: nat) {
    if live == [] then 0 else LiveSat(live[..|live| - 1]) + live[|live| - 1].value
  }

  predicate Balances(cs: seq<Candidate>, live: seq<LiveVtxo>, round: string) {
    ConsumedSat(cs, {round}) > 0 && ConsumedSat(cs, {round}) == CreatedSat(live, {round})
  }

  /** The specification of ResolveAbsorbedByConservation. */
  function AbsorbedBy(cs: seq<Candidate>, live: seq<LiveVtxo>): set<Outpoint> {
    set c | c in cs && Given(c.settledBy) && Balances(cs, live, c.settledBy.value) :: c.point
  }

  lemma {:induction false} OneMoreRound(cs: seq<Candidate>, live: seq<LiveVtxo>, rounds: set<string>, r: string)
    requires r !in rounds
    ensures ConsumedSat(cs, rounds + {r}) == ConsumedSat(cs, rounds) + ConsumedSat(cs, {r})
    ensures CreatedSat(live, rounds + {r}) == CreatedSat(live, rounds) + CreatedSat(live, {r})
    decreases |cs| + |live|
  {
    if cs != [] {
      OneMoreRound(cs[..|cs| - 1], live, rounds, r);
    } else if live != [] {
      OneMoreRound(cs, live[..|live| - 1], rounds, r);
      var v := live[|live| - 1];
      forall q, p | FromRound(v, q) && FromRound(v, p) ensures q == p {
        assert v.commitmentTxIds.value[0] in v.commitmentTxIds.value;
      }
    }
  }

  lemma {:induction false} CreatedIsLive(live: seq<LiveVtxo>, rounds: set<string>)
    ensures CreatedSat(live, rounds) <= LiveSat(live)
  {
    if live != [] {
      CreatedIsLive(live[..|live| - 1], rounds);
    }
  }

  lemma {:induction false} NoRounds(cs: seq<Candidate>, live: seq<LiveVtxo>)
    ensures ConsumedSat(cs, {}) == 0 && CreatedSat(live, {}) == 0
    decreases |cs| + |live|
  {
    if cs != [] {
      NoRounds(cs[..|cs| - 1], live);
    } else if live != [] {
      NoRounds(cs, live[..|live| - 1]);
    }
  }

  lemma {:induction false} BalancedTogether(cs: seq<Candidate>, live: seq<LiveVtxo>, rounds: set<string>)
    requires forall r :: r in rounds ==> Balances(cs, live, r)
    ensures ConsumedSat(cs, rounds) == CreatedSat(live, rounds)
    decreases |rounds|
  {
    if rounds == {} {
      NoRounds(cs, live);
    } else {
      var r :| r in rounds;
      BalancedTogether(cs, live, rounds - {r});
      OneMoreRound(cs, live, rounds - {r}, r);
      assert rounds - {r} + {r} == rounds;
    }
  }

  /** The sats of the candidates at some outpoints. */
  function SatsAt(cs: seq<Candidate>, points: set<Outpoint>): (n: nat) {
    if cs == [] then 0
    else SatsAt(cs[..|cs| - 1], points) + (if cs[|cs| - 1].point in points then cs[|cs| - 1].valueSat else 0)
  }

  ghost predicate OneEach(cs: seq<Candidate>) {
    forall i, j :: 0 <= i < j < |cs| ==> cs[i].point != cs[j].point
  }

  lemma {:induction false} AtIsInRounds(cs: seq<Candidate>, all: seq<Candidate>, points: set<Outpoint>, rounds: set<string>)
    requires cs <= all && OneEach(all)
    requires points == set c | c in all && Given(c.settledBy) && c.settledBy.value in rounds :: c.point
    ensures SatsAt(cs, points) == ConsumedSat(cs, rounds)
  {
    if cs != [] {
      AtIsInRounds(cs[..|cs| - 1], all, points, rounds);
      var c := cs[|cs| - 1];
      assert c == all[|cs| - 1];
      if c.point in points {
        var d :| d in all && Given(d.settledBy) && d.settledBy.value in rounds && d.point == c.point;
        assert d == c;
      }
    }
  }

  /** The settlements the server credits that balance. */
  function BalancedRounds(cs: seq<Candidate>, live: seq<LiveVtxo>): set<string> {
    set c | c in cs && Given(c.settledBy) && Balances(cs, live, c.settledBy.value) :: c.settledBy.value
  }

  /** However the server groups disappearances into settlements, the sats it can make a pass
      forget as absorbed are exactly those of the live vtxos that came out of the settlements
      it credits them to, and those count no vtxo twice. */
  lemma AbsorptionIsBacked(cs: seq<Candidate>, live: seq<LiveVtxo>)
    requires OneEach(cs)
    ensures SatsAt(cs, AbsorbedBy(cs, live)) == CreatedSat(live, BalancedRounds(cs, live)) <= LiveSat(live)
  {
    var rounds := BalancedRounds(cs, live);
    BalancedTogether(cs, live, rounds);
    CreatedIsLive(live, rounds);
    assert AbsorbedBy(cs, live) == set c | c in cs && Given(c.settledBy) && c.settledBy.value in rounds :: c.point;
    AtIsInRounds(cs, cs, AbsorbedBy(cs, live), rounds);
  }

  /** A row is absorbed exactly when the settlement it is credited to took something from us
      and gave us as much back. */
  lemma AbsorbedExactlyWhen(cs: seq<Candidate>, live: seq<LiveVtxo>, o: Outpoint)
    ensures o in AbsorbedBy(cs, live) <==> exists c :: c in cs && c.point == o && GaveBack(cs, live, c.settledBy)
  {
  }

  ghost predicate GaveBack(cs: seq<Candidate>, live: seq<LiveVtxo>, round: Option<string>) {
    round.Some? && round.value != "" && 0 < ConsumedSat(cs, {round.value}) == CreatedSat(live, {round.value})
  }

  /** What a settlement took and gave: row by row the values of ours credited to it, vtxo by vtxo
      the live values it alone settled. */
  lemma SumsBySettlement(cs: seq<Candidate>, c: Candidate, live: seq<LiveVtxo>, v: LiveVtxo, r: string)
    ensures ConsumedSat([], {r}) == 0 && CreatedSat([], {r}) == 0 && LiveSat([]) == 0
    ensures ConsumedSat(cs + [c], {r}) - ConsumedSat(cs, {r}) == if c.settledBy == Some(r) && r != "" then c.valueSat else 0
    ensures LiveSat(live + [v]) - LiveSat(live) == v.value
    ensures v.commitmentTxIds == Some([r]) ==> CreatedSat(live + [v], {r}) - CreatedSat(live, {r}) == v.value
    ensures v.commitmentTxIds.None? || v.commitmentTxIds == Some([]) || (exists id :: id in v.commitmentTxIds.value && id != r)
        ==> CreatedSat(live + [v], {r}) == CreatedSat(live, {r})
  {
    assert (cs + [c])[..|cs|] == cs && (live + [v])[..|live|] == live;
    assert v.commitmentTxIds == Some([r]) ==> FromRound(v, r) && r in {r};
  }

  /** The candidates credited to one settlement, in order. */
  function Group(cs: seq<Candidate>, round: string): (r: seq<Candidate>)
    ensures forall c :: c in r <==> c in cs && Given(c.settledBy) && c.settledBy.value == round
  {
    if cs == [] then []
    else
      var c := cs[|cs| - 1];
      assert forall x :: x in cs <==> x in cs[..|cs| - 1] || x == c;
      Group(cs[..|cs| - 1], round) + (if Given(c.settledBy) && c.settledBy.value == round then [c] else [])
  }

  function Sats(cs: seq<Candidate>): (n: nat) {
    if cs == [] then 0 else Sats(cs[..|cs| - 1]) + cs[|cs| - 1].valueSat
  }

  lemma {:induction false} GroupSats(cs: seq<Candidate>, round: string)
    ensures Sats(Group(cs, round)) == ConsumedSat(cs, {round})
  {
    if cs != [] {
      GroupSats(cs[..|cs| - 1], round);
      var c := cs[|cs| - 1];
      var before := Group(cs[..|cs| - 1], round);
      if Given(c.settledBy) && c.settledBy.value == round {
        assert (before + [c])[..|before|] == before;
      } else {
        assert Group(cs, round) == before;
      }
    }
  }

  method SumConsumed(rows: seq<Candidate>) returns (n: nat)
    ensures n == Sats(rows)
  {
    n := 0;
    for i := 0 to |rows|
      invariant n == Sats(rows[..i])
    {
      assert rows[..i + 1][..i] == rows[..i];
      n := n + rows[i].valueSat;
    }
    assert rows[..|rows|] == rows;
  }

  method SumCreated(live: seq<LiveVtxo>, round: string) returns (n: nat)
    ensures n == CreatedSat(live, {round})
  {
    n := 0;
    for i := 0 to |live|
      invariant n == CreatedSat(live[..i], {round})
    {
      assert live[..i + 1][..i] == live[..i];
      if FromRound(live[i], round) {
        assert round in {round};
        n := n + live[i].value;
      }
    }
    assert live[..|live|] == live;
  }

  method GroupBySettlement(cs: seq<Candidate>) returns (groups: map<string, seq<Candidate>>)
    ensures forall r :: r in groups <==> Group(cs, r) != []
    ensures forall r :: r in groups ==> groups[r] == Group(cs, r)
  {
    groups := map[];
    for i := 0 to |cs|
      invariant forall r :: r in groups <==> Group(cs[..i], r) != []
      invariant forall r :: r in groups ==> groups[r] == Group(cs[..i], r)
    {
      assert cs[..i + 1][..i] == cs[..i];
      var c := cs[i];
      if Given(c.settledBy) {
        var r := c.settledBy.value;
        groups := groups[r := (if r in groups then groups[r] else []) + [c]];
      }
    }
    assert cs[..|cs|] == cs;
  }

  method ResolveAbsorbedByConservation(cs: seq<Candidate>, live: seq<LiveVtxo>) returns (absorbed: set<Outpoint>)
    ensures absorbed == AbsorbedBy(cs, live)
  {
    var groups := GroupBySettlement(cs);
    absorbed := {};
    var todo := groups.Keys;
    while todo != {}
      invariant todo <= groups.Keys
      invariant forall o :: o in absorbed <==> exists c :: c in cs && Given(c.settledBy) && c.settledBy.value !in todo && Balances(cs, live, c.settledBy.value) && c.point == o
      decreases |todo|
    {
      var round :| round in todo;
      todo := todo - {round};
      GroupSats(cs, round);
      var consumed := SumConsumed(groups[round]);
      var created := SumCreated(live, round);
      if consumed > 0 && consumed == created {
        absorbed := absorbed + (set c | c in groups[round] :: c.point);
      }
    }
  }
}
