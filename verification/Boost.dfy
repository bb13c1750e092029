/** The fee of a replacement child (src/exit/boost.ts): a fixpoint between the fee and the
    number of inputs needed to pay it. */
module Boost {
  import opened Wrappers
  import opened SharedScript

  datatype FuelCoin = FuelCoin(point: Outpoint, valueSat: nat)

  /** An input of the stuck child. */
  datatype OldInput = OldInput(point: Outpoint, ours: bool, valueSat: nat)

  datatype WalletCoin = WalletCoin(point: Outpoint, confirmed: bool, valueSat: nat)

  const DUST_SAT: nat := 546
  const TRUC_CHILD_MAX_VB: nat := 1000
  const INCREMENTAL_RELAY: nat := 1
  const MAX_FEE_ITERATIONS: nat := 10

  /** What a boost is computed from. The child's size depends on its input count only. */
  datatype Job = Job(rate: real, parentVb: nat, oldFee: Option<nat>, childVb: nat -> nat)

  ghost predicate Sound(j: Job) {
    j.rate >= 0.0 && forall m, n :: m <= n ==> j.childVb(m) <= j.childVb(n)
  }

  function Ceil(x: real): (n: int)
    ensures n as real >= x && n as real < x + 1.0
  {
    -((-x).Floor)
  }

  /** RBF rule 4: the old absolute fee plus incremental relay for the new size. */
  function RbfFloor(oldFee: Option<nat>, newVb: nat): nat {
    match oldFee
    case None => 0
    case Some(fee) => fee + INCREMENTAL_RELAY * newVb + 1
  }

  /** The whole package at the target rate. */
  function PackageFee(rate: real, parentVb: nat, vb: nat): int {
    Ceil(rate * (parentVb + vb) as real)
  }

  /** The fee a child with `k` fuel inputs has to pay. */
  function Needed(j: Job, k: nat): int {
    var vb := j.childVb(k);
    var package := PackageFee(j.rate, j.parentVb, vb);
    if package >= RbfFloor(j.oldFee, vb) then package else RbfFloor(j.oldFee, vb)
  }

  lemma NeededGrows(j: Job, m: nat, n: nat)
    requires Sound(j) && m <= n
    ensures 0 <= Needed(j, m) <= Needed(j, n)
  {
    assert j.childVb(m) <= j.childVb(n);
    PackageGrows(j.rate, j.parentVb, j.childVb(m), j.childVb(n));
    hide PackageFee;
  }

  lemma PackageGrows(rate: real, parentVb: nat, a: nat, b: nat)
    requires rate >= 0.0 && a <= b
    ensures 0 <= PackageFee(rate, parentVb, a) <= PackageFee(rate, parentVb, b)
  {
    var x, y := (parentVb + a) as real, (parentVb + b) as real;
    RateGrows(rate, x, y);
    CeilGrows(rate * x, rate * y);
    CeilGrows(0.0, rate * x);
  }

  lemma CeilGrows(x: real, y: real)
    requires x <= y
    ensures Ceil(x) <= Ceil(y) && Ceil(0.0) == 0
  {
    assert Ceil(x) as real < y + 1.0;
  }

  lemma RateGrows(rate: real, a: real, b: real)
    requires rate >= 0.0 && 0.0 <= a <= b
    ensures 0.0 <= rate * a <= rate * b
  {
  }

  // ---- the pool ------------------------------------------------------------------------------

  ghost predicate Descending(pool: seq<FuelCoin>) {
    forall i, j :: 0 <= i < j < |pool| ==> pool[i].valueSat >= pool[j].valueSat
  }

  function Total(cs: seq<FuelCoin>): (n: nat) {
    if cs == [] then 0 else Total(cs[..|cs| - 1]) + cs[|cs| - 1].valueSat
  }

  /** The stuck child's own inputs and the confirmed wallet coins, a wallet coin replacing an
      input at the same outpoint. */
  function Usable(inputs: seq<OldInput>, coins: seq<WalletCoin>): map<Outpoint, nat> {
    if coins != [] then
      var c := coins[|coins| - 1];
      var before := Usable(inputs, coins[..|coins| - 1]);
      if c.confirmed then before[c.point := c.valueSat] else before
    else if inputs != [] then
      var i := inputs[|inputs| - 1];
      var before := Usable(inputs[..|inputs| - 1], []);
      if i.ours then before[i.point := i.valueSat] else before
    else map[]
  }

  lemma Inserted(sorted: seq<FuelCoin>, c: FuelCoin, p: nat)
    requires Descending(sorted) && p <= |sorted|
    requires p > 0 ==> c.valueSat <= sorted[p - 1].valueSat
    requires forall k :: p <= k < |sorted| ==> c.valueSat > sorted[k].valueSat
    ensures Descending(sorted[..p] + [c] + sorted[p..])
  {
    var r := sorted[..p] + [c] + sorted[p..];
    forall i, j | 0 <= i < j < |r| ensures r[i].valueSat >= r[j].valueSat {
      if i < p - 1 && j == p {
        assert sorted[i].valueSat >= sorted[p - 1].valueSat;
      }
    }
  }

  ghost predicate OneEach(pool: seq<FuelCoin>) {
    forall a, b :: 0 <= a < b < |pool| ==> pool[a].point != pool[b].point
  }

  lemma NoneTwice()
    ensures OneEach([])
  {
  }

  lemma InsertedOnce(sorted: seq<FuelCoin>, c: FuelCoin, p: nat)
    requires p <= |sorted|
    ensures OneEach(sorted) && (forall x :: x in sorted ==> x.point != c.point) ==> OneEach(sorted[..p] + [c] + sorted[p..])
  {
  }

  method InsertByValue(sorted: seq<FuelCoin>, c: FuelCoin) returns (r: seq<FuelCoin>)
    requires Descending(sorted)
    ensures Descending(r) && forall x :: x in r <==> x in sorted || x == c
    ensures OneEach(sorted) && (forall x :: x in sorted ==> x.point != c.point) ==> OneEach(r)
  {
    hide Descending, OneEach;
    var p := |sorted|;
    while p > 0 && c.valueSat > sorted[p - 1].valueSat
      invariant 0 <= p <= |sorted|
      invariant forall k :: p <= k < |sorted| ==> c.valueSat > sorted[k].valueSat
    {
      p := p - 1;
    }
    Inserted(sorted, c, p);
    InsertedOnce(sorted, c, p);
    r := sorted[..p] + [c] + sorted[p..];
    assert sorted == sorted[..p] + sorted[p..];
  }

  /** The last own input, and the last confirmed coin, listed at its outpoint. */
  predicate LastOwn(inputs: seq<OldInput>, k: nat) {
    k < |inputs| && inputs[k].ours && forall j :: k < j < |inputs| && inputs[j].ours ==> inputs[j].point != inputs[k].point
  }

  predicate LastConfirmed(coins: seq<WalletCoin>, k: nat) {
    k < |coins| && coins[k].confirmed && forall j :: k < j < |coins| && coins[j].confirmed ==> coins[j].point != coins[k].point
  }

  predicate ConfirmedAt(coins: seq<WalletCoin>, o: Outpoint) {
    exists k :: 0 <= k < |coins| && coins[k].confirmed && coins[k].point == o
  }

  ghost predicate FromWallet(coins: seq<WalletCoin>, o: Outpoint, sat: nat) {
    exists k: nat :: LastConfirmed(coins, k) && coins[k].point == o && coins[k].valueSat == sat
  }

  ghost predicate FromChild(inputs: seq<OldInput>, o: Outpoint, sat: nat) {
    exists k: nat :: LastOwn(inputs, k) && inputs[k].point == o && inputs[k].valueSat == sat
  }

  lemma {:induction false} OwnIsUsable(inputs: seq<OldInput>)
    ensures forall o, sat :: FromChild(inputs, o, sat) <==> o in Usable(inputs, []) && Usable(inputs, [])[o] == sat
  {
    if inputs != [] {
      var n := |inputs| - 1;
      OwnIsUsable(inputs[..n]);
      forall o, sat ensures FromChild(inputs, o, sat) <==> o in Usable(inputs, []) && Usable(inputs, [])[o] == sat {
        if inputs[n].ours && inputs[n].point == o {
          assert LastOwn(inputs, n);
        } else {
          assert forall k: nat :: k < n && inputs[k].point == o ==> (LastOwn(inputs, k) <==> LastOwn(inputs[..n], k));
          assert FromChild(inputs, o, sat) <==> FromChild(inputs[..n], o, sat);
        }
      }
    }
  }

  /** What may pay: a confirmed wallet coin as last listed, or an input of the stuck child where
      the wallet has no confirmed coin. */
  lemma {:induction false} UsableExactly(inputs: seq<OldInput>, coins: seq<WalletCoin>, o: Outpoint, sat: nat)
    ensures o in Usable(inputs, coins) && Usable(inputs, coins)[o] == sat
       <==> FromWallet(coins, o, sat) || (!ConfirmedAt(coins, o) && FromChild(inputs, o, sat))
    decreases |coins|
  {
    if coins == [] {
      OwnIsUsable(inputs);
    } else {
      var n := |coins| - 1;
      UsableExactly(inputs, coins[..n], o, sat);
      if coins[n].confirmed && coins[n].point == o {
        assert LastConfirmed(coins, n);
      } else {
        assert forall k: nat :: k < n && coins[k].point == o ==> (LastConfirmed(coins, k) <==> LastConfirmed(coins[..n], k));
        assert FromWallet(coins, o, sat) <==> FromWallet(coins[..n], o, sat);
        assert ConfirmedAt(coins, o) <==> ConfirmedAt(coins[..n], o);
      }
    }
  }

  /** The pool, by value: every coin in it is a confirmed wallet coin or an input of the stuck
      child, with its value; every confirmed outpoint is in it, and every other own input; and
      no outpoint is in it twice. */
  method FuelPool(inputs: seq<OldInput>, coins: seq<WalletCoin>) returns (pool: seq<FuelCoin>)
    ensures Descending(pool)
    ensures forall c :: c in pool <==> FromWallet(coins, c.point, c.valueSat) || (!ConfirmedAt(coins, c.point) && FromChild(inputs, c.point, c.valueSat))
    ensures OneEach(pool)
  {
    hide FromWallet, FromChild, ConfirmedAt, OneEach;
    assert OneEach([]) by {
      NoneTwice();
    }
    var usable: map<Outpoint, nat> := map[];
    for n := 0 to |inputs|
      invariant usable == Usable(inputs[..n], [])
    {
      assert inputs[..n + 1][..n] == inputs[..n];
      if inputs[n].ours {
        usable := usable[inputs[n].point := inputs[n].valueSat];
      }
    }
    assert inputs[..|inputs|] == inputs;
    for n := 0 to |coins|
      invariant usable == Usable(inputs, coins[..n])
    {
      assert coins[..n + 1][..n] == coins[..n];
      if coins[n].confirmed {
        usable := usable[coins[n].point := coins[n].valueSat];
      }
    }
    assert coins[..|coins|] == coins;
    pool := [];
    var todo := usable.Keys;
    while todo != {}
      invariant todo <= usable.Keys && Descending(pool)
      invariant OneEach(pool)
      invariant forall c :: c in pool <==> c.point in usable && c.point !in todo && usable[c.point] == c.valueSat
      decreases |todo|
    {
      var o :| o in todo;
      todo := todo - {o};
      assert forall c :: c in pool ==> c.point != o;
      pool := InsertByValue(pool, FuelCoin(o, usable[o]));
    }
    forall c ensures c in pool <==> FromWallet(coins, c.point, c.valueSat) || (!ConfirmedAt(coins, c.point) && FromChild(inputs, c.point, c.valueSat)) {
      UsableExactly(inputs, coins, c.point, c.valueSat);
    }
  }

  // ---- selection ------------------------------------------------------------------------------

  /** `k` coins are the fewest, largest first, that reach the target. */
  ghost predicate Fewest(pool: seq<FuelCoin>, target: int, k: nat) {
    0 < k <= |pool| && Total(pool[..k]) >= target && forall m :: 0 < m < k ==> Total(pool[..m]) < target
  }

  method SelectFuel(pool: seq<FuelCoin>, target: int) returns (r: Option<seq<FuelCoin>>)
    ensures r.Some? ==> r.value <= pool && Fewest(pool, target, |r.value|)
    ensures r.None? ==> forall k :: 0 < k <= |pool| ==> Total(pool[..k]) < target
  {
    var selected: seq<FuelCoin>, total := [], 0;
    for n := 0 to |pool|
      invariant selected == pool[..n] && total == Total(selected)
      invariant forall k :: 0 < k <= n ==> Total(pool[..k]) < target
    {
      selected := selected + [pool[n]];
      assert selected[..n] == pool[..n] && selected == pool[..n + 1];
      total := total + pool[n].valueSat;
      if total >= target {
        return Some(selected);
      }
    }
    r := None;
  }

  lemma {:induction false} PrefixGrows(pool: seq<FuelCoin>, m: nat, n: nat)
    requires m <= n <= |pool|
    ensures Total(pool[..m]) <= Total(pool[..n])
    decreases n
  {
    if m < n {
      assert pool[..n][..n - 1] == pool[..n - 1];
      PrefixGrows(pool, m, n - 1);
    }
  }

  /** Totals add up, so a total is the sum of the values and nothing else. */
  lemma {:induction false} TotalAppend(a: seq<FuelCoin>, b: seq<FuelCoin>)
    ensures Total(a + b) == Total(a) + Total(b)
    decreases |b|
  {
    if b == [] {
      assert a + b == a;
    } else {
      assert (a + b)[..|a + b| - 1] == a + b[..|b| - 1];
      TotalAppend(a, b[..|b| - 1]);
    }
  }

  lemma FewestGrows(pool: seq<FuelCoin>, a: int, b: int, k: nat, n: nat)
    requires a <= b && Fewest(pool, a, k) && 0 < n <= |pool| && Total(pool[..n]) >= b
    ensures k <= n
  {
  }

  // ---- the fixpoint ---------------------------------------------------------------------------

  /** `n` of the largest coins pay a fee of `fee` and leave a change output that is not dust. */
  ghost predicate Pays(j: Job, pool: seq<FuelCoin>, n: nat, fee: int) {
    && 0 < n <= |pool| && j.childVb(n) <= TRUC_CHILD_MAX_VB
    && Total(pool[..n]) >= fee + DUST_SAT && fee >= Needed(j, n)
  }

  /** What a fee has to be, no less and no more: the whole package meets the target rate, and
      a replacement pays for what it replaces plus its own relay (rules 3 and 4 of BIP 125).
      With change above dust this is what paying means. */
  lemma PayingMeetsTheRules(j: Job, pool: seq<FuelCoin>, n: nat, fee: int)
    requires Sound(j)
    ensures fee >= Needed(j, n) <==>
      && fee as real >= j.rate * (j.parentVb + j.childVb(n)) as real && fee >= 0
      && (j.oldFee.Some? ==> fee - j.oldFee.value >= j.childVb(n) + 1)
    ensures Pays(j, pool, n, fee) ==> j.childVb(n) <= 1000 && Total(pool[..n]) - fee >= 546 && (j.oldFee.Some? ==> fee > j.oldFee.value)
  {
    NeededGrows(j, n, n);
    var vb := j.childVb(n);
    CeilIsLeast(j.rate * (j.parentVb + vb) as real, fee);
    assert fee >= PackageFee(j.rate, j.parentVb, vb) <==> fee as real >= j.rate * (j.parentVb + vb) as real;
    PackageGrows(j.rate, j.parentVb, vb, vb);
    hide PackageFee;
  }

  lemma CeilIsLeast(x: real, n: int)
    ensures n >= Ceil(x) <==> n as real >= x
  {
  }

  datatype Outcome =
    | Boosted(selected: seq<FuelCoin>, feeSat: int, rounds: nat)
    | NotEnoughFuel
    | ChildTooLarge
    | NotConverged

  /** A trial fee no larger than any fee that pays, with everything that leads to it. */
  ghost predicate Trial(j: Job, pool: seq<FuelCoin>, fee: int, rounds: nat, last: nat) {
    && fee >= 0 && rounds <= last <= |pool|
    && (rounds == 0 ==> fee == 0 && last == 0)
    && (rounds > 0 ==> last > 0 && fee == Needed(j, last))
    && (forall n, g :: Pays(j, pool, n, g) ==> last <= n && fee <= g)
  }

  lemma TrialNext(j: Job, pool: seq<FuelCoin>, fee: int, rounds: nat, last: nat, k: nat)
    requires Sound(j) && Trial(j, pool, fee, rounds, last) && Fewest(pool, fee + DUST_SAT, k)
    requires rounds > 0 ==> forall m :: 0 < m < last ==> Total(pool[..m]) < fee + DUST_SAT
    ensures last <= k
    ensures forall n, g :: Pays(j, pool, n, g) ==> k <= n && Needed(j, k) <= g
    ensures Needed(j, k) <= fee ==> Needed(j, k) == fee
    ensures Needed(j, k) > fee ==> last < k && Trial(j, pool, Needed(j, k), rounds + 1, k)
  {
    NeededGrows(j, last, if last <= k then k else last);
    forall n, g | Pays(j, pool, n, g) ensures k <= n && Needed(j, k) <= g {
      FewestGrows(pool, fee + DUST_SAT, g + DUST_SAT, k, n);
      NeededGrows(j, k, n);
    }
  }

  /** The loop of a boost. The accepted fee is the least any number of the largest coins can
      pay, it is exactly what its own selection needs, and the cap of ten rounds stops nothing
      a pool of fewer than ten coins could have paid. */
  method Solve(j: Job, pool: seq<FuelCoin>) returns (r: Outcome)
    requires Sound(j)
    ensures r.Boosted? ==>
      && r.selected <= pool && Pays(j, pool, |r.selected|, r.feeSat) && r.feeSat == Needed(j, |r.selected|)
      && (forall n, g :: Pays(j, pool, n, g) ==> |r.selected| <= n && r.feeSat <= g)
      && r.rounds <= |pool| + 1
    ensures r.NotEnoughFuel? || r.ChildTooLarge? ==> forall n, g :: !Pays(j, pool, n, g)
    ensures r.NotConverged? ==> |pool| >= 10
  {
    var feeSat: int := 0;
    ghost var last: nat := 0;
    forall n, g | Pays(j, pool, n, g) ensures 0 <= g {
      NeededGrows(j, n, n);
    }
    for i := 0 to MAX_FEE_ITERATIONS
      invariant Trial(j, pool, feeSat, i, last)
      invariant forall m :: 0 < m < last ==> Total(pool[..m]) < feeSat + DUST_SAT
    {
      var candidate := SelectFuel(pool, feeSat + DUST_SAT);
      if candidate.None? {
        return NotEnoughFuel;
      }
      var k := |candidate.value|;
      TrialNext(j, pool, feeSat, i, last, k);
      var vb := j.childVb(k);
      if vb > TRUC_CHILD_MAX_VB {
        return ChildTooLarge;
      }
      var needed := Needed(j, k);
      if needed <= feeSat {
        return Boosted(candidate.value, needed, i + 1);
      }
      feeSat := needed;
      last := k;
    }
    r := NotConverged;
  }

  // ---- no other selection pays less ------------------------------------------------------------

  /** The value of the coins at some places of the pool. */
  function TotalAt(pool: seq<FuelCoin>, at: set<nat>): (n: nat)
    decreases |pool|
  {
    if pool == [] then 0
    else
      var i := |pool| - 1;
      TotalAt(pool[..i], at) + (if i in at then pool[i].valueSat else 0)
  }

  lemma {:induction false} LargestAreMost(pool: seq<FuelCoin>, at: set<nat>)
    requires Descending(pool) && forall i :: i in at ==> i < |pool|
    ensures |at| <= |pool| && TotalAt(pool, at) <= Total(pool[..|at|])
    decreases |pool|
  {
    if pool == [] {
      assert at == {};
    } else {
      var i := |pool| - 1;
      var rest := at - {i};
      LargestAreMost(pool[..i], rest);
      SameElsewhere(pool[..i], at, rest);
      assert pool[..i][..|rest|] == pool[..|rest|];
      if i in at {
        assert |at| == |rest| + 1;
        assert pool[..|at|][..|rest|] == pool[..|rest|];
        assert pool[|rest|].valueSat >= pool[i].valueSat;
      } else {
        assert rest == at;
      }
    }
  }

  lemma {:induction false} SameElsewhere(pool: seq<FuelCoin>, at: set<nat>, rest: set<nat>)
    requires forall i :: 0 <= i < |pool| ==> (i in at <==> i in rest)
    ensures TotalAt(pool, at) == TotalAt(pool, rest)
    decreases |pool|
  {
    if pool != [] {
      SameElsewhere(pool[..|pool| - 1], at, rest);
    }
  }

  /** Not only the largest coins first: no choice of coins from the pool at all can carry a
      child with a smaller fee, and when nothing can be boosted, no choice could. */
  lemma LeastOverAllSelections(j: Job, pool: seq<FuelCoin>, at: set<nat>, fee: int)
    requires Sound(j) && Descending(pool) && at != {} && forall i :: i in at ==> i < |pool|
    requires j.childVb(|at|) <= TRUC_CHILD_MAX_VB && TotalAt(pool, at) >= fee + DUST_SAT && fee >= Needed(j, |at|)
    ensures Pays(j, pool, |at|, fee)
  {
    LargestAreMost(pool, at);
  }
}
