/** Which coins an offchain spend consumes (src/coin_select.ts): one coin that covers, the one
    whose loss destroys the least exit value; otherwise a merge that leaves written-off coins
    out for as long as it can. */
module CoinSelect {
  import opened Wrappers
  import opened SharedScript

  /** `cost` is what a unilateral exit of the coin would cost. */
  datatype Coin = Coin(point: Outpoint, value: nat, cost: nat)

  datatype Ask = Ask(target: int, changeDust: Option<nat>)

  /** The collation of "txid:vout" strings, as a number. */
  type Rank = Outpoint -> int

  ghost predicate TellsApart(rank: Rank) {
    forall a, b :: rank(a) == rank(b) ==> a == b
  }

  function Net(c: Coin): nat {
    if c.value > c.cost then c.value - c.cost else 0
  }

  /** A total strictly inside the sub-dust change band does not cover. */
  predicate Covers(ask: Ask, sum: int) {
    if ask.changeDust.None? then sum >= ask.target else sum == ask.target || sum >= ask.target + ask.changeDust.value
  }

  function Sum(cs: seq<Coin>): (n: nat) {
    if cs == [] then 0 else Sum(cs[..|cs| - 1]) + cs[|cs| - 1].value
  }

  /** The order in which a single coin is chosen. */
  predicate Cheaper(rank: Rank, a: Coin, b: Coin) {
    Net(a) < Net(b) || (Net(a) == Net(b) && (a.value < b.value || (a.value == b.value && rank(a.point) < rank(b.point))))
  }

  /** The order in which coins are merged. */
  predicate Sooner(rank: Rank, a: Coin, b: Coin) {
    a.cost < b.cost || (a.cost == b.cost && (a.value > b.value || (a.value == b.value && rank(a.point) < rank(b.point))))
  }

  // ---- the specification ------------------------------------------------------------------

  function Worthy(cs: seq<Coin>): (r: seq<Coin>)
    ensures forall c :: c in r <==> c in cs && Net(c) > 0
    ensures multiset(r) <= multiset(cs)
  {
    if cs == [] then []
    else
      assert cs == [cs[0]] + cs[1..];
      (if Net(cs[0]) > 0 then [cs[0]] else []) + Worthy(cs[1..])
  }

  /** No element comes after one it should come before. */
  ghost predicate InOrder(rank: Rank, s: seq<Coin>) {
    forall i, j :: 0 <= i < j < |s| ==> !Sooner(rank, s[j], s[i])
  }

  ghost predicate Sorted(rank: Rank, s: seq<Coin>, pool: seq<Coin>) {
    multiset(s) == multiset(pool) && InOrder(rank, s)
  }

  /** `r` is the shortest non-empty prefix that covers. */
  ghost predicate FirstCover(ask: Ask, s: seq<Coin>, r: seq<Coin>) {
    r != [] && r <= s && Covers(ask, Sum(r)) && forall k :: 0 < k < |r| ==> !Covers(ask, Sum(s[..k]))
  }

  ghost predicate NoCover(ask: Ask, s: seq<Coin>) {
    forall k :: 0 < k <= |s| ==> !Covers(ask, Sum(s[..k]))
  }

  ghost predicate OneCovers(ask: Ask, cs: seq<Coin>) {
    exists c :: c in cs && Covers(ask, c.value)
  }

  ghost predicate BestSingle(rank: Rank, ask: Ask, cs: seq<Coin>, b: Coin) {
    b in cs && Covers(ask, b.value) && forall c :: c in cs && Covers(ask, c.value) ==> !Cheaper(rank, c, b)
  }

  /** A merge over the coins worth something, in order; when no prefix of those covers, over
      all coins; nothing when no prefix of those does. */
  ghost predicate Merged(rank: Rank, ask: Ask, cs: seq<Coin>, worthy: seq<Coin>, all: seq<Coin>, r: seq<Coin>) {
    && Sorted(rank, worthy, Worthy(cs)) && Sorted(rank, all, cs)
    && (FirstCover(ask, worthy, r)
        || (NoCover(ask, worthy) && (FirstCover(ask, all, r) || (NoCover(ask, all) && r == []))))
  }

  ghost predicate Selected(rank: Rank, ask: Ask, cs: seq<Coin>, r: seq<Coin>) {
    if OneCovers(ask, cs) then exists b :: BestSingle(rank, ask, cs, b) && r == [b]
    else exists worthy, all :: Merged(rank, ask, cs, worthy, all, r)
  }

  // ---- the algorithm -------------------------------------------------------------------------

  method SortByChain(rank: Rank, pool: seq<Coin>) returns (s: seq<Coin>)
    ensures Sorted(rank, s, pool)
  {
    s := [];
    for n := 0 to |pool|
      invariant Sorted(rank, s, pool[..n])
    {
      s := InsertCoin(rank, s, pool[..n], pool[n]);
      assert pool[..n + 1] == pool[..n] + [pool[n]];
    }
    assert pool[..|pool|] == pool;
  }

  /** Insertion after everything the new coin does not come before: equals keep their order. */
  method InsertCoin(rank: Rank, s: seq<Coin>, ghost pool: seq<Coin>, c: Coin) returns (r: seq<Coin>)
    requires Sorted(rank, s, pool)
    ensures Sorted(rank, r, pool + [c])
  {
    var p := |s|;
    while p > 0 && Sooner(rank, c, s[p - 1])
      invariant 0 <= p <= |s|
      invariant forall k :: p <= k < |s| ==> Sooner(rank, c, s[k])
    {
      p := p - 1;
    }
    Inserted(rank, s, pool, c, p);
    r := s[..p] + [c] + s[p..];
  }

  lemma Inserted(rank: Rank, s: seq<Coin>, pool: seq<Coin>, c: Coin, p: nat)
    requires Sorted(rank, s, pool) && p <= |s|
    requires p > 0 ==> !Sooner(rank, c, s[p - 1])
    requires forall k :: p <= k < |s| ==> Sooner(rank, c, s[k])
    ensures Sorted(rank, s[..p] + [c] + s[p..], pool + [c])
  {
    var r := s[..p] + [c] + s[p..];
    assert s == s[..p] + s[p..];
    assert multiset(s) == multiset(s[..p]) + multiset(s[p..]);
    assert multiset(r) == multiset(s[..p]) + multiset{c} + multiset(s[p..]);
    InsertedInOrder(rank, s, c, p);
  }

  lemma InsertedInOrder(rank: Rank, s: seq<Coin>, c: Coin, p: nat)
    requires p <= |s| && InOrder(rank, s)
    requires p > 0 ==> !Sooner(rank, c, s[p - 1])
    requires forall k :: p <= k < |s| ==> Sooner(rank, c, s[k])
    ensures InOrder(rank, s[..p] + [c] + s[p..])
  {
    var r := s[..p] + [c] + s[p..];
    forall i, j | 0 <= i < j < |r| ensures !Sooner(rank, r[j], r[i]) {
      if i < p - 1 && j == p {
        assert !Sooner(rank, s[p - 1], s[i]);
      }
    }
  }

  method Accumulate(ask: Ask, pool: seq<Coin>) returns (r: Option<seq<Coin>>)
    ensures r.Some? ==> FirstCover(ask, pool, r.value)
    ensures r.None? ==> NoCover(ask, pool)
  {
    var picked: seq<Coin>, sum := [], 0;
    for n := 0 to |pool|
      invariant picked == pool[..n] && sum == Sum(picked)
      invariant forall k :: 0 < k <= n ==> !Covers(ask, Sum(pool[..k]))
    {
      picked := picked + [pool[n]];
      assert picked[..n] == pool[..n];
      sum := sum + pool[n].value;
      assert picked == pool[..n + 1];
      if Covers(ask, sum) {
        return Some(picked);
      }
    }
    r := None;
  }

  method SelectSpendInputs(rank: Rank, ask: Ask, cs: seq<Coin>) returns (r: seq<Coin>)
    ensures Selected(rank, ask, cs, r)
  {
    var best: Option<Coin> := None;
    for n := 0 to |cs|
      invariant best.None? ==> forall k :: 0 <= k < n ==> !Covers(ask, cs[k].value)
      invariant best.Some? ==> best.value in cs[..n] && Covers(ask, best.value.value)
      invariant best.Some? ==> forall k :: 0 <= k < n && Covers(ask, cs[k].value) ==> !Cheaper(rank, cs[k], best.value)
    {
      if Covers(ask, cs[n].value) && (best.None? || Cheaper(rank, cs[n], best.value)) {
        best := Some(cs[n]);
      }
    }
    if best.Some? {
      assert BestSingle(rank, ask, cs, best.value);
      return [best.value];
    }
    var worthy := SortByChain(rank, Worthy(cs));
    var all := SortByChain(rank, cs);
    var kept := Accumulate(ask, worthy);
    if kept.Some? {
      r := kept.value;
    } else {
      var forced := Accumulate(ask, all);
      r := forced.GetOr([]);
    }
    assert Merged(rank, ask, cs, worthy, all, r);
  }

  // ---- what a selection is worth ---------------------------------------------------------------

  lemma {:induction false} SumAppend(a: seq<Coin>, b: seq<Coin>)
    ensures Sum(a + b) == Sum(a) + Sum(b)
    decreases |b|
  {
    if b == [] {
      assert a + b == a;
    } else {
      assert (a + b)[..|a + b| - 1] == a + b[..|b| - 1];
      SumAppend(a, b[..|b| - 1]);
    }
  }

  lemma {:induction false} SumOfSame(a: seq<Coin>, b: seq<Coin>)
    requires multiset(a) == multiset(b)
    ensures Sum(a) == Sum(b)
    decreases |a|
  {
    if a == [] {
      assert |b| == |multiset(a)|;
    } else {
      var c := a[|a| - 1];
      assert c in multiset(b);
      var i :| 0 <= i < |b| && b[i] == c;
      var rest := b[..i] + b[i + 1..];
      assert b == b[..i] + [c] + b[i + 1..];
      assert a == a[..|a| - 1] + [c];
      assert multiset(b) == multiset(b[..i]) + multiset{c} + multiset(b[i + 1..]);
      assert multiset(a) == multiset(a[..|a| - 1]) + multiset{c};
      assert multiset(rest) == multiset(b[..i]) + multiset(b[i + 1..]);
      assert multiset(rest) == multiset(b) - multiset{c} && multiset(a[..|a| - 1]) == multiset(a) - multiset{c};
      SumOfSame(a[..|a| - 1], rest);
      SumWithout(b, i);
    }
  }

  lemma SumOneMore(a: seq<Coin>, c: Coin)
    ensures Sum(a + [c]) == Sum(a) + c.value
  {
    assert (a + [c])[..|a|] == a;
  }

  lemma SumWithout(b: seq<Coin>, i: nat)
    requires i < |b|
    ensures Sum(b) == Sum(b[..i] + b[i + 1..]) + b[i].value
  {
    hide Sum;
    SumAppend(b[..i], b[i + 1..]);
    SumOneMore(b[..i], b[i]);
    SumAppend(b[..i] + [b[i]], b[i + 1..]);
    assert b == b[..i] + [b[i]] + b[i + 1..];
  }

  lemma PrefixWithin(s: seq<Coin>, r: seq<Coin>, pool: seq<Coin>)
    requires r <= s && multiset(s) <= multiset(pool)
    ensures multiset(r) <= multiset(pool)
  {
    assert s == r + s[|r|..];
  }

  /** A non-empty selection consists of coins of the pool, none more often than the pool has
      it, and its total is exactly the target or leaves a change that is not sub-dust. */
  lemma SelectionCovers(rank: Rank, ask: Ask, cs: seq<Coin>, r: seq<Coin>)
    requires Selected(rank, ask, cs, r) && r != []
    ensures multiset(r) <= multiset(cs) && Covers(ask, Sum(r))
    ensures if ask.changeDust.None? then Sum(r) >= ask.target else Sum(r) == ask.target || Sum(r) >= ask.target + ask.changeDust.value
  {
    if OneCovers(ask, cs) {
      var b :| BestSingle(rank, ask, cs, b) && r == [b];
      assert Sum([b]) == Sum([]) + b.value by {
        assert [b][..0] == [];
      }
    } else {
      var worthy, all :| Merged(rank, ask, cs, worthy, all, r);
      if FirstCover(ask, worthy, r) {
        PrefixWithin(worthy, r, cs);
      } else {
        PrefixWithin(all, r, cs);
      }
    }
  }

  /** When one coin covers, the chosen one destroys no more exit value than any other that
      covers, whatever one more hop would cost. */
  lemma SingleIsOptimal(rank: Rank, ask: Ask, cs: seq<Coin>, r: seq<Coin>, c: Coin, hop: nat)
    requires Selected(rank, ask, cs, r) && c in cs && Covers(ask, c.value) && ask.target >= 0
    ensures |r| == 1 && r[0] in cs && Covers(ask, r[0].value)
    ensures var spent := ask.target + hop;
      (if Net(r[0]) < spent then Net(r[0]) else spent) <= (if Net(c) < spent then Net(c) else spent)
  {
    assert OneCovers(ask, cs);
  }

  /** By numbers: of the coins that cover alone, the chosen one has the least exit value left
      after its cost, among those the least value, among those the first outpoint. */
  lemma SingleIsLeast(rank: Rank, ask: Ask, cs: seq<Coin>, r: seq<Coin>, c: Coin)
    requires Selected(rank, ask, cs, r) && c in cs && Covers(ask, c.value)
    ensures |r| == 1
    ensures var net, other := if r[0].value > r[0].cost then r[0].value - r[0].cost else 0, if c.value > c.cost then c.value - c.cost else 0;
      net < other || (net == other && (r[0].value < c.value || (r[0].value == c.value && rank(r[0].point) <= rank(c.point))))
  {
    assert OneCovers(ask, cs);
  }

  /** By numbers: a merge takes the cheapest exits first, of equal ones the larger coins, of
      equal ones the first outpoint; whatever it leaves out comes later. A coin not worth its
      own exit competes only once such coins are merged at all. */
  lemma MergeTakesTheCheapest(rank: Rank, ask: Ask, cs: seq<Coin>, r: seq<Coin>, c: Coin, d: Coin)
    requires Selected(rank, ask, cs, r) && !OneCovers(ask, cs) && c in r && d in cs && d !in r
    requires d.value > d.cost || exists w :: w in r && w.value <= w.cost
    ensures c.cost < d.cost || (c.cost == d.cost && (c.value > d.value || (c.value == d.value && rank(c.point) <= rank(d.point))))
  {
    var worthy, all :| Merged(rank, ask, cs, worthy, all, r);
    SameMembers(worthy, Worthy(cs));
    SameMembers(all, cs);
    var s := if FirstCover(ask, worthy, r) then worthy else all;
    assert FirstCover(ask, worthy, r) ==> forall w :: w in r ==> w in worthy;
    InOrderOf(rank, s, r, c, d);
  }

  lemma InOrderOf(rank: Rank, s: seq<Coin>, r: seq<Coin>, c: Coin, d: Coin)
    requires InOrder(rank, s) && r <= s && c in r && d in s && d !in r
    ensures !Sooner(rank, d, c)
  {
    hide Sooner;
    var i :| 0 <= i < |r| && r[i] == c;
    var j :| 0 <= j < |s| && s[j] == d;
    assert forall k :: 0 <= k < |r| ==> s[k] == r[k];
  }

  /** The chosen coins come in that order too. */
  lemma MergeComesInOrder(rank: Rank, ask: Ask, cs: seq<Coin>, r: seq<Coin>, i: nat, j: nat)
    requires Selected(rank, ask, cs, r) && i < j < |r|
    ensures r[i].cost < r[j].cost
         || (r[i].cost == r[j].cost && (r[i].value > r[j].value || (r[i].value == r[j].value && rank(r[i].point) <= rank(r[j].point))))
  {
    assert !OneCovers(ask, cs);
    var worthy, all :| Merged(rank, ask, cs, worthy, all, r);
    var s := if FirstCover(ask, worthy, r) then worthy else all;
    assert s[i] == r[i] && s[j] == r[j] && !Sooner(rank, s[j], s[i]);
  }

  /** A pool whose total covers is never refused. */
  lemma NeverRefusedWhenCovered(rank: Rank, ask: Ask, cs: seq<Coin>, r: seq<Coin>)
    requires Selected(rank, ask, cs, r) && cs != []
    requires if ask.changeDust.None? then Sum(cs) >= ask.target else Sum(cs) == ask.target || Sum(cs) >= ask.target + ask.changeDust.value
    ensures r != []
  {
    if !OneCovers(ask, cs) {
      var worthy, all :| Merged(rank, ask, cs, worthy, all, r);
      assert all != [] by {
        assert cs[0] in multiset(cs);
      }
      SumOfSame(all, cs);
      assert all[..|all|] == all;
    }
  }

  lemma ForcedMerge(rank: Rank, ask: Ask, cs: seq<Coin>, worthy: seq<Coin>, r: seq<Coin>, c: Coin)
    requires Sorted(rank, worthy, Worthy(cs)) && (FirstCover(ask, worthy, r) || NoCover(ask, worthy))
    requires c in r && Net(c) == 0 && Worthy(cs) != []
    ensures !Covers(ask, Sum(Worthy(cs)))
  {
    SameMembers(worthy, Worthy(cs));
    SumOfSame(worthy, Worthy(cs));
    assert FirstCover(ask, worthy, r) ==> c in worthy;
    assert |worthy| == |multiset(Worthy(cs))|;
    assert worthy[..|worthy|] == worthy;
  }

  /** A written-off coin is merged only when the coins worth something do not cover together;
      with a change band, when their total is below target plus dust. */
  lemma WrittenOffOnlyWhenForced(rank: Rank, ask: Ask, cs: seq<Coin>, r: seq<Coin>, c: Coin)
    requires Selected(rank, ask, cs, r) && c in r && Net(c) == 0 && !OneCovers(ask, cs) && Worthy(cs) != []
    ensures !Covers(ask, Sum(Worthy(cs)))
    ensures Sum(Worthy(cs)) < ask.target + ask.changeDust.GetOr(0)
  {
    var worthy, all :| Merged(rank, ask, cs, worthy, all, r);
    ForcedMerge(rank, ask, cs, worthy, r, c);
  }

  /** No proper prefix of a merge covers: it takes no coin it could do without at the end. */
  lemma MergeStopsAtOnce(rank: Rank, ask: Ask, cs: seq<Coin>, r: seq<Coin>, k: nat)
    requires Selected(rank, ask, cs, r) && 0 < k < |r|
    ensures !Covers(ask, Sum(r[..k]))
  {
    hide Sorted;
    assert !OneCovers(ask, cs);
    var worthy, all :| Merged(rank, ask, cs, worthy, all, r);
    var s := if FirstCover(ask, worthy, r) then worthy else all;
    assert r[..k] == s[..k];
  }

  // ---- the order of the pool does not matter -----------------------------------------------------

  ghost predicate OnePerPoint(cs: seq<Coin>) {
    forall i, j :: 0 <= i < j < |cs| ==> cs[i].point != cs[j].point
  }

  lemma HeadsAgree(rank: Rank, a: seq<Coin>, b: seq<Coin>)
    requires a != [] && b != [] && a[0] in b && b[0] in a && InOrder(rank, a) && InOrder(rank, b) && TellsApart(rank)
    requires forall x, y :: x in a && y in a && x.point == y.point ==> x == y
    ensures a[0] == b[0]
  {
    var i :| 0 <= i < |b| && b[i] == a[0];
    var j :| 0 <= j < |a| && a[j] == b[0];
    assert i == 0 || !Sooner(rank, b[i], b[0]);
    assert j == 0 || !Sooner(rank, a[j], a[0]);
    assert rank(a[0].point) == rank(b[0].point) ==> a[0] == b[0];
  }

  lemma Tails(a: seq<Coin>)
    requires a != []
    ensures multiset(a[1..]) == multiset(a) - multiset{a[0]}
  {
    assert a == [a[0]] + a[1..];
    assert multiset(a) == multiset{a[0]} + multiset(a[1..]);
  }

  lemma {:induction false} SortedIsUnique(rank: Rank, a: seq<Coin>, b: seq<Coin>)
    requires multiset(a) == multiset(b) && TellsApart(rank) && InOrder(rank, a) && InOrder(rank, b)
    requires forall x, y :: x in a && y in a && x.point == y.point ==> x == y
    ensures a == b
    decreases |a|
  {
    hide TellsApart, Sooner;
    SameMembers(a, b);
    assert |a| == |multiset(b)| == |b|;
    if a != [] {
      HeadsAgree(rank, a, b);
      Tails(a);
      Tails(b);
      assert a[1..] != [] ==> forall x :: x in a[1..] ==> x in a;
      SortedIsUnique(rank, a[1..], b[1..]);
      assert a == [a[0]] + a[1..] && b == [b[0]] + b[1..];
    }
  }

  lemma SameMembers(a: seq<Coin>, b: seq<Coin>)
    requires multiset(a) == multiset(b)
    ensures forall c :: c in a <==> c in b
  {
    assert forall c :: c in a <==> c in multiset(a);
    assert forall c :: c in b <==> c in multiset(b);
  }

  lemma PointsTell(pool: seq<Coin>, s: seq<Coin>)
    requires OnePerPoint(pool) && multiset(s) <= multiset(pool)
    ensures forall x, y :: x in s && y in s && x.point == y.point ==> x == y
  {
    forall x, y | x in s && y in s && x.point == y.point ensures x == y {
      assert x in multiset(pool) && y in multiset(pool) by {
        assert x in multiset(s) && y in multiset(s);
      }
      var i :| 0 <= i < |pool| && pool[i] == x;
      var j :| 0 <= j < |pool| && pool[j] == y;
      assert i == j;
    }
  }

  lemma {:induction false} WorthyOfSame(a: seq<Coin>)
    ensures forall c :: multiset(Worthy(a))[c] == if Net(c) > 0 then multiset(a)[c] else 0
  {
    if a != [] {
      WorthyOfSame(a[1..]);
      assert a == [a[0]] + a[1..];
      assert multiset(a) == multiset{a[0]} + multiset(a[1..]);
    }
  }

  lemma SameSingle(rank: Rank, ask: Ask, cs: seq<Coin>, ds: seq<Coin>, b: Coin, d: Coin)
    requires TellsApart(rank) && OnePerPoint(cs) && multiset(cs) == multiset(ds)
    requires BestSingle(rank, ask, cs, b) && BestSingle(rank, ask, ds, d)
    ensures b == d
  {
    SameMembers(cs, ds);
    PointsTell(cs, cs);
    assert !Cheaper(rank, d, b) && !Cheaper(rank, b, d);
  }

  lemma SameWorthy(cs: seq<Coin>, ds: seq<Coin>)
    requires multiset(cs) == multiset(ds)
    ensures multiset(Worthy(cs)) == multiset(Worthy(ds))
  {
    WorthyOfSame(cs);
    WorthyOfSame(ds);
    hide Worthy;
  }

  lemma SameArrangement(rank: Rank, cs: seq<Coin>, pool: seq<Coin>, pool2: seq<Coin>, a: seq<Coin>, b: seq<Coin>)
    requires TellsApart(rank) && OnePerPoint(cs) && multiset(pool) <= multiset(cs) && multiset(pool) == multiset(pool2)
    requires Sorted(rank, a, pool) && Sorted(rank, b, pool2)
    ensures a == b
  {
    PointsTell(cs, a);
    hide TellsApart, OnePerPoint, InOrder;
    SortedIsUnique(rank, a, b);
  }

  lemma SameMerge(rank: Rank, ask: Ask, cs: seq<Coin>, ds: seq<Coin>, r: seq<Coin>, q: seq<Coin>,
                  worthy: seq<Coin>, all: seq<Coin>, worthy2: seq<Coin>, all2: seq<Coin>)
    requires TellsApart(rank) && OnePerPoint(cs) && multiset(cs) == multiset(ds)
    requires Merged(rank, ask, cs, worthy, all, r) && Merged(rank, ask, ds, worthy2, all2, q)
    ensures r == q
  {
    hide TellsApart, OnePerPoint, Worthy, FirstCover, NoCover, Sorted;
    SameWorthy(cs, ds);
    SameArrangement(rank, cs, Worthy(cs), Worthy(ds), worthy, worthy2);
    SameArrangement(rank, cs, cs, ds, all, all2);
    FirstCoverIsUnique(ask, worthy, r, q);
    FirstCoverIsUnique(ask, worthy, q, r);
    FirstCoverIsUnique(ask, all, r, q);
    FirstCoverIsUnique(ask, all, q, r);
  }

  /** Permuting the pool never changes what is selected, nor the order it is spent in. */
  lemma OrderDoesNotMatter(rank: Rank, ask: Ask, cs: seq<Coin>, ds: seq<Coin>, r: seq<Coin>, q: seq<Coin>)
    requires TellsApart(rank) && OnePerPoint(cs) && multiset(cs) == multiset(ds)
    requires Selected(rank, ask, cs, r) && Selected(rank, ask, ds, q)
    ensures r == q
  {
    SameMembers(cs, ds);
    hide TellsApart, OnePerPoint, Merged, BestSingle;
    if OneCovers(ask, cs) {
      var b :| BestSingle(rank, ask, cs, b) && r == [b];
      var d :| BestSingle(rank, ask, ds, d) && q == [d];
      SameSingle(rank, ask, cs, ds, b, d);
    } else {
      assert !OneCovers(ask, ds);
      var worthy, all :| Merged(rank, ask, cs, worthy, all, r);
      var worthy2, all2 :| Merged(rank, ask, ds, worthy2, all2, q);
      SameMerge(rank, ask, cs, ds, r, q, worthy, all, worthy2, all2);
    }
  }

  lemma FirstCoverIsUnique(ask: Ask, s: seq<Coin>, r: seq<Coin>, q: seq<Coin>)
    ensures FirstCover(ask, s, r) && FirstCover(ask, s, q) ==> r == q
    ensures !(FirstCover(ask, s, r) && NoCover(ask, s))
  {
    if FirstCover(ask, s, r) {
      assert s[..|r|] == r;
      if FirstCover(ask, s, q) {
        assert s[..|q|] == q;
      }
    }
  }
}
