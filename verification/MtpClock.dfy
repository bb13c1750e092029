/** The chain clock a refund is pre-checked against (src/atomic/send.ts, estimateMtp): an
    estimate of the median of the last eleven block times (BIP 113) from the newest ten. */
module MtpClock {
  import opened Wrappers

  predicate Ascending(s: seq<int>) {
    forall i, j :: 0 <= i < j < |s| ==> s[i] <= s[j]
  }

  function Known(blocks: seq<Option<int>>): (r: seq<int>) {
    if blocks == [] then [] else Known(blocks[..|blocks| - 1]) + (match blocks[|blocks| - 1] case None => [] case Some(t) => [t])
  }

  lemma {:induction false} KnownAre(blocks: seq<Option<int>>)
    ensures |Known(blocks)| <= |blocks| && forall t :: t in Known(blocks) <==> Some(t) in blocks
  {
    if blocks != [] {
      var n := |blocks| - 1;
      KnownAre(blocks[..n]);
      assert blocks == blocks[..n] + [blocks[n]];
    }
  }

  /** The newest ten timestamps an answer holds. */
  function Newest(blocks: seq<Option<int>>): seq<int> {
    var k := Known(blocks);
    if |k| <= 10 then k else k[..10]
  }

  lemma NewestAre(blocks: seq<Option<int>>)
    ensures Newest(blocks) <= Known(blocks) && |Newest(blocks)| == if |Known(blocks)| < 10 then |Known(blocks)| else 10
  {
  }

  /** The place of the estimate among `n` sorted timestamps. */
  function Place(n: nat): nat {
    if n >= 6 then n - 6 else 0
  }

  ghost predicate Arranged(s: seq<int>, from: seq<int>) {
    Ascending(s) && multiset(s) == multiset(from)
  }

  lemma InsertedAscending(s: seq<int>, p: nat, x: int)
    requires Ascending(s) && p <= |s| && (p > 0 ==> s[p - 1] <= x) && (p < |s| ==> x <= s[p])
    ensures Ascending(s[..p] + [x] + s[p..])
  {
    var r := s[..p] + [x] + s[p..];
    forall i, j | 0 <= i < j < |r| ensures r[i] <= r[j] {
      if i < p {
        assert r[i] == s[i] <= s[p - 1];
      }
      if j > p {
        assert r[j] == s[j - 1] >= s[p];
      }
    }
  }

  lemma InsertedSame(s: seq<int>, p: nat, x: int)
    requires p <= |s|
    ensures multiset(s[..p] + [x] + s[p..]) == multiset(s) + multiset{x}
  {
    assert s == s[..p] + s[p..];
  }

  method Sort(from: seq<int>) returns (s: seq<int>)
    ensures Arranged(s, from)
  {
    s := [];
    for n := 0 to |from|
      invariant Arranged(s, from[..n])
    {
      var p := |s|;
      while p > 0 && from[n] < s[p - 1]
        invariant 0 <= p <= |s| && (p < |s| ==> from[n] <= s[p])
      {
        p := p - 1;
      }
      InsertedAscending(s, p, from[n]);
      InsertedSame(s, p, from[n]);
      s := s[..p] + [from[n]] + s[p..];
      assert from[..n + 1] == from[..n] + [from[n]];
    }
    assert from[..|from|] == from;
  }

  // ---- ranks ---------------------------------------------------------------------------------

  function CountFrom(s: seq<int>, v: int): (n: nat)
    ensures n <= |s|
  {
    if s == [] then 0 else CountFrom(s[..|s| - 1], v) + (if s[|s| - 1] >= v then 1 else 0)
  }

  lemma {:induction false} CountAppend(a: seq<int>, b: seq<int>, v: int)
    ensures CountFrom(a + b, v) == CountFrom(a, v) + CountFrom(b, v)
    decreases |b|
  {
    if b == [] {
      assert a + b == a;
    } else {
      assert (a + b)[..|a + b| - 1] == a + b[..|b| - 1];
      CountAppend(a, b[..|b| - 1], v);
    }
  }

  lemma CountLast(s: seq<int>, x: int, v: int)
    ensures CountFrom(s + [x], v) == CountFrom(s, v) + (if x >= v then 1 else 0)
  {
    assert (s + [x])[..|s|] == s;
  }

  /** Taking one element out takes its count out. */
  lemma CountWithout(b: seq<int>, i: nat, v: int)
    requires i < |b|
    ensures var rest := b[..i] + b[i + 1..];
      && multiset(rest) == multiset(b) - multiset{b[i]}
      && CountFrom(b, v) == CountFrom(rest, v) + (if b[i] >= v then 1 else 0)
  {
    assert b == b[..i] + [b[i]] + b[i + 1..];
    hide CountFrom;
    CountAppend(b[..i], b[i + 1..], v);
    CountAppend(b[..i] + [b[i]], b[i + 1..], v);
    CountLast(b[..i], b[i], v);
  }

  lemma {:induction false} CountOfSame(a: seq<int>, b: seq<int>, v: int)
    requires multiset(a) == multiset(b)
    ensures CountFrom(a, v) == CountFrom(b, v)
    decreases |a|
  {
    if a == [] {
      assert |b| == |multiset(a)|;
    } else {
      var x, short := a[|a| - 1], a[..|a| - 1];
      assert a == short + [x];
      assert x in multiset(b);
      var i :| 0 <= i < |b| && b[i] == x;
      hide CountFrom;
      CountWithout(b, i, v);
      assert multiset(short) == multiset(a) - multiset{x};
      CountOfSame(short, b[..i] + b[i + 1..], v);
      CountLast(short, x, v);
    }
  }

  /** The element at a place is at least `v` exactly when all from there on are. */
  lemma {:induction false} CountAtPlace(s: seq<int>, i: nat, v: int)
    requires Ascending(s) && i < |s|
    ensures s[i] >= v <==> CountFrom(s, v) >= |s| - i
    decreases |s|
  {
    if i == |s| - 1 {
      if s[i] < v {
        NoneCount(s, v);
      }
    } else {
      CountAtPlace(s[..|s| - 1], i, v);
    }
  }

  lemma {:induction false} NoneCount(s: seq<int>, v: int)
    requires forall i :: 0 <= i < |s| ==> s[i] < v
    ensures CountFrom(s, v) == 0
  {
    if s != [] {
      NoneCount(s[..|s| - 1], v);
    }
  }

  // ---- the estimate -----------------------------------------------------------------------

  lemma SameLength(s: seq<int>, from: seq<int>)
    requires Arranged(s, from)
    ensures |s| == |from|
  {
    assert |multiset(s)| == |multiset(from)|;
  }

  /** Place `i` of the sorted timestamps, told without sorting them. */
  lemma PlaceIsRank(s: seq<int>, from: seq<int>, i: nat)
    requires Arranged(s, from) && i < |s|
    ensures |s| == |from| && s[i] in from
    ensures CountFrom(from, s[i] + 1) < |from| - i <= CountFrom(from, s[i])
  {
    CountOfSame(s, from, s[i]);
    CountOfSame(s, from, s[i] + 1);
    CountAtPlace(s, i, s[i]);
    CountAtPlace(s, i, s[i] + 1);
    assert |multiset(s)| == |s| && |multiset(from)| == |from|;
    assert s[i] in multiset(s);
  }

  /** The estimate, as an element with its rank among the newest ten known timestamps; `sorted`
      is what the method laid out. */
  method EstimateMtp(blocks: seq<Option<int>>) returns (mtp: Option<int>, ghost sorted: seq<int>)
    ensures Arranged(sorted, Newest(blocks))
    ensures |sorted| == |Newest(blocks)| == (if |Known(blocks)| < 10 then |Known(blocks)| else 10) && Newest(blocks) <= Known(blocks)
    ensures mtp.Some? <==> |Newest(blocks)| >= 5
    ensures mtp.Some? ==> mtp.value in Newest(blocks)
    ensures mtp.Some? ==> var n := |Newest(blocks)|; CountFrom(Newest(blocks), mtp.value + 1) < n - Place(n) <= CountFrom(Newest(blocks), mtp.value)
    ensures mtp == if |sorted| < 5 then None else Some(sorted[if |sorted| <= 6 then 0 else |sorted| - 6])
  {
    hide CountFrom, Arranged;
    var ts: seq<int> := [];
    for i := 0 to |blocks|
      invariant ts == Known(blocks[..i])
    {
      assert blocks[..i + 1][..i] == blocks[..i];
      if blocks[i].Some? {
        ts := ts + [blocks[i].value];
      }
    }
    assert blocks[..|blocks|] == blocks;
    if |ts| > 10 {
      ts := ts[..10];
    }
    assert ts == Newest(blocks);
    NewestAre(blocks);
    hide Newest, Known;
    ts := Sort(ts);
    sorted := ts;
    SameLength(ts, Newest(blocks));
    if |ts| < 5 {
      return None, sorted;
    }
    PlaceIsRank(ts, Newest(blocks), Place(|ts|));
    mtp := Some(ts[if |ts| - 6 > 0 then |ts| - 6 else 0]);
  }

  // ---- the true median ---------------------------------------------------------------------

  /** `window` are the last eleven block times, sorted; `known` those the answer held, sorted;
      `missing` the others. */
  ghost predicate SplitsWindow(window: seq<int>, known: seq<int>, missing: seq<int>) {
    |window| == 11 && Ascending(window) && Ascending(known) && multiset(window) == multiset(known) + multiset(missing)
  }

  lemma WindowCount(window: seq<int>, known: seq<int>, missing: seq<int>, v: int)
    requires SplitsWindow(window, known, missing)
    ensures window[5] >= v <==> CountFrom(known, v) + CountFrom(missing, v) >= 6
    ensures |known| + |missing| == 11
  {
    assert multiset(known + missing) == multiset(window);
    CountOfSame(window, known + missing, v);
    CountAppend(known, missing, v);
    CountAtPlace(window, 5, v);
    assert |multiset(window)| == |known + missing|;
  }

  /** The estimate never runs ahead of the chain's clock when at least six of the window are
      known; with exactly five it does so unless one of the missing six is no older than the
      oldest known. */
  lemma ConservativeExactlyWhen(window: seq<int>, known: seq<int>, missing: seq<int>)
    requires SplitsWindow(window, known, missing) && 5 <= |known| <= 10
    ensures known[Place(|known|)] <= window[5] <==> |known| >= 6 || CountFrom(missing, known[0]) > 0
  {
    var v := known[Place(|known|)];
    WindowCount(window, known, missing, v);
    CountAtPlace(known, Place(|known|), v);
  }

  /** With ten known the estimate is the median exactly when the missing one is no younger than
      the estimate, or the next known one is as old as the estimate. */
  lemma ExactWithTenKnown(window: seq<int>, known: seq<int>, missing: seq<int>)
    requires SplitsWindow(window, known, missing) && |known| == 10
    ensures |missing| == 1
    ensures known[4] == window[5] <==> missing[0] <= known[4] || known[5] == known[4]
  {
    WindowCount(window, known, missing, known[4]);
    WindowCount(window, known, missing, known[4] + 1);
    CountAtPlace(known, 4, known[4]);
    CountAtPlace(known, 4, known[4] + 1);
    CountAtPlace(known, 5, known[4] + 1);
    assert CountFrom(missing, known[4] + 1) == CountFrom([], known[4] + 1) + (if missing[0] >= known[4] + 1 then 1 else 0);
    assert CountFrom(missing, known[4]) == CountFrom([], known[4]) + (if missing[0] >= known[4] then 1 else 0);
  }

  /** Passing the gate with at least six known timestamps means the chain's own clock has
      reached T. */
  lemma GateIsSound(window: seq<int>, known: seq<int>, missing: seq<int>, t: int)
    requires SplitsWindow(window, known, missing) && 6 <= |known| <= 10 && known[Place(|known|)] >= t
    ensures window[5] >= t
  {
    ConservativeExactlyWhen(window, known, missing);
  }

  /** Five timestamps are accepted, and then the estimate can run ahead. */
  lemma FiveCanRunAhead()
    ensures var known, missing := [9, 9, 9, 9, 9], [1, 1, 1, 1, 1, 1];
      SplitsWindow(missing + known, known, missing) && known[Place(|known|)] > (missing + known)[5]
  {
  }
}
