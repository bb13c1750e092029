/** The one place that decides whether a new socket to a relay may be opened
    (src/nostr/relay_gate.ts). Times are milliseconds; the clock and the random draws are
    parameters. */
module RelayGate {
  import opened Wrappers

  type Url = string

  datatype Config = Config(baseDelay: nat, maxDelay: nat, stableAfter: nat)

  const DEFAULTS := Config(5_000, 300_000, 60_000)

  datatype Gate = Gate(failures: nat, blockedUntil: int, upSince: Option<int>)

  const FRESH := Gate(0, 0, None)

  function Pow2(n: nat): (p: nat)
    ensures p >= 1
  {
    if n == 0 then 1 else 2 * Pow2(n - 1)
  }

  lemma {:induction false} Pow2Grows(m: nat, n: nat)
    requires m <= n
    ensures Pow2(m) <= Pow2(n)
    decreases n
  {
    if m < n {
      Pow2Grows(m, n - 1);
    }
  }

  /** The n-th consecutive penalty, before jitter. */
  function Backoff(c: Config, n: nat): nat
    requires n > 0
  {
    var d := c.baseDelay * Pow2(n - 1);
    if d <= c.maxDelay then d else c.maxDelay
  }

  lemma BackoffGrows(c: Config, m: nat, n: nat)
    requires 0 < m <= n
    ensures Backoff(c, m) <= Backoff(c, n) <= c.maxDelay
  {
    Pow2Grows(m - 1, n - 1);
    Scaled(c.baseDelay, Pow2(m - 1), Pow2(n - 1));
  }

  lemma Scaled(k: nat, a: nat, b: nat)
    requires a <= b
    ensures k * a <= k * b
  {
  }

  /** The delays double from the base on, up to the cap. */
  lemma BackoffDoubles(c: Config, n: nat)
    requires n > 0
    ensures Backoff(c, 1) == (if c.baseDelay <= c.maxDelay then c.baseDelay else c.maxDelay)
    ensures Backoff(c, n + 1) == (if 2 * Backoff(c, n) <= c.maxDelay then 2 * Backoff(c, n) else c.maxDelay)
    ensures Backoff(DEFAULTS, 1) == 5_000 && Backoff(DEFAULTS, 2) == 10_000 && Backoff(DEFAULTS, 3) == 20_000 && Backoff(DEFAULTS, 7) == 300_000
  {
    assert Pow2(0) == 1 && Pow2(1) == 2 && Pow2(2) == 4 && Pow2(3) == 8 && Pow2(4) == 16 && Pow2(5) == 32 && Pow2(6) == 64;
    assert Pow2(n) == 2 * Pow2(n - 1);
    assert c.baseDelay * (2 * Pow2(n - 1)) == 2 * (c.baseDelay * Pow2(n - 1));
  }

  function Round(x: real): int {
    (x + 0.5).Floor
  }

  /** A draw in [0, 1) spreads the delay by a fifth either way. */
  function Jittered(exp: nat, draw: real): int {
    Round(exp as real * (1.0 + 0.2 * (2.0 * draw - 1.0)))
  }

  /** The shortest a delay of `exp` can come out. */
  function Least(exp: nat): int {
    (8 * exp - 5) / 10
  }

  lemma JitterIsAFifth(exp: nat, draw: real)
    requires 0.0 <= draw < 1.0
    ensures 8 * exp - 5 <= 10 * Jittered(exp, draw) <= 12 * exp + 5
    ensures Jittered(exp, draw) >= Least(exp) && 8 * exp - 15 < 10 * Least(exp) <= 8 * exp - 5
  {
    var f := 1.0 + 0.2 * (2.0 * draw - 1.0);
    assert 0.8 <= f <= 1.2;
    Stretched(exp as real, f);
    RoundedNear(exp, exp as real * f);
  }

  /** A larger draw never shortens the delay, and the middle one leaves it as it is. */
  lemma JitterGrows(exp: nat, draw: real, other: real)
    requires 0.0 <= draw <= other < 1.0
    ensures Jittered(exp, draw) <= Jittered(exp, other) && Jittered(exp, 0.5) == exp
  {
    var f, g := 1.0 + 0.2 * (2.0 * draw - 1.0), 1.0 + 0.2 * (2.0 * other - 1.0);
    Longer(exp as real, f, g);
    assert exp as real * (1.0 + 0.2 * (2.0 * 0.5 - 1.0)) == exp as real;
    RoundGrows(exp as real * f, exp as real * g);
  }

  lemma Longer(x: real, f: real, g: real)
    requires x >= 0.0 && f <= g
    ensures x * f <= x * g
  {
  }

  lemma RoundGrows(x: real, y: real)
    requires x <= y
    ensures Round(x) <= Round(y)
  {
  }

  lemma RoundedNear(exp: nat, x: real)
    requires 0.8 * exp as real <= x <= 1.2 * exp as real
    ensures 8 * exp - 5 <= 10 * Round(x) <= 12 * exp + 5
    ensures Round(x) >= Least(exp)
  {
    var r := Round(x);
    assert r as real <= x + 0.5 < r as real + 1.0;
    assert (10 * r) as real <= (12 * exp + 5) as real;
    assert (10 * r) as real > (8 * exp - 5) as real - 1.0;
  }

  lemma Stretched(x: real, f: real)
    requires x >= 0.0 && 0.8 <= f <= 1.2
    ensures 0.8 * x <= x * f <= 1.2 * x
  {
  }

  // ---- what each call does to a relay's state -----------------------------------------------

  function Penalized(c: Config, g: Gate, t: int, draw: real): Gate {
    g.(failures := g.failures + 1, blockedUntil := t + Jittered(Backoff(c, g.failures + 1), draw))
  }

  /** A new socket, or a look at a live one. */
  function Allowed(c: Config, g: Gate, connected: bool, t: int, draw: real): (Gate, bool) {
    if connected then
      var up := if g.upSince.Some? then g.upSince.value else t;
      (g.(upSince := Some(up), failures := if g.failures > 0 && t - up >= c.stableAfter then 0 else g.failures), true)
    else if g.upSince.Some? then
      var lost := g.(upSince := None);
      var next := if t - g.upSince.value >= c.stableAfter then lost.(failures := 0, blockedUntil := 0) else Penalized(c, lost, t, draw);
      (next, t >= next.blockedUntil)
    else (g, t >= g.blockedUntil)
  }

  /** One report of a failed attempt. */
  function Reported(c: Config, g: Gate, t: int, draw: real): Gate {
    var lost := g.(upSince := None);
    if g.blockedUntil > t then lost else Penalized(c, lost, t, draw)
  }

  function Succeeded(g: Gate, t: int): Gate {
    if g.upSince.Some? then g else g.(upSince := Some(t))
  }

  /** Everybody who joined a failed attempt may report it: as long as its block lasts, further
      reports change nothing. */
  lemma ReportsCountOnce(c: Config, g: Gate, t: int, u: int, draw: real, again: real)
    requires 0.0 <= draw < 1.0 && g.blockedUntil <= t && t <= u < Reported(c, g, t, draw).blockedUntil
    ensures Reported(c, Reported(c, g, t, draw), u, again) == Reported(c, g, t, draw)
    ensures Reported(c, g, t, draw).failures == g.failures + 1
  {
  }

  /** The count goes down only on a look at least `stableAfter` after the connection came up. */
  lemma CountFallsOnlyWhenStable(c: Config, g: Gate, connected: bool, t: int, draw: real)
    ensures Allowed(c, g, connected, t, draw).0.failures < g.failures ==>
      (g.upSince.Some? && t - g.upSince.value >= c.stableAfter) || (connected && c.stableAfter == 0)
    ensures Reported(c, g, t, draw).failures >= g.failures && Succeeded(g, t).failures == g.failures
  {
  }

  class Gates {
    const config: Config
    var states: map<Url, Gate>

    constructor (config: Config)
      ensures this.config == config && states == map[]
    {
      this.config, states := config, map[];
    }

    function StateOf(url: Url): Gate
      reads this
    {
      if url in states then states[url] else FRESH
    }

    /** May a caller open, or join, a connection now? */
    method Allow(url: Url, connected: bool, t: int, draw: real) returns (ok: bool)
      requires 0.0 <= draw < 1.0
      modifies this
      ensures states == old(states)[url := Allowed(config, old(StateOf(url)), connected, t, draw).0]
      ensures ok == Allowed(config, old(StateOf(url)), connected, t, draw).1
      ensures !connected && ok ==> t >= StateOf(url).blockedUntil
    {
      var s := StateOf(url);
      if connected {
        if s.upSince.None? {
          s := s.(upSince := Some(t));
        }
        if s.failures > 0 && t - s.upSince.value >= config.stableAfter {
          s := s.(failures := 0);
        }
        states := states[url := s];
        return true;
      }
      if s.upSince.Some? {
        var lived := t - s.upSince.value;
        s := s.(upSince := None);
        if lived >= config.stableAfter {
          s := s.(failures := 0, blockedUntil := 0);
        } else {
          s := Penalize(s, t, draw);
        }
      }
      states := states[url := s];
      ok := t >= s.blockedUntil;
    }

    method Penalize(s: Gate, t: int, draw: real) returns (r: Gate)
      requires 0.0 <= draw < 1.0
      ensures r == Penalized(config, s, t, draw)
      ensures r.failures == s.failures + 1 && r.upSince == s.upSince
      ensures 8 * Backoff(config, r.failures) - 5 <= 10 * (r.blockedUntil - t) <= 12 * Backoff(config, r.failures) + 5
    {
      var failures := s.failures + 1;
      var exp := Backoff(config, failures);
      JitterIsAFifth(exp, draw);
      var delay := Jittered(exp, draw);
      r := s.(failures := failures, blockedUntil := t + delay);
    }

    method Failed(url: Url, t: int, draw: real)
      requires 0.0 <= draw < 1.0
      modifies this
      ensures states == old(states)[url := Reported(config, old(StateOf(url)), t, draw)]
    {
      var s := StateOf(url).(upSince := None);
      if s.blockedUntil <= t {
        s := Penalize(s, t, draw);
      }
      states := states[url := s];
    }

    method Succeed(url: Url, t: int)
      modifies this
      ensures states == old(states)[url := Succeeded(old(StateOf(url)), t)]
    {
      var s := StateOf(url);
      if s.upSince.None? {
        s := s.(upSince := Some(t));
      }
      states := states[url := s];
    }

    method RetryInMs(url: Url, t: int) returns (ms: int)
      ensures ms >= 0 && (ms == 0 <==> t >= StateOf(url).blockedUntil || (url !in states && t < 0))
      ensures url in states && ms > 0 ==> t + ms == states[url].blockedUntil
    {
      if url !in states {
        return 0;
      }
      ms := if states[url].blockedUntil - t > 0 then states[url].blockedUntil - t else 0;
    }
  }

  // ---- a relay over time -------------------------------------------------------------------------

  datatype Phase = Idle | Trying | Up

  /** A socket opened, with the failure count it was opened under, and whether nobody had told
      the gate by then that the socket before it ever came up. */
  datatype Attempt = Attempt(at: int, failures: nat, unheard: bool)

  /** `unseen` is what the gate does not know: its last connection came up and went away without
      a report or a look. */
  datatype Relay = Relay(gate: Gate, phase: Phase, clock: int, attempts: seq<Attempt>, unseen: bool)

  /** Callers ask at will, join an attempt under way and report its failure as often as they
      like. A connection comes up with a report or, where only a publish waits for it, without
      one; while it is up, others may report it still. It drops whenever it wants. */
  datatype Event =
    | Asked(t: int, draw: real)
    | AttemptFailed(t: int, draw: real)
    | JoinerReports(t: int, draw: real)
    | UpReported(t: int)
    | UpUnreported(t: int)
    | Dropped(t: int)

  predicate Possible(r: Relay, e: Event) {
    && e.t >= r.clock && ((e.Asked? || e.AttemptFailed? || e.JoinerReports?) ==> 0.0 <= e.draw < 1.0)
    && (e.AttemptFailed? || e.UpUnreported? ==> r.phase == Trying)
    && (e.UpReported? ==> r.phase != Idle)
    && (e.JoinerReports? ==> r.phase == Idle && r.gate.upSince.None?)
    && (e.Dropped? ==> r.phase == Up)
  }

  function Next(c: Config, r: Relay, e: Event): Relay {
    match e
    case Asked(t, draw) =>
      var (g, ok) := Allowed(c, r.gate, r.phase == Up, t, draw);
      if ok && r.phase == Idle then Relay(g, Trying, t, r.attempts + [Attempt(t, g.failures, r.unseen)], false)
      else r.(gate := g, clock := t)
    case AttemptFailed(t, draw) => r.(gate := Reported(c, r.gate, t, draw), phase := Idle, clock := t)
    case JoinerReports(t, draw) => r.(gate := Reported(c, r.gate, t, draw), clock := t, unseen := false)
    case UpReported(t) => r.(gate := Succeeded(r.gate, t), phase := Up, clock := t)
    case UpUnreported(t) => r.(phase := Up, clock := t)
    case Dropped(t) => r.(phase := Idle, clock := t, unseen := r.gate.upSince.None?)
  }

  /** An event that cannot happen is skipped. */
  function Step(c: Config, r: Relay, e: Event): Relay {
    if Possible(r, e) then Next(c, r, e) else r
  }

  function Run(c: Config, r: Relay, es: seq<Event>): Relay
    decreases |es|
  {
    if es == [] then r else Step(c, Run(c, r, es[..|es| - 1]), es[|es| - 1])
  }

  lemma RunNext(c: Config, r: Relay, es: seq<Event>, e: Event)
    ensures Run(c, r, es + [e]) == Step(c, Run(c, r, es), e)
  {
    assert (es + [e])[..|es|] == es;
  }

  /** Either the sockets are `stableAfter` apart, or the count has grown and the wait was at
      least the shortest the grown count allows. */
  ghost predicate Apart(c: Config, a: Attempt, b: Attempt) {
    b.at >= a.at + c.stableAfter || (b.failures > a.failures && b.at >= a.at + Least(Backoff(c, b.failures)))
  }

  /** A socket opened soon after one the gate never heard of. */
  predicate Blind(c: Config, a: Attempt, b: Attempt) {
    b.unheard && b.at < a.at + c.stableAfter
  }

  /** Each socket keeps its distance from the one before, except exactly where the gate had
      not heard of that one. */
  ghost predicate SpacedButBlind(c: Config, attempts: seq<Attempt>) {
    && (forall i :: 0 < i < |attempts| ==> (Apart(c, attempts[i - 1], attempts[i]) <==> !Blind(c, attempts[i - 1], attempts[i])))
    && (forall i :: 0 < i < |attempts| ==> attempts[i - 1].at <= attempts[i].at)
    && (forall i :: 0 < i < |attempts| && Blind(c, attempts[i - 1], attempts[i]) ==> attempts[i].failures == attempts[i - 1].failures)
  }

  ghost predicate Spaced(c: Config, attempts: seq<Attempt>) {
    forall i :: 0 < i < |attempts| ==> Apart(c, attempts[i - 1], attempts[i])
  }

  /** What ties the gate to the relay's past. As long as it has not heard what became of the
      last attempt, it still stands as that attempt left it. */
  ghost predicate GateOk(c: Config, r: Relay) {
    var n := |r.attempts|;
    && r.clock >= 0
    && (n == 0 ==> r.phase == Idle && r.gate.upSince.None? && !r.unseen)
    && (r.phase == Trying ==> r.gate.upSince.None?)
    && (r.unseen ==> r.phase == Idle && r.gate.upSince.None?)
    && (n > 0 ==>
          var a := r.attempts[n - 1];
          && a.at <= r.clock
          && (r.gate.upSince.Some? ==> a.at <= r.gate.upSince.value <= r.clock)
          && (r.gate.failures >= a.failures || r.clock >= a.at + c.stableAfter)
          && (r.gate.upSince.None? && (r.phase != Idle || r.unseen) ==> r.gate.failures == a.failures && r.gate.blockedUntil <= a.at)
          && (r.gate.upSince.None? && r.phase == Idle && !r.unseen ==>
                r.gate.failures > 0 && (r.gate.failures > a.failures || r.clock >= a.at + c.stableAfter)
                && r.gate.blockedUntil >= a.at + Least(Backoff(c, r.gate.failures))))
  }

  lemma NextKeeps(c: Config, r: Relay, e: Event)
    requires GateOk(c, r) && Possible(r, e)
    ensures GateOk(c, Next(c, r, e))
  {
    hide Jittered, Least, Backoff;
    if e.Asked? || e.AttemptFailed? || e.JoinerReports? {
      JitterIsAFifth(Backoff(c, r.gate.failures + 1), e.draw);
    }
  }

  /** The step that opens a socket too soon: a caller asks within `stableAfter` of an attempt
      whose connection came up and dropped with the gate none the wiser. */
  ghost predicate Overlooks(c: Config, r: Relay, e: Event) {
    && Possible(r, e) && e.Asked? && r.unseen
    && r.attempts != [] && e.t < r.attempts[|r.attempts| - 1].at + c.stableAfter
  }

  /** What one event does to the sockets. */
  lemma OpensNext(c: Config, r: Relay, e: Event)
    requires GateOk(c, r) && Possible(r, e)
    ensures var n, next := |r.attempts|, Next(c, r, e).attempts;
      && (next == r.attempts || (|next| == n + 1 && next[..n] == r.attempts))
      && (|next| == n + 1 && n > 0 ==>
            var a, b := r.attempts[n - 1], next[n];
            && a.at <= b.at
            && (Apart(c, a, b) <==> !Blind(c, a, b)) && (Blind(c, a, b) <==> Overlooks(c, r, e))
            && (Blind(c, a, b) ==> b.failures == a.failures))
      && (Overlooks(c, r, e) ==> |next| == n + 1)
  {
    hide Jittered, Least, Backoff;
    if e.Asked? {
      JitterIsAFifth(Backoff(c, r.gate.failures + 1), e.draw);
    }
  }

  /** In every good state: a possible event keeps the sockets spaced exactly when it is no such
      step. */
  lemma StepIsSpaced(c: Config, r: Relay, e: Event)
    requires GateOk(c, r) && Spaced(c, r.attempts)
    ensures Spaced(c, Step(c, r, e).attempts) <==> !Overlooks(c, r, e)
  {
    if Possible(r, e) {
      OpensNext(c, r, e);
      hide Next, GateOk, Apart, Blind, Overlooks;
      var n, next := |r.attempts|, Next(c, r, e).attempts;
      if |next| == n + 1 {
        assert forall i :: 0 <= i < n ==> next[i] == next[..n][i];
      }
    }
  }

  lemma NextSpacedButBlind(c: Config, r: Relay, e: Event)
    requires GateOk(c, r) && SpacedButBlind(c, r.attempts)
    ensures SpacedButBlind(c, Step(c, r, e).attempts)
  {
    hide SpacedButBlind, GateOk, Next, Apart, Blind, Overlooks;
    if Possible(r, e) {
      OpensNext(c, r, e);
      var n, next := |r.attempts|, Next(c, r, e).attempts;
      if |next| == n + 1 {
        assert next == r.attempts + [next[n]];
        OneMoreSocket(c, r.attempts, next[n]);
      }
    }
  }

  lemma OneMoreSocket(c: Config, attempts: seq<Attempt>, b: Attempt)
    requires SpacedButBlind(c, attempts)
    requires attempts != [] ==>
      var a := attempts[|attempts| - 1];
      a.at <= b.at && (Apart(c, a, b) <==> !Blind(c, a, b)) && (Blind(c, a, b) ==> b.failures == a.failures)
    ensures SpacedButBlind(c, attempts + [b])
  {
    hide Apart, Blind;
  }

  const START := Relay(FRESH, Idle, 0, [], false)

  lemma {:induction false} RunKeeps(c: Config, es: seq<Event>)
    ensures GateOk(c, Run(c, START, es)) && SpacedButBlind(c, Run(c, START, es).attempts)
    decreases |es|
  {
    if es != [] {
      var rest := es[..|es| - 1];
      RunKeeps(c, rest);
      var r, e := Run(c, START, rest), es[|es| - 1];
      hide Next, GateOk, SpacedButBlind;
      NextSpacedButBlind(c, r, e);
      if Possible(r, e) {
        NextKeeps(c, r, e);
      }
    }
  }

  /** Over every run of a relay, from its first contact on: a new socket comes `stableAfter`
      after the one before, or under a grown count after at least the shortest delay of that
      count, unless the gate never heard that the one before came up; such a socket it lets
      through whenever it is asked for, under the same count. */
  lemma SocketsAreSpaced(c: Config, es: seq<Event>)
    ensures SpacedButBlind(c, Run(c, START, es).attempts)
  {
    RunKeeps(c, es);
  }

  /** The step at `k` of a run from the start overlooks a connection. */
  ghost predicate OverlooksAt(c: Config, es: seq<Event>, k: nat)
    requires k < |es|
  {
    Overlooks(c, Run(c, START, es[..k]), es[k])
  }

  ghost predicate SpacedAt(c: Config, es: seq<Event>, k: nat)
    requires k <= |es|
  {
    Spaced(c, Run(c, START, es[..k]).attempts)
  }

  /** The sockets of a run are spaced at every point if and only if no step of it asks, within
      `stableAfter` of an attempt, after a connection that came up and went away unheard. */
  lemma {:induction false} SpacedExactlyWhen(c: Config, es: seq<Event>)
    ensures (forall k :: 0 <= k <= |es| ==> SpacedAt(c, es, k)) <==> (forall k :: 0 <= k < |es| ==> !OverlooksAt(c, es, k))
    decreases |es|
  {
    hide Step, Run, GateOk, Spaced, SpacedButBlind, Overlooks;
    if es == [] {
      NoSockets(c);
      assert es[..0] == [];
      assert SpacedAt(c, es, 0);
    } else {
      var n := |es| - 1;
      var rest, e := es[..n], es[n];
      SpacedExactlyWhen(c, rest);
      forall k | 0 <= k <= n ensures SpacedAt(c, es, k) == SpacedAt(c, rest, k) {
        assert rest[..k] == es[..k];
      }
      forall k | 0 <= k < n ensures OverlooksAt(c, es, k) == OverlooksAt(c, rest, k) {
        assert rest[..k] == es[..k];
      }
      assert es[..|es|] == es == rest + [e];
      RunKeeps(c, rest);
      RunNext(c, START, rest, e);
      if SpacedAt(c, es, n) {
        StepIsSpaced(c, Run(c, START, rest), e);
      }
      assert SpacedAt(c, es, n) ==> (SpacedAt(c, es, |es|) <==> !OverlooksAt(c, es, n));
    }
  }

  lemma NoSockets(c: Config)
    ensures Spaced(c, Run(c, START, []).attempts)
  {
  }

  function Gap(c: Config): int
  {
    var first := Least(Backoff(c, 1));
    if first <= c.stableAfter then first else c.stableAfter
  }

  lemma ApartByGap(c: Config, a: Attempt, b: Attempt)
    requires Apart(c, a, b)
    ensures b.at >= a.at + Gap(c)
  {
    if b.failures > a.failures {
      BackoffGrows(c, 1, b.failures);
    }
  }

  /** How many of the sockets after the i-th, up to the j-th, were opened blind. */
  function BlindOnes(c: Config, attempts: seq<Attempt>, i: nat, j: nat): (n: nat)
    requires i <= j < |attempts|
    ensures n <= j - i
    decreases j - i
  {
    if i == j then 0 else BlindOnes(c, attempts, i, j - 1) + if Blind(c, attempts[j - 1], attempts[j]) then 1 else 0
  }

  /** So in any span of time there are at most one more sockets than gaps fit, beside the blind
      ones. */
  lemma {:induction false} SocketsAreFew(c: Config, attempts: seq<Attempt>, i: nat, j: nat)
    requires SpacedButBlind(c, attempts) && i <= j < |attempts|
    ensures attempts[j].at - attempts[i].at >= (j - i - BlindOnes(c, attempts, i, j)) * Gap(c)
    decreases j - i
  {
    if i < j {
      SocketsAreFew(c, attempts, i, j - 1);
      var n := j - 1 - i - BlindOnes(c, attempts, i, j - 1);
      if !Blind(c, attempts[j - 1], attempts[j]) {
        assert Apart(c, attempts[j - 1], attempts[j]);
        ApartByGap(c, attempts[j - 1], attempts[j]);
        assert (n + 1) * Gap(c) == n * Gap(c) + Gap(c);
      }
      hide Gap, Apart, Blind;
    }
  }

  /** As long as no two sockets in a row are `stableAfter` apart, each one that is not blind
      adds to the count, and the n-th such retry waits at least the shortest n-th delay: the
      backoff is exponential up to the cap. */
  lemma {:induction false} RetriesBackOff(c: Config, attempts: seq<Attempt>, i: nat, j: nat)
    requires SpacedButBlind(c, attempts) && i < j < |attempts|
    requires forall k :: i < k <= j ==> attempts[k].at < attempts[k - 1].at + c.stableAfter
    ensures var n := j - i - BlindOnes(c, attempts, i, j);
      && attempts[j].failures >= attempts[i].failures + n
      && (!attempts[j].unheard ==> n > 0 && attempts[j].at >= attempts[j - 1].at + Least(Backoff(c, n)))
    decreases j - i
  {
    if i + 1 < j {
      RetriesBackOff(c, attempts, i, j - 1);
    }
    if !attempts[j].unheard {
      assert Apart(c, attempts[j - 1], attempts[j]);
      BackoffGrows(c, j - i - BlindOnes(c, attempts, i, j), attempts[j].failures);
    }
  }

  // ---- what the gate never hears of ----------------------------------------------------------------

  /** A publish opens a socket, which comes up and is dropped, every `d` milliseconds. */
  function Kicked(at: nat, draw: real): seq<Event> {
    [Asked(at, draw), UpUnreported(at), Dropped(at)]
  }

  function KickedTimes(n: nat, d: nat, draw: real): seq<Event> {
    if n == 0 then [] else KickedTimes(n - 1, d, draw) + Kicked((n - 1) * d, draw)
  }

  function Sockets(n: nat, d: nat): seq<Attempt> {
    seq(n, i requires 0 <= i < n => Attempt(i * d, 0, i > 0))
  }

  lemma KickedOnce(c: Config, r: Relay, at: nat, draw: real)
    requires r.gate == FRESH && r.phase == Idle && r.clock <= at && 0.0 <= draw < 1.0
    ensures Run(c, r, Kicked(at, draw)) == Relay(FRESH, Idle, at, r.attempts + [Attempt(at, 0, r.unseen)], true)
  {
    var es := Kicked(at, draw);
    assert es[..2][..1] == [es[0]] && es[..1][..0] == [] && es[..2][..1][..0] == [];
    assert Run(c, r, es[..2][..1]) == Relay(FRESH, Trying, at, r.attempts + [Attempt(at, 0, r.unseen)], false);
    assert Run(c, r, es[..2]) == Relay(FRESH, Up, at, r.attempts + [Attempt(at, 0, r.unseen)], false);
  }

  lemma {:induction false} RunAppend(c: Config, r: Relay, es: seq<Event>, fs: seq<Event>)
    ensures Run(c, r, es + fs) == Run(c, Run(c, r, es), fs)
    decreases |fs|
  {
    if fs == [] {
      assert es + fs == es;
    } else {
      var n := |fs| - 1;
      RunAppend(c, r, es, fs[..n]);
      assert (es + fs)[..|es + fs| - 1] == es + fs[..n];
    }
  }

  /** A relay that accepts every socket and drops it at once, and that is only published to, is
      never backed off: whatever the pace `d` and however long it goes on, every socket is let
      through at once and the count stays at zero. */
  lemma {:induction false} OnlyPublishedNeverBacksOff(c: Config, n: nat, d: nat, draw: real)
    requires 0.0 <= draw < 1.0
    ensures var v := Run(c, START, KickedTimes(n, d, draw));
      && v.gate == FRESH && v.phase == Idle && v.clock == (if n == 0 then 0 else (n - 1) * d) && v.unseen == (n > 0)
      && v.attempts == Sockets(n, d)
    decreases n
  {
    if n > 0 {
      OnlyPublishedNeverBacksOff(c, n - 1, d, draw);
      var r := Run(c, START, KickedTimes(n - 1, d, draw));
      assert n > 1 ==> (n - 1) * d == (n - 2) * d + d;
      RunAppend(c, START, KickedTimes(n - 1, d, draw), Kicked((n - 1) * d, draw));
      KickedOnce(c, r, (n - 1) * d, draw);
      hide Run;
      assert Sockets(n, d) == Sockets(n - 1, d) + [Attempt((n - 1) * d, 0, n > 1)];
    }
  }

  /** At less than `stableAfter` from one to the next, no two of these sockets are apart. */
  lemma KickedSocketsAreNotSpaced(c: Config, n: nat, d: nat, i: nat)
    requires d < c.stableAfter && 0 < i < n
    ensures !Apart(c, Sockets(n, d)[i - 1], Sockets(n, d)[i])
  {
    assert i * d == (i - 1) * d + d;
  }

  // ---- how long a connection is held to have lived ---------------------------------------------------

  lemma {:induction false} StaysUp(c: Config, r: Relay, es: seq<Event>, known: int, last: int)
    requires r.phase == Up && r.gate.upSince == Some(known) && r.clock <= last
    requires forall e :: e in es ==> (e.Asked? || e.UpReported?) && e.t <= last
    ensures var v := Run(c, r, es);
      v.phase == Up && v.gate.upSince == Some(known) && v.clock <= last
    decreases |es|
  {
    if es != [] {
      StaysUp(c, r, es[..|es| - 1], known, last);
      assert es[|es| - 1] in es;
    }
  }

  /** The gate's first word of a connection: a report, or a look while it is up. */
  predicate FirstWord(r: Relay, e: Event) {
    && Possible(r, e) && r.gate.upSince.None?
    && ((e.UpReported? && r.phase != Idle) || (e.Asked? && r.phase == Up))
  }

  /** What counts as having lived is the time from the gate's first word of the connection to
      the first look after the drop, not from coming up and not to the drop: whatever else is
      asked and reported in between, the relay is trusted again if that look is `stableAfter`
      past that word, however soon the relay dropped, and only then. */
  lemma FirstLookDecides(c: Config, r: Relay, word: Event, more: seq<Event>, drop: int, look: int, draw: real)
    requires FirstWord(r, word) && word.t <= drop <= look && look >= 0 && 0.0 <= draw < 1.0
    requires forall e :: e in more ==> (e.Asked? || e.UpReported?) && e.t <= drop
    ensures var v := Run(c, r, [word] + more + [Dropped(drop)] + [Asked(look, draw)]);
      (v.gate.failures == 0 <==> look - word.t >= c.stableAfter) && (look - word.t >= c.stableAfter ==> v.phase == Trying)
  {
    var r1 := Next(c, r, word);
    assert [word][..0] == [] && Run(c, r, [word]) == r1;
    assert r1.phase == Up && r1.gate.upSince == Some(word.t);
    StaysUp(c, r1, more, word.t, drop);
    var r2 := Run(c, r1, more);
    RunAppend(c, r, [word], more);
    RunNext(c, r, [word] + more, Dropped(drop));
    RunNext(c, r, [word] + more + [Dropped(drop)], Asked(look, draw));
    hide Run, Jittered, Backoff;
  }
}
