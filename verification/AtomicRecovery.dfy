/** No state a run can reach strands the money: once T has passed, one press of the refund
    button gets a locked output back, however many variants arkd swallows first. */
module AtomicRecovery {
  import opened Wrappers
  import opened SwapState
  import opened SharedScript
  import opened SwapRepository
  import opened AtomicSend
  import opened AtomicSafety
  import AtomicTheorems
  import Unwind

  /** A variant that arkd acknowledges and never registers. */
  function Swallowed(t: TaskId): seq<Event> {
    [Continue(t, UnwindSign), Continue(t, SubmitAnswer(true)), Continue(t, RegisteredAnswer(false))]
  }

  /** `n` swallowed variants, then one that lands. */
  function Tries(t: TaskId, n: nat, s: Spend): seq<Event> {
    if n == 0 then [Continue(t, UnwindSign), Outside(SpendLands(s)), Continue(t, SubmitAnswer(true)), Continue(t, RegisteredAnswer(true))]
    else Swallowed(t) + Tries(t, n - 1, s)
  }

  function RefundRun(t: TaskId, id: SwapId, value: nat, dust: nat, n: nat, s: Spend): seq<Event> {
    [RefundPressed(t, id), Continue(t, CoinAnswer(Some((value, dust)), None))] + Tries(t, n, s)
  }

  /** A refund past T, or a cancel, of `o` is about to sign its variant `k`, and nothing stands
      in its way. */
  ghost predicate Poised(w: World, t: TaskId, id: SwapId, leaf: Leaf, live: bool, o: Outpoint, value: nat, dust: nat, k: nat) {
    && id in w.files && o in w.coins && t in w.tasks
    && var row := w.files[id].row;
       && (row.state == Funded || row.state == LnInflight || row.state == RefundWait) && row.direction == Send
       && w.tasks[t] == Unwinding(id, leaf, o, row.state, Ready(value, dust, k), live)
       && w.coins[o].script == ScriptOf(w, row) && w.coins[o].value == value && w.coins[o].spentBy.None?
       && (leaf == CancelLeaf || (leaf == RefundLeaf && w.mtp >= row.refundLocktime))
       && k < Unwind.AttemptCount(value, dust)
  }

  /** One signed variant: what the signature and the submit leave behind. */
  lemma SignedNext(w: World, t: TaskId, id: SwapId, leaf: Leaf, live: bool, o: Outpoint, value: nat, dust: nat, k: nat, s: Spend)
    requires Poised(w, t, id, leaf, live, o, value, dust, k)
    requires s == Spend(o, ScriptOf(w, w.files[id].row), leaf, Unwind.Attempts(value, dust)[k])
    ensures Step(w, Continue(t, UnwindSign))
         == w.(signed := w.signed[s := id], tasks := w.tasks[t := w.tasks[t].(stepAt := Sent(value, dust, k))])
  {
    hide Unwind.Attempts, Unwind.AttemptCount, ScriptOf;
  }

  lemma SwallowedNext(w: World, t: TaskId, id: SwapId, leaf: Leaf, live: bool, o: Outpoint, value: nat, dust: nat, k: nat)
    requires Poised(w, t, id, leaf, live, o, value, dust, k) && k + 1 < Unwind.AttemptCount(value, dust)
    ensures var v := Run(w, Swallowed(t));
      Poised(v, t, id, leaf, live, o, value, dust, k + 1) && v.files == w.files && v.us == w.us && v.server == w.server && v.honestIndexer == w.honestIndexer
  {
    hide Step, Run;
    var s := Spend(o, ScriptOf(w, w.files[id].row), leaf, Unwind.Attempts(value, dust)[k]);
    hide Unwind.Attempts, Unwind.AttemptCount;
    var w1 := w.(signed := w.signed[s := id], tasks := w.tasks[t := w.tasks[t].(stepAt := Sent(value, dust, k))]);
    SignedNext(w, t, id, leaf, live, o, value, dust, k, s);
    DroppedNext(w1, t, w1.tasks[t]);
    var es := Swallowed(t);
    AtomicTheorems.FirstThree(w, es);
    assert es[..3] == es;
    assert Run(w, es) == w1.(tasks := w1.tasks[t := w1.tasks[t].(stepAt := Ready(value, dust, k + 1))]);
  }

  lemma DroppedNext(w: World, t: TaskId, k: Task)
    requires k.Unwinding? && k.stepAt.Sent? && t in w.tasks && w.tasks[t] == k && k.id in w.files
    requires k.stepAt.k + 1 < Unwind.AttemptCount(k.stepAt.value, k.stepAt.dust)
    ensures Step(Step(w, Continue(t, SubmitAnswer(true))), Continue(t, RegisteredAnswer(false)))
         == w.(tasks := w.tasks[t := k.(stepAt := Ready(k.stepAt.value, k.stepAt.dust, k.stepAt.k + 1))])
  {
    hide Unwind.AttemptCount;
    var w1 := Step(w, Continue(t, SubmitAnswer(true)));
    assert w1 == w.(tasks := w.tasks[t := k.(stepAt := Checking(k.stepAt.value, k.stepAt.dust, k.stepAt.k))]);
  }

  lemma VariantCanLand(w: World, id: SwapId, s: Spend)
    requires s.input in w.coins && w.coins[s.input].script == s.script && w.coins[s.input].spentBy.None?
    requires s in w.signed && s.script.funder == w.us && (s.leaf == CancelLeaf || (s.leaf == RefundLeaf && w.mtp >= s.script.refundLocktime))
    requires Total(s.outputs) == w.coins[s.input].value
    ensures CanLand(w, s)
  {
    var c := w.coins[s.input];
    var age := if c.unrolledAt.Some? && w.mtp >= c.unrolledAt.value then Some(w.mtp - c.unrolledAt.value) else None;
    assert LeafOpens(s.script, s.leaf, Signers(w, s), {s.script.paymentHash}, w.mtp, age);
  }

  lemma LandsNext(w: World, t: TaskId, id: SwapId, leaf: Leaf, live: bool, o: Outpoint, value: nat, dust: nat, k: nat, s: Spend)
    requires Poised(w, t, id, leaf, live, o, value, dust, k)
    requires s == Spend(o, ScriptOf(w, w.files[id].row), leaf, Unwind.Attempts(value, dust)[k])
    ensures var v := Step(Step(Step(w, Continue(t, UnwindSign)), Outside(SpendLands(s))), Continue(t, SubmitAnswer(true)));
      && v.files == w.files && o in v.coins && v.coins[o].spentBy == Some(s) && v.honestIndexer == w.honestIndexer
      && t in v.tasks && v.tasks[t] == w.tasks[t].(stepAt := Checking(value, dust, k))
  {
    Unwind.AttemptsReturnEverything(value, dust, k);
    hide Unwind.Attempts, Unwind.AttemptCount, CanLand, LeafOpens;
    SignedNext(w, t, id, leaf, live, o, value, dust, k, s);
    var w1 := Step(w, Continue(t, UnwindSign));
    VariantCanLand(w1, id, s);
    LandedAnswered(w1, t, w1.tasks[t], s);
    hide Step, Land, ScriptOf;
    LandSpends(w1, s);
  }

  lemma LandSpends(w: World, s: Spend)
    requires CanLand(w, s)
    ensures var v := Land(w, s);
      v.files == w.files && v.tasks == w.tasks && v.honestIndexer == w.honestIndexer && s.input in v.coins && v.coins[s.input].spentBy == Some(s)
  {
    hide CanLand;
  }

  lemma LandedAnswered(w: World, t: TaskId, k: Task, s: Spend)
    requires CanLand(w, s) && k.Unwinding? && k.stepAt.Sent? && t in w.tasks && w.tasks[t] == k && k.id in w.files
    ensures Step(Step(w, Outside(SpendLands(s))), Continue(t, SubmitAnswer(true)))
         == Land(w, s).(tasks := w.tasks[t := k.(stepAt := Checking(k.stepAt.value, k.stepAt.dust, k.stepAt.k))])
  {
    hide CanLand;
    assert Step(w, Outside(SpendLands(s))) == Land(w, s);
  }

  /** Where a refund and where a cancel end. */
  function Ended(leaf: Leaf): State {
    if leaf == RefundLeaf then Refunded else Cancelled
  }

  lemma RefundedNext(w: World, t: TaskId, k: Task)
    requires k.Unwinding? && (k.leaf == RefundLeaf || k.leaf == CancelLeaf) && k.stepAt.Checking? && t in w.tasks && w.tasks[t] == k && k.id in w.files
    requires var row := w.files[k.id].row;
      row.direction == Send && row.state == k.readState && (row.state == Funded || row.state == LnInflight || row.state == RefundWait)
    requires IsSpent(w, k.input)
    ensures var v := Step(w, Continue(t, RegisteredAnswer(true)));
      k.id in v.files && v.files[k.id].row.state == Ended(k.leaf) && v.coins == w.coins
  {
    hide *;
    CheckedNext(w, t, k);
    SeenSame(w, k.input);
    RegisteredIsRefunded(See(w, k.input), t, k);
  }

  lemma CheckedNext(w: World, t: TaskId, k: Task)
    requires k.Unwinding? && k.stepAt.Checking? && t in w.tasks && w.tasks[t] == k && k.id in w.files && IsSpent(w, k.input)
    ensures k.id in See(w, k.input).files && Step(w, Continue(t, RegisteredAnswer(true))) == UnwindRegistered(See(w, k.input), t, k)
  {
    hide UnwindRegistered;
  }

  lemma SeenSame(w: World, o: Outpoint)
    ensures See(w, o).files == w.files && See(w, o).coins == w.coins
  {
  }

  lemma RegisteredIsRefunded(w: World, t: TaskId, k: Task)
    requires k.Unwinding? && (k.leaf == RefundLeaf || k.leaf == CancelLeaf) && k.id in w.files
    requires var row := w.files[k.id].row;
      row.direction == Send && row.state == k.readState && (row.state == Funded || row.state == LnInflight || row.state == RefundWait)
    ensures var v := UnwindRegistered(w, t, k);
      k.id in v.files && v.files[k.id].row.state == Ended(k.leaf) && v.coins == w.coins
  {
    assert Legal(Send, RefundWait, Refunded) && Legal(Send, k.readState, Cancelled);
    if k.readState != RefundWait {
      assert Legal(Send, k.readState, RefundWait);
    }
  }

  lemma {:induction false} RunAppend(w: World, a: seq<Event>, b: seq<Event>)
    ensures Run(w, a + b) == Run(Run(w, a), b)
    decreases |a|
  {
    hide Step;
    if a == [] {
      assert a + b == b;
    } else {
      RunAppend(Step(w, a[0]), a[1..], b);
      assert (a + b)[1..] == a[1..] + b;
    }
  }

  lemma RunFour(w: World, es: seq<Event>)
    requires |es| == 4
    ensures Run(w, es) == Step(Step(Step(Step(w, es[0]), es[1]), es[2]), es[3])
  {
    hide Step;
    AtomicTheorems.FirstThree(w, es);
    AtomicTheorems.OneMore(w, es, 3);
    assert es[..4] == es;
  }

  lemma {:induction false} TriesEnd(w: World, t: TaskId, id: SwapId, leaf: Leaf, live: bool, o: Outpoint, value: nat, dust: nat, k: nat, n: nat, s: Spend)
    requires Poised(w, t, id, leaf, live, o, value, dust, k) && k + n < Unwind.AttemptCount(value, dust)
    requires s == Spend(o, ScriptOf(w, w.files[id].row), leaf, Unwind.Attempts(value, dust)[k + n])
    ensures var v := Run(w, Tries(t, n, s));
      id in v.files && v.files[id].row.state == Ended(leaf) && o in v.coins && v.coins[o].spentBy == Some(s)
    decreases n
  {
    hide Step, Run, Unwind.Attempts, Unwind.AttemptCount;
    if n == 0 {
      RunFour(w, Tries(t, n, s));
      LandsNext(w, t, id, leaf, live, o, value, dust, k, s);
      var v := Step(Step(Step(w, Continue(t, UnwindSign)), Outside(SpendLands(s))), Continue(t, SubmitAnswer(true)));
      RefundedNext(v, t, v.tasks[t]);
    } else {
      SwallowedNext(w, t, id, leaf, live, o, value, dust, k);
      RunAppend(w, Swallowed(t), Tries(t, n - 1, s));
      TriesEnd(Run(w, Swallowed(t)), t, id, leaf, live, o, value, dust, k + 1, n - 1, s);
    }
  }

  /** After any run, a row in funded, ln_inflight or refund_wait past T whose output is still
      locked is refunded in full by one press: arkd may first acknowledge and drop any number
      `n` of variants below the number there are, and the next one ends the swap. */
  lemma AlwaysRefundable(us: Key, server: Key, honest: bool, es: seq<Event>, t: TaskId, id: SwapId, dust: nat, n: nat)
    requires var w := Run(Start(us, server, honest), es);
      && id in w.files && w.files[id].row.fundingOutpoint.Some? && t !in w.tasks
      && var row, o := w.files[id].row, w.files[id].row.fundingOutpoint.value;
        && (row.state == Funded || row.state == LnInflight || row.state == RefundWait)
        && o in w.coins && w.coins[o].spentBy.None? && w.coins[o].script == w.files[id].deal.script
        && w.now >= row.refundLocktime && w.mtp >= row.refundLocktime
        && n < Unwind.AttemptCount(w.coins[o].value, dust)
    ensures var w := Run(Start(us, server, honest), es);
      var o := w.files[id].row.fundingOutpoint.value;
      var value := w.coins[o].value;
      var s := Spend(o, w.files[id].deal.script, RefundLeaf, Unwind.Attempts(value, dust)[n]);
      var v := Run(w, RefundRun(t, id, value, dust, n, s));
      && id in v.files && v.files[id].row.state == Refunded
      && o in v.coins && v.coins[o].spentBy == Some(s) && Paid(s.outputs, Us) == value
  {
    var w := Run(Start(us, server, honest), es);
    StartOk(us, server, honest);
    RunKeeps(Start(us, server, honest), es);
    FileOf(w, id);
    hide Inv, Unwind.Attempts, Unwind.AttemptCount;
    assert w.files[id].deal.script == ScriptOf(w, w.files[id].row);
    RefundableFrom(w, t, id, dust, n);
  }

  /** A refund or a cancel that has begun, over an output that is still locked. */
  ghost predicate Begins(w: World, t: TaskId, id: SwapId, leaf: Leaf, live: bool, o: Outpoint) {
    && id in w.files && o in w.coins && t in w.tasks
    && var row := w.files[id].row;
       && row.direction == Send && (row.state == Funded || row.state == LnInflight || row.state == RefundWait)
       && w.tasks[t] == Unwinding(id, leaf, o, row.state, Looking, live)
       && w.coins[o].script == ScriptOf(w, row) && w.coins[o].spentBy.None?
       && (leaf == CancelLeaf || (leaf == RefundLeaf && w.mtp >= row.refundLocktime))
  }

  lemma LookupPoises(w: World, t: TaskId, id: SwapId, leaf: Leaf, live: bool, o: Outpoint, dust: nat)
    requires Begins(w, t, id, leaf, live, o)
    ensures var v := Step(w, Continue(t, CoinAnswer(Some((w.coins[o].value, dust)), None)));
      Poised(v, t, id, leaf, live, o, w.coins[o].value, dust, 0) && v.files == w.files && v.us == w.us && v.server == w.server
  {
    var value := w.coins[o].value;
    assert 0 < Unwind.AttemptCount(value, dust);
    hide Unwind.AttemptCount;
    var v := Step(w, Continue(t, CoinAnswer(Some((value, dust)), None)));
    assert v == Goto(w, t, Unwinding(id, leaf, o, w.files[id].row.state, Ready(value, dust, 0), live));
  }

  /** What is left of a run once the refund or cancel has begun. */
  function UnwindRun(t: TaskId, value: nat, dust: nat, n: nat, s: Spend): seq<Event> {
    [Continue(t, CoinAnswer(Some((value, dust)), None))] + Tries(t, n, s)
  }

  /** Once begun, a refund or a cancel ends with everything back, however many variants arkd
      swallows before one lands. */
  lemma BegunEnds(w: World, t: TaskId, id: SwapId, leaf: Leaf, live: bool, o: Outpoint, dust: nat, n: nat)
    requires Begins(w, t, id, leaf, live, o) && n < Unwind.AttemptCount(w.coins[o].value, dust)
    ensures var value := w.coins[o].value;
      var s := Spend(o, ScriptOf(w, w.files[id].row), leaf, Unwind.Attempts(value, dust)[n]);
      var v := Run(w, UnwindRun(t, value, dust, n, s));
      id in v.files && v.files[id].row.state == Ended(leaf) && o in v.coins && v.coins[o].spentBy == Some(s) && Paid(s.outputs, Us) == value
  {
    var value := w.coins[o].value;
    var row := w.files[id].row;
    var s := Spend(o, ScriptOf(w, row), leaf, Unwind.Attempts(value, dust)[n]);
    hide *;
    Unwind.AttemptsReturnEverything(value, dust, n);
    LookupPoises(w, t, id, leaf, live, o, dust);
    PoisedEnds(w, t, id, leaf, live, o, value, dust, n, s);
  }

  lemma PoisedEnds(w: World, t: TaskId, id: SwapId, leaf: Leaf, live: bool, o: Outpoint, value: nat, dust: nat, n: nat, s: Spend)
    requires id in w.files && n < Unwind.AttemptCount(value, dust)
    requires s == Spend(o, ScriptOf(w, w.files[id].row), leaf, Unwind.Attempts(value, dust)[n])
    requires var v := Step(w, Continue(t, CoinAnswer(Some((value, dust)), None)));
      Poised(v, t, id, leaf, live, o, value, dust, 0) && v.files == w.files && v.us == w.us && v.server == w.server
    ensures var v := Run(w, UnwindRun(t, value, dust, n, s));
      id in v.files && v.files[id].row.state == Ended(leaf) && o in v.coins && v.coins[o].spentBy == Some(s)
  {
    hide *;
    var es := [Continue(t, CoinAnswer(Some((value, dust)), None))];
    RunOne(w, es);
    RunAppend(w, es, Tries(t, n, s));
    SameScript(w, Run(w, es), w.files[id].row);
    TriesEnd(Run(w, es), t, id, leaf, live, o, value, dust, 0, n, s);
    UnwindRunIs(t, value, dust, n, s);
  }

  lemma UnwindRunIs(t: TaskId, value: nat, dust: nat, n: nat, s: Spend)
    ensures UnwindRun(t, value, dust, n, s) == [Continue(t, CoinAnswer(Some((value, dust)), None))] + Tries(t, n, s)
  {
    hide Tries;
  }

  /** The button's own checks leave a refund begun. */
  lemma PressBegins(w: World, t: TaskId, id: SwapId, o: Outpoint)
    requires id in w.files && t !in w.tasks && w.files[id].row.direction == Send && w.files[id].row.fundingOutpoint == Some(o)
    requires var row := w.files[id].row;
      && (row.state == Funded || row.state == LnInflight || row.state == RefundWait)
      && o in w.coins && w.coins[o].spentBy.None? && w.coins[o].script == ScriptOf(w, row)
      && row.refundLocktime <= w.now && row.refundLocktime <= w.mtp
    ensures var v := Step(w, RefundPressed(t, id));
      Begins(v, t, id, RefundLeaf, false, o) && v.files == w.files && v.coins == w.coins && v.us == w.us && v.server == w.server
  {
    assert Step(w, RefundPressed(t, id)) == Goto(w, t, Unwinding(id, RefundLeaf, o, w.files[id].row.state, Looking, false));
  }

  lemma RefundableFrom(w: World, t: TaskId, id: SwapId, dust: nat, n: nat)
    requires id in w.files && w.files[id].row.fundingOutpoint.Some? && t !in w.tasks && w.files[id].row.direction == Send
    requires var row, o := w.files[id].row, w.files[id].row.fundingOutpoint.value;
      && (row.state == Funded || row.state == LnInflight || row.state == RefundWait)
      && o in w.coins && w.coins[o].spentBy.None? && w.coins[o].script == ScriptOf(w, row) && row.refundLocktime <= w.now
      && w.mtp >= row.refundLocktime && n < Unwind.AttemptCount(w.coins[o].value, dust)
    ensures var o := w.files[id].row.fundingOutpoint.value;
      var value := w.coins[o].value;
      var s := Spend(o, ScriptOf(w, w.files[id].row), RefundLeaf, Unwind.Attempts(value, dust)[n]);
      var v := Run(w, RefundRun(t, id, value, dust, n, s));
      id in v.files && v.files[id].row.state == Refunded && o in v.coins && v.coins[o].spentBy == Some(s) && Paid(s.outputs, Us) == value
  {
    var o := w.files[id].row.fundingOutpoint.value;
    var value := w.coins[o].value;
    var s := Spend(o, ScriptOf(w, w.files[id].row), RefundLeaf, Unwind.Attempts(value, dust)[n]);
    assert Ended(RefundLeaf) == Refunded;
    hide *;
    var es := [RefundPressed(t, id)];
    PressBegins(w, t, id, o);
    RunOne(w, es);
    SameScript(w, Run(w, es), w.files[id].row);
    BegunEnds(Run(w, es), t, id, RefundLeaf, false, o, dust, n);
    RunAppend(w, es, UnwindRun(t, value, dust, n, s));
    RefundRunIs(t, id, value, dust, n, s);
  }

  lemma SameScript(w: World, v: World, row: Row)
    requires v.us == w.us && v.server == w.server
    ensures ScriptOf(v, row) == ScriptOf(w, row)
  {
  }

  lemma RefundRunIs(t: TaskId, id: SwapId, value: nat, dust: nat, n: nat, s: Spend)
    ensures RefundRun(t, id, value, dust, n, s) == [RefundPressed(t, id)] + UnwindRun(t, value, dust, n, s)
  {
    hide Tries;
  }

  lemma RunOne(w: World, es: seq<Event>)
    requires |es| == 1
    ensures Run(w, es) == Step(w, es[0])
  {
    hide Step;
    assert Run(Step(w, es[0]), es[1..]) == Step(w, es[0]);
  }
}
