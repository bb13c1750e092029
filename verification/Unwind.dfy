/** Returning the whole funding to ourselves: the output variants a refund or a cancel tries,
    and the retry loop over them (src/atomic/send.ts, refundAtomicSend and cancelAtomicSend). */
module Unwind {
  import opened SharedScript

  function Attempt(value: nat, k: nat): seq<Output>
    requires k <= value
  {
    if k == 0 then [Output(Regular(Us), value)]
    else [Output(Regular(Us), value - k), Output(Subdust(Us), k)]
  }

  function AttemptCount(value: nat, dust: nat): (n: nat) {
    var maxK := if value - dust < 20 then value - dust else 20;
    if maxK < 0 then 1 else 1 + maxK
  }

  /** The variants as a value: the specification of FreshTxidAttempts. */
  function Attempts(value: nat, dust: nat): (r: seq<seq<Output>>) {
    seq(AttemptCount(value, dust), k requires 0 <= k < AttemptCount(value, dust) => Attempt(value, k))
  }

  method FreshTxidAttempts(value: nat, dust: nat) returns (attempts: seq<seq<Output>>)
    ensures attempts == Attempts(value, dust)
  {
    var maxK: int := if value - dust < 20 then value - dust else 20;
    attempts := [[Output(Regular(Us), value)]];
    var k := 1;
    while k <= maxK
      invariant 1 <= k && (k <= maxK + 1 || k == 1)
      invariant |attempts| == k
      invariant forall i :: 0 <= i < k ==> i <= value && attempts[i] == Attempt(value, i)
    {
      attempts := attempts + [[Output(Regular(Us), value - k), Output(Subdust(Us), k)]];
      k := k + 1;
    }
  }

  /** The clean output, and the splits with a sub-dust part of one to twenty sats that leave a
      regular part of at least dust: exactly these, smallest part first. */
  lemma AttemptsAre(value: nat, dust: nat, k: nat)
    ensures k < |Attempts(value, dust)| <==> k == 0 || (k <= 20 && value - k >= dust)
    ensures k < |Attempts(value, dust)| ==>
      Attempts(value, dust)[k] == [Output(Regular(Us), value - k)] + (if k == 0 then [] else [Output(Subdust(Us), k)])
  {
  }

  /** Every variant returns the whole value to us in at least one regular output of at least
      dust (when the value is one), and no two variants have the same txid. */
  lemma AttemptsReturnEverything(value: nat, dust: nat, k: nat)
    requires k < AttemptCount(value, dust)
    ensures var outs := Attempts(value, dust)[k];
      && AllTo(outs, Us) && Total(outs) == value && Paid(outs, Us) == value
      && outs[0].lock == Regular(Us)
      && (value >= dust ==> outs[0].amount >= dust)
  {
    var outs := Attempts(value, dust)[k];
    if k > 0 {
      assert outs[1..] == [Output(Subdust(Us), k)];
      assert Total(outs[1..]) == k + Total(outs[1..][1..]);
    }
    PaidInFull(outs, Us, Us);
  }

  lemma AttemptsAreDistinct(input: Outpoint, script: Options, leaf: Leaf, value: nat, dust: nat, i: nat, j: nat)
    requires i < j < AttemptCount(value, dust)
    ensures Spend(input, script, leaf, Attempts(value, dust)[i]) != Spend(input, script, leaf, Attempts(value, dust)[j])
  {
    assert |Attempts(value, dust)[j]| == 2;
    if i > 0 {
      assert Attempts(value, dust)[i][1].amount == i;
      assert Attempts(value, dust)[j][1].amount == j;
    }
  }

  datatype RetryOutcome = Registered(attempt: nat) | NeverRegistered

  /** The loop both unwinds share: submit a variant, look whether the output is gone, re-mint
      with the next variant otherwise. `poisoned` holds the txids whose event stream arkd
      silently drops; a submission of any other txid registers. The loop ends in a
      registered spend exactly when some variant is not poisoned, and then in the first. */
  method SubmitUntilRegistered(input: Outpoint, script: Options, leaf: Leaf, value: nat, dust: nat, poisoned: set<Spend>)
    returns (r: RetryOutcome, submitted: seq<Spend>)
    ensures r.Registered? <==> (exists k: nat :: k < AttemptCount(value, dust) && Spend(input, script, leaf, Attempts(value, dust)[k]) !in poisoned)
    ensures r.Registered? ==>
      && r.attempt < AttemptCount(value, dust)
      && submitted == seq(r.attempt + 1, i requires 0 <= i <= r.attempt => Spend(input, script, leaf, Attempts(value, dust)[i]))
      && submitted[r.attempt] !in poisoned
      && (forall i :: 0 <= i < r.attempt ==> submitted[i] in poisoned)
    ensures r.NeverRegistered? ==> |submitted| == AttemptCount(value, dust) && forall s :: s in submitted ==> s in poisoned
    ensures forall i, j :: 0 <= i < j < |submitted| ==> submitted[i] != submitted[j]
  {
    var attempts := FreshTxidAttempts(value, dust);
    submitted := [];
    var k := 0;
    while k < |attempts|
      invariant 0 <= k <= |attempts| && |submitted| == k
      invariant forall i :: 0 <= i < k ==> submitted[i] == Spend(input, script, leaf, attempts[i])
      invariant forall i :: 0 <= i < k ==> submitted[i] in poisoned
    {
      var s := Spend(input, script, leaf, attempts[k]);
      submitted := submitted + [s];
      if s !in poisoned {
        forall i, j | 0 <= i < j < |submitted| ensures submitted[i] != submitted[j] {
          AttemptsAreDistinct(input, script, leaf, value, dust, i, j);
        }
        return Registered(k), submitted;
      }
      k := k + 1;
    }
    forall i, j | 0 <= i < j < |submitted| ensures submitted[i] != submitted[j] {
      AttemptsAreDistinct(input, script, leaf, value, dust, i, j);
    }
    forall i: nat | i < AttemptCount(value, dust)
      ensures Spend(input, script, leaf, Attempts(value, dust)[i]) in poisoned
    {
      assert submitted[i] in poisoned;
    }
    r := NeverRegistered;
  }
}
