/** The four-leaf shared output of an atomic sub-dust swap: who has to sign each leaf, and
    when a leaf opens (src/atomic/script.ts). Encodings and hashes are not modelled: a
    script is the record of its options, a spend the record of what it commits to. */
module SharedScript {
  import opened Wrappers

  type Hash = string
  type Key = string

  datatype Outpoint = Outpoint(txid: string, vout: nat)

  datatype Party = Us | Peer | Other(name: string)

  /** An amount of at least dust goes to the owner's P2TR script, a smaller one to the
      owner's recoverable OP_RETURN script. */
  datatype Lock = Regular(owner: Party) | Subdust(owner: Party)

  datatype Output = Output(lock: Lock, amount: nat)

  datatype Options = Options(funder: Key, claimer: Key, server: Key, paymentHash: Hash,
                             refundLocktime: int, exitDelay: int)

  datatype Leaf = ClaimLeaf | RefundLeaf | CancelLeaf | UexitLeaf

  /** A transaction spending a shared output. Its txid commits to exactly these fields, so
      two spends have the same txid only when they are the same value. */
  datatype Spend = Spend(input: Outpoint, script: Options, leaf: Leaf, outputs: seq<Output>)

  datatype ScriptError = BadHash | BadKey | BadLocktime | BadDelay

  /** The checks of the script constructor, in its order: the keys and the timelocks first,
      the payment hash when the claim leaf is encoded. */
  function Build(o: Options): (r: Result<Options, ScriptError>)
  {
    if |o.funder| != 32 || |o.claimer| != 32 || |o.server| != 32 then Failure(BadKey)
    else if o.refundLocktime <= 0 then Failure(BadLocktime)
    else if o.exitDelay <= 0 then Failure(BadDelay)
    else if |o.paymentHash| != 32 then Failure(BadHash)
    else Success(o)
  }

  /** A script is built exactly from three x-only keys, a 32-byte hash and two positive times;
      keys are looked at before the locktime, that before the delay, the hash last. */
  lemma BuiltExactlyWhen(o: Options)
    ensures Build(o).Success? <==> |o.funder| == |o.claimer| == |o.server| == |o.paymentHash| == 32 && o.refundLocktime > 0 && o.exitDelay > 0
    ensures Build(o).Success? ==> Build(o).value == o
    ensures Build(o) == Failure(BadKey) <==> !(|o.funder| == |o.claimer| == |o.server| == 32)
    ensures Build(o) == Failure(BadHash) <==> |o.funder| == |o.claimer| == |o.server| == 32 && o.refundLocktime > 0 && o.exitDelay > 0 && |o.paymentHash| != 32
    ensures Build(o) == Failure(BadLocktime) ==> o.refundLocktime <= 0
  {
  }

  /** When a leaf of an output locked by `o` can be satisfied: `signers` are the keys that
      signed, `shown` the payment hashes whose preimage is in the witness, `mtp` the chain's
      median time, `age` the time since the output was published onchain. */
  predicate LeafOpens(o: Options, leaf: Leaf, signers: set<Key>, shown: set<Hash>, mtp: int, age: Option<nat>)
  {
    match leaf
    case ClaimLeaf => o.funder in signers && o.claimer in signers && o.server in signers && o.paymentHash in shown
    case RefundLeaf => o.funder in signers && o.server in signers && mtp >= o.refundLocktime
    case CancelLeaf => o.funder in signers && o.claimer in signers && o.server in signers
    case UexitLeaf => o.funder in signers && age.Some? && age.value >= o.exitDelay
  }

  /** Who opens what, by coalition: the funder alone an aged exit; with the server also a refund
      past T; with the claimer but not the server nothing more than alone; all three a cancel
      besides, and a claim with the preimage. */
  lemma CoalitionsOpen(o: Options, leaf: Leaf, shown: set<Hash>, mtp: int, age: Option<nat>)
    requires o.funder != o.claimer && o.funder != o.server && o.claimer != o.server
    ensures LeafOpens(o, leaf, {o.funder}, shown, mtp, age) <==> leaf == UexitLeaf && age.Some? && o.exitDelay <= age.value
    ensures LeafOpens(o, leaf, {o.funder, o.claimer}, shown, mtp, age) <==> leaf == UexitLeaf && age.Some? && o.exitDelay <= age.value
    ensures LeafOpens(o, leaf, {o.funder, o.server}, shown, mtp, age) <==>
      (leaf == UexitLeaf && age.Some? && o.exitDelay <= age.value) || (leaf == RefundLeaf && o.refundLocktime <= mtp)
    ensures LeafOpens(o, leaf, {o.funder, o.claimer, o.server}, shown, mtp, age) <==>
      || (leaf == UexitLeaf && age.Some? && o.exitDelay <= age.value) || (leaf == RefundLeaf && o.refundLocktime <= mtp)
      || leaf == CancelLeaf || (leaf == ClaimLeaf && o.paymentHash in shown)
  {
  }

  /** The funder is in every leaf, so however many others collude, a leaf opens for them
      plus the funder's signature and never without it; before T and before an onchain exit
      has aged, what the funder and the server alone can open is nothing. */
  lemma EveryLeafNeedsTheFunder(o: Options, leaf: Leaf, others: set<Key>, shown: set<Hash>, mtp: int, age: Option<nat>)
    requires o.funder !in others
    ensures !LeafOpens(o, leaf, others, shown, mtp, age)
    ensures o.claimer !in {o.funder, o.server} && mtp < o.refundLocktime && age.None?
        ==> !LeafOpens(o, leaf, {o.funder, o.server}, shown, mtp, age)
    ensures LeafOpens(o, leaf, {o.funder, o.server}, shown, mtp, age)
        <== leaf == RefundLeaf && mtp >= o.refundLocktime
  {
  }

  // ---- output lists --------------------------------------------------------------

  function Total(outs: seq<Output>): (n: nat) {
    if outs == [] then 0 else outs[0].amount + Total(outs[1..])
  }

  /** What a list of outputs pays to one party. */
  function Paid(outs: seq<Output>, to: Party): (n: nat)
  {
    if outs == [] then 0
    else (if outs[0].lock.owner == to then outs[0].amount else 0) + Paid(outs[1..], to)
  }

  ghost predicate AllTo(outs: seq<Output>, to: Party) {
    forall i :: 0 <= i < |outs| ==> outs[i].lock.owner == to
  }

  lemma {:induction false} PaidInFull(outs: seq<Output>, to: Party, other: Party)
    requires AllTo(outs, to)
    ensures Paid(outs, to) == Total(outs)
    ensures other != to ==> Paid(outs, other) == 0
  {
    if outs != [] {
      assert AllTo(outs[1..], to);
      PaidInFull(outs[1..], to, other);
    }
  }
}
