/** The bridge's side of an atomic sub-dust send as a system of atomic steps
    (src/atomic/send.ts). Everything between two awaits is one step, so a run is any
    interleaving of live sends, resume passes, manual refunds, answers of boltz, arkd and the
    indexer, transactions landing in the ledger, clocks advancing and process crashes. */
module AtomicSend {
  import opened Wrappers
  import opened SwapState
  import opened SharedScript
  import opened SwapRepository
  import ClaimSplit
  import Unwind

  type TaskId = nat

  /** A live send as far as it has come. */
  datatype SendStage =
    | FundingSent                                          // awaiting wallet.sendBitcoin
    | Locating                                             // awaiting locateFunding
    | Located(input: Outpoint)                             // outpoint recorded, capturing and presigning
    | Presigned(claim: Spend)                              // claim pair signed, not yet persisted
    | AwaitingBoltz(input: Outpoint)                       // presigs handed over
    | Confirming(input: Outpoint, preimage: string)        // boltz says claimed, asking the indexer

  /** A refund or a cancel as far as it has come. */
  datatype UnwindStage =
    | Looking
    | Ready(value: nat, dust: nat, k: nat)
    | Sent(value: nat, dust: nat, k: nat)
    | Checking(value: nat, dust: nat, k: nat)

  /** What the process is in the middle of. `snap` is the row as a pass read it, which may be
      long before the pass gets to handle it; `at` is that pass's clock. */
  datatype Task =
    | Sending(id: SwapId, stage: SendStage)
    | Item(id: SwapId, snap: Row, at: int)
    | Recovering(id: SwapId, snap: Row, at: int, live: bool)
    | AskingStatus(id: SwapId, snap: Row, post: bool)
    | ConfirmingClaim(id: SwapId, input: Outpoint, preimage: Option<string>, post: bool)
    | Unwinding(id: SwapId, leaf: Leaf, input: Outpoint, readState: State, stepAt: UnwindStage, live: bool)

  /** What a live send agreed on and funded: the shared script, the amount and boltz's fee,
      the dust threshold, the total of the inputs spent into the shared output. */
  datatype Deal = Deal(script: Options, amount: nat, fee: nat, dust: nat, funding: nat)

  datatype Coin = Coin(script: Options, value: nat, unrolledAt: Option<int>, spentBy: Option<Spend>)

  /** A swap's row, and what happened to it: its past states, every outpoint it ever had
      recorded, the agreement of its send, the claim the send signed, and whether it was
      written 'claimed' without a look at the indexer. */
  datatype File = File(row: Row, hist: seq<State>, recorded: set<Outpoint>, deal: Deal, claim: Option<Spend>, blind: bool)

  /** `files` is the persistent table, `tasks` and `inflight` the memory of the process, `coins`
      the outputs in the ledger whose script names our key as the funder (anyone may pay to
      such a script). `signed` holds the spends our key has signed and for
      which swap, `shown` the payment hashes whose preimage a witness has shown, `gone` the
      outpoints an indexer answer has shown spent, `released` the outpoints whose exit material
      the sends have let go. */
  datatype World = World(
    us: Key, server: Key, honestIndexer: bool,
    now: int, mtp: int,
    files: map<SwapId, File>,
    tasks: map<TaskId, Task>, inflight: set<SwapId>,
    coins: map<Outpoint, Coin>,
    signed: map<Spend, SwapId>, shown: set<Hash>, gone: set<Outpoint>, released: set<Outpoint>
  )

  function Start(us: Key, server: Key, honestIndexer: bool): World {
    World(us, server, honestIndexer, 0, 0, map[], map[], {}, map[], map[], {}, {}, {})
  }

  // ---- answers and events ---------------------------------------------------------

  datatype FundReply = PaidReply(preimage: string) | FailedReply | OtherReply | NoReply

  datatype Status = Unreachable | SaysClaimed(preimage: Option<string>) | SaysFailed | SaysRefundWait | SaysOther

  datatype ScriptRead = ReadFailed | NoCoin | OnlySpent | SpendableAt(input: Outpoint)

  datatype Order = Order(id: SwapId, paymentHash: Hash, invoice: string, boltzKey: Key, refundLocktime: int,
                         exitDelay: int, amount: nat, fee: int, dust: nat, funding: nat)

  /** What the world does by itself. */
  datatype Happening =
    | ClockTicks(now: int, mtp: int)
    | CoinAppears(point: Outpoint, script: Options, value: nat)
    | Unrolled(point: Outpoint)
    | SpendLands(spend: Spend)
    | ExitSigned(id: SwapId, point: Outpoint, outputs: seq<Output>)
    | Crash

  /** What a waiting task goes on with: the answer it awaited, nothing where it only awaited
      its own signing, or an exception that ends it. */
  datatype Answer =
    | FundingDone(ok: bool)
    | LocateAnswer(found: Option<Outpoint>)
    | SignClaim
    | HandOver
    | BoltzReplies(reply: FundReply)
    | ConfirmAnswer(spent: bool)
    | PrePass
    | MainPass
    | RecoverAnswer(read: ScriptRead)
    | StatusAnswer(status: Status, stuck: bool)
    | CoinAnswer(coin: Option<(nat, nat)>, mtpSeen: Option<int>)
    | UnwindSign
    | SubmitAnswer(accepted: bool)
    | RegisteredAnswer(spent: bool)
    | Throws

  datatype Event =
    | Outside(h: Happening)
    | StartSend(t: TaskId, order: Order)
    | TakeSnapshot(t: TaskId, id: SwapId, clock: int)
    | RefundPressed(t: TaskId, id: SwapId)
    | Continue(t: TaskId, answer: Answer)

  // ---- building blocks -------------------------------------------------------------

  function RowsOf(w: World): Rows {
    map i | i in w.files :: w.files[i].row
  }

  /** The script a row's metadata rebuilds. */
  function ScriptOf(w: World, row: Row): Options {
    Options(w.us, row.peerPubkey.GetOr(""), w.server, row.paymentHash, row.refundLocktime, row.exitDelay.GetOr(0))
  }

  predicate IsSpent(w: World, o: Outpoint) {
    o in w.coins && w.coins[o].spentBy.Some?
  }

  /** An indexer that answers truthfully never reports an unspent outpoint as gone. */
  predicate AnswerAllowed(w: World, o: Outpoint, spent: bool) {
    w.honestIndexer && spent ==> IsSpent(w, o)
  }

  /** Leaving a task; a live send's `finally` also drops its registration, whoever else is
      registered under the same id. */
  function Finish(w: World, t: TaskId, id: SwapId, live: bool): World {
    w.(tasks := w.tasks - {t}, inflight := if live then w.inflight - {id} else w.inflight)
  }

  function Goto(w: World, t: TaskId, k: Task): World {
    w.(tasks := w.tasks[t := k])
  }

  function Put(w: World, id: SwapId, f: File): World {
    w.(files := w.files[id := f])
  }

  function Record(w: World, id: SwapId, o: Outpoint): World
    requires id in w.files
  {
    var f := w.files[id];
    Put(w, id, f.(row := WithOutpoint(f.row, o, w.now * 1000), recorded := f.recorded + {o}))
  }

  /** A transition through the repository; None is the exception of an illegal one. */
  function MovedFile(f: File, to: State, now: int): Option<File> {
    match MovedRow(f.row, to, now * 1000)
    case Failure(_) => None
    case Success(row) => Some(f.(row := row, hist := f.hist + [to]))
  }

  function Move(w: World, id: SwapId, to: State): Option<World>
    requires id in w.files
  {
    match MovedFile(w.files[id], to, w.now)
    case None => None
    case Some(f) => Some(Put(w, id, f))
  }

  /** A transition that is the last thing a task does, whether it is legal or throws. */
  function MoveAndFinish(w: World, t: TaskId, id: SwapId, to: State, live: bool): World
    requires id in w.files
  {
    match Move(w, id, to)
    case None => Finish(w, t, id, live)
    case Some(w1) => Finish(w1, t, id, live)
  }

  function See(w: World, o: Outpoint): World {
    w.(gone := w.gone + {o})
  }

  /** releaseVaultRow: the row of the exit vault is no longer needed. */
  function Release(w: World, o: Option<Outpoint>): World {
    w.(released := w.released + (match o case None => {} case Some(p) => {p}))
  }

  /** A transition that ends a swap, and with it the need for its exit material; nothing is let
      go when the transition throws. */
  function Close(w: World, t: TaskId, id: SwapId, to: State, live: bool, o: Outpoint): World
    requires id in w.files
  {
    match Move(w, id, to)
    case None => Finish(w, t, id, live)
    case Some(w1) => Finish(Release(w1, Some(o)), t, id, live)
  }

  function Sign(w: World, id: SwapId, s: Spend): World {
    w.(signed := w.signed[s := id])
  }

  function KeepPreimage(w: World, id: SwapId, preimage: Option<string>): World
    requires id in w.files
  {
    match preimage
    case None => w
    case Some(p) => Put(w, id, w.files[id].(row := WithPreimage(w.files[id].row, p, w.now * 1000)))
  }

  // ---- the steps of the environment ---------------------------------------------------

  /** Everybody but us colludes: the counterparty's and the server's keys sign whatever helps,
      and whoever wants to knows every preimage. Only our own signature is limited to what
      our key has signed. */
  function Signers(w: World, s: Spend): set<Key> {
    ({s.script.claimer, s.script.server} - {w.us}) + (if s in w.signed then {w.us} else {})
  }

  predicate CanLand(w: World, s: Spend) {
    && s.input in w.coins
    && var c := w.coins[s.input];
      && c.script == s.script
      && c.spentBy.None?
      && LeafOpens(s.script, s.leaf, Signers(w, s), {s.script.paymentHash}, w.mtp,
                   if c.unrolledAt.Some? && w.mtp >= c.unrolledAt.value then Some(w.mtp - c.unrolledAt.value) else None)
      && (if s.leaf == UexitLeaf then Total(s.outputs) <= c.value else Total(s.outputs) == c.value)
  }

  function Land(w: World, s: Spend): World
    requires CanLand(w, s)
  {
    w.(coins := w.coins[s.input := w.coins[s.input].(spentBy := Some(s))],
       shown := if s.leaf == ClaimLeaf then w.shown + {s.script.paymentHash} else w.shown)
  }

  // ---- the steps of a live send -------------------------------------------------------

  function NewRow(w: World, o: Order): Row {
    Row(Send, o.paymentHash, Init, o.amount, o.refundLocktime, None, None, None, Some(o.invoice),
        Some(o.boltzKey), Some(o.exitDelay), w.now * 1000, w.now * 1000)
  }

  /** What atomicSubdustSend checks before it registers the send. */
  predicate Accepts(w: World, o: Order) {
    && o.amount < o.dust
    && 0 <= o.fee <= o.dust
    && Build(Options(w.us, o.boltzKey, w.server, o.paymentHash, o.refundLocktime, o.exitDelay)).Success?
    && o.funding >= o.dust + o.amount + o.fee
  }

  function StepStartSend(w: World, t: TaskId, o: Order): World
    requires t !in w.tasks
  {
    if !Accepts(w, o) then w
    else
      if Taken(RowsOf(w), o.id, o.paymentHash) then Finish(w, t, o.id, true)
      else
        var deal := Deal(ScriptOf(w, NewRow(w, o)), o.amount, o.fee, o.dust, o.funding);
        Put(w, o.id, File(NewRow(w, o), [Init], {}, deal, None, false)).(
          inflight := w.inflight + {o.id}, tasks := w.tasks[t := Sending(o.id, FundingSent)])
  }

  function StepFundingDone(w: World, t: TaskId, id: SwapId, ok: bool): World
    requires id in w.files
  {
    if ok then Goto(w, t, Sending(id, Locating))
    else if w.files[id].row.state != Init || w.files[id].row.fundingOutpoint.Some? then Finish(w, t, id, true)
    else Goto(w, t, Recovering(id, w.files[id].row, w.now, true))
  }

  function StepLocate(w: World, t: TaskId, id: SwapId, found: Option<Outpoint>): World
    requires id in w.files
  {
    match found
    case None => Finish(w, t, id, true)
    case Some(o) => Goto(Record(w, id, o), t, Sending(id, Located(o)))
  }

  function SplitArgs(d: Deal): ClaimSplit.Args {
    ClaimSplit.Args(Us, Peer, d.funding, d.amount, d.dust, d.fee, None, ClaimSplit.MAX_OP_RETURN_OUTPUTS)
  }

  function StepSignClaim(w: World, t: TaskId, id: SwapId, o: Outpoint): World
    requires id in w.files
  {
    match ClaimSplit.SplitOf(SplitArgs(w.files[id].deal))
    case Failure(_) => Finish(w, t, id, true)
    case Success(split) =>
      var s := Spend(o, w.files[id].deal.script, ClaimLeaf, split.outputs);
      Goto(Sign(Put(w, id, w.files[id].(claim := Some(s))), id, s), t, Sending(id, Presigned(s)))
  }

  function StepHandOver(w: World, t: TaskId, id: SwapId, s: Spend): World
    requires id in w.files
  {
    var w0 := Put(w, id, w.files[id].(row := WithPresigs(w.files[id].row, s, w.now * 1000)));
    match Move(w0, id, Funded)
    case None => Finish(w0, t, id, true)
    case Some(w1) =>
      match Move(w1, id, LnInflight)
      case None => Finish(w1, t, id, true)
      case Some(w2) => Goto(w2, t, Sending(id, AwaitingBoltz(s.input)))
  }

  function StepBoltzReplies(w: World, t: TaskId, id: SwapId, o: Outpoint, reply: FundReply): World
    requires id in w.files
  {
    match reply
    case NoReply => Finish(w, t, id, true)
    case PaidReply(p) => Goto(w, t, Sending(id, Confirming(o, p)))
    case FailedReply =>
      (match Move(w, id, RefundWait)
       case None => Finish(w, t, id, true)
       case Some(w1) => BeginUnwind(w1, t, id, CancelLeaf, true))
    case OtherReply => MoveAndFinish(w, t, id, Failed, true)
  }

  function StepConfirmLive(w: World, t: TaskId, id: SwapId, o: Outpoint, preimage: string, spent: bool): World
    requires id in w.files
  {
    if spent then Close(See(w, o), t, id, Claimed, true, o)
    else Finish(KeepPreimage(w, id, Some(preimage)), t, id, true)
  }

  // ---- the steps of a refund or a cancel ------------------------------------------------

  function BeginUnwind(w: World, t: TaskId, id: SwapId, leaf: Leaf, live: bool): World
    requires id in w.files
  {
    var row := w.files[id].row;
    if !(row.state == Funded || row.state == LnInflight || row.state == RefundWait) || row.fundingOutpoint.None? || (leaf == RefundLeaf && w.now < row.refundLocktime)
    then Finish(w, t, id, live)
    else Goto(w, t, Unwinding(id, leaf, row.fundingOutpoint.value, row.state, Looking, live))
  }

  /** `coin` is the shared output's value and the server's dust as the lookup finds them. */
  function StepCoinLookup(w: World, t: TaskId, k: Task, coin: Option<(nat, nat)>, mtpSeen: Option<int>): World
    requires k.Unwinding? && k.id in w.files
  {
    if k.leaf == RefundLeaf && mtpSeen.Some? && mtpSeen.value < w.files[k.id].row.refundLocktime then Finish(w, t, k.id, k.live)
    else
      match coin
      case None => Finish(w, t, k.id, k.live)
      case Some((value, dust)) => Goto(w, t, k.(stepAt := Ready(value, dust, 0)))
  }

  function UnwindSpend(w: World, k: Task): Spend
    requires k.Unwinding? && k.stepAt.Ready? && k.id in w.files && k.stepAt.k < Unwind.AttemptCount(k.stepAt.value, k.stepAt.dust)
  {
    Spend(k.input, ScriptOf(w, w.files[k.id].row), k.leaf, Unwind.Attempts(k.stepAt.value, k.stepAt.dust)[k.stepAt.k])
  }

  function StepUnwindSign(w: World, t: TaskId, k: Task): World
    requires k.Unwinding? && k.stepAt.Ready? && k.id in w.files && k.stepAt.k < Unwind.AttemptCount(k.stepAt.value, k.stepAt.dust)
  {
    Goto(Sign(w, k.id, UnwindSpend(w, k)), t, k.(stepAt := Sent(k.stepAt.value, k.stepAt.dust, k.stepAt.k)))
  }

  function StepUnwindAnswer(w: World, t: TaskId, k: Task, accepted: bool): World
    requires k.Unwinding? && k.stepAt.Sent?
  {
    if accepted then Goto(w, t, k.(stepAt := Checking(k.stepAt.value, k.stepAt.dust, k.stepAt.k)))
    else Finish(w, t, k.id, k.live)
  }

  function StepUnwindCheck(w: World, t: TaskId, k: Task, spent: bool): World
    requires k.Unwinding? && k.stepAt.Checking? && k.id in w.files
  {
    if !spent then
      if k.stepAt.k + 1 < Unwind.AttemptCount(k.stepAt.value, k.stepAt.dust)
      then Goto(w, t, k.(stepAt := Ready(k.stepAt.value, k.stepAt.dust, k.stepAt.k + 1)))
      else Finish(w, t, k.id, k.live)
    else UnwindRegistered(See(w, k.input), t, k)
  }

  /** The bookkeeping once the shared output is seen gone. A refund goes through refund_wait
      unless the row was there when the refund began. */
  function UnwindRegistered(w: World, t: TaskId, k: Task): World
    requires k.Unwinding? && k.id in w.files
  {
    if k.leaf != RefundLeaf then Close(w, t, k.id, Cancelled, k.live, k.input)
    else if k.readState == RefundWait then Close(w, t, k.id, Refunded, k.live, k.input)
    else
      match Move(w, k.id, RefundWait)
      case None => Finish(w, t, k.id, k.live)
      case Some(w1) => Close(w1, t, k.id, Refunded, k.live, k.input)
  }

  // ---- the steps of a resume pass --------------------------------------------------------

  function StepPrePass(w: World, t: TaskId, k: Task): World
    requires k.Item?
  {
    if k.id in w.inflight || k.snap.fundingOutpoint.Some? || k.snap.state != Init then Finish(w, t, k.id, false)
    else Goto(w, t, Recovering(k.id, k.snap, k.at, false))
  }

  const UNFUNDED_GRACE_MS := 600_000

  /** classifyUnfundedInit, and what the live send or the pass does with its verdict. */
  function StepRecoverRead(w: World, t: TaskId, k: Task, read: ScriptRead): World
    requires k.Recovering? && k.id in w.files
  {
    match read
    case SpendableAt(o) => MoveAndFinish(Record(w, k.id, o), t, k.id, Funded, k.live)
    case NoCoin =>
      if k.live || k.at * 1000 - k.snap.createdAt > UNFUNDED_GRACE_MS then MoveAndFinish(w, t, k.id, Failed, k.live)
      else Finish(w, t, k.id, k.live)
    case _ => Finish(w, t, k.id, k.live)
  }

  function StepMainPass(w: World, t: TaskId, k: Task): World
    requires k.Item? && k.id in w.files
  {
    if k.id in w.inflight then Finish(w, t, k.id, false)
    else
      match ClassifyResume(Send, k.snap.state, k.snap.refundLocktime, k.at)
      case Success(DoRefund) => Goto(w, t, AskingStatus(k.id, k.snap, true))
      case Success(Poll) => Goto(w, t, AskingStatus(k.id, k.snap, false))
      case Success(DoCancel) => BeginUnwind(w, t, k.id, CancelLeaf, false)
      case _ => Finish(w, t, k.id, false)
  }

  /** The bookkeeping of markClaimed once it believes the claim: from the row's current state,
      through ln_inflight when it is still funded. */
  function ClaimedFile(f: File, now: int): Option<File> {
    if f.row.state == Funded then
      match MovedFile(f, LnInflight, now)
      case None => None
      case Some(g) => MovedFile(g, Claimed, now)
    else MovedFile(f, Claimed, now)
  }

  /** `confirmed` is the outpoint the indexer was asked about; without one, nothing was asked
      and nothing is let go. */
  function WriteClaimed(w: World, t: TaskId, id: SwapId, preimage: Option<string>, confirmed: Option<Outpoint>): World
    requires id in w.files
  {
    match ClaimedFile(w.files[id], w.now)
    case None => Finish(w, t, id, false)
    case Some(f) => Finish(Release(KeepPreimage(Put(w, id, f.(blind := f.blind || confirmed.None?)), id, preimage), confirmed), t, id, false)
  }

  /** markClaimed consults the indexer only about the outpoint of the row it was given, which
      is the pass's snapshot; a snapshot without an outpoint skips the question. */
  function MarkClaimed(w: World, t: TaskId, k: Task, preimage: Option<string>): World
    requires k.AskingStatus? && k.id in w.files
  {
    match k.snap.fundingOutpoint
    case Some(o) => Goto(w, t, ConfirmingClaim(k.id, o, preimage, k.post))
    case None => WriteClaimed(w, t, k.id, preimage, None)
  }

  function StepStatusAnswer(w: World, t: TaskId, k: Task, status: Status, stuck: bool): World
    requires k.AskingStatus? && k.id in w.files
  {
    if k.post then
      if status.SaysClaimed? && k.snap.state != RefundWait then MarkClaimed(w, t, k, status.preimage)
      else BeginUnwind(w, t, k.id, RefundLeaf, false)
    else
      match status
      case SaysClaimed(p) => MarkClaimed(w, t, k, p)
      case Unreachable => if stuck then BeginUnwind(w, t, k.id, CancelLeaf, false) else Finish(w, t, k.id, false)
      case SaysOther => if stuck then BeginUnwind(w, t, k.id, CancelLeaf, false) else Finish(w, t, k.id, false)
      case _ =>
        if k.snap.state != RefundWait then
          (match Move(w, k.id, RefundWait)
           case None => Finish(w, t, k.id, false)
           case Some(w1) => BeginUnwind(w1, t, k.id, CancelLeaf, false))
        else BeginUnwind(w, t, k.id, CancelLeaf, false)
  }

  function StepConfirmPass(w: World, t: TaskId, k: Task, spent: bool): World
    requires k.ConfirmingClaim? && k.id in w.files
  {
    if spent then WriteClaimed(See(w, k.input), t, k.id, k.preimage, Some(k.input))
    else
      var w1 := KeepPreimage(w, k.id, k.preimage);
      if k.post then BeginUnwind(w1, t, k.id, RefundLeaf, false) else Finish(w1, t, k.id, false)
  }

  // ---- runs ---------------------------------------------------------------------------

  predicate ExitPaysUs(outs: seq<Output>) {
    forall o :: o in outs ==> o.lock.owner == Us
  }

  function OutsideStep(w: World, h: Happening): World {
    match h
    case ClockTicks(now, mtp) => if now >= w.now && mtp >= w.mtp then w.(now := now, mtp := mtp) else w
    case CoinAppears(o, script, value) =>
      if o in w.coins || script.funder != w.us then w else w.(coins := w.coins[o := Coin(script, value, None, None)])
    case Unrolled(o) =>
      if o in w.coins && w.coins[o].unrolledAt.None? then w.(coins := w.coins[o := w.coins[o].(unrolledAt := Some(w.mtp))]) else w
    case SpendLands(s) => if CanLand(w, s) then Land(w, s) else w
    case ExitSigned(id, o, outs) =>
      if id in w.files && ExitPaysUs(outs) then Sign(w, id, Spend(o, ScriptOf(w, w.files[id].row), UexitLeaf, outs)) else w
    case Crash => w.(tasks := map[], inflight := {})
  }

  function SendStep(w: World, t: TaskId, k: Task, a: Answer): World
    requires k.Sending? && k.id in w.files
  {
    match (k.stage, a)
    case (FundingSent, FundingDone(ok)) => StepFundingDone(w, t, k.id, ok)
    case (Locating, LocateAnswer(found)) => StepLocate(w, t, k.id, found)
    case (Located(o), SignClaim) => StepSignClaim(w, t, k.id, o)
    case (Presigned(s), HandOver) => StepHandOver(w, t, k.id, s)
    case (AwaitingBoltz(o), BoltzReplies(reply)) => StepBoltzReplies(w, t, k.id, o, reply)
    case (Confirming(o, preimage), ConfirmAnswer(spent)) =>
      if AnswerAllowed(w, o, spent) then StepConfirmLive(w, t, k.id, o, preimage, spent) else w
    case _ => w
  }

  function UnwindStep(w: World, t: TaskId, k: Task, a: Answer): World
    requires k.Unwinding? && k.id in w.files
  {
    match (k.stepAt, a)
    case (Looking, CoinAnswer(coin, mtpSeen)) => StepCoinLookup(w, t, k, coin, mtpSeen)
    case (Ready(value, dust, n), UnwindSign) => if n < Unwind.AttemptCount(value, dust) then StepUnwindSign(w, t, k) else w
    case (Sent(_, _, _), SubmitAnswer(accepted)) => StepUnwindAnswer(w, t, k, accepted)
    case (Checking(_, _, _), RegisteredAnswer(spent)) =>
      if AnswerAllowed(w, k.input, spent) then StepUnwindCheck(w, t, k, spent) else w
    case _ => w
  }

  function PassStep(w: World, t: TaskId, k: Task, a: Answer): World
    requires !k.Sending? && !k.Unwinding? && k.id in w.files
  {
    match (k, a)
    case (Item(_, _, _), PrePass) => StepPrePass(w, t, k)
    case (Item(_, _, _), MainPass) => StepMainPass(w, t, k)
    case (Recovering(_, _, _, _), RecoverAnswer(read)) => StepRecoverRead(w, t, k, read)
    case (AskingStatus(_, _, _), StatusAnswer(status, stuck)) => StepStatusAnswer(w, t, k, status, stuck)
    case (ConfirmingClaim(_, o, _, _), ConfirmAnswer(spent)) =>
      if AnswerAllowed(w, o, spent) then StepConfirmPass(w, t, k, spent) else w
    case _ => w
  }

  /** The task runs inside a live send, whose `finally` drops the registration. */
  predicate InLiveSend(k: Task) {
    k.Sending? || (k.Recovering? && k.live) || (k.Unwinding? && k.live)
  }

  /** An await that is rejected ends the task where it stands, with what it had written and
      signed by then left as it is; the other tasks go on. */
  function TaskStep(w: World, t: TaskId, k: Task, a: Answer): World
    requires k.id in w.files
  {
    if a.Throws? then Finish(w, t, k.id, InLiveSend(k))
    else
      match k
      case Sending(_, _) => SendStep(w, t, k, a)
      case Unwinding(_, _, _, _, _, _) => UnwindStep(w, t, k, a)
      case _ => PassStep(w, t, k, a)
  }

  /** One event. An event that cannot happen in a world leaves it as it is. */
  function Step(w: World, e: Event): World {
    match e
    case Outside(h) => OutsideStep(w, h)
    case StartSend(t, order) => if t in w.tasks then w else StepStartSend(w, t, order)
    case TakeSnapshot(t, id, at) =>
      if t in w.tasks || id !in w.files || Terminal(Send, w.files[id].row.state) || at > w.now then w
      else Goto(w, t, Item(id, w.files[id].row, at))
    case RefundPressed(t, id) => if t in w.tasks || id !in w.files then w else BeginUnwind(w, t, id, RefundLeaf, false)
    case Continue(t, answer) =>
      if t in w.tasks && w.tasks[t].id in w.files then TaskStep(w, t, w.tasks[t], answer) else w
  }

  function Run(w: World, es: seq<Event>): World
    decreases |es|
  {
    if es == [] then w else Run(Step(w, es[0]), es[1..])
  }
}
