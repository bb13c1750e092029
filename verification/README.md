# Verification model of the bridge

A Dafny model of the parts of the bridge that move money or guard it, with proofs. `dafny verify
dfyconfig.toml` checks everything.

The environment is nondeterministic throughout: boltz may say anything or nothing, arkd may
acknowledge a spend without registering it, the indexer's answers are arbitrary (truthful only
where a statement says so), any await may be rejected, the process may die at any await, and
whatever else the bridge does may happen while a request is under way.

## How it is laid out

* `SwapState`, `SwapRepository`, `SharedScript`, `ClaimSplit`, `Unwind`, `Funding`, `MtpClock`:
  the pieces of an atomic sub-dust send, each proved on its own.
* `AtomicSend`: the send side as a system of atomic steps, one per stretch between two awaits:
  live sends, resume passes with their stale snapshots, refunds, cancels, the ledger, the clocks,
  rejected awaits, crashes. `AtomicSafety` holds its invariant, `AtomicHistory` what never goes
  back, `AtomicTheorems` and `AtomicRecovery` what follows for every run, `AtomicPass` what each
  answer makes a pass, a send and an unwind do, `AtomicStranded` which rows the bridge can still
  bring home, `AtomicClaims` how claims end, `AtomicRelease` when exit material is let go.
* `AtomicReceive`: the receive side as an object whose passes may die anywhere, over a ledger.
* `ExitChain`, `Vault`, `Evidence`, `ProofSync`, `ProofGc`, `VaultTheorems`: the offline mirror of
  exit material, its passes and its evidence-gated deletions. Every await takes a reply from an
  arbitrary function that also says what other parts of the bridge do to the tables meanwhile.
* `ChainOrder`, `CoinSelect`, `Boost`, `Descriptor`, `RelayGate`, `Budget`, `LnDrain`, `Noffer`:
  the kernels the money paths depend on.

Code that works by changing things step by step is modelled by classes and methods with loops,
each proved against a specification function; code made of expressions by functions and lemmas.
The invariants and main statements are proved about the specification functions and over runs.

## What the proofs found

* A resume pass handles the rows as it listed them. When a row was listed before its send
  recorded the outpoint, and is reached after the send has ended, `markClaimed` has no outpoint
  to ask about and writes 'claimed' on boltz's word (src/atomic/send.ts:915-930).
  `AtomicTheorems.ClaimedWithoutASpend` gives the run, `ClaimsAreCheckedExactlyWhen` the exact
  condition. The funds stay safe in the sense of `FundsAreSafe`, but the row is terminal.
* Once its send is gone, a locked output that is recorded comes home through the bridge exactly
  if its row is funded, in flight or waiting for its refund
  (`AtomicStranded.ComesHomeExactlyWhen`), an unrecorded one exactly if its row is still in init
  (`UnrecordedComesHomeExactlyWhen`). A crash after the outpoint was recorded and before
  'funded' leaves the row in 'init', which the pre-pass skips and the refund refuses
  (src/atomic/send.ts:254-298, 459-461, 956). An answer of boltz that is neither 'claimed' nor
  'failed' writes the terminal 'failed' over a locked output (src/atomic/send.ts:308-309). An
  answer that there never was a coin, about a row older than the grace, fails it over an output
  that may be locked all the same (src/atomic/send.ts:958-967). `CrashStrands`,
  `RefusalStrands` and `NoCoinStrands` give the runs; what is left then is the unilateral exit.
* A capture or a pass can report a vtxo complete or synced while it is not: an orphan collection
  during its fetch, started by a released swap, may delete a proof it had counted as stored
  (src/exit/proof_sync.ts:188-198, src/atomic/send.ts:1059-1063). The comment that a capture's
  result can be trusted holds exactly if nothing counted on was collected
  (`VaultTheorems.CompleteButNotReady`, `ProofSync.CaptureVtxo`).
* A capture aimed at an outpoint that is already ready replaces its chain with whatever the
  indexer now serves, and can degrade it (src/exit/proof_sync.ts:180-198).
* The settle gate of a receive reads that the outpoint is spent, not by what. If a claim was
  acknowledged and dropped, the preimage can be posted over a refund exactly if T is reached or
  the output has ripened onchain by the read (`AtomicReceive.SpentMayBeRefunded`,
  `PostsOverARefund`, `PaidExactlyWhenClaimed`; src/atomic/receive.ts:253-266).
* A pass looks for a spendable coin before it looks whether the coin is gone, so once the claim
  has landed no later pass posts the preimage (`AtomicReceive.Receiver.ComesTooLate`;
  src/atomic/receive.ts:224-226).
* `estimateMtp` accepts five timestamps, with which it can run ahead of the chain; six are needed
  for the bound its comment relies on (src/atomic/send.ts:415).
* A merge in the layout of a chain lies under the mean of its parents' lanes, rounded down, which
  is the lane of the leftmost one only for neighbours; the comment there speaks of the leftmost
  parent (`ChainOrder.BranchesRunStraight`; src/exit/chain_order.ts:77-79).
* A relay that drops at once is forgiven if nobody looks for `stableAfterMs`: what counts as
  lived is the time from the gate's first word of the connection to the first look after it
  (`RelayGate.FirstLookDecides`; src/nostr/relay_gate.ts:106-116).
* A publish does not report that its socket came up. When such a connection drops before anybody
  looks, the next look finds no time it came up and penalizes nothing, so a relay that accepts
  and then kicks is never backed off as long as it is only published to
  (`RelayGate.OnlyPublishedNeverBacksOff`, `SpacedExactlyWhen`; src/nostr/relay_gate.ts:99-117).
* The handler's own settle is not limited to pending rows, so a payment failed by a listener and
  then settled by its handler can take a window over its budget (src/handlers/pay_invoice.ts:166-172).
* Nor is its failing write. When a request is rejected although its payment has left or still
  leaves (boltz claims with the signatures it already holds, or a listener has settled the row),
  the row is marked failed and drops out of every sum: the reconcile reads pending rows only.
  Twice the budget can leave the wallet, and the same invoice be paid again
  (`Budget.ForgottenPaymentOverspends`, `ForgottenPaymentIsPaidAgain`;
  src/handlers/pay_invoice.ts:137-141, src/boltz.ts:311-315). Movement keeps to the budget, but
  for the costs beyond invoices, exactly if nothing is admitted, revived or claimed late into a
  window without room for it beside the live and the lost payments
  (`Budget.MovementHoldsExactlyWhen`).
* An invoice settled by a listener that knows no preimage is paid again on the next request: the
  replay asks for the preimage of the first settled row (src/handlers/pay_invoice.ts:56-64).
* A noffer price of zero is lost, and a lone type byte keeps the parser from ending
  (src/clink/nip19_offer.ts:77-89, 109-117).

## Model

| member | source | states |
|---|---|---|
| AtomicTheorems.FundsAreSafe | src/atomic/send.ts:286-296 | After any run (live sends, resume passes over stale snapshots, refund presses, rejected awaits, crashes at awaits, hostile boltz, arkd that acknowledges without registering, an indexer that may lie) a shared output is unspent or was spent once: by the one agreed claim, which pays boltz exactly amount + fee, us all the rest and shows the preimage; or by a refund or cancel, which pays us everything; or by an exit, which pays boltz nothing |
| AtomicTheorems.OneClaim | src/atomic/send.ts:279-296 | A spent output of a swap carries a spend our key signed for that swap; a claim is the single one its live send signed, over exactly the computed split |
| AtomicTheorems.ClaimedAtMostOnce | src/atomic/repository.ts:120-148 | Two claimed outputs with the same payment hash are the same output of the same swap, however many outputs are locked to the script and however many sends run |
| AtomicTheorems.RowsMeanWhatTheySay | src/atomic/send.ts:344-355 | Every reachable row has walked the transition table with at most four moves, has an outpoint once it is past init and not failed, and, when refunded, cancelled or claimed with confirmation, has an outpoint an indexer read showed spent; with a truthful indexer that outpoint is spent in the ledger |
| AtomicTheorems.TerminalForever | src/atomic/repository.ts:177-182 | Whatever happens next, a terminal row keeps its state and history and a spent output keeps its spender |
| AtomicTheorems.ClaimsAreCheckedExactlyWhen | src/atomic/send.ts:915-946 | A run marks a row claimed without an indexer read exactly when a pass handles a snapshot that has no outpoint, boltz says claimed and the row is by then funded or in flight; in all other runs every claimed row has evidence |
| AtomicTheorems.UncheckedExactlyWhen | src/atomic/send.ts:915-946 | In every reachable state, a step makes a row claimed while none of its outpoints is shown spent if and only if it is such a write and none was shown spent before |
| AtomicTheorems.MarksAreFinal | src/atomic/send.ts:920-930 | The rows so written at the end of a run are exactly those the run marked, none is ever unmarked |
| AtomicTheorems.ClaimedWithoutASpend | src/atomic/send.ts:954-1011 | For every accepted order and outpoint there is a run, with a truthful indexer, that ends with the row 'claimed' while its only outpoint is unspent: the pass's list of rows is older than the funding |
| AtomicRecovery.AlwaysRefundable | src/atomic/send.ts:449-559 | From every reachable state, a row in funded, ln_inflight or refund_wait past T with its output unspent ends refunded by one refund, with the whole value paid to us, after arkd acknowledged and dropped any number of variants short of all |
| AtomicRecovery.TriesEnd | src/atomic/send.ts:533-551 | The same from the middle of the retry loop, by induction over the dropped variants |
| AtomicRecovery.BegunEnds | src/atomic/send.ts:505-559 | Once begun, a refund past T or a cancel ends with the whole value back, however many variants are dropped before one lands |
| AtomicPass.PassRefunds | src/atomic/send.ts:974-1005 | From every reachable state a pass alone brings home a locked output past T whose row is funded, in flight or waiting, whatever boltz answers or leaves unanswered, as long as the indexer does not report the output gone |
| AtomicPass.PassCancels | src/atomic/send.ts:1006-1043 | and before T by a cancel, when the row waits, boltz says that the payment failed, or the row is stuck |
| AtomicPass.LatePassRefunds | src/atomic/send.ts:990-1005 | A pass past T over such a row ends in a refund of the recorded output for every answer |
| AtomicPass.EarlyPassCancels | src/atomic/send.ts:1006-1043 | A pass before T ends in a cancel for every answer that asks for one, with the row in refund_wait if boltz reported the failure |
| AtomicPass.StatusDecides | src/atomic/send.ts:990-1043 | In every state and for every answer of boltz: what is checked at the indexer, refunded, cancelled, moved to refund_wait or left waiting |
| AtomicPass.ItemDecides | src/atomic/send.ts:974-989 | In every state: a row a live send owns, or a terminal one, is left alone; past T a refundable row is on its way to a refund; a waiting one before T to a cancel; of any other boltz is asked |
| AtomicPass.PrePassDecides | src/atomic/send.ts:953-957 | The pre-pass looks for a coin of exactly the rows in init without an outpoint that no live send owns |
| AtomicPass.DoubtDecides | src/atomic/send.ts:920-927 | A claim the indexer does not show is not written: the preimage is kept, and past T the refund begins |
| AtomicPass.BelievedDecides | src/atomic/send.ts:928-945 | One it shows is written, through ln_inflight when the row is funded, with the preimage kept and the exit material let go |
| AtomicPass.StartDecides | src/atomic/send.ts:142-222 | A send is taken on exactly when its amount, fee, script and funding are in order and neither id nor payment hash is known; then its row carries the terms and it is registered |
| AtomicPass.FundingDecides | src/atomic/send.ts:241-251 | A rejected funding spend leads to a look at the script exactly while the row is in init without an outpoint |
| AtomicPass.LocateDecides | src/atomic/send.ts:253-254 | A located output is recorded before anything else |
| AtomicPass.SignDecides | src/atomic/send.ts:286-296 | The claim signed pays boltz amount + fee and us the rest, each as an OP_RETURN exactly below dust; nothing is signed for an amount no split exists for |
| AtomicPass.HandOverDecides | src/atomic/send.ts:297-304 | The signatures are stored and the row is funded and in flight before boltz hears of it |
| AtomicPass.ReplyDecides | src/atomic/send.ts:304-336 | Every reply: claimed is checked, failed moves the row to refund_wait and begins a cancel, any other fails the row, none leaves it |
| AtomicPass.ConfirmedDecides | src/atomic/send.ts:344-349 | A confirmed claim closes the swap as claimed and lets its exit material go |
| AtomicPass.UnconfirmedStays | src/atomic/send.ts:350-355 | An unconfirmed one keeps the preimage and leaves the row in flight |
| AtomicPass.PressDecides | src/atomic/send.ts:449-471 | A refund begins exactly for a row in one of three states with an outpoint, from T on |
| AtomicPass.LookupDecides | src/atomic/send.ts:473-506 | It stops when the chain's clock is known not to have reached T, and a cancel or refund stops without a spendable coin |
| AtomicPass.VariantIsSigned | src/atomic/send.ts:533-537 | Each variant is signed as computed from value and dust |
| AtomicPass.SubmitDecides | src/atomic/send.ts:538-541 | A rejected one ends the attempt |
| AtomicPass.MissingDecides | src/atomic/send.ts:546-556 | One that is not registered leads to the next, and the last one ends the attempt |
| AtomicPass.RegisteredDecides | src/atomic/send.ts:558-568 | A registered one closes the swap as cancelled or refunded, a refund through refund_wait unless the row was there |
| AtomicStranded.ComesHomeExactlyWhen | src/atomic/send.ts:449-461 | In every reachable state in which a swap has no task left and its recorded output is locked and not refunded, some future ends refunded if and only if the row is funded, in flight or waiting for its refund; any other row keeps its state in every future |
| AtomicStranded.StrandedForever | src/atomic/send.ts:954-1049 | A row in init with its outpoint recorded and no live send stays so over every run of passes, refund presses, new sends and crashes |
| AtomicStranded.CrashStrands | src/atomic/send.ts:254-298 | For every accepted order a crash between recording the outpoint and 'funded' leads there, with the output locked |
| AtomicStranded.RefusalStrands | src/atomic/send.ts:307-309 | For every accepted order an answer that is neither 'claimed' nor 'failed' leaves the row failed for ever over a locked output |
| AtomicStranded.TaskLocal | src/atomic/send.ts:870-1056 | A step of one swap's send, refund or pass changes neither another swap's row nor another task |
| AtomicStranded.UnrecordedComesHomeExactlyWhen | src/atomic/send.ts:735-781 | The same line for an output the row does not know of: some future finds it and brings it home if and only if the row is still in init; a failed row never comes back |
| AtomicStranded.RecoveryExactlyWhen | src/atomic/send.ts:954-973 | A recovery makes the row funded exactly when it is told of a spendable coin, and failed exactly when it is told there never was one and the row is older than the grace |
| AtomicStranded.NoCoinStrands | src/atomic/send.ts:958-967 | So an answer that misses the coin gives the swap up for good over a locked output |
| AtomicRelease.LetsGoExactlyWhen | src/atomic/send.ts:344-349 | In every reachable state a step lets go of exit material exactly when it ends its swap with evidence, and then of one outpoint of that swap that is shown spent; nothing else lets go of any |
| AtomicRelease.BlindClaimsLetNothingGo | src/atomic/send.ts:920-943 | A claim written without an indexer read releases nothing |
| AtomicRelease.ReleasedWereSpent | src/atomic/send.ts:1058-1067 | Over every run a released outpoint was shown spent; with a truthful indexer it is spent in the ledger |
| AtomicRelease.AtomicRowsOutlastTheirOutputs | src/atomic/send.ts:1058-1067 | Sends and vault together: an atomic row that is gone from the vault was swept by an exit of our own, or its outpoint was shown spent, and with a truthful indexer is spent |
| AtomicClaims.GoodSendPays | src/atomic/send.ts:254-355 | For every accepted order the unhindered run, step by step, ends with the row claimed on the indexer's word and the funding spent by the agreed claim, boltz paid the amount and its fee and us the rest |
| AtomicClaims.PassClaimsExactlyWhenSpent | src/atomic/send.ts:915-1005 | From every reachable state, before and after T: a pass that hears 'claimed' for a funded or in-flight row writes it exactly when the indexer shows the recorded output gone; otherwise it keeps the preimage and from T on starts the refund |
| AtomicSafety.RunKeeps | src/atomic/send.ts:123-366 | The invariant over rows, tasks, signatures and ledger holds after every run of events |
| AtomicSafety.StepKeeps | src/atomic/send.ts:870-1056 | and is kept by every single event, whatever state it hits |
| AtomicSafety.LandingNeedsOurSignature | src/atomic/script.ts:98-112 | A spend can enter the ledger only if our key has signed exactly that spend, even when everybody else colludes and knows every preimage |
| AtomicSafety.SignClaimKeeps | src/atomic/send.ts:286-297 | Signing a claim adds only the agreed split to what our key has signed, at most once per swap |
| AtomicSafety.UnwindRegisteredKeeps | src/atomic/send.ts:558-559 | The transitions after a registered unwind leave a row whose outpoint was seen spent, or throw, also when the row moved since it was read |
| AtomicSafety.WriteClaimedKeeps | src/atomic/send.ts:928-945 | Writing claimed from the current state, through ln_inflight when funded, keeps the invariant with or without evidence |
| AtomicHistory.RunGrows | src/atomic/send.ts:123-1056 | Over any run no swap, past state, recorded outpoint, ledger spend, signature or spent-answer is ever lost, and only the swaps the run marks become claimed unchecked |
| Unwind.SubmitUntilRegistered | src/atomic/send.ts:533-556 | The retry loop ends in a registered spend exactly when some variant is not poisoned, and then in the first such one; it never submits a txid twice |
| Unwind.FreshTxidAttempts | src/atomic/send.ts:431-441 | The loop builds the list of variants of the specification |
| Unwind.AttemptsAre | src/atomic/send.ts:431-441 | The variants are the clean output and exactly the splits with a sub-dust part of 1 to 20 sats whose regular part is at least dust, in that order |
| Unwind.AttemptsReturnEverything | src/atomic/send.ts:422-441 | Every variant pays the whole value to us, its regular part is at least dust |
| Unwind.AttemptsAreDistinct | src/atomic/send.ts:514-519 | No two variants have the same txid |
| SharedScript.EveryLeafNeedsTheFunder | src/atomic/script.ts:98-112 | No leaf opens without the funder, whatever others sign or know; funder and server alone open the refund leaf from T on and nothing before |
| SharedScript.CoalitionsOpen | src/atomic/script.ts:98-112 | Which coalition of funder, claimer and server opens which leaf, when |
| SharedScript.BuiltExactlyWhen | src/atomic/script.ts:90-104 | A script is built exactly from three 32-byte keys, a 32-byte hash and positive times; the first fault found is the one reported |
| SharedScript.PaidInFull | src/atomic/script.ts:98-112 | Outputs that all go to one party pay it their total and others nothing |
| SwapState.AtMostFourTransitions | src/atomic/state.ts:34-58 | Every walk through either table has at most four transitions and is over once it reaches a terminal state |
| SwapState.FourTransitionsHappen | src/atomic/state.ts:34-58 | and walks of four transitions exist in both tables |
| SwapState.TerminalMeansNoMove | src/atomic/state.ts:65-77 | A known state is terminal exactly when nothing can follow it |
| SwapState.Predecessors | src/atomic/state.ts:34-58 | Both tables read backwards: exactly which states lead to each; every live state can fail |
| SwapState.UnknownIsAnError | src/atomic/state.ts:65-77 | A state of the other direction throws |
| SwapState.RefundActionIsExact | src/atomic/state.ts:107-126 | Resume chooses a refund exactly from T on for the three states a refund accepts, each of which can legally reach refunded, and nothing exactly for terminal rows |
| SwapState.ResumeActionsAre | src/atomic/state.ts:107-138 | The other actions of both directions, each exactly for its states |
| SwapRepository.MoveIsRefusedExactlyWhen | src/atomic/repository.ts:177-182 | A transition throws exactly for a missing row or a pair not in the table; a terminal row refuses all |
| SwapRepository.RowsEvolve | src/atomic/repository.ts:177-199 | Every operation on a row keeps the swap's terms and a recorded outpoint, and moves the state only along the table |
| SwapRepository.Repository.Create | src/atomic/repository.ts:120-148 | Inserts exactly the row, or refuses a taken id or payment hash and changes nothing |
| SwapRepository.Repository.Transition | src/atomic/repository.ts:177-182 | Changes the state of exactly one row when the table allows it, nothing otherwise |
| SwapRepository.Repository.Touch | src/atomic/repository.ts:184-199 | Changes one column of one row |
| SwapRepository.Repository.ListResumable | src/atomic/repository.ts:160-165 | Lists exactly the rows that still have a legal move |
| ClaimSplit.ComputeClaimSplit | src/atomic/split.ts:80-129 | The imperative split equals its specification, errors included |
| ClaimSplit.SplitConserves | src/atomic/split.ts:64-129 | Every split that does not throw conserves the funding, pays each party what it is owed, has no zero output, sends exactly the amounts below dust to OP_RETURN scripts and respects the cap |
| ClaimSplit.RefusedExactlyWhen | src/atomic/split.ts:80-129 | It throws exactly for bad arguments or too many OP_RETURNs; the default cap with a folded fee never refuses |
| ClaimSplit.FoldedSplitIs | src/atomic/split.ts:80-129 | With the fee folded in the outputs are exactly the claimer's and what is left for the funder, each an OP_RETURN exactly below dust; refused are exactly amounts not positive, not below dust or not covered |
| ClaimSplit.RefusedFor | src/atomic/split.ts:84-88 | Bad arguments are refused for the first thing wrong with them |
| ClaimSplit.RecipientSplitIs | src/atomic/split.ts:93-118 | A fee for a third party is an output of its own between the claimer's and the change |
| ClaimSplit.FundedSplitIsClean | src/atomic/send.ts:184-223 | Any inputs reaching dust + a + fee split into exactly two outputs summing to the funding, with a regular change of at least dust and at most one OP_RETURN |
| Funding.EligibleExactlyWhen | src/atomic/eligibility.ts:26-45 | A coin is accepted exactly when arkd takes it, it is at least dust, and its batch is alive at every instant through the last second of T plus the margin, whether the expiry is reported in seconds or milliseconds: rounding never admits a coin that could be swept before a refund had its time |
| Funding.RefusedFor | src/atomic/eligibility.ts:26-45 | A refused coin is refused for the first rule it breaks |
| Funding.FundAndSplit | src/atomic/send.ts:184-223 | Selection and split composed: every input outlives T plus the margin, inputs are found whenever the eligible coins reach the target, and the split over them is clean |
| Funding.InputsAreEligible | src/atomic/send.ts:187-190 | Every selected input is a coin whose batch outlives T plus the margin, and the selection covers the target |
| MtpClock.EstimateMtp | src/atomic/send.ts:405-420 | Of the newest ten known timestamps the estimate is the one of rank max(0, n - 6) from the oldest: fewer than n minus that rank are younger, at least as many are no older; undefined exactly below five |
| MtpClock.ConservativeExactlyWhen | src/atomic/send.ts:405-420 | With at least six of the eleven known the estimate never exceeds the true median; with five it does so exactly unless a missing one is no older than the oldest known |
| MtpClock.ExactWithTenKnown | src/atomic/send.ts:398-403 | With ten known it equals the median exactly when the missing one is no younger than the estimate or the next known one equals it |
| MtpClock.GateIsSound | src/atomic/send.ts:476-481 | Passing the gate with at least six known timestamps means the chain's median time has reached T |
| MtpClock.FiveCanRunAhead | src/atomic/send.ts:415-416 | A window in which five accepted timestamps give an estimate above the median |
| AtomicReceive.AdvanceEnds | src/atomic/receive.ts:92-99 | Convergence reaches settled exactly from invoice_issued, funded or claimed, refunded exactly from invoice_issued, funded or refund_wait, by legal steps, and otherwise moves nothing |
| AtomicReceive.WalkIsThePath | src/atomic/receive.ts:93-98 | The loop over stops takes exactly that path |
| AtomicReceive.Receiver.AdvanceReceive | src/atomic/receive.ts:92-99 | The loop writes exactly the transitions of that path |
| AtomicReceive.Receiver.Drive | src/atomic/receive.ts:172-270 | One pass, dying at any await: converges on boltz's terminal answers exactly as advanceReceive does, changes nothing without an actionable answer, keeps the log in order; a row that is not claimed yet is settled exactly if boltz signed the claim rebuilt, arkd acknowledges it, the look shows the coin gone and boltz takes the preimage; over a claimed row it posts the preimage exactly if it finds the coin spendable first and sees it gone later |
| AtomicReceive.GoodPassSettles | src/atomic/receive.ts:172-270 | So a pass with every answer good settles; with a truthful indexer when the coin is there at the lookup and the claim reaches the ledger before the look |
| AtomicReceive.Receiver.ComesTooLate | src/atomic/receive.ts:224-226 | With a truthful indexer, once the outpoint of a claimed row is spent no number of passes posts the preimage or moves the row, as long as boltz goes on answering funded: the lookup asks for spendable coins only |
| AtomicReceive.Receiver.DriveAll | src/atomic/receive.ts:277-288 | Any number of passes, each dying anywhere, keeps the log and the ledger in order |
| AtomicReceive.Receiver.FinishClaim | src/atomic/receive.ts:248-251 | The claim is submitted only when boltz pre-signed the very spend we rebuilt, and recorded exactly when arkd acknowledged it |
| AtomicReceive.Receiver.ConfirmAndSettle | src/atomic/receive.ts:253-269 | The preimage is posted exactly when the read shows the outpoint of the pass spent, settled exactly when the post was then taken |
| AtomicReceive.Receiver.RecordFunding | src/atomic/receive.ts:243-247 | The outpoint and the move to funded are written together |
| AtomicReceive.Receiver.Rebuild | src/atomic/receive.ts:198-238 | The claim is rebuilt exactly when the script can be built and the amount is positive, below the server's dust and covered; it spends the outpoint on the claim leaf of the script with our key, pays us the amount as an OP_RETURN, and the funder the rest, as an OP_RETURN exactly below dust |
| AtomicReceive.PostedAfterASpentRead | src/atomic/receive.ts:253-266 | In every log a post of the preimage immediately follows a read that shows that outpoint spent, in state claimed |
| AtomicReceive.PhasesRunOnce | src/atomic/receive.ts:239-251 | Over all passes no transition is taken twice, nothing is claimed again after claimed was recorded, no outpoint is recorded twice |
| AtomicReceive.ClaimsPayUs | src/atomic/tx.ts:189-207 | Every submitted claim is our own rebuild and pays us exactly the amount of the row, the funder the rest |
| AtomicReceive.PaidExactlyWhenClaimed | src/atomic/receive.ts:253-263 | With a truthful indexer a posted preimage means the outpoint was locked to our key and is spent; it went by the claim leaf if and only if by a spend we submitted, which paid us the amount; otherwise by the refund leaf with T reached, or by an exit that had ripened |
| AtomicReceive.SpentMayBeRefunded | src/atomic/receive.ts:253-263 | For every script and ledger: an unspent output locked to our key can go by another leaf if and only if T is reached or it has ripened onchain, and then so that we are paid nothing |
| AtomicReceive.PostsOverARefund | src/atomic/receive.ts:172-269 | From every claimed row whose output is still unspent under that condition there is a pass that posts the preimage and writes settled while the output goes back to its funder |
| AtomicReceive.AcknowledgedThenLost | src/atomic/receive.ts:172-269 | Such a row is reached: a fresh receive whose claim is acknowledged and dropped, and a second pass |
| ExitChain.ParentsAreNamed | src/exit/chain_order.ts:96-106 | An ancestor is listed exactly when a non-blank spend names it as a txid or outpoint and it is not the entry itself, and once |
| ExitChain.DanglingEntries | src/exit/chain_order.ts:118-124 | Exactly the entries that name ancestors of which the chain holds none |
| ExitChain.WholeExactlyWhen | src/exit/chain_order.ts:96-124 | An ancestry is unbroken exactly when every entry that names an ancestor names one that is an entry |
| ExitChain.ProofTxids | src/exit/vault.ts:129-134 | Exactly the entries that are not already onchain |
| Vault.StoreHolds | src/exit/vault.ts:161-211 | A store changes no other row, leaves its row ready exactly when the new chain is whole and every proof is stored or brought, keeps owner and filing, and never shrinks an expiry |
| Vault.CollectHolds | src/exit/vault.ts:316-334 | Collecting orphans costs no row its readiness, quarantined rows included, and keeps exactly the referenced proofs |
| Vault.FlagHolds | src/exit/vault.ts:284-309 | Flagging and clearing change nothing but the flag |
| Vault.ActsHold | src/exit/vault.ts:161-334 | Any sequence of captures, releases, forgets and collections keeps every row it is not aimed at, ready if it was ready |
| Vault.OnlyReleasesTake | src/web/server.ts:734-754 | Of all that other parts of the bridge do, only the release by its own send takes an atomic row away: a capture leaves its owner alone, and a forget is refused unless the row is quarantined, which it never is |
| Vault.ExitVault.StoreVtxoWithProofs | src/exit/vault.ts:161-211 | The row has the value, script, tap tree, status and chain of the capture, its owner and quarantine are those it had, its expiry the later one; of each proof the first copy stays; nothing else changes |
| Vault.ExitVault.QuarantineVtxo | src/exit/vault.ts:284-297 | Keeps the first flag time, refreshes the reason, reports new flags only |
| Vault.ExitVault.ClearQuarantine | src/exit/vault.ts:300-309 | Lifts a flag and reports whether there was one |
| Vault.ExitVault.RemoveVtxo | src/exit/vault.ts:271-274 | Deletes exactly one row |
| Vault.ExitVault.GcOrphanProofs | src/exit/vault.ts:316-334 | Deletes exactly the unreferenced proofs and counts them |
| Vault.ExitVault.MissingProofTxids | src/exit/vault.ts:245-249 | Empty exactly when every needed proof is stored |
| Evidence.VerifiedExactlyWhen | src/exit/evidence.ts:214-276 | A disappearance is verified exactly when the row has not expired and the indexer names and serves a spend that decodes to the named txid and carries our own signature over that outpoint |
| Evidence.VerdictsAre | src/exit/evidence.ts:214-276 | Every verdict and its reason from the answers alone: expired past the expiry, and before it not acknowledged, unrolled elsewhere, still unspent, named but not served, served without our signature, or verified |
| Evidence.ResolveAbsorbedByConservation | src/exit/evidence.ts:179-207 | The grouping loops compute exactly the outpoints of balanced settlements |
| Evidence.AbsorptionIsBacked | src/exit/evidence.ts:179-207 | However the server groups rows, what is absorbed in a pass totals exactly the live vtxos that came out of the settlements credited, none counted twice |
| Evidence.AbsorbedExactlyWhen | src/exit/evidence.ts:179-207 | A row is absorbed exactly when the settlement it is credited to took something from us and created as much for us |
| Evidence.SumsBySettlement | src/exit/evidence.ts:190-202 | What it took are the values of our rows credited to it; what it created the live vtxos whose only commitment it is |
| ProofSync.FileByTxid | src/exit/proof_sync.ts:136-141 | Served transactions are filed under the txid they decode to; unparseable bytes end the fetch |
| ProofSync.FetchProofPsbts | src/exit/proof_sync.ts:127-144 | At most fifty pages; everything filed was served under its own txid, and everything served is filed |
| ProofSync.CaptureVtxo | src/exit/proof_sync.ts:180-209 | Only the captured row is at risk; it says what the capture was given, with the chain just served, and new proofs have the kinds of its entries; it is ready exactly if that chain is whole, no proof counted on was collected during the fetch and every unserved one was stored by somebody else meanwhile; a capture writes nothing only for a rejected or empty answer |
| ProofSync.KindOfEntry | src/exit/proof_sync.ts:190-195 | A proof is stored under the kind of the last entry the chain lists for it |
| ProofSync.GatheredIsReady | src/exit/proof_sync.ts:188-198 | What storing a gathered chain amounts to, complete or not, whatever happened while it was fetched |
| ProofSync.ChooseChain | src/exit/proof_sync.ts:254-257 | A row's own chain is kept exactly when it is not empty and unbroken; any other is asked for |
| ProofSync.MirrorOne | src/exit/proof_sync.ts:254-306 | A row that is not ready: keeps a whole chain, fetches another; the stored row says what the live set says of value, script, tap tree, state and expiry; synced exactly served, failed only for a reason the answers show |
| ProofSync.SyncOne | src/exit/proof_sync.ts:227-309 | A live vtxo is skipped without a request exactly when its row is ready, and then written exactly when the live set reports another state or expiry; no row is lost or degraded, and none gets another script or tap tree unless the live set reports one |
| ProofGc.SortDisappearances | src/exit/proof_sync.ts:316-358 | Exactly the re-listed rows are released, exactly our completed exits deleted, exactly unexplained wallet rows asked about |
| ProofGc.SortedExactly | src/exit/proof_sync.ts:320-358 | Every row before the server is asked: a live one loses its flag, a swept one is gone, one whose exit is under way or of an atomic swap stays unasked, any other is asked about |
| ProofGc.ClassifyDisappearance | src/exit/evidence.ts:214-276 | The verdict is the one the answers heard lead to; no verdict only when a request was rejected |
| ProofGc.SettleRow | src/exit/proof_sync.ts:379-420 | Each row is deleted, flagged or left exactly as its fate says |
| ProofGc.FateIs | src/exit/proof_sync.ts:379-420 | What each fate makes of a row: deleted, flagged since its first flag with the reason, or left |
| ProofGc.SettleAll | src/exit/proof_sync.ts:379-420 | The loop gives every asked row one fate justified by answers of this pass |
| ProofGc.CollectGone | src/exit/proof_sync.ts:311-421 | The whole second half: rows outside what others touched are exactly the sorted rows with fates carried out, and no orphan proof stays |
| ProofGc.SyncProofs | src/exit/proof_sync.ts:211-423 | A full pass loses or degrades only rows it has evidence against or others worked on |
| ProofGc.ActsAreLocal | src/exit/vault.ts:161-334 | Other parts of the bridge change only the rows they are aimed at |
| VaultTheorems.NeverDegraded | src/exit/proof_sync.ts:211-309 | Over any run of executed passes and captures, with releases, forgets and collections in between and during them: a row no step was aimed at or had evidence against stays, keeps its owner, never sees its expiry shrink, and once ready is ready at every later time under the same chain |
| VaultTheorems.SpendDataStays | src/exit/vault.ts:177-206 | Over any such run a row no step was aimed at keeps the script and tap tree an exit is swept by, as long as every pass reports it with the same ones |
| VaultTheorems.RunAll | src/exit/proof_sync.ts:180-423 | Executes any sequence of passes, captures and idle waits and returns what each step was aimed at: the outpoints others worked on, the one captured, the ones forgotten as swept, absorbed or verifiably spent |
| VaultTheorems.StaysFiled | src/exit/proof_sync.ts:127-144 | Over any such run every stored proof stays filed under the txid it decodes to |
| VaultTheorems.AtomicRowsLeaveTwoWays | src/exit/proof_sync.ts:311-421 | Over any such run an atomic row leaves the vault only by a release of its send or after an exit of our own had swept it |
| VaultTheorems.ForgottenNeedsEvidence | src/exit/proof_sync.ts:311-421 | A forgotten row was not live and was swept by us, or was a wallet row absorbed by a balanced settlement or spent with our own signature served in this pass |
| VaultTheorems.LiveAndAtomicStay | src/exit/proof_sync.ts:320-358 | A live row, an unswept atomic row and a row whose exit is under way outlast every pass |
| VaultTheorems.UnexplainedIsFlagged | src/exit/proof_sync.ts:392-420 | An unexplained row keeps its chain, script and tap tree and its first flag time, and has the reason of its verdict; a row whose check failed on the network stays as it was |
| VaultTheorems.ForgottenSatsAreBacked | src/exit/evidence.ts:179-207 | The sats forgotten as absorbed in a pass equal the live sats that came out of the settlements credited |
| VaultTheorems.CompleteButNotReady | src/exit/proof_sync.ts:188-208 | An executed capture that says complete and leaves an unready row: a collection during its fetch takes a proof the new chain shares |
| VaultTheorems.OnlyCollectingLoses | src/exit/proof_sync.ts:188-208 | Without such a collection nothing counted on is lost |
| VaultTheorems.RecaptureDegrades | src/exit/proof_sync.ts:180-208 | Whatever ready row a capture is aimed at, one answer with a hole costs the row its readiness |
| VaultTheorems.RecaptureExactlyWhen | src/exit/proof_sync.ts:180-208 | With nobody else at work a captured ready row stays ready exactly when nothing was written, or the newly served chain is whole and each of its proofs was stored or served |
| ChainOrder.ChainGraph | src/exit/chain_order.ts:126-197 | For every chain, cyclic ones included: each distinct txid in one level and once, no empty level, lanes that differ within a level and go up to the width, exactly the named edges; without a cycle a level is the longest-path depth and edges go strictly down |
| ChainOrder.TopoOrder | src/exit/chain_order.ts:147-170 | The waves end on every graph with every node once; parents come first exactly when there is no cycle |
| ChainOrder.NoWayUp | src/exit/chain_order.ts:151-169 | A wave without progress means a cycle |
| ChainOrder.OrderedIsAcyclic | src/exit/chain_order.ts:147-170 | A parents-first order exists only without a cycle |
| ChainOrder.DepthIsLongestPath | src/exit/chain_order.ts:172-179 | The computed depth is the length of a path from a parentless node, and no path is longer |
| ChainOrder.LevelIsDepth | src/exit/chain_order.ts:180-185 | No depth is skipped, so filtering empty rows moves nothing |
| ChainOrder.PlaceLevel | src/exit/chain_order.ts:61-87 | No two nodes of a level share a column; each has the first free column at or right of where it wants to be, in order of preference |
| ChainOrder.AssignLanes | src/exit/chain_order.ts:61-87 | Every node gets a lane, no two of a level the same; level by level, under the mean of the parents already laid out |
| ChainOrder.LanesDiffer | src/exit/chain_order.ts:61-87 | Lanes within a level differ in the finished layout |
| ChainOrder.RootsKeepOrder | src/exit/chain_order.ts:64-65 | The top level keeps the order of emission, lane by lane |
| ChainOrder.UnderTheMean | src/exit/chain_order.ts:66-85 | A node lies at or right of the mean of its laid-out parents' lanes, rounded down, and only as far right as nodes that come before it in its level push it |
| ChainOrder.BranchesRunStraight | src/exit/chain_order.ts:55-87 | A node with one laid-out parent gets that parent's lane unless a node before it in its level has it; a merge of two gets the mean of theirs, rounded down |
| ChainOrder.Nodes | src/exit/chain_order.ts:127-133 | The first entry of each txid, in order |
| ChainOrder.ParentsOf | src/exit/chain_order.ts:135-141 | The parents the chain holds, per first entry |
| ChainOrder.ByDepth | src/exit/chain_order.ts:180-184 | Rows by depth, with no row above the deepest |
| ChainOrder.Edges | src/exit/chain_order.ts:187-192 | Exactly the parent and child pairs |
| ChainOrder.ReachesARoot | src/exit/chain_order.ts:108-124 | Without cycles and dangling entries every entry is led up to one that names no ancestor |
| CoinSelect.SelectSpendInputs | src/coin_select.ts:78-117 | The choice is the specified one: the best single coin, else the shortest covering prefix of the coins worth something, else of all, else nothing; what best and prefix mean is told by the next rows |
| CoinSelect.SingleIsLeast | src/coin_select.ts:86-97 | Of the coins that cover alone the one with the least value over its exit cost, then the least value, then the first outpoint |
| CoinSelect.MergeTakesTheCheapest | src/coin_select.ts:99-116 | Every coin merged has a lower exit cost than every coin left out, or the same and at least the value, or the same and the earlier outpoint; coins not worth their exit compete once such are merged at all |
| CoinSelect.MergeComesInOrder | src/coin_select.ts:99-116 | and the merge is in that order |
| CoinSelect.SelectionCovers | src/coin_select.ts:78-85 | A selection is part of the pool and totals the target or leaves a change that is not sub-dust |
| CoinSelect.SingleIsOptimal | src/coin_select.ts:21-33 | When one coin covers, the chosen one destroys no more exit value than any other that covers, for every hop cost |
| CoinSelect.WrittenOffOnlyWhenForced | src/coin_select.ts:69-73 | A written-off coin is merged only when the coins worth something are below target plus dust together |
| CoinSelect.MergeStopsAtOnce | src/coin_select.ts:104-113 | No proper prefix of a merge covers |
| CoinSelect.NeverRefusedWhenCovered | src/coin_select.ts:75-77 | A pool whose total covers is never refused |
| CoinSelect.OrderDoesNotMatter | src/coin_select.ts:75-77 | Permuting the pool changes neither the choice nor its order |
| CoinSelect.Accumulate | src/coin_select.ts:104-113 | Stops at the first covering prefix or reports that none covers |
| Boost.Solve | src/exit/boost.ts:452-475 | The accepted fee is the least any number of the largest coins can pay and equals what its own selection needs, in at most one round more than coins; the cap fires only with ten coins or more; a refusal means nothing could pay |
| Boost.LeastOverAllSelections | src/exit/boost.ts:383-394 | No choice of coins at all carries the child with a smaller fee |
| Boost.PayingMeetsTheRules | src/exit/boost.ts:246-248 | A fee is enough exactly when the whole package meets the target rate and a replacement pays its old fee plus one sat for each vbyte and one more (rules 3 and 4 of BIP 125); a paid one leaves change of at least 546 in a child of at most 1000 vbytes |
| Boost.TrialNext | src/exit/boost.ts:458-474 | A round either confirms the trial fee or raises it and its input count, never past a fee that pays |
| Boost.SelectFuel | src/exit/boost.ts:383-394 | The fewest of the largest coins that reach the target, or none |
| Boost.FuelPool | src/exit/boost.ts:362-381 | Largest first: exactly the confirmed wallet coins as last listed, and the stuck child's own inputs where the wallet has no confirmed coin, each with its value and once; no unconfirmed wallet coin |
| Boost.UsableExactly | src/exit/boost.ts:366-380 | The same of the table the pool is made from |
| Boost.NeededGrows | src/exit/boost.ts:466-466 | More inputs never need a smaller fee |
| Descriptor.ChecksumIsTheTail | src/lib/descriptor.ts:42-50 | Of all eight-symbol tails exactly the checksum brings the state of the whole stream to one |
| Descriptor.BurstsAreSeen | src/lib/descriptor.ts:11-22 | Streams that differ only within eight consecutive symbols have different checksums |
| Descriptor.NearbyErrorsAreSeen | src/lib/descriptor.ts:24-50 | Any mistake within four consecutive characters changes the checksum string |
| Descriptor.StepIsLinear | src/lib/descriptor.ts:13-20 | A step is linear over exclusive or |
| Descriptor.StepKernel | src/lib/descriptor.ts:13-20 | and maps no two states to one |
| Descriptor.GeneratorsDouble | src/lib/descriptor.ts:9 | The generator words are the generator polynomial and its doubles in the field of 32 elements, symbol by symbol |
| Descriptor.PolymodFits | src/lib/descriptor.ts:11-22 | The state stays below 2^40 |
| Descriptor.Polymod | src/lib/descriptor.ts:11-22 | The nested loops compute the fold of the steps |
| Descriptor.Expand | src/lib/descriptor.ts:24-40 | The grouping loop computes the expansion and rejects exactly the strings with a character outside the charset |
| Descriptor.ExpandedDiffers | src/lib/descriptor.ts:24-40 | Nothing is lost in the expansion |
| Descriptor.DescriptorChecksum | src/lib/descriptor.ts:42-50 | The loop writes the eight characters of the checksum |
| Descriptor.ChecksumsDiffer | src/lib/descriptor.ts:44-49 | Different checksum words give different checksum strings |
| RelayGate.SocketsAreSpaced | src/nostr/relay_gate.ts:95-132 | Over every run, connections that come up unreported included: each new socket comes stableAfter after the one before, or under a grown failure count after at least the shortest delay of that count, exactly unless the gate never heard that the one before came up; then it is let through under the same count |
| RelayGate.SpacedExactlyWhen | src/nostr/relay_gate.ts:99-117 | The sockets of a run are spaced so at every point if and only if no caller asks, within stableAfter of an attempt, after a connection that came up and dropped without a report or a look |
| RelayGate.StepIsSpaced | src/nostr/relay_gate.ts:95-118 | The same for one event in every good state |
| RelayGate.OnlyPublishedNeverBacksOff | src/nostr/relay_gate.ts:99-117 | A relay that drops every socket at once and is only published to is let through at any pace, for ever, with the count at zero |
| RelayGate.KickedSocketsAreNotSpaced | src/nostr/relay_gate.ts:24-28 | and at less than stableAfter from one to the next no two of those sockets keep the distance |
| RelayGate.SocketsAreFew | src/nostr/relay_gate.ts:95-132 | which bounds the sockets in any span of time, beside those opened over a connection unheard of |
| RelayGate.RetriesBackOff | src/nostr/relay_gate.ts:83-91 | and makes the backoff exponential up to the cap in the number of retries that are not such, while no two sockets are stableAfter apart |
| RelayGate.FirstLookDecides | src/nostr/relay_gate.ts:99-117 | A dropped connection is forgiven exactly when the first look after it is stableAfter past the gate's first word of it, a report or a look while it was up, however soon it dropped and whatever was asked in between |
| RelayGate.ReportsCountOnce | src/nostr/relay_gate.ts:120-127 | Further reports inside the block of a failed attempt change nothing |
| RelayGate.CountFallsOnlyWhenStable | src/nostr/relay_gate.ts:95-132 | The count falls only on such a look |
| RelayGate.JitterIsAFifth | src/nostr/relay_gate.ts:85-86 | The delay is within a fifth of min(base * 2^(n-1), max), rounding aside |
| RelayGate.JitterGrows | src/nostr/relay_gate.ts:85-86 | A larger draw never shortens it, and the middle one leaves it as it is |
| RelayGate.BackoffDoubles | src/nostr/relay_gate.ts:83-91 | The delays start at the base and double up to the cap: 5, 10, 20 seconds to 5 minutes by default |
| RelayGate.Gates.Allow | src/nostr/relay_gate.ts:95-118 | A caller that is not connected is let through only at or after blockedUntil; the state changes as specified |
| RelayGate.Gates.Penalize | src/nostr/relay_gate.ts:83-91 | One more failure, blocked within a fifth of the n-th delay |
| RelayGate.Gates.Failed | src/nostr/relay_gate.ts:120-127 | One report of a failed attempt |
| RelayGate.Gates.Succeed | src/nostr/relay_gate.ts:129-132 | Keeps the first time a connection came up |
| Budget.BudgetHolds | src/handlers/pay_invoice.ts:77-96 | At the end of any run in which every revival had room: the invoice amounts of the live payments of a window are within the budget; and if the run lost no payment to the table, what left the wallet exceeds the budget by no more than what the payments cost beyond their invoices |
| Budget.MovementHoldsExactlyWhen | src/handlers/pay_invoice.ts:77-96 | Over any interleaving, counting every payment that left whatever its row says: at every point each window's movement exceeds the budget by no more than what the payments cost beyond their invoices, if and only if no admission, revival or late claim falls into a window whose live and lost amounts leave no room for it |
| Budget.GatedFailuresLoseNothing | src/handlers/pay_invoice.ts:137-141 | Were the failing write limited to pending rows, a run without late claims would lose no payment to the table: whatever left is settled |
| Budget.GatedBudgetHolds | src/handlers/pay_invoice.ts:137-141 | And then every revival having room is enough for the bound on movement |
| Budget.ForgottenPaymentOverspends | src/handlers/pay_invoice.ts:137-141 | A run that keeps the live amounts within the budget and in which twice the budget leaves, because a failing write hides a payment that left |
| Budget.ForgottenPaymentIsPaidAgain | src/handlers/pay_invoice.ts:137-141 | A run in which the invoice of such a payment, preimage and all, is admitted again |
| Budget.BudgetHoldsExactlyWhen | src/handlers/pay_invoice.ts:77-96 | Over any interleaving, also when check and INSERT lie on different sides of a boundary: every window stays within its budget at every point of the run if and only if no handler settles, into a window without room, a payment failed meanwhile |
| Budget.RevivalExactlyWhen | src/handlers/pay_invoice.ts:166-176 | Such a revival breaks the budget exactly when the window has no room left for the amount |
| Budget.RevivedPaymentOverspends | src/handlers/pay_invoice.ts:166-172 | A run that spends twice the budget |
| Budget.CheckCoversWindow | src/lib/budget.ts:87-103 | A sum taken before a boundary covers everything in the window after it, fees included |
| Budget.CheckIsExact | src/lib/budget.ts:87-103 | and nothing else: it is exactly the amounts and known fees of the payments since that have not failed |
| Budget.PaysOnce | src/handlers/pay_invoice.ts:53-75 | Over any run in which every settlement brings a preimage and no failed payment is revived beside another, a connection never has two live payments of one payment hash; and if no payment is lost to the table, money never leaves twice for one hash |
| Budget.PaysOnceExactlyWhen | src/handlers/pay_invoice.ts:53-75 | Over any interleaving, counting live payments or also those that left and are marked failed: never two of one payment hash on a connection if and only if nowhere in the run an invoice is paid again where the first settled row cannot prove a payment, and no failed payment is revived, or leaves after all, beside another |
| Budget.UnprovenPaymentIsPaidAgain | src/boltz.ts:384-396 | A run in which a listener settles without a preimage and the invoice is paid again |
| Budget.Ledger.Admit | src/handlers/pay_invoice.ts:53-96 | The stretch from the checks to the INSERT: the preimage of the oldest settled payment of the hash if it has one, else a refusal while this connection is paying it, else one when the window has no room, else one new pending row with the terms of the request |
| Budget.Ledger.CycleSpent | src/lib/budget.ts:87-103 | The sum of amounts and known fees of the live rows since the window start |
| Budget.Ledger.Update | src/boltz.ts:330-396 | The later writes: listeners only to pending rows, never replacing a preimage they find, handlers to their row in any state; a payment's money leaves once, whether or not its settlement can still be written |
| LnDrain.LnDrainInvoiceSat | src/send.ts:209-220 | From any positive estimate the two walks end at the largest invoice whose total fits, or show that none does |
| LnDrain.EstimateIsEnough | src/send.ts:213-214 | The exact estimate is not positive only when nothing fits |
| LnDrain.ResidueIsOneSat | src/send.ts:198-207 | At a rate of at most one, at most one sat stays behind |
| LnDrain.FundingAmount | src/ln_send.ts:70-79 | Refuses exactly what the balance does not cover; spends all exactly within the slack of two sats |
| LnDrain.Drain | src/ln_send.ts:12-23 | Together they empty the wallet even if the server's total is a sat below or anything above ours that the balance covers |
| Noffer.RoundTripExactlyWhen | src/clink/nip19_offer.ts:93-124 | Decode after encode returns the pointer exactly for a 32-byte key, relay and offer of at most 255 bytes and a price that is absent or from 1 to 2^32 - 1 |
| Noffer.ParseInvertsEncode | src/clink/nip19_offer.ts:49-89 | Parsing consumes exactly the encoded entries and returns them in order |
| Noffer.NeverEndsExactlyWhen | src/clink/nip19_offer.ts:77-89 | The parser fails to end exactly on well-framed entries followed by a lone type byte |
| Noffer.PriceInverts | src/clink/nip19_offer.ts:40-47 | Four big-endian bytes give the integer back exactly when it fits 32 bits |
| Noffer.EncodeTLV | src/clink/nip19_offer.ts:49-73 | The filled buffer is the concatenation of the entries |
| Noffer.ParseTLV | src/clink/nip19_offer.ts:77-89 | The loop computes the specified parse |
| Noffer.FramedDecode | src/clink/nip19_offer.ts:93-124 | What decoding gives once the lengths fit: the price modulo 2^32, a zero price lost |

## Left out

- Signatures, hashes, taproot, PSBT and bech32 encodings: a spend is the record of what it commits to, so its txid is injective; a pre-signed transaction is its txid and the outpoints our key signed for; `verifyOurSpend` is membership in that set.
- Byte-level text: UTF-8 and hex appear as the bytes they stand for; outpoints are records, not "txid:vout" strings, except where the chain code splits them.
- AtomicTheorems.FundsAreSafe: the value locked is the coin's own value; that the funding transaction creates an output of the funded total is the wallet's and arkd's business and is not part of this model.
- AtomicClaims.PassClaimsExactlyWhenSpent: an indexer that lies can make a pass write 'claimed'; the statement is for answers that are true when they say spent.
- AtomicRecovery.AlwaysRefundable: lets arkd drop variants and then register one; with every variant poisoned the row stays refundable and the next pass tries again, which is what `Unwind.SubmitUntilRegistered` says about one call.
- Notifications of the send side. Its releases are part of `AtomicSend`; the capture at funding time appears in the vault as an operation of another part of the bridge.
- AtomicRelease.AtomicRowsOutlastTheirOutputs: sends and vault are two systems joined by their releases; that the vault performs no other release is a premise.
- Repeated polling inside `confirmSpent`, `confirmClaimSpent` and `registered`: one answer stands for the outcome of the polls.
- Receive swaps are modelled one at a time; they share nothing but the ledger. `issueAtomicReceive` is its constructor; a row without a stored preimage is never driven.
- The sweep that fails receive rows whose invoice expired unfunded (src/ln_receive.ts:161-183): one legal transition outside the passes.
- The order in which `listVaultVtxos` lists rows: passes are proved for every order.
- ProofGc.SyncProofs: one clock reading stands for all readings of a pass.
- `vaultStats`, `listMaturedBetrayals` and the display fields of chains: counters over what is modelled.
- Boost.Solve: the child's size is any monotone function of its input count; finding the old child, reading rates and broadcasting are not modelled.
- CoinSelect.OrderDoesNotMatter: assumes the collation tells outpoints apart and that no outpoint is listed twice.
- Budget.PaysOnceExactlyWhen: of several settled rows for a hash the oldest answers the query, which has no ORDER BY.
- Budget.MovementHoldsExactlyWhen: what a payment really took is no column of the table; it is counted beside it, so costs the table never hears of stand on the right-hand side.
- The 'never' budget counter, calendar arithmetic of windows (any monotone window start will do) and notifications.
- LnDrain.LnDrainInvoiceSat: rates are fractions; floating-point rounding is covered by quantifying over the starting estimate, a rounding error inside the fee itself is not.
- `offboardDustChange`, destination parsing, HTTP handlers, Nostr transport, the web user interface and configuration.
