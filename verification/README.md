# Sequential gate: a verified model

The gate is a NEAR contract that accepts signed intents from whitelisted relayers, parks each of them under a
yield, and lets one approver release them, singly or as a chained batch whose order is the approver's to choose.
This project models the gate, the asynchronous runtime it lives in, the wire format it parses, its two
demonstration targets and the client that builds batches and checks the targets' logs. It proves what all of
these keep over every run and under every interleaving.

`dafny verify dfyconfig.toml` checks the whole project.

## How it is laid out

| file | contents |
|---|---|
| `Types.dfy`, `Borsh.dfy`, `Nep366.dfy` | integers and bytes; Borsh primitives; the NEP-366 delegate as printer and parser functions, and the theorems about them |
| `WireLayout.dfy` | the format in literal bytes: field order, integers, tags, what a wrong tag or a cut does, one message spelled out |
| `Nep366Io.dfy` | the reader, the writer and the entry point as the contract has them, proved equal to the functions |
| `Nonces.dfy` | the replay key, its injectivity, and decimal rendering |
| `GateSpec.dfy` | every entry point as a function from storage and context to a new storage and a request, or a panic |
| `GateContract.dfy` | class `Gate`: the same entry points as code that updates fields step by step and may panic half way, proved equal to `GateSpec` |
| `EntryPoints.dfy` | for every entry point, when exactly it commits, what it then leaves, and why it panics otherwise |
| `Runtime.dfy` | yields, receipts in flight, events, `Next`, and what a run is |
| `StepEquations.dfy`, `Ledger.dfy` | the equation each kind of step satisfies, the bookkeeping invariant, and that all steps keep it |
| `Discipline.dfy` | the steps that break the order, the runs without them, and how the owner and the approver rule them out |
| `Chain.dfy`, `Batch.dfy`, `Seam.dfy`, `Completion.dfy`, `Timing.dfy`, `Termination.dfy` | the chained batch: order and exactly when it is kept, stalls, the seam between two batches, refinement of a loop, block spacing, winding down |
| `Authority.dfy` | over runs, who can cause each kind of step, in which worlds, and with what deposit |
| `Integrity.dfy`, `Expiry.dfy`, `Fees.dfy` | what ran is what was signed, replay freedom; when a dispatch is unexpired; the ladder and the ledger of fees |
| `Register.dfy`, `FtShim.dfy`, `Sequence.dfy`, `Oracle.dfy`, `EndToEnd.dfy` | the targets, the client's permutations, its check of a log, and the check run against what the gate did |
| `Scenes.dfy`, `Witnesses.dfy` | concrete runs, and the worlds they are built from: three show where the ordering guarantee ends, one stalls, one dispatches an expired intent, one meets every hypothesis |

A run is a sequence of worlds joined by events that any scheduler may pick. An intent's yield and the receipts
that stem from it run one after the other, so the receipts in flight are the phases of the intents: waiting,
timed out, resumed, calling its target, continuing the chain, finished, rejected or aborted. `batch` numbers on
phases, dispatches and executed calls are history that the contract does not store.

## What is assumed of the environment

- A receipt that panics changes no storage; what it wrote before the panic is discarded.
- A yield fires its callback exactly once. It can be resumed only while it waits, and it may time out only while
  it waits.
- The `.then` callback of a dispatched call runs after the call, whether the call succeeded or failed.
- Only the approve path of the yield callback may fail for gas or balance, because it passes on the signed gas and
  deposit; the intent is then `Aborted`. The static gas of `continue_chain` suffices for it.
- A call that the gate dispatches to itself has the gate as its caller, so the gate's private methods answer it.
  The step in which such a call runs `continue_chain` also does what that method does, with whatever id and
  sequence number the arguments hold. A self-addressed call to `on_intent_resumed` fails, because it carries no
  promise result for the method to read. One to a public method is a transaction with the gate as the caller, next
  to the step in which the call resolves. Any self-addressed call runs on the gas the user signed, and may be cut
  short by it; it then changes nothing. Nobody else can reach a private method.
- The contract is compiled for wasm32 with overflow checks, so vectors are shorter than 2^32, and a counter that
  would overflow panics.
- SHA-256, ed25519, UTF-8 validation, account-id validation and the reading of `continue_chain`'s arguments are
  arbitrary functions (`Host`). Every theorem holds for every choice of them.
- Block spacing, where it is a hypothesis: a receipt runs at least one block after the one that created it.

## Where the code does less than one might expect

- `reset_batch_tail` while a chain receipt is live breaks the order: `Witnesses.ResetBreaksTheOrder` is such a run.
- So does an intent that is addressed to the gate itself: nothing stops a signed call to the gate's own
  `continue_chain`, which then releases the head of the tail out of turn, or panics on an empty tail.
  `Witnesses.SelfCallBreaksTheOrder` is such a run.
- Nothing else does. `Batch.OrderKeptExactly` shows that the chain invariant (one chain receipt at a time, the tail
  what it has yet to release, every batch dispatched and run in its order) holds in all worlds of a run if and only
  if no step of the run is a reset under a live chain receipt or such a release; then the run is a `SafeRun`. The
  theorems about order, stalls, completion and timing hold of all safe runs. The bookkeeping, integrity, replay, fee
  and termination theorems hold of all runs, self-addressed calls included, and so do the two theorems that say what
  the client's check means.
- A run is safe when it is `Disciplined` (`Discipline.DisciplinedIsSafe`), which both parties can see to before they
  send a transaction. What others send, and what the gate refuses, does not matter.
  - The approver approves no intent whose pending entry holds a call to the gate's own `continue_chain` without a
    deposit and with arguments that the method can read. The entry does not change while it is pending.
  - The owner resets only when no receipt is due that would go on to release another intent. The gate's storage shows
    the tail but no receipts. An empty tail means that there is none. Otherwise it can only stem from the intent
    released last, the one before the tail in the batch (`Chain.LiveExactly`), which the last `batch_started` or
    `chain_continued` trace names. That intent's `submit_intent` transaction lists its receipts: none is live once
    its callback has failed, or the `continue_chain` chained on its call has run. From then on the chain stays
    stopped until the reset (`Batch.StalledUntilReset`), so the answer does not go stale.
- The tail is empty as soon as the last intent is released, so the next batch may start, and overtake it, while
  that intent's callback is due: `Witnesses.SeamReordersBatches`. It can do so exactly then: `Seam.SeamExactly`.
  Order holds within a batch, and across batches from the moment the earlier one has nothing in flight:
  `Batch.BatchOver`.
- The client's check can say MATCH for an order that was not run, if some of the calls failed and an earlier run
  left the right values at the end of the log. `Oracle.ShimTrusted` and `Oracle.RegisterTrusted` give the exact
  conditions: the gate's balance covers all the amounts, and the register's counter has room for all the writes.
- A repeated id passes the pre-validation of a batch, which then never dispatches the second occurrence
  (`Completion.RepeatedIdStalls`); `Witnesses.RepeatedIdStallsTheChain` is batch [0, 0].
- Expiry is checked when an intent is submitted, not when it is dispatched: `Witnesses.ExpiredIsDispatched`. In any
  run a dispatch is unexpired if and only if its block is below the expiry the pending entry showed
  (`Expiry.DispatchUnexpired`). That block is B + 1 for an intent released alone in block B and called back at once
  (`Expiry.SingleDispatchUnexpired`), and B + 1 + 3q for the q-th intent of a batch started in block B on the eager
  schedule (`Expiry.EagerDispatchUnexpired`).

## Model

| member | source | states |
|---|---|---|
| `GateContract.Gate.constructor` | contracts/gate/src/lib.rs:96-118 | a new gate has no relayers, intents or batches, and the default ladder |
| `GateContract.Gate.FeeFor` | contracts/gate/src/lib.rs:612-624 | the loop over the ladder returns the first tier whose cap covers n, or none |
| `GateContract.Gate.TakeFee` | contracts/gate/src/lib.rs:630-648 | panics on an uncovered size, a short deposit or an overflow; else adds exactly the tier's fee to the total |
| `GateContract.Gate.SetFeeTiers` | contracts/gate/src/lib.rs:154-169 | owner only; the validation loop reports the first fault, or the whole ladder is replaced |
| `GateContract.Gate.Withdraw` | contracts/gate/src/lib.rs:175-197 | owner only; at most what was collected and not yet withdrawn; records and transfers exactly the amount |
| `GateContract.Gate.SubmitIntent` | contracts/gate/src/lib.rs:219-250 | the checks in the source's order, each with its own panic; an admitted delegate is parked |
| `GateContract.Gate.ParkIntent` | contracts/gate/src/lib.rs:247-294 | mints the id, burns the nonce, bumps the counters, creates the yield with the call baked in, and stores the pending entry |
| `GateContract.Gate.TakeAndResume` | contracts/gate/src/lib.rs:315-331 | takes the intent out of pending and resumes its own yield; panics when unknown or no longer waiting |
| `GateContract.Gate.ResumeIntent` | contracts/gate/src/lib.rs:309-337 | approver only; the fee of a batch of one is charged whatever the decision; the signal carries no sequence number |
| `GateContract.Gate.ResumeBatchChained` | contracts/gate/src/lib.rs:350-400 | refuses an empty batch, a dirty tail or any unknown id; else numbers the batch, sets the tail and releases the first with sequence 0 |
| `GateContract.Gate.ContinueTheChain` | contracts/gate/src/lib.rs:415-454 | answers only to the gate's own account; pops the tail if its head is the expected id, and releases it naming the head that follows |
| `GateContract.Gate.Callback` | contracts/gate/src/lib.rs:471-534 | answers only to the gate's own account; timeout and rejection are counted; approval dispatches the baked-in call, chained to the next intent if there is one |
| `GateContract.Gate.Transaction` | contracts/gate/src/lib.rs:122-210 | every public method, owner methods included, leaves exactly the storage its function says |
| `GateContract.Gate.Receipt` | contracts/gate/src/lib.rs:94-534 | a receipt that panics leaves the storage as it found it |
| `EntryPoints.Deployed` | contracts/gate/src/lib.rs:96-118 | a new gate holds the two roles it was given, each in its place, the default ladder tier by tier, and nothing else |
| `EntryPoints.OwnerOnlyCalls` | contracts/gate/src/lib.rs:122-210 | the six owner calls panic with "owner-only" for everyone else, and only for them |
| `EntryPoints.OwnerSets` | contracts/gate/src/lib.rs:122-210 | each role setter and the reset change exactly the field named |
| `EntryPoints.SetFeeTiersExactly` | contracts/gate/src/lib.rs:154-169 | from the owner, every valid ladder is stored as it is; an invalid one is refused as empty, or for its first cap that is zero or does not exceed the one before it |
| `EntryPoints.WithdrawExactly` | contracts/gate/src/lib.rs:175-197 | the owner takes out an amount if and only if it is within collected less withdrawn; it is recorded and transferred to the account named |
| `EntryPoints.SubmitRefuses` | contracts/gate/src/lib.rs:219-228 | a submission is refused for its caller exactly when that is no relayer, and as invalid exactly when a relayer's bytes spell no delegate |
| `EntryPoints.SubmitsSpelled` | contracts/gate/src/lib.rs:227-245 | bytes that spell a delegate are refused for the first check that fails: signature, height, nonce, number of actions, counters |
| `EntryPoints.SubmitExactly` | contracts/gate/src/lib.rs:219-294 | a submission commits if and only if its caller is a relayer and its bytes spell a delegate that is signed, in time, fresh and of one action, while both counters have room; then exactly its entry, nonce, counters and yield are added, every field from the delegate or the block |
| `EntryPoints.DefaultPrices` | contracts/gate/src/lib.rs:45-57 | 0.03 NEAR up to 3 intents, 0.05 up to 6, 0.06 up to 12, and no larger batch |
| `EntryPoints.ChargedExactly` | contracts/gate/src/lib.rs:612-648 | the fee is that of the first tier that covers the size; it is charged if and only if the deposit covers it and the total can hold it, and each panic has its own condition |
| `EntryPoints.ResumeExactly` | contracts/gate/src/lib.rs:309-337 | resume_intent commits if and only if the approver sends it with the fee of one for an intent whose yield waits; the condition of each panic, and the storage and signal otherwise |
| `EntryPoints.BatchExactly` | contracts/gate/src/lib.rs:350-400 | resume_batch_chained commits if and only if the approver sends a non-empty list of pending ids with its fee while the tail is empty and the first yield waits; the condition of each panic, and the storage and signal otherwise |
| `EntryPoints.ContinueExactly` | contracts/gate/src/lib.rs:415-454 | continue_chain answers only the gate itself, releases exactly the named head of the tail, and has one condition for each panic |
| `EntryPoints.CallbackExactly` | contracts/gate/src/lib.rs:471-534 | the callback answers only the gate itself; a timeout or a denial counts one rejection, an approval dispatches the baked-in call chained to the next intent under the next number; only a counter can make it panic |
| `EntryPoints.SelfChainExactly` | contracts/gate/src/lib.rs:415-416 | which dispatched calls run the gate's own continue_chain, and with which id and number |
| `Nep366.SignedInverse` | contracts/gate/src/nep366.rs:39-161 | parsing what was printed yields the value and leaves what followed it |
| `Nep366.RoundTrip` | contracts/gate/src/nep366.rs:144-161 | every well-typed signed delegate is read back from its own bytes |
| `Nep366.Canonical` | contracts/gate/src/nep366.rs:39-161 | every input the full-consumption parser accepts prints back to the same bytes |
| `Nep366.AcceptsExactly` | contracts/gate/src/nep366.rs:122-161 | the accepted inputs are exactly the printed forms of well-typed values |
| `Nep366.PrefixFree` | contracts/gate/src/nep366.rs:144-161 | no accepted input can be extended to another accepted input |
| `Nep366.DiscriminantBytes` | contracts/gate/src/nep366.rs:23-29 | the discriminant's four bytes are 6E 01 00 40 |
| `Nep366.HashCoversInput` | contracts/gate/src/nep366.rs:163-177 | the signed preimage of an accepted input is those four bytes and the input without its last 65 bytes |
| `Nep366.PreimageInjective` | contracts/gate/src/nep366.rs:163-177 | different delegates have different preimages |
| `Nep366.DomainSeparation` | docs/wire-format.md:31-35 | no preimage begins like a transaction, with an account id of at most 64 bytes |
| `WireLayout.Layout` | contracts/gate/src/nep366.rs:39-161 | the bytes of a message with one action, field by field in order, with every tag |
| `WireLayout.LittleEndian` | contracts/gate/src/nep366.rs:88-95 | byte k of an integer is its digit k to the base 256 |
| `WireLayout.ActionTags` | contracts/gate/src/nep366.rs:122-142 | byte 2 starts a function call, byte 8 is refused as a nested delegate, every other byte as unsupported |
| `WireLayout.KeyTags` | contracts/gate/src/nep366.rs:39-86 | a key is byte 0 and 32 bytes, a signature byte 0 and 64; any other tag is refused and named |
| `WireLayout.StringChecks` | contracts/gate/src/nep366.rs:146-154 | a length-prefixed string is refused when it is not UTF-8, an account id also when it is not a valid one |
| `WireLayout.WrongActionRefused` | contracts/gate/src/nep366.rs:122-142 | a whole message is refused for its first action of another kind, whatever follows |
| `WireLayout.WrongKeyRefused` | contracts/gate/src/nep366.rs:46-86 | a whole message is refused for the tag of its key, or else of its signature |
| `WireLayout.Truncated` | contracts/gate/src/nep366.rs:156-161 | every proper prefix of an accepted message is refused as too short |
| `WireLayout.SampleSpelled` | contracts/gate/src/nep366.rs:237-255 | a message like the one of the tests, byte by byte |
| `Nep366Io.Writer.SerializeDelegate` | contracts/gate/src/nep366.rs:146-154 | writing the fields in order appends the printed form |
| `Nep366Io.Writer.SerializeKey` | contracts/gate/src/nep366.rs:39-44 | appends the key's tag and its 32 bytes |
| `Nep366Io.Writer.SerializeSignature` | contracts/gate/src/nep366.rs:66-71 | appends the signature's tag and its 64 bytes |
| `Nep366Io.Reader.DeserializeKey` | contracts/gate/src/nep366.rs:46-59 | the tag check and the fill of the 32-byte array agree with the parser function, rest of the input included |
| `Nep366Io.Reader.DeserializeSignature` | contracts/gate/src/nep366.rs:73-86 | the same for the 64-byte signature |
| `Nep366Io.Reader.DeserializeAction` | contracts/gate/src/nep366.rs:122-142 | function calls are read, nested delegates and other actions refused with their own errors |
| `Nep366Io.Reader.DeserializeActions` | contracts/gate/src/nep366.rs:146-154 | the counted loop over actions agrees with the parser function and stops at the first error |
| `Nep366Io.Reader.DeserializeSigned` | contracts/gate/src/nep366.rs:156-161 | the whole reader agrees with the parser function |
| `Nep366Io.TryParse` | contracts/gate/src/lib.rs:226-227 | accepts exactly the inputs the parser accepts and consumes whole |
| `Nep366Io.SignedMessageHash` | contracts/gate/src/nep366.rs:166-177 | the buffer that is hashed is the preimage |
| `Nep366Io.VerifySignature` | contracts/gate/src/nep366.rs:195-202 | the host is asked about the signature, that hash and the embedded key |
| `Nonces.NonceKeyInjective` | contracts/gate/src/lib.rs:237-249 | `sender` bar `nonce` determines both, even if the sender contains bars |
| `Nonces.DecimalReads` | contracts/gate/src/lib.rs:237 | the nonce is rendered as the one row of digits without a leading zero that stands for it |
| `Nonces.KeySpelled` | contracts/gate/src/lib.rs:237 | the key of sender `ab` and nonce 42 is `ab|42` |
| `StepEquations.Admitted` | contracts/gate/src/lib.rs:219-245 | an accepted submission came from a whitelisted relayer, parsed, verified, was unexpired, unused and single |
| `StepEquations.CountersBounded` | contracts/gate/src/lib.rs:493-514 | the dispatched and rejected counters cannot overflow once submitting has not |
| `StepEquations.StepMoves` | contracts/gate/src/lib.rs:219-534 | each kind of step changes intents, pending entries, nonces, counters, tail, batches and history as its equation says; roles, ladder and fee totals have their own equations in StepRoles and Fees |
| `StepEquations.StepRoles` | contracts/gate/src/lib.rs:122-147 | the owner never changes, and relayers and approver change only by the owner's calls, by exactly the account named |
| `Ledger.InvKept` | contracts/gate/src/lib.rs:219-534 | every step keeps the bookkeeping invariant |
| `Ledger.Always` | contracts/gate/src/lib.rs:219-534 | so it holds in every world of every run from deployment |
| `Discipline.DisciplinedIsSafe` | contracts/gate/src/lib.rs:202-437 | if the owner resets only without a live chain receipt, and no entry the approver approves with effect calls the gate's own continue_chain, then no step of the run resets under a live chain receipt or releases an intent by such a call |
| `Chain.ChainKept` | contracts/gate/src/lib.rs:350-534 | every safe step keeps the chain invariant |
| `Batch.KeptExactly` | contracts/gate/src/lib.rs:202-454 | and every unsafe step, a reset under a live chain receipt or a release by a self-addressed call, breaks it |
| `Batch.OrderKeptExactly` | contracts/gate/src/lib.rs:202-534 | the chain invariant holds in all worlds of a run from deployment if and only if all its steps are safe |
| `Chain.SingleToken` | contracts/gate/src/lib.rs:371-437 | in a safe run at most one chain token is live; it names the head of the tail, with its position as sequence number; the tail is a suffix of the active batch |
| `Chain.LiveExactly` | contracts/gate/src/lib.rs:199-210 | in a safe run a chain receipt is live if and only if the tail is not empty and the intent released last has one |
| `Chain.DispatchInOrder` | docs/architecture.md:155-168 | in a safe run what a batch dispatched and what its targets ran are prefixes of the approver's order, numbered from 0; no intent is dispatched before the one before it has run |
| `Chain.ChainPanicsUnreachable` | contracts/gate/src/lib.rs:417-425 | in a safe run the two chain panics of continue_chain are unreachable, and an approve callback fails only for gas or balance |
| `Batch.PhasesForward` | contracts/gate/src/lib.rs:266-331 | no intent waits again, and a resolved one stays resolved |
| `Batch.StallsExactlyWhen` | contracts/gate/src/lib.rs:416-445 | of all steps of a safe run, exactly a failed callback of the chain or a link to an intent that no longer waits stalls the chain |
| `Batch.StallCause` | contracts/gate/src/lib.rs:356-369 | in a stalled world the intent whose turn it was has aborted or had left the queue |
| `Batch.StalledUntilReset` | contracts/gate/src/lib.rs:199-210 | in a safe run, from a stall to the owner's reset the tail and the batch's dispatches are frozen, and every new batch is refused |
| `Batch.BatchOver` | contracts/gate/src/lib.rs:371-376 | in a safe run a batch with nothing in flight dispatches and runs nothing more |
| `Seam.SeamExactly` | contracts/gate/src/lib.rs:356-400 | when a batch has just been started, some safe continuation dispatches it before an earlier batch if and only if the callback of an intent of the earlier one is still due |
| `Completion.CompletesExactlyWhen` | contracts/gate/src/lib.rs:350-534 | a batch with nothing in flight has run completely if and only if it repeats no id and every intent was left to its chain |
| `Completion.RepeatedIdStalls` | contracts/gate/src/lib.rs:362-369 | a batch that repeats an id never dispatches the second occurrence |
| `Completion.CompletesIffUndisturbed` | contracts/gate/src/lib.rs:339-454 | once nothing of it is in flight, a batch has run completely if and only if it repeats no id, all its intents waited when it started, and none has since timed out, been released otherwise or aborted |
| `Completion.BatchRefinesLoop` | contracts/gate/src/lib.rs:350-534 | a batch of distinct ids that were left to it, with nothing in flight, dispatched each id once, in order, and left a target that only it called where a plain loop over the calls leaves it |
| `Completion.UndisturbedBatchCompletes` | contracts/gate/src/lib.rs:339-347 | if none of its waiting, distinct intents times out, is released otherwise or aborts, the batch completes under any interleaving and refines the loop |
| `Timing.BlockSpacing` | contracts/gate/src/lib.rs:13-21 | dispatches i and j of a batch are at least 3(j - i) blocks apart |
| `Timing.EagerBatchOnTime` | README.md:59-62 | under the eager scheduler the q-th dispatch is at exactly B + 1 + 3q and all have run by B + 3n, if each intent's deadline is later than B + 3q |
| `Termination.ProgressSpends` | contracts/gate/src/lib.rs:266-533 | each release and each runtime step lowers the weight of the intents; an accepted intent raises it by 4 |
| `Termination.LinearlyManySteps` | contracts/gate/src/lib.rs:266-533 | a run has at most four such steps per accepted intent |
| `Termination.Conservation` | contracts/gate/src/lib.rs:247-250 | submitted = next id = nonces used = dispatched + rejected + aborted + live, and pending holds exactly the waiting and timed-out intents |
| `Termination.QuiescentResolved` | contracts/gate/src/lib.rs:482-514 | when nothing is due, nothing is pending and every intent is resolved |
| `Termination.QuiescentBatch` | contracts/gate/src/lib.rs:350-534 | in a quiescent world every batch is over, and complete exactly under the same conditions |
| `Authority.SinglesExactly` | contracts/gate/src/lib.rs:309-337 | in every reachable world resume_intent takes effect if and only if the approver in force sends it with the fee of one for a waiting intent |
| `Authority.StartsExactly` | contracts/gate/src/lib.rs:350-400 | in every reachable world a batch starts if and only if the approver in force sends it with the fee for its size, the tail is empty, all its intents are pending and the first waits; the batch counter never overflows |
| `Authority.ReleasedByApprover` | contracts/gate/src/lib.rs:309-400 | every release outside the chain was sent by the approver in force with a deposit that covers the least-cap tier for its size |
| `Authority.CollectedWasDeposited` | contracts/gate/src/lib.rs:630-643 | withdrawn <= collected <= the sum of the deposits attached to releases |
| `Authority.RefusedForDeposit` | contracts/gate/src/lib.rs:633-639 | a batch is refused for its deposit if and only if the least-cap tier for its size asks for more |
| `Authority.ParksExactly` | contracts/gate/src/lib.rs:219-294 | in every run a submission is accepted if and only if EntryPoints.SubmitExactly says so, and adds exactly its entry and its waiting intent |
| `Authority.ResetsExactly` | contracts/gate/src/lib.rs:202-210 | the tail is cleared exactly by the owner's reset |
| `Authority.ReceiptsDue` | contracts/gate/src/lib.rs:456-470 | which receipt an intent has due in each phase |
| `Authority.CallbacksExactly` | contracts/gate/src/lib.rs:471-534 | in any run a callback that is not cut short refuses or dispatches as its signal says; only a sequence number at its limit prevents a dispatch |
| `Authority.LinksExactly` | contracts/gate/src/lib.rs:415-454 | a continue_chain receipt releases the intent it names if and only if that is the waiting head of the tail |
| `Authority.CallsExactly` | contracts/gate/src/lib.rs:514-533 | a dispatched call changes the gate if and only if it is an uncut call to the gate's own continue_chain that names the waiting head of the tail |
| `Integrity.DispatchIntegrity` | contracts/gate/src/lib.rs:252-262 | every dispatched call is the single action of a delegate that an accepted, verified, unexpired submission carried |
| `Integrity.ExecutionIntegrity` | contracts/gate/src/lib.rs:507-521 | so is every call a target runs on the gate's behalf |
| `Integrity.ExecutedOnce` | contracts/gate/src/lib.rs:514-533 | no intent's call is run twice, even with unsafe resets |
| `Integrity.PairAcceptedOnce` | contracts/gate/src/lib.rs:237-249 | a (sender, nonce) pair is accepted at most once in a run |
| `Integrity.RejectedBurnsNothing` | contracts/gate/src/lib.rs:243-249 | a step that accepts nothing burns no nonce |
| `Integrity.PairDispatchedOnce` | docs/verification.md:9-13 | two dispatches come from submissions of different pairs |
| `Expiry.PendingShowsDelegate` | contracts/gate/src/lib.rs:273-287 | every pending entry shows the call and the expiry of the delegate it was parked with |
| `Expiry.DispatchUnexpired` | contracts/gate/src/lib.rs:232-235 | in any run, the dispatch of an intent is unexpired if and only if its block is below the expiry its pending entry showed |
| `Expiry.SingleDispatchUnexpired` | contracts/gate/src/lib.rs:309-337 | an intent released alone in block B and called back in the next one is unexpired if and only if B + 1 is below the expiry its pending entry showed at the release |
| `Expiry.EagerDispatchUnexpired` | contracts/gate/src/lib.rs:232-235 | on the eager schedule the q-th dispatch is unexpired if and only if B + 1 + 3q is below the expiry its pending entry showed at the start |
| `Fees.FaultExactly` | contracts/gate/src/lib.rs:157-162 | the validation loop finds no fault if and only if the caps ascend strictly above the previous one |
| `Fees.SetterExact` | contracts/gate/src/lib.rs:149-163 | the setter accepts exactly the owner's non-empty ladders with positive, strictly ascending caps |
| `Fees.CoverExactly` | contracts/gate/src/lib.rs:608-624 | on such a ladder the search finds the one least-cap tier covering n, and fails exactly above the last cap |
| `Fees.FeeForReachable` | contracts/gate/src/lib.rs:608-624 | in every reachable world the ladder is such, and withdrawals never exceed collections |
| `Fees.FeeLedger` | contracts/gate/src/lib.rs:175-191 | collected is the sum of the fees in force at each successful release, under any rotation of the ladder; withdrawn is the sum of withdrawals |
| `Fees.RatePerIntent` | contracts/gate/src/lib.rs:630-643 | if every ladder in force charges a rate per intent, so do the collections for every intent released or still to be released |
| `Fees.DefaultLadderRate` | contracts/gate/src/lib.rs:45-57 | under the default ladder that is 0.005 NEAR per intent |
| `Register.Register.Set` | contracts/register/src/lib.rs:29-38 | overwrites, appends and counts; panics when the counter would overflow |
| `Register.Register.Get` | contracts/register/src/lib.rs:43-49 | the three fields |
| `Register.Register.Clear` | contracts/register/src/lib.rs:54-59 | back to the empty register |
| `Register.Register.Receipt` | contracts/register/src/lib.rs:24-60 | a call that panics leaves the register as it was, and the fields stay in agreement |
| `Register.LogIsWritten` | contracts/register/src/lib.rs:26-59 | in every reachable register the count counts the log, the current value is its last entry, and the log is the values written since the last reset |
| `FtShim.FtShim.constructor` | contracts/ft-shim/src/lib.rs:33-45 | the owner holds the whole supply |
| `FtShim.FtShim.TransferTo` | contracts/ft-shim/src/lib.rs:49-76 | the checks in order, then debit with removal of a zero entry, credit and log; nothing is written on a panic |
| `FtShim.FtShim.Balance` | contracts/ft-shim/src/lib.rs:78-80 | a missing entry counts as zero |
| `FtShim.FaultsExactly` | contracts/ft-shim/src/lib.rs:49-66 | each panic has exactly its own condition, that of the first check that fails |
| `FtShim.TransferExactly` | contracts/ft-shim/src/lib.rs:63-76 | the two balances move by the amount, the log grows by the transfer, and exactly a sender left with nothing loses its entry |
| `FtShim.SucceedsExactlyWhen` | contracts/ft-shim/src/lib.rs:51-61 | when balances add up to the supply, a transfer succeeds iff the amount is positive and covered and the ends differ |
| `FtShim.SupplyConserved` | contracts/ft-shim/src/lib.rs:33-76 | in every reachable state balances add up to the supply, each is initial + inflow - outflow of the log, and the overflow panic is unreachable |
| `FtShim.ZeroEntriesUnobservable` | contracts/ft-shim/src/lib.rs:63-80 | a shim that kept zero entries would give the same views after any history |
| `Sequence.ShuffleInPlace` | scripts/src/commands/sequence.ts:40-47 | the loop that swaps array cells computes the shuffle of its choices |
| `Sequence.ShufflePermutes` | scripts/src/commands/sequence.ts:40-47 | every result is a permutation |
| `Sequence.ShuffleInjective` | scripts/src/commands/sequence.ts:42-45 | different choices give different results |
| `Sequence.ShuffleSurjective` | scripts/src/commands/sequence.ts:42-45 | every permutation is the result of some choices |
| `Sequence.ShuffleSpelled` | scripts/src/commands/sequence.ts:40-47 | the last choice decides the last place, and one shuffle spelled out |
| `Sequence.SortsToIdentity` | scripts/src/commands/sequence.ts:55-57 | the sorted copy is 0 .. n-1 if and only if the list is a permutation |
| `Sequence.CountsUp` | scripts/src/commands/sequence.ts:56-62 | the comparison loop accepts exactly 0 .. n-1 |
| `Sequence.Validate` | scripts/src/commands/sequence.ts:52-63 | accepts exactly the permutations, telling a wrong length from a wrong content |
| `Sequence.ParsePermutation` | scripts/src/commands/sequence.ts:38-69 | the identity, the shuffle of the random choices, or the given list; a given list of the wrong length or that is no permutation is refused as such |
| `Sequence.BatchIsEachOnce` | scripts/src/commands/sequence.ts:267 | a batch built from a permutation of distinct ids repeats none and leaves none out |
| `Sequence.ExpectedSpelled` | scripts/src/commands/sequence.ts:71-79 | the expected values are 11, 22, 33, ... and the amounts 100, 117, 134, ..., each where its index stands in the order |
| `Sequence.OrdersShow` | scripts/src/commands/sequence.ts:71-79 | the expected logs of different orders differ |
| `Sequence.SliceComparesTail` | scripts/src/commands/sequence.ts:296-306 | slicing the last n entries and comparing holds iff the log ends with them, also when it is shorter than n |
| `Oracle.RegisterMatchExactly` | scripts/src/commands/sequence.ts:290-297 | on any register, MATCH iff the current value is the last expected one and the log ends with the expected values |
| `Oracle.RegisterMatchesTail` | scripts/src/commands/sequence.ts:290-297 | on a consistent register the check holds iff the log ends with the expected values |
| `Oracle.ShimMatchesTail` | scripts/src/commands/sequence.ts:298-306 | on the shim it holds iff the logged amounts end with the expected ones |
| `Oracle.RegisterTrusted` | scripts/src/commands/sequence.ts:290-297 | for n >= 2 the check tells all orders apart on every reachable register with that count iff the counter has room for n |
| `Oracle.ShimTrusted` | scripts/src/commands/sequence.ts:298-306 | for n >= 2 the check tells all orders apart on every reachable shim with that gate balance iff the balance covers all amounts |
| `EndToEnd.RegisterOracle` | docs/verification.md:45-62 | in any run, safe or not, once exactly the planned calls reached the register, MATCH iff they did so in the approver's order |
| `EndToEnd.ShimOracle` | docs/verification.md:45-62 | the same for the shim |
| `EndToEnd.RegisterBatchMatches` | docs/verification.md:67-78 | a completed batch built from a permutation, with no other caller, gives MATCH, and the register's count and log grow by exactly its writes |
| `EndToEnd.ShimBatchMatches` | docs/verification.md:67-84 | on the shim it gives MATCH, and the receiver gains and the gate pays exactly the sum of the amounts |
| `EndToEnd.SubmissionsPlan` | scripts/src/commands/sequence.ts:246-264 | accepted submissions of the planned delegates, in index order, park distinct intents that carry exactly the planned calls for the rest of the run |
| `EndToEnd.SequenceCommandMatches` | scripts/src/commands/sequence.ts:239-297 | from the signed delegates to MATCH: submissions in index order, a batch built from the permutation and run to its end, the register's log extended in the permutation's order |
| `EndToEnd.SequenceCommandMatchesShim` | scripts/src/commands/sequence.ts:239-306 | the same for the shim: its log grows by the planned amounts in the permutation's order |
| `Witnesses.ResetBreaksTheOrder` | contracts/gate/src/lib.rs:199-210 | a run with every approval vetted and one reset during a live chain, in which two tokens are live, continue_chain panics on a mismatch, and both batches lose their order |
| `Witnesses.SelfCallBreaksTheOrder` | contracts/gate/src/lib.rs:507-521 | a run without resets and with one approval of a call to the gate's own continue_chain, which overtakes a batch; alone it would find the tail empty |
| `Witnesses.SeamReordersBatches` | contracts/gate/src/lib.rs:356-376 | a disciplined run in which the second of two batches is dispatched before the last of the first |
| `Witnesses.RepeatedIdStallsTheChain` | contracts/gate/src/lib.rs:428-431 | batch [0, 0] runs its intent once, panics on the unknown id, and stalls |
| `Witnesses.ExpiredIsDispatched` | contracts/gate/src/lib.rs:232-235 | an intent signed up to block 100 is dispatched in block 200 |
| `Witnesses.BatchRunsToItsEnd` | docs/architecture.md:120-153 | a run on the eager schedule that meets every hypothesis of the refinement and timing theorems: two intents released in the opposite of their submission order |

## Left out

- The strength of SHA-256 and ed25519: what is hashed and checked is modelled, not how hard it is to forge.
- Whether the embedded key belongs to the sender account: the contract does not check it.
- The refusal of an attached deposit by methods that are not marked payable, which the SDK's wrapper makes before the
  method's body runs: the theorems about an entry point are about its body.
- Base64 and JSON encoding of arguments, callback arguments and signals, which are carried as values.
- Trace events and log strings, and the read-only views of the gate, which only return fields.
- Storage staking, real gas costs and the account balance. In particular nothing says that the balance covers the
  fee ledger: dispatched deposits and withdrawals come out of the same account.
- The 202-block timeout as a number: the timing theorem takes the timeout as a parameter, and elsewhere a waiting
  yield may time out at any moment.
- JavaScript's number parsing, the size of its numbers and its random generator: the client starts from a list of
  integers, and from the choices a shuffle makes.
- The rest of the client (accounts, keys, deployment, transport, waiting) and its mirror of the fee ladder.
- The `shitzu` target: its contract is not part of this model, and the client checks only its balance deltas.
- A call the gate addresses to one of its own public methods is not tied to the transaction step that carries it
  out: the model lets the gate's own account send any transaction at any time, which covers it.
- How a target reads a call's method and arguments: EndToEnd takes that reading as a parameter.
- `EndToEnd.ShimOracle` and `EndToEnd.RegisterOracle` ask for the conditions that Oracle shows to be exact.
