# Facilitator model

A Dafny model of the payment-channel facilitator, with proofs about whole runs of it. Five parts:

- **The collector** (`rust/facilitator/src/auto_claim.rs`). Every payment channel has a collection that
  turns off-chain charges into one on-chain claim through a write-ahead journal. Workers are cut at every
  remote call, so any other message may run in between, any call may fail, and an upgrade drops all
  workers. `Collector` is the transition system, one function per atomic segment; `AutoClaim` is the same
  collector as a class that changes its maps, text queue, busy set and timer in place, each method proved
  to make the step. `Journal`, `Charges`, `Scheduler`, `Sequences` and `Ledger` hold the invariants, the
  `...Steps` modules prove that every step keeps them, and `Runs`, `CollectionRuns`, `ChargeRuns`,
  `Registrations`, `AttemptStarts`, `KeyRuns`, `Drained`, `Fairness`, `Wakeups`, `Messages`, `Segments`,
  `CollectionLaws`, `Recoveries`, `Admission`, `CreditText` and `Revisions` state what follows for every
  reachable state. `Canister` ties class and runs together: one
  method takes any event of the collector. `Scripts`, `Examples`,
  `KeyWitness` and `HaltWitness` build concrete runs.
- **The channel rules** of server and client (`batch.rs`, `icBatchChannelStorage.ts`): `Batch`,
  `BatchRules`, `ChannelRuns`, `ChannelStorage`, `ClientReads`, `ClientUpdates`, `ClientStrictness`.
- **The ABI printer and parser** (`tx.rs`, `batch_settlement_receipt.ts`), after the Solidity Contract ABI
  Specification, sections "Formal Specification of the Encoding" and "Use of Dynamic Types": `AbiStandard`
  states the encoding once, for values of any shape, with a decoder; `Abi` has the encoders, `AbiDecoder` the
  script's decoder, `ReceiptInputs` what the script accepts, `AbiRoundTrip` what follows for each call.
- **Big numbers by hand** (`hexutil.rs`, `rpc.rs`): `Decimal`, `HexUtil`, `RpcDecimal`, `RpcReceipt`, and
  `SettledEvents`, the events whose logs `RpcReceipt` reads.
- **Principal text** (`batch_production_readiness.ts`), base32 after section 6 of RFC 4648: `Principal`.

How the collector is modelled:

- A run is a sequence of events; an event is a user message, a firing of the timer, one worker segment, an
  upgrade, or something the rest of the canister does to credit, locks and nonces. Clock readings, answers
  of remote calls and the outcome of authorization, configuration and signer checks are parameters of the
  events, so a statement about all runs covers every interleaving and every failure. A worker's return and
  its epilogue are two events, and clock readings need not rise; both only add runs.
- `History` records what no step reads: one ledger entry per attempt with its fate, the charges committed
  since registration, the bytes sent, and the money paid in. The theorems compare the state with it.
- Settlement keys are a datatype. `Keys` proves that their text is injective, and texts that start with
  `auto-claim:` are never used by manual settlements. A scope is the pair of its two addresses.
- The helpers of `lib.rs` (seller credit, nonces, active settlements, the channel update entry point) are
  modelled from their bodies, saturation included. Manual settlements may charge and give back fees, hold
  free scopes and reserve nonces; they give back only what they hold.
- `Prepared` and `Resumed` require what the source unwraps; `Canister.Perform` calls them in any reachable
  state, where `Runs.JournalNeverMissing` provides it.
- The stable B-tree behind the due queue is a sorted sequence of its text keys.

Where the code does less than one might expect, the model follows the code and says exactly when:

- Attempt keys can repeat across registrations: a collection that leaves and is registered again numbers its
  attempts from one. A key is fresh whenever the monitor's reading is at least the total its channel's
  registrations left with (`KeyRuns.KeyIsFresh`, `KeyRuns.KeysNeverRepeat`); a receipt can settle a claim
  before the finalized reading shows it, and for every lower reading there is a run on which a key comes back
  (`KeyWitness.KeyReturnsBelowTheBound`). Within a registration keys differ.
- A drained collection of a disabled seller may go to sleep instead of leaving, and then stays
  (`Drained.DrainedCanStay`, `Drained.SleepsUntilNamed`); `Drained.DrainedLeavesIff` says exactly when it
  leaves.
- A halt after a reverted claim is lifted by a request, and also by leaving and being registered again
  (`Admission.HaltedIff`, `Registrations.RegistrationStands`, `HaltWitness.HaltEndsByLeaving`).
- Credit is booked under normalised addresses but looked up under the receiver text as stored
  (`CreditText.ReservationSeesCredit`, `CreditText.OtherSpellingHappens`).
- Refunds saturate at 2^128 - 1, so conservation has a term for what was dropped (`KeyWitness.PayInsPastTheBound`);
  nonces saturate at the same bound, where uniqueness ends (`KeyWitness.LastNonceRepeats`).
- A revision does not survive deletion (`Revisions.RevisionsRepeat`), so the client's compare-and-swap can
  take a new channel for the one it read (`Revisions.NewChannelIsTakenForOld`); while the channel stands it
  cannot (`Revisions.AnsweredOverTheRead`).
- The client's delete guard is not as strict as the server's (`ClientUpdates.DeleteRefusedIff`, with a concrete
  record for each of its two cases). Its guard on creates and updates is stricter than the server's rules,
  exactly as `ClientStrictness.UpdateGuardIff` and `ClientStrictness.CreateGuardIff` say. Of their cases a changed
  configuration needs a server that does not compare the channel-id hash, which is not part of this model;
  every other case has a concrete record.
- The server takes hex with or without `0x`; the client reads only the prefixed form, and safe integers
  (`ClientReads.ReadableIff`, `ClientReads.BareSignatureIsUnreadable`).
- The decimal product wraps around for factors above 6553 (`RpcDecimal.AlwaysExactIff`), where a build with
  overflow checks would stop instead; its caller stays below.

`dafny verify dfyconfig.toml` checks everything.

## Model

| member | source | states |
|---|---|---|
| Runs.FeeConservation | rust/facilitator/src/auto_claim.rs:597-624 | In every reachable state a seller's credit, the fees held by attempts without bytes, the fees of attempts whose bytes are journaled, what other settlements hold and what saturation dropped add up to everything paid in; nothing is dropped unless more than 2^128 - 1 was paid in |
| Runs.HeldFeesAreOpenAttempts | rust/facilitator/src/auto_claim.rs:511-518 | A fee is held if and only if some collection's current attempt has no bytes yet, one ledger entry per attempt |
| Runs.FeesResolveOnce | rust/facilitator/src/auto_claim.rs:668-681 | Over every run an attempt's fee is refunded or spent once: an entry that was refunded, or whose bytes were written, never changes again, and no send is forgotten |
| Runs.SendsAreJournaled | rust/facilitator/src/auto_claim.rs:733-748 | Only two segments ever send. The first send of an attempt leaves bytes, nonce and hash in the collection, on the lock and in the settlement record; every repeated send finds them there |
| Runs.SendsAreByteIdentical | rust/facilitator/src/auto_claim.rs:763-769 | In every reachable state all sends of one attempt carry the same bytes and the same nonce, those of its journal entry, across failures and upgrades |
| Runs.NoncesAreUsedOnce | rust/facilitator/src/lib.rs:6284-6293 | No two attempts of one sender have bytes with the same nonce, for nonces below the 128-bit bound where the counter saturates |
| KeyWitness.PayInsPastTheBound | rust/facilitator/src/lib.rs:4750-4754 | The drop happens: any two pay-ins that together exceed 2^128 - 1 leave exactly that on credit and lose the rest |
| KeyWitness.LastNonceRepeats | rust/facilitator/src/lib.rs:6284-6293 | That bound is exact: a run on which two attempts of one sender both carry the nonce 2^128 - 1 |
| Runs.NextNonceNeverFalls | rust/facilitator/src/auto_claim.rs:668-673 | A nonce is given back only in the segment that reserved it, for an attempt without bytes: no step of the collector lowers a sender's next nonce |
| Runs.LockIffAttempt | rust/facilitator/src/auto_claim.rs:592-623 | A scope is locked by an attempt's key if and only if that attempt is the current attempt of its collection, with that scope |
| Runs.OneInFlightPerScope | rust/facilitator/src/lib.rs:6186-6202 | Two channels that share a sender and a seller are never both in flight |
| Runs.JournalNeverMissing | rust/facilitator/src/auto_claim.rs:663-681 | A worker that wakes up in prepare or resume finds its collection with the very attempt it holds, in the shape its expect, unwrap and assert need, and the channel still stored |
| Runs.RunKeepsInv | rust/facilitator/src/auto_claim.rs:452-501 | The journal, charge-list, scheduler, numbering and ledger invariants hold after every run of messages, worker segments, failed calls and upgrades |
| JournalSteps.StepKeepsJournal | rust/facilitator/src/auto_claim.rs:592-624 | One step of any kind keeps attempts, locks, settlement records, ledger entries and suspended workers in agreement |
| LedgerSteps.StepMoves | rust/facilitator/src/auto_claim.rs:716-748 | Every step of the protocol is one move of a small fee ledger: take a fee, give it back, write the bytes that spend it, resend, or one of the canister's own money and nonce moves, each only in its own segment |
| Ledger.MoveKeepsBalance | rust/facilitator/src/lib.rs:4730-4754 | Every move of the ledger, saturating refunds included, conserves each seller's money |
| Ledger.MoveKeepsNonces | rust/facilitator/src/lib.rs:6284-6301 | Reserving and rolling back nonces in any order keeps used nonces below the next one and distinct from those of manual settlements |
| KeyRuns.KeysDifferWithinRegistration | rust/facilitator/src/auto_claim.rs:592-596 | The attempts of one registration of a channel have pairwise different keys |
| KeyRuns.KeyIsFresh | rust/facilitator/src/auto_claim.rs:592-596 | A new attempt has a key never used before if the claimed total, the monitor's reading included, is at least the highest total with which a registration of the channel left the map on the run so far |
| KeyRuns.KeysNeverRepeat | rust/facilitator/src/auto_claim.rs:592-596 | Along every run on which readings meet that bound whenever an attempt begins, no two attempts of the channel ever share a key, however often it leaves and is registered again |
| KeyWitness.KeyReturnsBelowTheBound | rust/facilitator/src/auto_claim.rs:549-577 | The bound is tight: for every channel that is opened and charged, every fee, and every reading below the charged total given each time, a run settles attempt one by its receipt, the collection of the disabled seller leaves, and the next registration begins an attempt under the same key |
| KeyWitness.KeyReturnsExample | rust/facilitator/src/auto_claim.rs:549-577 | A concrete channel, charged five with fee one and every reading zero, reaches a state in which an attempt begins under a used key |
| Keys.AttemptKeyInjective | rust/facilitator/src/auto_claim.rs:596-596 | The key text determines channel, target and number, for ids of any length without a colon, so with and without 0x |
| Keys.AttemptKeyMarked | rust/facilitator/src/auto_claim.rs:596-596 | The key starts with the mark of automatic claims |
| CollectionRuns.NoSleepingMoney | rust/facilitator/src/auto_claim.rs:413-439 | In every reachable state a collection with an attempt or with unclaimed charges has a finite due time; if nobody works on it the timer is armed no later than that time and one second after the last arming |
| CollectionRuns.WakeupNeverPostponed | rust/facilitator/src/auto_claim.rs:404-411 | As long as a collection waits and the timer neither fires nor is lost to an upgrade, no sequence of updates, requests, worker segments or switches moves its deadline back |
| CollectionRuns.WorkersBounded | rust/facilitator/src/auto_claim.rs:452-473 | Never more than eight workers, never two for one channel |
| Drained.LeavesIff | rust/facilitator/src/auto_claim.rs:549-577 | A worker takes its collection out of the map if and only if the monitor answered, nothing is in flight, nothing is charged above the claimed total with the answer, the seller is disabled and no reservation is live; without a stored channel one of the last two is enough |
| Drained.DrainedLeavesIff | rust/facilitator/src/auto_claim.rs:515-577 | From the start of its worker, the drained collection of a disabled seller leaves if and only if it is not idle at the start, the configuration is there, the monitor answers, and no reservation is live at the answer |
| Drained.DrainedCanStay | rust/facilitator/src/auto_claim.rs:520-531 | Such a collection can stay: for every new channel whose first reservation lapses within a minute, a run reaches a state where it is drained, its seller disabled, and it sleeps in the map |
| Drained.DrainedStaysExample | rust/facilitator/src/auto_claim.rs:520-531 | A concrete channel for which this happens |
| Drained.SleepsUntilNamed | rust/facilitator/src/auto_claim.rs:483-494 | A sleeping collection stays exactly as it is, without a worker, along every run whose updates, deletions, requests and switches do not concern it, however often the timer fires and the canister is upgraded |
| Fairness.DueIsServed | rust/facilitator/src/auto_claim.rs:452-497 | Nobody starves: once the clocks have passed an idle collection's due time, any run that neither names it nor upgrades the canister starts it, provided it has more dispatches with a free slot than there were idle collections ahead of it |
| Wakeups.ChargeWakes | rust/facilitator/src/auto_claim.rs:333-362 | An accepted charge on a collected channel is stored without asking for admission, adds exactly itself to the list, and makes the collection due at once, timer included, when it fills the hundred or ends a sleep |
| Wakeups.ReservationWakes | rust/facilitator/src/auto_claim.rs:344-361 | A stored update that leaves a live reservation ends a sleep at once |
| Dispatch.DispatchIsEarliest | rust/facilitator/src/auto_claim.rs:461-473 | A dispatch starts exactly the earliest due and idle channels, as many as there are free slots, although it looks at sixteen queue keys only |
| Dispatch.OneKeyEach | rust/facilitator/src/auto_claim.rs:89-101 | The due queue has exactly one key per collection |
| DueQueue.SavedQueue | rust/facilitator/src/auto_claim.rs:89-95 | Saving a collection keeps the queue sorted and in one-to-one agreement with the map at the current due times |
| DueQueue.QueueOrder | rust/facilitator/src/auto_claim.rs:83-85 | Text order of the queue is numeric order of due times, then order of channels |
| Keys.KeyOrder | rust/facilitator/src/auto_claim.rs:83-85 | Zero-padded text keys compare exactly like their time and channel |
| Keys.DueBound | rust/facilitator/src/auto_claim.rs:464-464 | The dispatcher's upper bound admits exactly the keys due by now |
| Keys.KeyParts | rust/facilitator/src/auto_claim.rs:391-401 | Time and channel can be read back from a key, and the never prefix marks exactly the sleeping collections |
| Canister.Perform | rust/facilitator/src/auto_claim.rs:427-791 | Whatever message, timer firing, worker segment, epilogue or upgrade comes in a reachable state, the handler of the class makes the step of the transition system, keeps queue and map in agreement, finds what prepare and resume unwrap, and leaves a reachable state |
| Canister.Install | rust/facilitator/src/auto_claim.rs:71-78 | A new canister is valid and in a state a run reaches |
| Canister.EarliestIsUnique | rust/facilitator/src/auto_claim.rs:461-473 | There is only one choice of earliest due collections, so the loop over the queue decides the dispatch |
| AutoClaim.Facilitator.Save | rust/facilitator/src/auto_claim.rs:89-95 | Replaces the collection and its queue key; the queue still mirrors the map |
| AutoClaim.Facilitator.Remove | rust/facilitator/src/auto_claim.rs:96-101 | Removes the collection and its queue key; the queue still mirrors the map |
| AutoClaim.Facilitator.FirstWakeup | rust/facilitator/src/auto_claim.rs:391-401 | The scan of the text queue returns the least finite due time over channels nobody works on |
| AutoClaim.Facilitator.StartTimer | rust/facilitator/src/auto_claim.rs:413-439 | The timer ends armed for the requested deadline or the earlier one it already had, or not at all when nobody waits |
| AutoClaim.Facilitator.Fire | rust/facilitator/src/auto_claim.rs:427-432 | The timer callback forgets the timer and starts an earliest choice of due idle channels, then arms again |
| AutoClaim.Facilitator.StartDue | rust/facilitator/src/auto_claim.rs:452-473 | The take-while, take-sixteen, filter, take-capacity pipeline chooses the earliest due idle channels |
| AutoClaim.Facilitator.SetEnabled | rust/facilitator/src/auto_claim.rs:141-197 | Writes the policy and registers or wakes every collection concerned, or changes nothing when refused or full |
| AutoClaim.Facilitator.RequestClaim | rust/facilitator/src/auto_claim.rs:199-210 | Forces a collection, lifts a halt, makes it due now and arms the timer |
| AutoClaim.Facilitator.BeforeUpdate | rust/facilitator/src/auto_claim.rs:295-331 | Registers, refreshes and decides on a new reservation exactly as the transition system does |
| AutoClaim.Facilitator.AfterUpdate | rust/facilitator/src/auto_claim.rs:333-362 | Records a rise as one charge and wakes a sleeper or a full list |
| AutoClaim.Facilitator.UpdateChannel | rust/facilitator/src/lib.rs:5515-5617 | Compare-and-swap on the revision, the channel rules, the collector before the store and after it |
| AutoClaim.Facilitator.DeleteChannel | rust/facilitator/src/lib.rs:5618-5676 | Removes the channel and its collection only when nothing is reserved, in flight or unclaimed |
| AutoClaim.Facilitator.Start | rust/facilitator/src/auto_claim.rs:511-534 | The worker's first segment: give back an unsent attempt, rest, or go and monitor |
| AutoClaim.Facilitator.RecordMonitorOutcall | rust/facilitator/src/auto_claim.rs:383-389 | Counts an outcall, saturating |
| AutoClaim.Facilitator.Monitored | rust/facilitator/src/auto_claim.rs:535-624 | The segment after the monitor answer: reconcile, then resolve the journal, leave, or reserve scope, fee and attempt at once |
| AutoClaim.Facilitator.Reserve | rust/facilitator/src/auto_claim.rs:589-623 | Lock, fee, attempt and record are all taken or none is |
| AutoClaim.Facilitator.Prepared | rust/facilitator/src/auto_claim.rs:682-748 | After the awaits of prepare everything is given back, or nonce, bytes and hash are journaled before the send |
| AutoClaim.Facilitator.AbandonPrepared | rust/facilitator/src/auto_claim.rs:668-681 | Nonce, fee, lock, record and attempt are given back together |
| AutoClaim.Facilitator.Resumed | rust/facilitator/src/auto_claim.rs:749-791 | Pending resends the stored bytes, a settled claim pays up to its target, a reverted one halts the collection |
| AutoClaim.Facilitator.Finish | rust/facilitator/src/auto_claim.rs:479-497 | The epilogue puts the collection to sleep or makes it due in a minute, frees the slot and arms the timer |
| AutoClaim.Facilitator.Upgrade | rust/facilitator/src/lib.rs:872-882 | Stable maps survive, workers and timer do not, and the timer is armed again |
| AutoClaim.Facilitator.constructor | rust/facilitator/src/auto_claim.rs:71-78 | The empty canister, queue and map in agreement |
| AutoClaim.Facilitator.TakeDue | rust/facilitator/src/auto_claim.rs:462-466 | The prefix of due keys, at most sixteen |
| AutoClaim.Facilitator.StartWindow | rust/facilitator/src/auto_claim.rs:469-477 | Starts the idle channels of the window in queue order until the slots are used up |
| AutoClaim.Facilitator.TouchAll | rust/facilitator/src/auto_claim.rs:187-194 | The loop over the channels concerned registers or wakes each of them and nobody else |
| AutoClaim.Facilitator.Begin | rust/facilitator/src/auto_claim.rs:597-622 | Scope, fee, attempt and settlement record change together |
| AutoClaim.Facilitator.Continue | rust/facilitator/src/auto_claim.rs:549-596 | Resolve the journal first, then leave, wait, or collect |
| AutoClaim.Facilitator.Leave | rust/facilitator/src/auto_claim.rs:550-577 | Removes the collection only when the seller is off and nothing is reserved, or the channel is gone and either holds |
| AutoClaim.Facilitator.JournalAndSend | rust/facilitator/src/auto_claim.rs:741-747 | Nonce, bytes and hash reach attempt, lock and record before the send |
| AutoClaim.Facilitator.Settle | rust/facilitator/src/auto_claim.rs:770-777 | Pays everything up to the target, frees the scope and ends the attempt |
| AutoClaim.Facilitator.Fail | rust/facilitator/src/auto_claim.rs:779-788 | Frees the scope, ends the attempt and halts the collection |
| ChargeRuns.BacklogBound | rust/facilitator/src/auto_claim.rs:235-237 | Never more than 200 outstanding charges, and at most 199 while a reservation is open |
| ChargeRuns.ChargeListExact | rust/facilitator/src/auto_claim.rs:333-349 | In every reachable state the charge list is, in commit order with rising amounts, what was committed since registration minus a paid prefix |
| ChargeRuns.ReconciliationExact | rust/facilitator/src/auto_claim.rs:503-509 | After every monitor answer and every settled claim the claimed total is the larger of the old one and the reading, and the list is exactly the committed charges above it |
| ChargeRuns.InFlightChargesSurvive | rust/facilitator/src/auto_claim.rs:770-777 | After a claim settles, a committed charge is on the list if and only if it is above both the claimed total and the settled target; charges added while it was in flight stay |
| ChargeRuns.RunsMakeProgress | rust/facilitator/src/auto_claim.rs:503-509 | Along every run of one registration the claimed total never falls and no committed charge is lost or reordered |
| ChargeRuns.DrainSafety | rust/facilitator/src/auto_claim.rs:549-577 | A collection leaves the map only by its channel's deletion or its own worker, and only with no attempt and nothing charged above its claimed total |
| ChargeRuns.AmountsParse | rust/facilitator/src/auto_claim.rs:102-104 | The expect on stored amounts cannot fail: in every reachable state the charged totals of channels, seeds, attempts and accepted updates parse as 128-bit numbers |
| ChargeRuns.UnpaidMeans | rust/facilitator/src/auto_claim.rs:505-505 | Retaining what is above a total keeps exactly the charges above it |
| ChargeRuns.ClaimIsCovered | rust/facilitator/src/batch.rs:1082-1107 | In every reachable state an attempt claims no more than its channel has charged and no more than the payer signed, and its claim passes the voucher amount check |
| ChargeSteps.WorkerEventIsPath | rust/facilitator/src/auto_claim.rs:511-624 | A worker segment touches only its own collection: the claimed total does not fall, the list is only reconciled, the target stays charged, due times and other collections stay |
| Charges.UnpaidOfSuffix | rust/facilitator/src/auto_claim.rs:503-509 | Reconciling the stored list gives what reconciling everything ever committed would give |
| MessageSteps.UpdateKeeps | rust/facilitator/src/auto_claim.rs:295-349 | A channel update, accepted or not, keeps every charge list exact and within its limit: a rise fills only the slot its reservation kept free |
| Scheduler.StepKeepsSched | rust/facilitator/src/auto_claim.rs:344-361 | One step of any kind keeps sleepers without work, the timer in time and the workers within their slots |
| Sequences.StepKeepsKeys | rust/facilitator/src/auto_claim.rs:592-596 | One step of any kind keeps the attempt numbers of each registration strictly rising |
| Scheduler.ArmIsOnTime | rust/facilitator/src/auto_claim.rs:404-439 | Arming leaves the timer in time for every collection it has to wake, whatever was armed before |
| Scheduler.ArmIsExact | rust/facilitator/src/auto_claim.rs:404-439 | The deadline exactly: an earlier armed one, or else the least due time to wake for, no nearer than a second from now |
| Scheduler.FireStarts | rust/facilitator/src/auto_claim.rs:427-432 | A firing starts the chosen channels, touches no record, and arms afresh for those that are left; with no collections it only consumes the timer |
| Scheduler.UpgradeRestarts | rust/facilitator/src/lib.rs:872-882 | An upgrade drops the workers, keeps what is stored, and arms afresh for every collection with a due time |
| Admission.ReservationStoredIff | rust/facilitator/src/auto_claim.rs:295-331 | A new reservation on a collected channel is stored if and only if the signer is configured, the collection was registered before, its seller is enabled, no withdrawal is pending, it was monitored less than 120 seconds ago, has fewer than 200 charges, credit for the fee and no standing error, and there is room |
| Admission.AdmittedIff | rust/facilitator/src/auto_claim.rs:295-331 | A new reservation passes if and only if the signer is configured and the collection was registered before and is healthy; so the first one of an unregistered channel only registers the monitor |
| Admission.StopReasonIff | rust/facilitator/src/auto_claim.rs:223-250 | There is no stop reason exactly when the collection is healthy |
| AttemptStarts.AttemptStartsIff | rust/facilitator/src/auto_claim.rs:535-622 | The segment after the monitor answer begins an attempt if and only if nothing is in flight or halted, someone or a withdrawal forces it or at least 100 charges stay unpaid, the charged total is above the claimed total with the answer and within the balance, everything before the lock succeeded, the scope is free, the fee is on credit and a number is left; it then claims the whole charged total under the next number |
| Segments.InterruptedIsGivenBack | rust/facilitator/src/auto_claim.rs:513-518 | The first segment of a worker that finds an attempt without bytes, whatever the configuration: the attempt is gone, the collection forced, the scope free, the record gone, the fee back on the seller's credit and its entry refunded, the worker done, and nothing else has changed |
| Segments.StartDecides | rust/facilitator/src/auto_claim.rs:511-534 | Without such an attempt the first segment changes nothing but the worker, which rests, fails or goes to monitor, under the exact condition for each |
| Recoveries.InterruptedFeeReturns | rust/facilitator/src/auto_claim.rs:513-518 | Over runs: after an upgrade that drops a worker in prepare, as soon as the collection's next worker has started the fee that was held is refunded, and stays so |
| Segments.UnsentIsGivenBack | rust/facilitator/src/auto_claim.rs:668-739 | Whatever keeps prepare from signing, already mined included, gives attempt, fee, scope, record and nonce back |
| Segments.SignedIsJournaled | rust/facilitator/src/auto_claim.rs:733-748 | A signed attempt leaves nonce, bytes and hash in collection, lock, record and ledger entry, and one send of those bytes |
| Segments.UnreadableChangesNothing | rust/facilitator/src/auto_claim.rs:756-763 | A receipt that cannot be read changes nothing but the worker, which returns the error |
| Segments.PendingSendsAgain | rust/facilitator/src/auto_claim.rs:763-769 | A pending receipt sends the stored bytes once more and changes nothing else |
| Segments.SettledPays | rust/facilitator/src/auto_claim.rs:770-777 | A settled receipt raises the claimed total to the target, drops the charges it covers, frees the scope, ends the attempt and records the hash |
| Segments.FailedHalts | rust/facilitator/src/auto_claim.rs:778-787 | A failed receipt frees the scope, ends the attempt, forces and halts the collection, with its error and record |
| CollectionLaws.AttemptEndsIff | rust/facilitator/src/auto_claim.rs:511-791 | Over all events: the attempt of a registered collection ends if and only if it is given back before its bytes, or it has bytes and the event is a settled or failed receipt read for it; its scope is locked until then and free from then on |
| CollectionLaws.FieldsAfter | rust/facilitator/src/auto_claim.rs:503-548 | Over all events: withdrawal and balance change only with a monitor answer and are its own, the claimed total rises only by an answer or a settled receipt, and the error is set, kept or forgotten exactly as listed |
| Segments.AnswerIsRead | rust/facilitator/src/auto_claim.rs:535-548 | After every monitor answer whose collection stays: withdrawal, balance and time of the reading are the answer's, the error is forgotten unless the collection is halted, and what the answer covers is off the list |
| Segments.ForceAfterAnswer | rust/facilitator/src/auto_claim.rs:535-622 | After every monitor answer whose collection stays, exactly when it is forced |
| Segments.NothingLeftRests | rust/facilitator/src/auto_claim.rs:549-577 | With nothing in flight and nothing left to collect the worker is done without an error and the force ends |
| Segments.AttemptComesFirst | rust/facilitator/src/auto_claim.rs:549-552 | With an attempt in flight the worker resumes that attempt, or stops if the network has changed |
| Segments.AttemptTakes | rust/facilitator/src/auto_claim.rs:592-622 | A beginning attempt is the stored channel with its whole charged total under the next number; lock, fee, record and worker are its own |
| Segments.StopSaysWhy | rust/facilitator/src/auto_claim.rs:578-602 | A worker with something to collect that begins no attempt returns the reason, first of the checks that fails |
| Segments.EpilogueWrites | rust/facilitator/src/auto_claim.rs:479-497 | The epilogue keeps the worker's error, and the collection sleeps exactly if nothing is in flight, forced, unclaimed or reserved, else it is due in a minute |
| Segments.OutcallCounts | rust/facilitator/src/auto_claim.rs:383-389 | An outcall adds one and its cycles to the counters, each up to its width, and nothing else |
| Segments.SendChangesNothing | rust/facilitator/src/auto_claim.rs:741-769 | However a send ends, journal, fee and lock stay as they are |
| Recoveries.WithdrawalShuts | rust/facilitator/src/auto_claim.rs:223-250 | Over runs: from a reading with a withdrawal on, no update that opens a reservation of the channel is stored until a reading without one, as long as the collection stays registered |
| Recoveries.FailureShuts | rust/facilitator/src/auto_claim.rs:479-482 | After a worker that ended with an error other than a busy settlement queue no reservation of its channel is stored |
| Messages.StoredIff | rust/facilitator/src/lib.rs:5515-5617 | Every update is stored, under the next revision, if and only if it names the current revision, the channel rules accept it, there is room, and, where it opens a reservation somebody collects for, the signer is configured and the registered collection is healthy |
| Messages.DeletedIff | rust/facilitator/src/lib.rs:5618-5676 | A channel is deleted, its collection with it, if and only if it is stored at the named revision, holds no live reservation or nothing else, and its collection has no attempt, nothing unclaimed and no live reservation |
| Messages.FirstReservationRegisters | rust/facilitator/src/auto_claim.rs:295-331 | The first reservation of an unregistered channel of an enabled seller is not stored: it registers the channel, due at once |
| Messages.StaleIsAskedAgain | rust/facilitator/src/auto_claim.rs:314-326 | A reservation that meets an old reading forgets it and makes the collection due at once |
| Messages.UpdateForces | rust/facilitator/src/auto_claim.rs:333-349 | A stored update forces the collection exactly if it was forced or the seller is disabled, and keeps the new record as its seed |
| Messages.SwitchMeans | rust/facilitator/src/auto_claim.rs:141-197 | A switch, for every channel: who is registered, woken and forced, and that a switch that is refused or does not fit changes nothing |
| Admission.RevertedWaitsForRequest | rust/facilitator/src/auto_claim.rs:778-787 | From the receipt that shows a claim reverted, along every run during which the collection stays registered and nobody requests a claim, the channel gets no further attempt |
| Admission.HaltedIff | rust/facilitator/src/auto_claim.rs:778-787 | A registered collection is halted after a step if and only if the step read a reverted receipt for it, or it was halted and the step is not a request for it |
| Admission.RequestLifts | rust/facilitator/src/auto_claim.rs:199-210 | A request forces the collection, lifts its halt, makes it due now and has the timer armed within a second unless somebody works on it |
| HaltWitness.HaltEndsByLeaving | rust/facilitator/src/auto_claim.rs:549-577 | A halt does not outlive the registration: for every channel with two charges, any fee and any first reading below the first total, a run without a request and with rising readings records its first claim as reverted and later begins an attempt |
| HaltWitness.HaltEndsExample | rust/facilitator/src/auto_claim.rs:549-577 | A concrete channel, charged five and later nine, for which this happens |
| Registrations.RegistrationStands | rust/facilitator/src/auto_claim.rs:105-125 | A registration stands until the collection leaves the map; a collection that was not in the map starts over with nothing claimed, no attempt, no halt and numbering from zero |
| CreditText.ReservationSeesCredit | rust/facilitator/src/auto_claim.rs:238-243 | A reservation sees the seller's credit if and only if the channel stores the normalised address; for any other spelling it sees zero |
| CreditText.OtherSpellingIsRefused | rust/facilitator/src/auto_claim.rs:238-243 | With a positive fee a receiver stored in another spelling can never open a reservation |
| CreditText.OtherSpellingHappens | rust/facilitator/src/auto_claim.rs:238-243 | It happens: on a run, an accepted reservation is refused although the seller's account has the fee and the collection would be healthy if the lookup used that account |
| CreditText.UpperCaseIsRefused | rust/facilitator/src/auto_claim.rs:238-243 | A concrete channel with an upper-case receiver, ten paid in and a fee of one, for which this happens |
| Revisions.RevisionIdentifiesRecord | rust/facilitator/src/lib.rs:5531-5538 | While a channel is not deleted, equal revisions mean the same record |
| Revisions.AnsweredOverTheRead | rust/facilitator/src/lib.rs:5531-5538 | If the channel is stored from a client's read to the arrival of its write, at revisions below the 64-bit bound, the write is answered without a conflict if and only if the stored record is the one that was read |
| Revisions.RevisionsRepeat | rust/facilitator/src/lib.rs:5601-5601 | Across a deletion they do not: any two accepted creates of one id are both stored at revision one |
| Revisions.NewChannelIsTakenForOld | rust/facilitator/src/lib.rs:5531-5601 | It reaches the client: on a run a client reads a channel, the channel is deleted and opened again with another expiry, and the write computed from the old record is answered as stored |
| Revisions.StoreServes | rust/facilitator/src/lib.rs:5531-5617 | Whatever the collector lets through is stored exactly as the compare-and-swap answers it |
| Revisions.DeleteServes | rust/facilitator/src/lib.rs:5618-5676 | Whatever the collector deletes the compare-and-swap answers as deleted |
| Batch.AcceptedStep | rust/facilitator/src/batch.rs:772-796 | An accepted update keeps the amount bounds, lowers no total, and a rise consumes a live reservation and lands exactly on its amount |
| Batch.AcceptedCreate | rust/facilitator/src/batch.rs:809-842 | A created channel has a reservation and nothing charged |
| Batch.ValidMeansWellFormed | rust/facilitator/src/batch.rs:724-770 | A validated channel has charged and claimed within the signed limit and claimed within the balance |
| Batch.MonotonicIsNumeric | rust/facilitator/src/batch.rs:882-889 | Comparing 32-byte words refuses exactly the updates that lower the number |
| BatchRules.ValidIff | rust/facilitator/src/batch.rs:724-770 | A channel is valid if and only if every text has its form, spelled out, the delay is between fifteen minutes and thirty days, charged and claimed totals are within the signed limit and the claimed one within the balance |
| BatchRules.AcceptedIff | rust/facilitator/src/batch.rs:772-889 | An update of a valid channel is accepted if and only if the new record is valid, lowers nothing, and a rise consumes a live reservation and lands on it; a create if and only if it is valid and holds its first live reservation and nothing else |
| BatchRules.VoucherCoversIff | rust/facilitator/src/batch.rs:1082-1107 | The amount check of a claim passes if and only if both texts are amounts and the claim is not above the voucher |
| ChannelRuns.TotalsNeverFall | rust/facilitator/src/batch.rs:772-796 | Along any run of accepted updates the charged, signed, claimed and refund-nonce totals and the timestamp never fall, however far apart the states |
| ChannelRuns.RisesPaidForByOpenings | rust/facilitator/src/batch.rs:844-880 | Rises of the charged total plus the open reservation never outnumber the reservations opened |
| ChannelRuns.RiseAt | rust/facilitator/src/batch.rs:844-880 | Each rise consumes a reservation live at that moment, and the risen total is its text |
| ChannelStorage.ClientGuardImpliesServerGuard | src/icBatchChannelStorage.ts:314-419 | Any create or update the client lets through passes the server's bounds and transition rules at the same clock reading, millisecond against whole-second time included |
| ChannelStorage.CloneIsIdentity | src/icBatchChannelStorage.ts:267-269 | Cloning is the identity on every channel the client can write |
| ChannelStorage.ReadChannelsAreWritable | src/icBatchChannelStorage.ts:184-269 | Every channel the client can read it can also write back and clone |
| ChannelStorage.ReadWriteRoundTrip | src/icBatchChannelStorage.ts:184-265 | Reading and writing back keeps the record except for leading zeros of the refund nonce |
| ClientReads.ReadableIff | src/icBatchChannelStorage.ts:184-225 | The client can read a record if and only if the server's rules hold of it, its hex texts carry the prefix the server leaves open, and its numbers are safe integers |
| ClientReads.ReadFields | src/icBatchChannelStorage.ts:184-225 | What is read is the record field by field, the refund nonce as its value |
| ClientReads.BareSignatureIsUnreadable | src/icBatchChannelStorage.ts:184-225 | Every readable record the server's rules accept they also accept with its signature spelled without the prefix, which the client cannot read |
| ClientStrictness.UpdateGuardIff | src/icBatchChannelStorage.ts:314-419 | The converse of the guard implication, exactly: an update the server accepts passes the client's guard if and only if it keeps the configuration up to case, does not rewrite a reservation or the signed limit under an unchanged reservation id, and, where it raises the charged total, the reservation is live on the client's millisecond clock |
| ClientStrictness.CreateGuardIff | src/icBatchChannelStorage.ts:348-377 | A create the server accepts passes the client's guard if and only if its reservation is live on the client's millisecond clock |
| ClientStrictness.WholeSecondsAgree | src/icBatchChannelStorage.ts:314-419 | At a whole second, where both clocks read the same, only the configuration and the unchanged reservation are left of that condition |
| ClientStrictness.RewriteIsHeldBack | src/icBatchChannelStorage.ts:379-396 | A concrete record and update at any clock below its expiry: the server stores an open reservation's new expiry, the client does not send it |
| ClientStrictness.LateRiseIsHeldBack | src/icBatchChannelStorage.ts:397-419 | A concrete charge at 1600 milliseconds of a reservation that lapsed at 1500: the server, at one second, stores it, the client does not send it |
| ClientStrictness.LateCreateIsHeldBack | src/icBatchChannelStorage.ts:348-377 | A concrete create in the same tail of the server's second |
| ClientUpdates.UpdateChannel | src/icBatchChannelStorage.ts:124-182 | Under any interference, the loop ends with the first round that is not overtaken, every earlier round wrote nothing, and only when all rounds were overtaken does it report a conflict |
| ClientUpdates.UnovertakenIsServed | src/icBatchChannelStorage.ts:140-152 | An update of the record that was read is never refused by the server's own rules |
| ClientUpdates.DeleteRefusedIff | src/icBatchChannelStorage.ts:421-440 | A delete the client lets through is refused exactly when the server still sees a live reservation because of its whole-second clock, or because a zero refund nonce is not spelled "0" |
| ClientUpdates.LateDeleteIsRefused | src/icBatchChannelStorage.ts:421-440 | A concrete record and clock for the first kind: the client deletes at 1600 milliseconds what lapsed at 1500 |
| ClientUpdates.DoubleZeroDeleteIsRefused | src/icBatchChannelStorage.ts:421-440 | A concrete record for the second kind, one the server accepted: the refund nonce is spelled "00" |
| ClientUpdates.UpdatedIsWhatWasComputed | src/icBatchChannelStorage.ts:170-177 | What an update returns is what the caller computed from the snapshot, stored over the revision it was read at |
| ClientUpdates.OutcomeTellsEffect | src/icBatchChannelStorage.ts:124-182 | The outcome tells what happened on the server: updated, the computed record is stored under the revision after the one read; deleted, a record is gone; unchanged or refused, nothing was written; and nothing is answered over a record of another id |
| ClientUpdates.LostWritesNothing | src/icBatchChannelStorage.ts:156-158 | An overtaken round writes nothing |
| AbiStandard.ComponentAt | rust/facilitator/src/tx.rs:391-407 | In the standard's encoding every offset word reads back, points behind the head and finds its component inside the input, right after the one before it |
| AbiStandard.DecInverse | rust/facilitator/src/tx.rs:330-407 | A decoder driven by the types gives back every value from its standard encoding, wherever that lies in the input, to any depth of nesting |
| AbiStandard.EncInjective | rust/facilitator/src/tx.rs:330-407 | Different values of one type have different encodings |
| Abi.EncodeTails | rust/facilitator/src/tx.rs:391-407 | The loop with a running offset builds the head-and-tail encoding of a dynamic array |
| Abi.EncodeClaimsArray | rust/facilitator/src/tx.rs:330-346 | The encoder of claims computes the standard's encoding of the array of claims |
| Abi.EncodeClaimCall | rust/facilitator/src/tx.rs:270-287 | The calldata is the selector and the standard's encoding of the claims and the signature as arguments |
| AbiRoundTrip.ClaimCallDecodes | rust/facilitator/src/tx.rs:270-287 | Decoding a claim call by its types gives back every config, voucher limit, total and signature |
| AbiRoundTrip.ClaimCallInjective | rust/facilitator/src/tx.rs:270-287 | Different claims or signatures give different calldata |
| AbiRoundTrip.ClaimCallOffsets | rust/facilitator/src/tx.rs:270-287 | Both argument offsets read back, lie behind the head, and find the claims array and the padded signature |
| AbiRoundTrip.ClaimPayload | rust/facilitator/src/tx.rs:348-363 | Each claim is found through its offset, and in it the voucher limit, the total, the offset of the signature and the signature |
| Abi.EncodeClaimTuple | rust/facilitator/src/tx.rs:348-363 | The claim as printed is the standard's encoding of the nested voucher, the signature and the total |
| Abi.EncodeBytesArray | rust/facilitator/src/tx.rs:391-407 | The encoder of calls computes the standard's encoding of the array of byte strings |
| Abi.EncodeRefundCall | rust/facilitator/src/tx.rs:289-307 | The calldata is the selector and the standard's encoding of config, amount, nonce and signature as arguments |
| AbiRoundTrip.RefundCallDecodes | rust/facilitator/src/tx.rs:289-307 | Decoding a refund call by its types gives back config, amount, nonce and signature |
| AbiRoundTrip.RefundCallInjective | rust/facilitator/src/tx.rs:289-307 | Different refunds give different calldata |
| AbiRoundTrip.RefundPayload | rust/facilitator/src/tx.rs:289-307 | The amount, the nonce, the offset of the signature and the signature are found at their places |
| Abi.EncodeDepositCall | rust/facilitator/src/tx.rs:250-268 | The calldata is the selector and the standard's encoding of config, amount, collector and data as arguments |
| AbiRoundTrip.DepositCallDecodes | rust/facilitator/src/tx.rs:250-268 | Decoding a deposit call by its types gives back config, amount, collector and data |
| AbiRoundTrip.DepositCallInjective | rust/facilitator/src/tx.rs:250-268 | Different deposits give different calldata |
| AbiRoundTrip.DepositPayload | rust/facilitator/src/tx.rs:250-268 | The amount, the collector, the offset of the data and the data are found at their places |
| Abi.EncodeMulticall | rust/facilitator/src/tx.rs:309-316 | The calldata is the selector and the standard's encoding of the calls as an array of byte strings |
| AbiRoundTrip.MulticallDecodes | rust/facilitator/src/tx.rs:309-316 | Decoding a multicall by its types gives back the calls |
| Abi.EncodeCollectorData | rust/facilitator/src/tx.rs:318-328 | The authorization data is the standard's encoding of its three words and the signature |
| AbiRoundTrip.CollectorDataDecodes | rust/facilitator/src/tx.rs:318-328 | Decoding the authorization data by its types gives it back |
| AbiDecoder.ArrayItem | rust/facilitator/src/tx.rs:391-407 | Every offset word of an encoded array reads back, points behind the head, and finds its item inside the input |
| AbiDecoder.ClaimCallRoundTrip | scripts/batch_settlement_receipt.ts:492-512 | Decoding an encoded claim call returns the same configs and claimed totals in the same order, for any number of claims and any signature lengths |
| AbiDecoder.MulticallRoundTrip | scripts/batch_settlement_receipt.ts:450-478 | Splitting an encoded multicall gives back exactly its calls |
| AbiDecoder.RefundCallRoundTrip | scripts/batch_settlement_receipt.ts:480-490 | A refund call decodes to its config and to its nonce plus one |
| AbiDecoder.DepositCallRoundTrip | scripts/batch_settlement_receipt.ts:480-486 | A deposit call decodes to its config and amount |
| AbiDecoder.ElementsIff | scripts/batch_settlement_receipt.ts:450-478 | On any input: it splits into these byte strings if and only if the array has that many entries and each leads, behind the head, to the length and the bytes of its element |
| AbiDecoder.ClaimsIff | scripts/batch_settlement_receipt.ts:492-512 | On any input: it decodes to these claims if and only if each entry leads, behind the head, to the words of its configuration, addresses padded with zeros, and to its total |
| ReceiptInputs.ClaimsVerifiedIff | scripts/batch_settlement_receipt.ts:514-549 | Claims are accepted with a total if and only if there are some, all have the expected token, and receiver, authorizer and delay where given, all agree, and the first one of the expected channel has that total, no less than expected |
| ReceiptInputs.CallsVerifiedIff | scripts/batch_settlement_receipt.ts:559-580 | The calls of a multicall pass if and only if each is a claim or a refund that fits, and show the largest total and the largest next nonce among them |
| ReceiptInputs.RefundVerifiedIff | scripts/batch_settlement_receipt.ts:551-585 | A refund input is accepted if and only if it is one fitting refund, or calls that all fit with a refund among them |
| ReceiptInputs.RefundCalldataVerified | scripts/batch_settlement_receipt.ts:551-585 | The script accepts the facilitator's refund calldata, bare or with claims, if and only if config and claims, as encoded, are of the expected channel and parties and the claims fit; the proof is the first total of the channel and the nonce plus one |
| AbiDecoder.MulticallElements | scripts/batch_settlement_receipt.ts:466-478 | The splitting loop returns the elements the reader function defines, or fails with the first unreadable one |
| AbiDecoder.ClaimCalldataClaims | scripts/batch_settlement_receipt.ts:492-512 | The decoding loop returns the claims the reader function defines, or fails with the first unreadable one |
| ReceiptInputs.VerifyRefundInput | scripts/batch_settlement_receipt.ts:551-585 | The verification loop agrees with the fold over the calls |
| HexUtil.ParseU256Decimal | rust/facilitator/src/hexutil.rs:47-58 | Succeeds exactly on non-empty digit strings below 2^256 and returns the 32 big-endian bytes of the value |
| HexUtil.MulSmall | rust/facilitator/src/hexutil.rs:115-127 | Leaves the low 256 bits of the product in place and fails exactly when something was cut off; the carry never leaves 16 bits |
| HexUtil.AddSmall | rust/facilitator/src/hexutil.rs:129-144 | Leaves the low 256 bits of the sum in place and fails exactly when something was cut off |
| HexUtil.ParsedWord | rust/facilitator/src/hexutil.rs:47-58 | The word returned is the only 32-byte word with that value |
| HexUtil.U256WordValue | rust/facilitator/src/hexutil.rs:107-109 | The padded word has the value of its 128-bit argument |
| HexUtil.WordOrder | rust/facilitator/src/batch.rs:882-889 | Byte order of words is numeric order |
| HexUtil.ParseU256HexExact | rust/facilitator/src/hexutil.rs:90-105 | Succeeds exactly on up to 64 hex digits and returns their value |
| RpcDecimal.UintDecimal | rust/facilitator/src/rpc.rs:1033-1040 | A word becomes the decimal of its value without leading zeros |
| RpcDecimal.DecimalMulSmall | rust/facilitator/src/rpc.rs:1108-1122 | For every 16-bit factor, sums wrapping: the product of a digit string is exact if and only if no sum of digit product and exact carry leaves 16 bits, and otherwise too small; exact products of canonical strings are canonical |
| RpcDecimal.AlwaysExactIff | rust/facilitator/src/rpc.rs:1108-1122 | The factors that are exact for every digit string are those up to 6553; the only caller passes 256 |
| RpcDecimal.DecimalAddSmall | rust/facilitator/src/rpc.rs:1124-1138 | Exact sum of a digit string and a byte, canonical in and out |
| RpcDecimal.DecimalAdd | rust/facilitator/src/rpc.rs:1082-1106 | Refuses exactly the non-digits, otherwise the exact sum, canonical in and out |
| RpcDecimal.WordTextRoundTrip | rust/facilitator/src/rpc.rs:1033-1040 | Printing a word and parsing the text gives the word back |
| RpcDecimal.TextWordRoundTrip | rust/facilitator/src/hexutil.rs:47-58 | Parsing a text and printing the word loses exactly the leading zeros |
| RpcDecimal.TextOrderIsNumericOrder | rust/facilitator/src/rpc.rs:1061-1080 | Comparing amounts as text is comparing them as numbers, on all digit strings |
| RpcReceipt.SettledEventAmount | rust/facilitator/src/rpc.rs:956-975 | For the logs of any events: the settled total is the decimal of the sum over the events that are not removed and have the expected contract, receiver, token and sender, letter case aside, and nothing when there is none |
| RpcReceipt.SettledLogAmount | rust/facilitator/src/rpc.rs:977-1026 | The log of an event has an amount, and it is the event's, exactly when it is not removed and contract, topic, receiver, token and sender are the expected ones |
| RpcReceipt.LogCountsIff | rust/facilitator/src/rpc.rs:977-1031 | Any log, whoever printed it, counts with a number if and only if its address, first four topics and data are there and say so |
| RpcReceipt.Uint128Decimal | rust/facilitator/src/rpc.rs:1042-1059 | Refuses exactly the words above 2^128 - 1 |
| Principal.EncodePrincipalText | scripts/batch_production_readiness.ts:441-458 | The bit-buffer loop computes the grouped base32 text of the bit string, the buffer staying below 13 bits |
| Principal.DecodePrincipalText | scripts/batch_production_readiness.ts:411-439 | The bit-buffer loop computes the reference decoding, the buffer staying below 13 bits |
| Principal.DecodeExact | scripts/batch_production_readiness.ts:411-439 | A text decodes to some bytes if and only if there are at least four of them and the text is their encoding |
| Principal.EncodeInjective | scripts/batch_production_readiness.ts:441-458 | Different byte strings of at least four bytes have different texts |
| Principal.GroupText | scripts/batch_production_readiness.ts:460-466 | Groups of five joined by hyphens |
| Principal.AlphabetText | scripts/batch_production_readiness.ts:69-69 | The letter of a five-bit group is the character of the alphabet constant |

## Left out

- Keccak, secp256k1 signing and recovery, EIP-712 digests and the channel-id hash: validation stops before
  them; the receipt script takes the channel hash as a parameter.
- RLP and EIP-1559 transaction bytes: a library does the work; signed bytes are an opaque value chosen by the
  event.
- HTTP routes, JSON, RPC envelopes, cycles and SQLite scopes: remote calls are arbitrary results or errors.
- Text forms of addresses in the encoders and hex text of calldata: the encoders take address and word
  values, the decoder takes bytes.
- `status` and its texts: reads of the state the theorems already describe.
- Manual settlements themselves: only what they do to credit, locks and nonces, and only in ways that give
  back what they took. The class has no methods for these; the transition system has events.
- Retention of settlement records: other code of the canister may replace finished records.
- JavaScript numbers with a fraction, `toLowerCase` outside ASCII, and the trimming of `pendingId`, where
  JavaScript and Rust differ about white space.
- `list` of the client store: a retry loop over two reads with no guard of its own.
- The checksum of a principal and the CRC behind it: `decodePrincipalText` does not look at it.
- Field-presence checks of batch requests, requirement matching, fee schedules, readiness scripts, wallets
  and the web interface: one-branch readings.
- `lib.rs` beyond the helpers named above is not part of this model.
- The order of the remote calls inside prepare: only their joint outcome reaches the state.
- The archive of deleted channels, which nothing reads back.
- Runs.NoncesAreUsedOnce: does not cover the nonce 2^128 - 1, because the counter saturates there and the
  code hands that nonce out again, as KeyWitness.LastNonceRepeats shows.
