# WorkProof, verified

A Dafny model of WorkProof: a pre-funded escrow for smart-contract deliverables
(`contracts/WorkProofEscrow.sol`), the confidential verifier that judges the
submissions (`go/internal/verifier`), the relayer that carries verdicts back
(`relayer`), the machine-registration flow (`tools/pkg/fccutils`), and the
encodings they share. `dafny verify dfyconfig.toml` checks everything.

## How it is put together

**The escrow** appears twice. `EscrowMachine` is a state machine: one event is one
atomic stretch of execution, from an entry point to its first external call, what a
callee does while it has control, or the continuation after it returns. A run of
events (`Run`) therefore visits every external-call point with arbitrary re-entrant
calls there. `EscrowContract.Escrow` is the contract as the object it is, with storage
fields updated in place by one method per entry point; every method is proved to take
exactly the machine's steps, so each theorem about runs is a theorem about it. Callee
behaviour is a method parameter (a window of events).

- `EntryPoints`: who may make which call and when, and what it does; how a transaction
  goes on after an external call.
- `EscrowInvariant`: the shape of each job in each of its eleven states, solvency, and
  what each job has been and is about to be paid, kept by every event.
- `EscrowHistory`: what each attempt has been through.
- `EscrowTheorems`: the promises over whole runs.
- `EscrowAuthority`: who changes what over whole runs, and when.
- `Transactions`: whole transactions, and the two-run theorem about the owner.
- `Payment`: an accepted verdict is settled to the end; nothing can stop the payments.
- `Lab`, `LabSimulation`: the pre-build Go model of one job, and the simulation between
  it and the contract.
- `Deployment`: runs of a fresh escrow up to a job, for the reachability results.

**The verifier**: `Bundle` (schema validation), `Selection` (the in-place Fisher-Yates
loop), `Vectors` (the five executors) and `Verifier` (the decision procedure).

**Both together**: `EndToEnd` (what the escrow dispatches the verifier accepts, what the
verifier returns the escrow accepts), `PaidMeansPassed` (a job is paid only for an
artifact that passed the tests its client committed to, and what that says about the
artifact), `NodeDownRun` (a run from deployment to a payment), `Delivery` (the relayed
response is the settlement).

**Around them**: `Abi` (static ABI encoding), `Hex`, `Utf8`, `Encoding` (hex and bytes32
text), `Relay` (polling and response validation), `Registration` (the crash-safe flow),
`Token` (an OpenZeppelin ledger as the escrow sees it), `Records`, `Base`.

Fixed inputs (the clock, the random oracle, keccak256, RPC answers, the registry's
replies) are fields or parameters, quantified over in every theorem. A round's answer
does not change once it is ready. keccak256 is any function of byte strings; theorems
that need it to be non-zero, or a commitment to be binding, say so. Signatures are
ideal: a signature is a signer and the message it signed, or malformed; what 65 bytes
stand for is a parameter.

The main theorem about payment assumes nothing about the verifier's endpoints: if the
pinned TEE signs only what `Verify` returns, a paid job's selected vectors all passed,
none was skipped and there was at least one (`PaidMeansPassed.PaidOnlyIfAllPassed`).
What a pass proves about the artifact is a second step, and has an exception:

- **An error of the node counts as a revert.** The engine takes every JSON-RPC error reply
  for a revert, so an `ETH_CALL_REVERTS` vector without a selector or pattern passes when
  the node reports an internal error, a rate limit or its own timeout. The code's comment
  (`go/internal/verifier/vectors.go:37-45`) says only reverts are surfaced that way, and
  the documentation promises that infrastructure errors end in a retry. The model follows
  the code. `Vectors.EvidenceExactly`: what a vector reports is evidence about every chain
  its endpoint may be an honest view of, if and only if it did not take a node error for a
  revert. Over a whole pass the endpoint's answers may come and go, and a revert it did
  see under one vector backs the same call under another:
  `PaidMeansPassed.PassProvesExactly` says that a pass proves all selected vectors, on
  every chain its views may be honest about, if and only if each of them that took a node
  error for a revert is backed by a view that saw that call revert as expected. With an
  endpoint that never changes its answers there is no such backing
  (`SteadyPassProvesExactly`). `Vectors.NodeErrorPasses` gives an input,
  `PaidMeansPassed.NodeDownPassesVerify` and `NodeDownPays` carry it to a verdict and to
  the contractor's payment, and `NodeDownRun.UnverifiedIsPaid` reaches that payment from
  deployment. Everything else holds without exception (`PaidOnlyIfVerified`), and with
  endpoints that report no such errors everything does (`PaidOnlyIfCertified`).

Other properties that turned out to hold only under a condition are stated with it, both
ways, and where the condition does not name the failing input itself, a lemma gives one:

- The lab model stops cancellations at `submitBy`; the contract's `cancelUnaccepted` has
  no deadline, so a client may cancel an unaccepted job later. `LabSimulation.RunSim`:
  the lab can follow a run if and only if the run has no such late cancellation.
  `LateCancelIsReachable` reaches one from deployment, on every chain.
- The bundle schema accepts a call value with leading zeros, which the engine then skips
  as malformed. `Vectors.ValidVectorDecodes`: a validated vector decodes if and only if it
  is not such a call. `LeadingZeroIsSkipped` gives one.
- A string survives padding to bytes32 and trimming if and only if it neither ends in a
  NUL nor starts with a byte order mark, which the decoder drops (`Encoding.StringRoundTrip`).
- The relayer accepts result data with an odd number of hex digits, and an operation
  spelt with `0X`. It hands the texts to `cast`, which is not part of this model: it is
  taken to read a text only as the bytes it spells and to read every `0x` text that
  spells any. `Relay.AcceptedActionIsRouted` holds for every such reader;
  `SubmittableExactly`: all of them can submit an accepted action if and only if its data
  has whole bytes and its operation starts with `0x`. `OddDataIsAccepted` and
  `LargePrefixIsAccepted` give an action each.
- An availability check answers the latest recorded attestation if and only if its command
  also asks for `r` or `R` (ids are not zero); a command with `a` alone sends a zero
  challenge (`Registration.CheckUsesLatestAttestation`). `ZeroChallengeRuns` and
  `ZeroChallengeHappens` reach that through two runs.

## Model

| member | source | states |
|---|---|---|
| EscrowContract.Escrow.Deploy | contracts/WorkProofEscrow.sol:256-291 | deployment succeeds exactly under the constructor's guards, and then yields an initial state of the machine with a treasury that is neither the escrow nor the token |
| EscrowContract.Escrow.SetExtensionId | contracts/WorkProofEscrow.sol:295-306 | the search loop sets, once, the first public id registered for this contract and otherwise changes nothing; takes the machine's step |
| EscrowContract.Escrow.PauseNewWork | contracts/WorkProofEscrow.sol:335-338 | takes the machine's step; succeeds exactly for the owner and changes `paused` alone |
| EscrowContract.Escrow.UnpauseNewWork | contracts/WorkProofEscrow.sol:340-343 | takes the machine's step; succeeds exactly for the owner and changes `paused` alone |
| EscrowContract.Escrow.SetProtocolFee | contracts/WorkProofEscrow.sol:345-349 | takes the machine's step; succeeds exactly for the owner within the cap and changes the fee for future jobs alone |
| EscrowContract.Escrow.TransferOwnership | contracts/WorkProofEscrow.sol:351-355 | takes the machine's step; succeeds exactly for the owner naming somebody and changes the pending owner alone |
| EscrowContract.Escrow.AcceptOwnership | contracts/WorkProofEscrow.sol:357-363 | takes the machine's step; succeeds exactly for the pending owner, who becomes owner |
| EscrowContract.Escrow.ConfirmProductionTee | contracts/WorkProofEscrow.sol:316-319 | no error exactly for a non-zero TEE that the registry reports in production; a reverting registry and every other case give their own error |
| EscrowContract.Escrow.CreateJob | contracts/WorkProofEscrow.sol:369-428 | the whole transaction, with arbitrary callee activity before and after the token is pulled, is the machine's; success hands out the next id and records the terms asked for, an error leaves everything as it was |
| EscrowContract.Escrow.AcceptJob | contracts/WorkProofEscrow.sol:430-436 | takes the machine's step, also when re-entered during an external call; succeeds exactly for the contractor of a created job in time |
| EscrowContract.Escrow.CancelUnaccepted | contracts/WorkProofEscrow.sol:442-456 | the whole transaction, callee activity included, is the machine's; success means exactly one payment, of principal and fee to the client; an error leaves everything as it was |
| EscrowContract.Escrow.SubmitAttempt | contracts/WorkProofEscrow.sol:462-490 | takes the machine's step; succeeds exactly if new work is not paused, no call is open, the sender is the contractor, the job awaits a submission, in time, and the artifact has code; then every field of the attempt is new: artifact, block and code hash as they are, and the round after the current one |
| EscrowContract.Escrow.LockRandomness | contracts/WorkProofEscrow.sol:497-524 | takes the machine's step; succeeds exactly on a ready round of a pending job: skips one insecure round, or locks a secure one with the hash of its value |
| EscrowContract.Escrow.DispatchVerification | contracts/WorkProofEscrow.sol:531-586 | the whole transaction is the machine's: storage is read again after `sendInstructions` returns, success leaves the job verifying under the returned id, and a refused or late dispatch rolls everything back |
| EscrowContract.Escrow.ExpireVerification | contracts/WorkProofEscrow.sol:591-602 | takes the machine's step, also when re-entered during an external call; succeeds exactly for a job under verification past its timeout, and then clears the dispatch and makes it retryable |
| EscrowContract.Escrow.CheckSettlement | contracts/WorkProofEscrow.sol:625-677 | accepts a verdict exactly when the call settles it: job under verification and in time, completed and routed response, data that encodes the verdict, the pinned TEE's signature over this response, and every field matching |
| EscrowMachine.AcceptsExactlySettling | contracts/WorkProofEscrow.sol:625-677 | the ordered guards and the declarative condition agree, both ways |
| EscrowContract.Escrow.CheckBinding | contracts/WorkProofEscrow.sol:683-686 | both binding checks hold |
| EscrowContract.Escrow.CheckIdentity | contracts/WorkProofEscrow.sol:688-700 | the guards, one by one, hold exactly when every identity field matches storage |
| EscrowContract.Escrow.CheckOutcomeBinding | contracts/WorkProofEscrow.sol:702-715 | the guards, one by one, hold exactly when outcome, counts, randomness, hashes and times are consistent with storage |
| EscrowContract.Escrow.SettleAttempt | contracts/WorkProofEscrow.sol:609-662 | the whole transaction, with callee activity around both payments, is the machine's; success means an accepted verdict and, on PASS only, the two payments; an error leaves everything as it was |
| EscrowContract.Escrow.RefundExpired | contracts/WorkProofEscrow.sol:719-727 | the whole transaction is the machine's; success means exactly one payment, to the client; an id that was never created passes the guard and is stopped by the token alone |
| EscrowContract.Escrow.Interact | contracts/WorkProofEscrow.sol:566-570 | while an external call is open, guarded entry points bounce off the reentrancy guard and unguarded ones run, exactly as in the machine |
| EntryPoints.AdmittedExactly | contracts/WorkProofEscrow.sol:295-727 | for every entry point: a call is admitted exactly if this sender may make it in this state, and then does exactly this to storage, history and the open transaction; dispatch and creation need the TEE confirmed in production, new work needs no pause |
| EntryPoints.ResumesExactly | contracts/WorkProofEscrow.sol:391-662 | after its external call a transaction goes on exactly if the tokens, the ids, the grace period allow it, and otherwise reverts; going on it moves exactly these tokens, records the job, opens the window until the earlier deadline, or makes the next payment |
| EscrowInvariant.FeeBound | contracts/WorkProofEscrow.sol:391 | the uint128 fee cast never truncates and the fee is at most a tenth of the principal |
| EscrowInvariant.StepKeeps | WORKPROOF_EXECUTION_PLAN.md:254-256 | every event, at every external-call point, keeps job shapes, solvency and owed payments |
| EscrowInvariant.RunKeeps | WORKPROOF_EXECUTION_PLAN.md:254-256 | so does every run |
| EscrowHistory.StepHist | WORKPROOF_EXECUTION_PLAN.md:258 | every event keeps the history of every attempt in order: one dispatch, at most one settlement, one lock on the first secure round |
| EscrowHistory.Reachable | WORKPROOF_EXECUTION_PLAN.md:252-263 | both invariants hold after any run of a fresh deployment |
| EscrowTheorems.StepEvolves | contracts/WorkProofEscrow.sol:471-487 | an event either reverts the open transaction or evolves every job: terms frozen, attempts growing, an attempt only moving forward on the same artifact, terminal jobs untouched |
| EscrowTheorems.SolventAlways | WORKPROOF_EXECUTION_PLAN.md:254 | at every point of every run the balance is the locked principal and fees plus payouts in flight plus unsolicited tokens; between transactions nothing is in flight |
| EscrowTheorems.PaidExactlyOnce | WORKPROOF_EXECUTION_PLAN.md:255-256 | a job has paid exactly what its state entitles, contractor and treasury or client, never both and never twice; what it was funded with is still locked or all paid out |
| EscrowTheorems.OutgoingIsFunded | test/WorkProofEscrowInvariant.t.sol:260-272 | everything ever paid out plus everything locked is everything the jobs were funded with, and the balance is what was funded less what was paid, plus unsolicited tokens |
| EscrowTheorems.TerminalIsFinal | contracts/WorkProofEscrow.sol:656-661 | no later run changes a terminal job or pays it again |
| EscrowTheorems.TermsAreFrozen | WORKPROOF_EXECUTION_PLAN.md:257 | no later run, whoever acts in it, changes a job's terms |
| EscrowTheorems.PaymentsRespectGrace | contracts/WorkProofEscrow.sol:629-636 | every payment of a paid job was made by `graceEnds`, every refund after it |
| EscrowTheorems.VerifyingWindow | contracts/WorkProofEscrow.sol:444-451 | in every reachable state: settled exactly in Paid, Cancelled and Refunded; a job under verification holds locked randomness and dispatchedAt < timeoutAt within grace and timeout; a refund is pending only after `submitBy` |
| EscrowTheorems.DispatchWindowIsExact | contracts/WorkProofEscrow.sol:572-583 | dispatch stores the true time and the earlier of the two deadlines: no uint64 cast truncates |
| EscrowAuthority.WindowIsTheVerifiers | contracts/WorkProofEscrow.sol:591-602 | over any run from a dispatched job that stays within its timeout and in which none of its verdicts is accepted, the job is left exactly as the dispatch left it |
| EscrowAuthority.EveryChangeIsCaused | contracts/WorkProofEscrow.sol:369-727 | short of a revert no job changes but by its cause: for each state entered, from which one, by whose call and when; only the contractor's submission starts an attempt |
| EscrowAuthority.AttemptsAreTheContractors | contracts/WorkProofEscrow.sol:462-490 | in every run, whenever an attempt begins, that step is the contractor's own submission, in time and unpaused, of the artifact the attempt names as it was at that block |
| EscrowAuthority.OnlyThePartiesCommit | contracts/WorkProofEscrow.sol:430-456 | in every run only the contractor accepts a job and only its client cancels it |
| EscrowAuthority.EveryJobIsFounded | contracts/WorkProofEscrow.sol:369-586 | in every run every job was asked for by its client in exactly these terms, of a TEE confirmed in production, accepted and submitted to by its contractor, dispatched to a TEE confirmed again, and cancelled by nobody but its client |
| EscrowAuthority.ControlsAreTheOwners | contracts/WorkProofEscrow.sol:335-363 | only the owner pauses, unpauses, sets the fee and names a successor, only who was named succeeds, and the extension id is set once |
| EscrowAuthority.PauseStopsNewWork | contracts/WorkProofEscrow.sol:327-343 | from a pause to the next unpausing no job is created and no attempt begun |
| EscrowTheorems.AtMostOnce | WORKPROOF_EXECUTION_PLAN.md:258 | in every run each (job, attempt) is dispatched at most once, and settled at most as often as dispatched |
| EscrowTheorems.AcceptedBinds | contracts/WorkProofEscrow.sol:666-715 | an accepted verdict is signed by the pinned TEE over this very data, and passes both binding checks |
| EscrowTheorems.ClosedAttemptNeverSettles | WORKPROOF_EXECUTION_PLAN.md:262 | a verdict for an expired, superseded or settled attempt is rejected in every later state, whoever signed it |
| EscrowTheorems.SubmissionFixesStart | contracts/WorkProofEscrow.sol:472 | a submission fixes its first acceptable round |
| EscrowTheorems.LockedRoundIsForced | contracts/WorkProofEscrow.sol:497-524 | the locked round is the first secure round from there on, and the job carries the hash of its value |
| EscrowTheorems.RandomnessCannotBeSteered | contracts/WorkProofEscrow.sol:492-496 | two runs from one submission lock the same round and value, whoever calls, how often and in what order |
| EscrowTheorems.RefundAlwaysSucceeds | contracts/WorkProofEscrow.sol:717-719 | from every reachable resting state with an unsettled job past grace, paused or not, anyone's refund succeeds and the client gets principal and fee |
| Transactions.ExecTxIsRun | contracts/WorkProofEscrow.sol:566-570 | every transaction is a run of the machine |
| Transactions.OwnerCannotInterfere | contracts/WorkProofEscrow.sol:327-333 | two runs that show an observer of the jobs the same keep those jobs the same, whatever owner actions, new jobs and other calls differ, unless a pause rejects a submission; what is seen includes calls on observed jobs nested in unrelated transactions that commit |
| Transactions.OwnerNonInterference | WORKPROOF_EXECUTION_PLAN.md:260-261 | in particular, from one state: same job, same payouts |
| Transactions.IgnoredItem | contracts/WorkProofEscrow.sol:430-436 | a transaction on no observed job changes observed jobs exactly as the accept and expire calls nested in it and committed would alone |
| Lab.Job.Accept | go/internal/workproof/simulation.go:57-63 | changes the job as the lab specification says, or fails and changes nothing |
| Lab.Job.Submit | go/internal/workproof/simulation.go:65-74 | changes the job as the lab specification says, attempt wrap-around included |
| Lab.Job.Settle | go/internal/workproof/simulation.go:76-104 | changes job and ledger as the lab specification says; binding is checked for a pass only |
| Lab.Job.Cancel | go/internal/workproof/simulation.go:106-113 | changes job and ledger as the lab specification says |
| Lab.Job.Refund | go/internal/workproof/simulation.go:115-122 | changes job and ledger as the lab specification says |
| Lab.SucceedsExactly | go/internal/workproof/simulation.go:57-122 | when each lab operation succeeds: a pass needs the pinned TEE, the current attempt and a verdict that has not expired |
| Lab.AlwaysBalanced | go/internal/workproof/simulation.go:57-122 | whatever is tried on a lab job and in whatever order, what it was funded with is paid once to whom its state entitles, or not at all |
| LabSimulation.NewJobMatches | go/internal/workproof/simulation.go:53-55 | a job just recorded by the contract matches a new lab job |
| LabSimulation.StepSim | go/internal/workproof/simulation.go:57-122 | one event: the lab follows exactly when the contract does not cancel late, reverts included |
| LabSimulation.RunSim | go/internal/workproof/simulation.go:57-122 | every run: the lab follows if and only if there is no late cancellation, and then agrees on attempt, settled flag, state and payouts |
| LabSimulation.LedgerIsPayouts | go/internal/workproof/simulation.go:76-122 | the lab's ledger is what the contract has paid out for the job |
| LabSimulation.LateCancelHappens | go/internal/workproof/simulation.go:106-113 | past `submitBy` the client of an unaccepted job can still cancel, which the lab refuses |
| LabSimulation.LateCancelIsReachable | contracts/WorkProofEscrow.sol:438-456 | on every chain, a run of a fresh escrow leads to such a cancellation, with the lab following up to it |
| Selection.EncodeCounter | go/internal/verifier/vectors.go:141-147 | the byte loop writes the 8-byte big-endian counter |
| Selection.SelectVectors | go/internal/verifier/vectors.go:123-139 | the in-place loop selects min(n, k) distinct indices below n, and the offset that leads to the i-th of them is the hash of seed and counter modulo n - i |
| Selection.SelectIsDrawn | go/internal/verifier/vectors.go:132-138 | the seed's selection is the one selection whose offsets are those hashes, both ways |
| Selection.SelectedBySwaps | go/internal/verifier/vectors.go:124-138 | what offsets select: from the identity, step i exchanges positions i and i + d[i] and no others, and the first positions are taken |
| Selection.EverySelectionIsDrawn | go/internal/verifier/vectors.go:113-123 | no selection is out of the seed's reach: each is drawn under some hash |
| Selection.ShuffleKeeps | go/internal/verifier/vectors.go:132-137 | the swap loop permutes its array |
| Selection.SelectIsSelection | go/internal/verifier/vectors.go:113-123 | a selection is duplicate-free and in range |
| Selection.SelectionBijection | go/internal/verifier/vectors.go:132-138 | every duplicate-free selection comes from exactly one sequence of offsets |
| Selection.SelectedIsSelection | go/internal/verifier/vectors.go:132-138 | and every sequence of offsets gives one |
| Selection.SelectPrefixStable | go/internal/verifier/vectors.go:128-138 | asking for more vectors only appends to the selection |
| Selection.DrawPreimagesDistinct | go/internal/verifier/vectors.go:134 | draws of one selection hash distinct preimages |
| Selection.CountResidueExact | go/internal/verifier/vectors.go:135 | how many of the draws below N land on an offset |
| Selection.DrawBias | go/internal/verifier/vectors.go:135 | of all 256-bit draws, any two offsets get counts at most one apart |
| Abi.EncodeIsFlat | go/pkg/types/workproof.go:79-84 | any static tuple tree encodes as its flattening |
| Abi.DecodeEncode | go/pkg/types/workproof.go:98-152 | decoding inverts encoding on in-range values of any static type, the verdict's and the instruction's among them, leaving what follows |
| Abi.EncodeDecode | go/pkg/types/workproof.go:98-152 | what decodes is in range and is the encoding of the result |
| Abi.VerdictIsFlat | go/pkg/types/workproof.go:79-88 | the nested verdict is byte for byte the flat 20-word, 640-byte tuple |
| Abi.IdentityLayout | contracts/WorkProofEscrow.sol:113-124 | the ten identity fields, one to a word, in words 0 to 9 |
| Abi.OutcomeLayout | contracts/WorkProofEscrow.sol:126-137 | the ten outcome fields in words 10 to 19; PASS, FAIL and INCONCLUSIVE are 0, 1 and 2 |
| Abi.InstructionLayout | go/pkg/types/workproof.go:34-49 | the fourteen instruction fields, one to a word |
| Abi.DecodeEncodeVerdict | go/pkg/types/workproof.go:120-151 | the contract's decoding recovers the verdict the verifier encoded |
| Abi.EncodeDecodeVerdict | contracts/WorkProofEscrow.sol:673 | data that decodes is the encoding of the result and a tail: no two bodies for one verdict |
| Abi.DecodersAgree | go/pkg/types/workproof.go:120-151 | the contract's decoder is the general one at the declared tuple of two tuples |
| Abi.EncodeInstructionInjective | go/pkg/types/workproof.go:34-49 | distinct instructions have distinct wire forms |
| Abi.DecodeEncodeInstruction | go/pkg/types/workproof.go:99-118 | decoding at the declared tuple recovers the instruction the escrow encoded |
| Abi.EncodeDecodeInstruction | go/pkg/types/workproof.go:99-118 | what decodes as an instruction starts with that instruction's encoding |
| Bundle.Validate | go/internal/verifier/validate.go:22-79 | accepts exactly the valid bundles, and otherwise reports the first problem |
| Bundle.CheckHeader | go/internal/verifier/validate.go:23-67 | the header guards, in order, find nothing exactly when every field is in the range that schema and engine caps leave |
| Bundle.CheckVector | go/internal/verifier/validate.go:82-142 | the guards of one vector, in order, accept exactly the well-formed ones |
| Bundle.ValidateVectors | go/internal/verifier/validate.go:65-78 | the loop with its map of seen ids finds the first malformed vector or repeated id |
| Bundle.ValidBundleBounds | go/internal/verifier/validate.go:38-64 | 1 <= selectionCount <= vector count <= 128, selectionCount <= 32 |
| Vectors.ExecuteVector | go/internal/verifier/vectors.go:163-178 | no outcome is both passed and skipped |
| Vectors.SkippedExactly | go/internal/verifier/vectors.go:191-327 | a vector is skipped exactly if its fields do not decode, there is no usable answer, the response is over the cap, or it is no canonical bool |
| Vectors.PassedExactly | go/internal/verifier/vectors.go:191-327 | on an honest endpoint that answered, a vector passes if and only if its requirement holds |
| Vectors.ValidVectorIsDecided | go/internal/verifier/vectors.go:191-327 | a validated vector with a canonical value, on an honest endpoint that answers, is decided, and rightly, unless the artifact's own response cannot be judged |
| Vectors.TakenIsJudged | go/internal/verifier/vectors.go:231-258 | a node error taken for a revert is judged by its message |
| Vectors.PrintedCallDecodes | go/internal/verifier/vectors.go:191-208 | a call message, printed into a vector's fields, is the message that is sent, addressed to the artifact under the gas cap |
| Vectors.SupportsInterfaceBytes | go/internal/verifier/vectors.go:261-268 | the interface question is the selector 0x01ffc9a7, the id and zeros to a full word |
| Vectors.RevertMatchesExactly | go/internal/verifier/vectors.go:241-257 | an expected selector is looked for in any letter case and before any pattern, a pattern as it stands; with neither every revert will do |
| Vectors.CanonicalBoolIsAbi | go/internal/verifier/vectors.go:285-302 | the canonical-bool decoder accepts exactly the two ABI encodings |
| Vectors.OutcomeIsEvidence | go/internal/verifier/vectors.go:191-327 | against an endpoint that may report errors or fail anywhere but whose data and reverts are the chain's, a pass proves the vector's requirement and a failure refutes it, unless a node error was taken for a revert |
| Vectors.EvidenceExactly | go/internal/verifier/vectors.go:46-49 | an outcome is evidence about every chain the endpoint may be an honest view of, if and only if it did not take a node error for a revert |
| Vectors.NodeErrorPasses | go/internal/verifier/vectors.go:231-240 | a valid vector, a node that answers with internal errors and a chain on which no call reverts: the vector passes |
| Vectors.ValidVectorDecodes | go/internal/verifier/validate.go:82-142 | a validated vector's fields decode if and only if it is not a call with a leading-zero value |
| Vectors.LeadingZeroIsSkipped | go/internal/verifier/vectors.go:184-189 | such a vector passes validation and is skipped whatever the chain answers |
| Verifier.Verify | go/internal/verifier/verifier.go:105-241 | a verdict only on an admissible instruction, echoing it; with the bundle delivered, the counts, the report and the outcome of exactly the vectors drawn by the seed (INCONCLUSIVE iff one was skipped, FAIL iff none was and one failed, PASS iff all passed); with none delivered, or no report of them, INCONCLUSIVE with nothing passed of one; an error only if that has no report either |
| Verifier.CheckInstruction | go/internal/verifier/verifier.go:109-169 | the guards, in order, find nothing exactly when the instruction is admissible |
| Verifier.PassesExactlyAdmissible | go/internal/verifier/verifier.go:109-169 | admissible: this chain, escrow and engine, the job on chain agreeing field for field and still in its window, the artifact's code and a secure random value hashing to what was committed |
| Verifier.FetchBundle | go/internal/verifier/verifier.go:349-399 | the guards, validation included, yield the specified bundle or none |
| Verifier.FetchesExactlyDelivered | go/internal/verifier/verifier.go:349-427 | a bundle is used exactly when ciphertext, schema, public spec and canonical hash all agree with the commitments |
| Verifier.VerifyBundle | go/internal/verifier/verifier.go:181-240 | selection, execution, outcome and counts give the specified verdict |
| Verifier.BundleIsJudged | go/internal/verifier/verifier.go:181-240 | which is: each vector drawn by the seed executed on its own view, as many executed and passed as were, the hash of the report of exactly those outcomes, and the outcome they add up to |
| Verifier.VerdictAnswers | go/internal/verifier/verifier.go:171-240 | every admissible instruction is answered so, and with no delivered bundle by an infrastructure verdict |
| Verifier.ExecuteSelected | go/internal/verifier/verifier.go:187-204 | the loop's outcomes and both of its flags |
| Verifier.CountPassedLoop | go/internal/verifier/verifier.go:429-437 | the counting loop |
| Verifier.OutcomeMatchesCounts | go/internal/verifier/verifier.go:206-212 | PASS exactly when everything passed, exactly when the counts agree; INCONCLUSIVE exactly when something was skipped |
| Verifier.TestSeedPreimageInjective | go/internal/verifier/vectors.go:97-111 | changing any seed input changes what is hashed |
| Verifier.TestSeedLayout | go/internal/verifier/vectors.go:97-111 | the six seed inputs, one to a word, in the order given there |
| EndToEnd.DispatchedInstructionChecksOut | contracts/WorkProofEscrow.sol:537-552 | the dispatched instruction passes the verifier's cross-check against the job left behind |
| EndToEnd.DispatchedPassesPreflight | go/internal/verifier/verifier.go:109-169 | and every other check of a verifier that can read the chain while the dispatch window is open |
| EndToEnd.VerifyResponds | go/internal/verifier/verifier.go:171-240 | every verdict echoes its instruction and counts consistently |
| EndToEnd.VerdictBinds | contracts/WorkProofEscrow.sol:688-715 | any verdict the verifier returns, infrastructure failures included, passes both binding checks while the job is unchanged |
| EndToEnd.VerdictSettles | contracts/WorkProofEscrow.sol:609-662 | encoded, signed by the pinned TEE and submitted in time by anyone, it settles the attempt with its outcome, to the end of the transaction: the job is as the outcome has it, and on PASS the contractor has gained the principal and the treasury the fee |
| Payment.PaymentMoves | contracts/WorkProofEscrow.sol:656-661 | a queued payment always goes through: its recipient gains the amount and no account but the escrow's own changes otherwise |
| Payment.SettlementCompletes | WORKPROOF_EXECUTION_PLAN.md:712 | PASS pays without the client: an accepted verdict, run to its end, leaves the job as the outcome has it and, on PASS only, the contractor up by the principal and the treasury by the fee |
| EndToEnd.RoundStaysOpen | contracts/WorkProofEscrow.sol:531-602 | whatever runs between the dispatch and the timeout, with no verdict accepted, the job is as the dispatch left it |
| EndToEnd.DispatchToSettlement | contracts/WorkProofEscrow.sol:531-662 | the whole round: dispatched, verified, signed and relayed by anyone before the timeout, whatever else ran in between, the attempt is settled with the verifier's outcome, payments included |
| PaidMeansPassed.AcceptedIsTested | contracts/WorkProofEscrow.sol:642-643 | a PASS or FAIL the escrow accepts is what the outcomes of the vectors selected by the attempt's seed from a committed bundle add up to |
| PaidMeansPassed.PaidOnlyIfAllPassed | go/internal/verifier/verifier.go:187-212 | in every run where the pinned TEE signs only the verifier's output, whatever its endpoints said, a paid job's selected vectors all passed, none was skipped, at least one ran |
| PaidMeansPassed.PaidOnlyIfVerified | go/internal/verifier/vectors.go:191-327 | with honest endpoints, which may report errors, the artifact of a paid job meets every selected vector except revert expectations answered by a node error |
| PaidMeansPassed.PaidOnlyIfCertified | go/internal/verifier/vectors.go:191-327 | with endpoints that report no such errors, it meets all of them |
| PaidMeansPassed.PaidOnlyForCommittedBundle | go/internal/verifier/verifier.go:390-396 | where the job's own two commitments bind, it is the client's own bundle that passed, under the locked round's own value |
| PaidMeansPassed.PassProvesExactly | go/internal/verifier/vectors.go:46-49 | a pass proves that all selected vectors hold, on every chain its views may be honest about, if and only if each vector that took a node error for a revert is backed by a view that saw its call revert as expected |
| PaidMeansPassed.SteadyPassProvesExactly | go/internal/verifier/vectors.go:46-49 | with one endpoint whose answers never change: if and only if none of them took a node error for a revert |
| PaidMeansPassed.AcceptedFailRefutes | go/internal/verifier/verifier.go:206-212 | an accepted FAIL means some selected vector of the committed bundle does not hold, or rejected a node error |
| PaidMeansPassed.NodeDownPassesVerify | go/internal/verifier/vectors.go:231-240 | with the node down, a bundle of plain revert expectations gives a PASS whatever the artifact does |
| PaidMeansPassed.NodeDownPays | contracts/WorkProofEscrow.sol:656-661 | and the round ends, its transaction completed, with the contractor paid |
| NodeDownRun.UnverifiedIsPaid | go/internal/verifier/vectors.go:231-240 | on every chain whose first round is ready in time, whoever takes part and whatever the artifact does short of reverting: a run from deployment, in which the TEE signs only what `Verify` returns on honest views, pays the contractor although no selected vector holds |
| PaidMeansPassed.RevertBundleIsValid | go/internal/verifier/validate.go:22-80 | there is such a valid bundle for every public spec |
| Delivery.DeliveredVerdictIsSettlement | relayer/src/relay.js:134-144 | a response carrying the encoded verdict, the TEE's signature and an operation that can be read becomes exactly its settlement transaction |
| Delivery.PrintedVerdictIsSettlement | relayer/src/relay.js:71-144 | a verdict, its signature and its instruction id printed as 0x hex are fetched, and become exactly its settlement transaction |
| Delivery.RelayingSettles | relayer/src/relay.js:235-254 | relaying it in time settles the attempt with the verdict's outcome, payments included |
| Relay.AcceptedActionIsRouted | relayer/src/relay.js:71-106 | an accepted response becomes a settlement call with status, tag, op type and command the escrow wants and the response's own data and signature bytes, its digits in any letter case, exactly when its data has whole bytes and its operation can be read |
| Relay.SubmittableExactly | relayer/src/relay.js:85-90 | every reader of 0x texts can submit an accepted response if and only if its data has whole bytes and its operation is spelt with 0x |
| Relay.OddDataIsAccepted | relayer/src/relay.js:90 | a response with one-digit data is fetched, under its own instruction id, and cannot be submitted |
| Relay.LargePrefixIsAccepted | relayer/src/relay.js:85 | one whose op type starts with 0X is fetched, and cannot be submitted by a reader of 0x alone |
| Relay.AcceptsExactly | relayer/src/relay.js:71-106 | accepts exactly the responses to the instruction asked for that are completed, routed and shaped as expected, and passes on what they hold |
| Relay.FetchesExactly | relayer/src/relay.js:43-69 | a fetch is waited on exactly after a 404, and yields an action exactly from an acceptable response |
| Relay.PolledActionIsRouted | relayer/src/relay.js:56-69 | what the polled world returns answers the instruction asked for and is routed |
| Relay.PollActionResponse | relayer/src/relay.js:108-132 | for any initial interval and maximum for which polling ends at all: the waits are the initial interval and its doublings up to the maximum; it returns the first answer that is not pending, gives up exactly when one is pending at the deadline, within a bound on polls |
| Relay.PollingEnds | relayer/src/relay.js:119-131 | polling ends for every positive interval and maximum, and whenever the clock moves on every round |
| Relay.RelayCommand | relayer/src/relay.js:235-254 | the command returns an action exactly if the last poll found one, and it is the routed call for that reply |
| Relay.PollsAreBounded | relayer/src/relay.js:117-131 | at most the doublings needed to reach the cap plus ceil(timeout / max) fetches find time left |
| Relay.DoubledIsPower | relayer/src/relay.js:129 | doubling k times is multiplying by 2^k |
| Relay.WaitsInNumbers | relayer/src/relay.js:117-129 | the k-th wait is the initial interval, or the initial interval times 2^k up to the maximum |
| Relay.AsciiBytes | relayer/src/relay.js:37-41 | the padded text spells the name's bytes and zeros; more than 32 bytes are refused, and no fewer |
| Relay.OperationWords | relayer/src/relay.js:15-16 | both names are the words the escrow compares with |
| Registration.Registrar.LoadState | tools/pkg/fccutils/registration.go:44-57 | a missing file is an empty state, an unreadable one an error |
| Registration.Registrar.Save | tools/pkg/fccutils/registration.go:59-68 | the file becomes the new state, unless the process dies first and may leave it torn |
| Registration.Registrar.RegisterStep | tools/pkg/fccutils/registration.go:84-118 | `r` is done or on record, once, and its id is the recorded one |
| Registration.Registrar.AttestStep | tools/pkg/fccutils/registration.go:120-136 | `R` likewise |
| Registration.Registrar.CheckStep | tools/pkg/fccutils/registration.go:138-167 | `a` likewise, on the recorded attestation |
| Registration.Registrar.PromoteStep | tools/pkg/fccutils/registration.go:169-179 | `p` uses the recorded or the explicitly given check |
| Registration.Registrar.RegisterNode | tools/pkg/fccutils/registration.go:70-183 | file, log and exit are those of the run as a function; the log stays good through failure and death at any point; nothing on record is dropped unless it finishes; a finished run did every step asked for and not on record, and a smooth run finishes |
| Registration.Operate | tools/pkg/fccutils/registration.go:25-26 | over any sequence of runs, each cut short anywhere, and deletions of the file, what is on disk and what has happened are those of the acts folded |
| Registration.AfterIsGood | tools/pkg/fccutils/registration.go:70-183 | after any such sequence the log is good and the file mirrors it |
| Registration.NeverRepeated | tools/pkg/fccutils/registration.go:86-88 | so in none of them is a recorded step performed again before the file is removed |
| Registration.CallsAreReady | tools/pkg/fccutils/registration.go:86-179 | every call is one the command asks for, a check goes out only in sync, a promotion only with its proof, and what is recorded is the answer to the call just made |
| Registration.CommandLetters | tools/pkg/fccutils/registration.go:84-169 | which letter asks for which step |
| Registration.IdsAreTheLatest | tools/pkg/fccutils/registration.go:138-179 | and every check in a command that asks for an attestation answers the latest recorded one, every promotion in a command that asks for the check uses the latest recorded check |
| Registration.RecordedIsNotRepeated | tools/pkg/fccutils/registration.go:86-88 | in a good log a recorded step is not performed again before the file is removed |
| Registration.CheckUsesLatestAttestation | tools/pkg/fccutils/registration.go:152 | an availability check answers the latest recorded attestation if and only if its command asks for one or that id is zero; otherwise its challenge is zero |
| Registration.PromotionUsesLatestCheck | tools/pkg/fccutils/registration.go:169-176 | a promotion uses the latest recorded check, unless it was given another id and not asked to check |
| Registration.ZeroChallengeRuns | tools/pkg/fccutils/registration.go:138-158 | after a run that recorded an attestation and died, a run with `a` alone sends a zero challenge |
| Registration.ZeroChallengeHappens | tools/pkg/fccutils/registration.go:70-183 | the program itself gets there |
| Registration.NothingAvailable | tools/pkg/fccutils/registration.go:33-42 | no recorded check, no saved id to fall back on |
| Encoding.HexToBytes | typescript/src/base/encoding.ts:16-35 | the loop decodes exactly the well-formed texts |
| Encoding.DenotesExactly | typescript/src/base/encoding.ts:16-35 | a text denotes exactly the bytes it spells bare, after 0x or after 0X, two digits to a byte and the high one first |
| Encoding.BytesToHex | typescript/src/base/encoding.ts:38-42 | the loop prints the 0x form |
| Encoding.StringToBytes32Hex | typescript/src/base/encoding.ts:50-58 | the UTF-8 encoding and zeros to 32 bytes, or an error exactly if it is longer |
| Encoding.Bytes32HexToString | typescript/src/base/encoding.ts:64-74 | the loop trims trailing zero bytes and the rest is decoded as UTF-8; malformed text gives nothing |
| Encoding.TrimsExactly | typescript/src/base/encoding.ts:71-72 | trimming takes away trailing zeros alone, and all of them |
| Encoding.BytesRoundTrip | typescript/src/base/encoding.ts:16-42 | decoding a printed byte string returns it |
| Encoding.TextNormalises | typescript/src/base/encoding.ts:16-42 | re-printing an accepted text gives its lower-case 0x form |
| Hex.QuantityDecodes | go/internal/verifier/vectors.go:184-189 | a number printed without leading zeros decodes to itself |
| Encoding.Bytes32RoundTrip | typescript/src/base/encoding.ts:50-74 | padding then trimming returns a byte string exactly when it does not end in a zero byte |
| Encoding.StringRoundTrip | typescript/src/base/encoding.ts:50-74 | a string survives the round trip exactly when it neither ends in a NUL nor starts with a byte order mark |
| Utf8.DecodeEncode | typescript/src/base/encoding.ts:51-73 | decoding UTF-8 inverts encoding it |
| Utf8.OneOfEachLength | typescript/src/base/encoding.ts:51 | the examples of RFC 3629 section 7, one of each length |
| Utf8.TextOfEncoded | typescript/src/base/encoding.ts:73 | but for one leading byte order mark |

## Left out

- RPC, HTTP, TLS and DNS: an answer, a revert or a failure is a parameter; the verifier's timeouts show only as failures.
- keccak256, ECDSA and ECIES themselves, and the digest layout of `FccVerdict`: `contracts/lib/FccVerdict.sol` is not part of this model.
- JSON parsing and RFC 8785 canonicalisation: abstract functions of a bundle or a report.
- Unicode case folding outside ASCII (it cannot affect a hex comparison) and `HexToAddress` on text the schema rejects.
- Null or ill-typed members of the verifier's `big.Int` inputs and of the relayer's JSON bodies, beyond a missing result, signature or field.
- Events, gas, block reorganisations, `msg.value` and error message texts.
- The reference to the token, the registries and the relay inside `Deploy`: their addresses are checked, their behaviour is `Token` and call parameters.
- A callee's interleaving inside a token transfer: callees act before and after each balance update, not within it.
- Relay.PollActionResponse: does not cover polling that never ends, which takes a zero interval or maximum and a clock that stops.
- `cast`, with which the relayer sends: any reader of hex texts that `Relay.ReadsHex` describes.
- How 65 signature bytes recover to a signer and a message: any reading of them, the same for relayer and escrow.
- Registration.Registrar.Save: a save that fails without ending the process (a warning in the source) is not modelled, nor is a failing removal; the promises are about successful saves.
- Strings with lone surrogates, which the text encoder replaces before anything here sees them.
- How the Go ABI library reads address words with non-zero padding, which the escrow never sends.
- The lab model's demonstration round function, and the verdict fields its `Settle` never reads.
- Command-line parsing and transaction sending in the relayer and tools, deployment and validation tooling, web pages, bindings, and the sample greeting handlers: no hard property lives there.
