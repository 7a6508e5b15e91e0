// The records shared by the escrow contract, the Go verifier and the relayer.
module Records {
  import opened Base

  datatype JobState =
    | Created | Accepted | RandomnessPending | ReadyToVerify | Verifying
    | AwaitingResubmission | Retryable | Paid | Cancelled | Refunded | RefundPending

  datatype Outcome = Pass | Fail | Inconclusive

  // Terms frozen at creation.
  datatype JobTerms = JobTerms(
    client: Address, contractor: Address, expectedTee: Address,
    principal: Uint128, fee: Uint128,
    createdAt: Uint64, acceptBy: Uint64, submitBy: Uint64, graceEnds: Uint64,
    verificationTimeout: Uint64,
    specHash: Bytes32, privateBundleHash: Bytes32, engineVersionHash: Bytes32,
    ciphertextHash: Bytes32)

  // Per-attempt state, replaced as a whole by every submission.
  datatype Attempt = Attempt(
    attempt: Uint64, artifactAddress: Address, artifactBlock: Uint256, artifactCodeHash: Bytes32,
    targetRound: Uint256, randomRound: Uint256, randomValueHash: Bytes32, randomLocked: bool,
    instructionId: Bytes32, dispatchedAt: Uint64, timeoutAt: Uint64)

  datatype Job = Job(terms: JobTerms, current: Attempt, state: JobState, settled: bool)

  const ZERO_TERMS := JobTerms(0, 0, 0, 0, 0, 0, 0, 0, 0, 0, 0, 0, 0, 0)
  const ZERO_ATTEMPT := Attempt(0, 0, 0, 0, 0, 0, 0, false, 0, 0, 0)

  // What the storage mapping holds at a key never written.
  const ZERO_JOB := Job(ZERO_TERMS, ZERO_ATTEMPT, Created, false)

  datatype VerdictIdentity = VerdictIdentity(
    schemaVersion: Byte, escrowAddress: Address, chainId: Uint256, jobId: Uint256, attempt: Uint64,
    instructionId: Bytes32, specHash: Bytes32, privateBundleHash: Bytes32,
    artifactAddress: Address, artifactBlock: Uint256)

  datatype VerdictOutcome = VerdictOutcome(
    artifactCodeHash: Bytes32, randomRound: Uint256, randomValueHash: Bytes32,
    engineVersionHash: Bytes32, outcome: Outcome, passedCount: Uint32, executedCount: Uint32,
    reportHash: Bytes32, issuedAt: Uint64, expiresAt: Uint64)

  datatype VerdictV1 = VerdictV1(id: VerdictIdentity, result: VerdictOutcome)

  datatype WorkProofInstruction = WorkProofInstruction(
    chainId: Uint256, escrowAddress: Address, jobId: Uint256, attempt: Uint64,
    specHash: Bytes32, privateBundleHash: Bytes32, ciphertextHash: Bytes32,
    artifactAddress: Address, artifactBlock: Uint256, artifactCodeHash: Bytes32,
    randomRound: Uint256, randomValueHash: Bytes32, engineVersionHash: Bytes32,
    expiresAt: Uint64)

  // ASCII text as the bytes Solidity and Go hash or compare.
  const THRESHOLD_TAG: seq<Byte> := [0x74, 0x68, 0x72, 0x65, 0x73, 0x68, 0x6f, 0x6c, 0x64]

  // bytes32("WORKPROOF") and bytes32("VERIFY").
  const OP_TYPE: Bytes32 :=
    0x574f_524b_5052_4f4f_4600_0000_0000_0000_0000_0000_0000_0000_0000_0000_0000_0000
  const OP_COMMAND: Bytes32 :=
    0x5645_5249_4659_0000_0000_0000_0000_0000_0000_0000_0000_0000_0000_0000_0000_0000
}
