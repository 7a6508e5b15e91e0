// The escrow contract as a state machine. One event is one atomic stretch of
// execution: an entry point up to its first external call, what a callee does
// before it returns, or the contract's continuation. A run of events therefore
// visits every external-call point, with arbitrary re-entrant calls there.
//
// What the chain answers inside a call (a TEE's status, an address's code, a
// registry listing) is an argument of that call.
module EscrowMachine {
  import opened Base
  import opened Records
  import opened Token
  import Abi

  const MAX_PROTOCOL_FEE_BPS: Uint16 := 1_000
  const MIN_VERIFICATION_TIMEOUT: Uint64 := 30
  const MAX_VERIFICATION_TIMEOUT: Uint64 := 604_800
  const FIRST_PUBLIC_EXTENSION_ID: nat := 0x10000
  const TEE_STATUS_PRODUCTION: nat := 2

  // A voting round of the random oracle: its answer never changes once ready.
  datatype Round = Round(readyAt: nat, value: Uint256, secure: bool)

  // What is fixed for the life of the contract.
  datatype Chain = Chain(
    self: Address, treasury: Address, chainId: Uint256,
    votingRound: nat -> Uint256, rounds: nat -> Round, keccak: seq<Byte> -> Bytes32)

  // The constructor's guards.
  predicate ChainOk(c: Chain) {
    c.self != ZERO_ADDRESS && c.treasury != ZERO_ADDRESS && c.treasury != c.self
  }

  function ValueHash(c: Chain, value: Uint256): Bytes32 {
    c.keccak(Abi.EncodeUint256(value))
  }

  // The message a TEE signs for an ActionResult, and an ideal signature over it.
  datatype SignedMessage = SignedMessage(
    data: seq<Byte>, instructionId: Bytes32, submissionTag: seq<Byte>, status: Byte, chainId: Uint256)
  datatype Signature = SignedBy(signer: Address, message: SignedMessage) | Malformed

  function RecoverSigner(m: SignedMessage, sig: Signature): Address {
    if sig.SignedBy? && sig.message == m then sig.signer else ZERO_ADDRESS
  }

  datatype Storage = Storage(
    owner: Address, pendingOwner: Address, protocolFeeBps: Uint16, paused: bool,
    extensionId: Uint256, nextJobId: Uint256, jobs: map<nat, Job>)

  datatype Payout = Payout(id: nat, to: Address, amount: nat, at: nat)

  // History variables: nothing the contract does depends on them. Keys are
  // (job, attempt).
  datatype History = History(
    starts: map<(nat, nat), nat>,            // first acceptable round, set by submission
    locks: map<(nat, nat), (nat, Bytes32)>,  // round and value hash locked
    dispatches: multiset<(nat, nat)>,
    settlements: multiset<(nat, nat)>,
    payouts: seq<Payout>,
    donated: nat)                            // tokens nobody accounted for

  // Everything a revert rolls back.
  datatype Core = Core(store: Storage, token: Ledger, hist: History)

  // Where a non-reentrant function stands while an external call is open.
  datatype Pc =
    | Pulling(terms: JobTerms)
    | Pulled(terms: JobTerms)
    | Sending(id: nat)
    | Paying(id: nat, queue: seq<(Address, nat)>)

  datatype Frame = Idle | Busy(saved: Core, pc: Pc)
  datatype State = State(core: Core, now: Uint256, height: Uint256, frame: Frame)

  datatype Error =
    | InvalidState | Deadline | InvalidVerdict | NotOwner | IsPaused | ZeroAddress | NoCode | FeeTooHigh
    | RandomNotReady | TeeNotProduction | Reentrancy | ExtensionIdSet | ExtensionIdNotFound
    | ExtensionIdNotSet | Panic | BadEncoding | ExternalRevert | BadSender

  datatype Call =
    | CreateJob(contractor: Address, expectedTee: Address, principal: Uint128, acceptBy: Uint64,
                submitBy: Uint64, graceEnds: Uint64, verificationTimeout: Uint64, specHash: Bytes32,
                privateBundleHash: Bytes32, engineVersionHash: Bytes32, ciphertextHash: Bytes32,
                teeStatus: Option<nat>)
    | AcceptJob(id: nat)
    | CancelUnaccepted(id: nat)
    | SubmitAttempt(id: nat, artifact: Address, codeHash: Option<Bytes32>)
    | LockRandomness(id: nat)
    | DispatchVerification(id: nat, teeStatus: Option<nat>)
    | ExpireVerification(id: nat)
    | SettleAttempt(id: nat, data: seq<Byte>, opType: Bytes32, opCommand: Bytes32,
                    submissionTag: seq<Byte>, status: Byte, signature: Signature,
                    liveCodeHash: Bytes32)
    | RefundExpired(id: nat)
    | PauseNewWork
    | UnpauseNewWork
    | SetProtocolFee(bps: Uint16)
    | TransferOwnership(newOwner: Address)
    | AcceptOwnership
    | SetExtensionId(senders: seq<Address>)

  datatype Event =
    | Invoke(sender: Address, call: Call)
    | Proceed(instructionId: Bytes32)  // the open external call succeeds; the id answers sendInstructions
    | Abort                            // the open external call reverts
    | Tick(now: Uint256, height: Uint256)
    | TokenAct(action: Action)

  // --- storage access ---

  function Lookup(jobs: map<nat, Job>, id: nat): Job {
    if id in jobs then jobs[id] else ZERO_JOB
  }

  function JobAt(st: Storage, id: nat): Job {
    Lookup(st.jobs, id)
  }

  function PutJob(s: State, id: nat, j: Job): State {
    s.(core := s.core.(store := s.core.store.(jobs := s.core.store.jobs[id := j])))
  }

  function WithHist(s: State, h: History): State {
    s.(core := s.core.(hist := h))
  }

  function Enter(s: State, pc: Pc): State {
    s.(frame := Busy(s.core, pc))
  }

  // Storage changes made before the external call; a revert undoes them too.
  function EnterFrom(before: State, s: State, pc: Pc): State {
    s.(frame := Busy(before.core, pc))
  }

  function Rollback(s: State): State
    requires s.frame.Busy?
  {
    State(s.frame.saved, s.now, s.height, Idle)
  }

  function Refund(t: JobTerms): nat {
    t.principal + t.fee
  }

  // --- entry points ---

  function TeeError(tee: Address, status: Option<nat>): Option<Error> {
    if tee == ZERO_ADDRESS then Some(TeeNotProduction)
    else if status.None? then Some(ExternalRevert)
    else if status.value != TEE_STATUS_PRODUCTION then Some(TeeNotProduction)
    else None
  }

  function FeeOf(principal: Uint128, bps: Uint16): Uint128 {
    ((principal * bps) / 10_000) % TWO128
  }

  function DoCreateJob(c: Chain, s: State, sender: Address, call: Call): Result<State, Error>
    requires call.CreateJob?
  {
    var st := s.core.store;
    if st.paused then Err(IsPaused)
    else if s.frame.Busy? then Err(Reentrancy)
    else if call.contractor == ZERO_ADDRESS || call.expectedTee == ZERO_ADDRESS || call.acceptBy <= s.now
            || call.submitBy <= call.acceptBy || call.graceEnds <= call.submitBy
            || call.verificationTimeout < MIN_VERIFICATION_TIMEOUT
            || call.verificationTimeout > MAX_VERIFICATION_TIMEOUT || call.principal == 0
    then Err(InvalidVerdict)
    else if st.extensionId == 0 then Err(ExtensionIdNotSet)
    else if TeeError(call.expectedTee, call.teeStatus).Some?
    then Err(TeeError(call.expectedTee, call.teeStatus).value)
    else
      Ok(Enter(s, Pulling(JobTerms(
        sender, call.contractor, call.expectedTee, call.principal,
        FeeOf(call.principal, st.protocolFeeBps), s.now % TWO64, call.acceptBy, call.submitBy,
        call.graceEnds, call.verificationTimeout, call.specHash, call.privateBundleHash,
        call.engineVersionHash, call.ciphertextHash))))
  }

  function DoAcceptJob(s: State, sender: Address, id: nat): Result<State, Error> {
    var j := JobAt(s.core.store, id);
    if !j.state.Created? || sender != j.terms.contractor then Err(InvalidState)
    else if s.now > j.terms.acceptBy then Err(Deadline)
    else Ok(PutJob(s, id, j.(state := Accepted)))
  }

  // The token refuses the zero address before it calls anyone back.
  function Pay(before: State, s: State, id: nat, queue: seq<(Address, nat)>): Result<State, Error>
    requires |queue| > 0
  {
    if queue[0].0 == ZERO_ADDRESS then Err(ExternalRevert) else Ok(EnterFrom(before, s, Paying(id, queue)))
  }

  function DoCancelUnaccepted(s: State, sender: Address, id: nat): Result<State, Error> {
    var j := JobAt(s.core.store, id);
    if s.frame.Busy? then Err(Reentrancy)
    else if !j.state.Created? || sender != j.terms.client then Err(InvalidState)
    else Pay(s, PutJob(s, id, j.(state := Cancelled, settled := true)), id, [(j.terms.client, Refund(j.terms))])
  }

  function DoSubmitAttempt(c: Chain, s: State, sender: Address, id: nat, artifact: Address,
                           codeHash: Option<Bytes32>): Result<State, Error>
  {
    var j := JobAt(s.core.store, id);
    if s.core.store.paused then Err(IsPaused)
    else if s.frame.Busy? then Err(Reentrancy)
    else if sender != j.terms.contractor
            || (!j.state.Accepted? && !j.state.AwaitingResubmission? && !j.state.Retryable?)
    then Err(InvalidState)
    else if s.now > j.terms.submitBy then Err(Deadline)
    else if artifact == ZERO_ADDRESS || codeHash.None? then Err(InvalidVerdict)
    else if j.current.attempt + 1 >= TWO64 || c.votingRound(s.now) + 1 >= TWO256 then Err(Panic)
    else
      var attempt := j.current.attempt + 1;
      var target := c.votingRound(s.now) + 1;
      var h := s.core.hist;
      Ok(WithHist(
           PutJob(s, id, j.(current := Attempt(attempt, artifact, s.height, codeHash.value, target, 0, 0,
                                               false, 0, 0, 0),
                            state := RandomnessPending)),
           h.(starts := h.starts[(id, attempt) := target])))
  }

  function DoLockRandomness(c: Chain, s: State, id: nat): Result<State, Error> {
    var j := JobAt(s.core.store, id);
    var target := j.current.targetRound;
    var round := c.rounds(target);
    if s.frame.Busy? then Err(Reentrancy)
    else if !j.state.RandomnessPending? then Err(InvalidState)
    else if s.now < round.readyAt then Err(RandomNotReady)
    else if !round.secure then
      if target + 1 >= TWO256 then Err(Panic)
      else Ok(PutJob(s, id, j.(current := j.current.(targetRound := target + 1))))
    else
      var h := s.core.hist;
      var hash := ValueHash(c, round.value);
      Ok(WithHist(
           PutJob(s, id, j.(current := j.current.(randomRound := target, randomValueHash := hash,
                                                  randomLocked := true),
                            state := ReadyToVerify)),
           h.(locks := h.locks[(id, j.current.attempt as nat) := (target as nat, hash)])))
  }

  function DoDispatch(s: State, id: nat, teeStatus: Option<nat>): Result<State, Error> {
    var j := JobAt(s.core.store, id);
    if s.frame.Busy? then Err(Reentrancy)
    else if !j.state.ReadyToVerify? || !j.current.randomLocked then Err(InvalidState)
    else if TeeError(j.terms.expectedTee, teeStatus).Some?
    then Err(TeeError(j.terms.expectedTee, teeStatus).value)
    else Ok(Enter(s, Sending(id)))
  }

  // The instruction dispatchVerification sends.
  function InstructionFor(c: Chain, id: Uint256, j: Job): WorkProofInstruction {
    WorkProofInstruction(
      c.chainId, c.self, id, j.current.attempt, j.terms.specHash, j.terms.privateBundleHash,
      j.terms.ciphertextHash, j.current.artifactAddress, j.current.artifactBlock,
      j.current.artifactCodeHash, j.current.randomRound, j.current.randomValueHash,
      j.terms.engineVersionHash, j.terms.graceEnds)
  }

  // The rest of dispatchVerification, once sendInstructions has answered.
  function Dispatched(s: State, id: nat, instructionId: Bytes32): Result<State, Error> {
    var j := JobAt(s.core.store, id);
    var rawTimeoutAt := s.now + j.terms.verificationTimeout;
    if rawTimeoutAt >= TWO256 then Err(Panic)
    else
      var timeoutAt: Uint64 :=
        if rawTimeoutAt < j.terms.graceEnds then rawTimeoutAt % TWO64 else j.terms.graceEnds;
      if timeoutAt <= s.now then Err(Deadline)
      else
        var h := s.core.hist;
        Ok(WithHist(
             PutJob(s, id, j.(current := j.current.(instructionId := instructionId,
                                                    dispatchedAt := s.now % TWO64,
                                                    timeoutAt := timeoutAt),
                              state := Verifying)),
             h.(dispatches := h.dispatches + multiset{(id, j.current.attempt as nat)})))
  }

  function DoExpire(s: State, id: nat): Result<State, Error> {
    var j := JobAt(s.core.store, id);
    if !j.state.Verifying? || s.now <= j.current.timeoutAt then Err(InvalidState)
    else Ok(PutJob(s, id, j.(current := j.current.(instructionId := 0, dispatchedAt := 0, timeoutAt := 0),
                             state := Retryable)))
  }

  predicate IdentityMatches(c: Chain, j: Job, vi: VerdictIdentity, id: nat) {
    && vi.schemaVersion == 1 && vi.escrowAddress == c.self && vi.chainId == c.chainId && vi.jobId == id
    && vi.attempt == j.current.attempt && vi.instructionId == j.current.instructionId
    && vi.specHash == j.terms.specHash && vi.privateBundleHash == j.terms.privateBundleHash
    && vi.artifactAddress == j.current.artifactAddress && vi.artifactBlock == j.current.artifactBlock
  }

  predicate OutcomeMatches(j: Job, vo: VerdictOutcome, now: nat, liveCodeHash: Bytes32) {
    && liveCodeHash == j.current.artifactCodeHash
    && vo.artifactCodeHash == j.current.artifactCodeHash
    && vo.randomRound == j.current.randomRound && vo.randomValueHash == j.current.randomValueHash
    && vo.engineVersionHash == j.terms.engineVersionHash
    && vo.reportHash != 0
    && vo.executedCount != 0 && vo.passedCount <= vo.executedCount
    && (vo.outcome.Pass? ==> vo.passedCount == vo.executedCount)
    && (!vo.outcome.Pass? ==> vo.passedCount != vo.executedCount)
    && vo.expiresAt == j.terms.graceEnds
    && j.current.dispatchedAt <= vo.issuedAt <= now
  }

  // settleAttempt's guards, up to and including the verdict it accepts.
  function AcceptedVerdict(c: Chain, s: State, call: Call): Result<VerdictV1, Error>
    requires call.SettleAttempt?
  {
    var j := JobAt(s.core.store, call.id);
    if s.frame.Busy? then Err(Reentrancy)
    else if !j.state.Verifying? then Err(InvalidState)
    else if s.now > j.current.timeoutAt then Err(InvalidState)
    else if s.now > j.terms.graceEnds then Err(InvalidState)
    else if call.status != 1 then Err(InvalidVerdict)
    else if call.opType != OP_TYPE || call.opCommand != OP_COMMAND then Err(InvalidVerdict)
    else if c.keccak(call.submissionTag) != c.keccak(THRESHOLD_TAG) then Err(InvalidVerdict)
    else if j.current.instructionId == 0 then Err(InvalidState)
    else
      match Abi.DecodeVerdict(call.data)
      case None => Err(BadEncoding)
      case Some(v) =>
        var m := SignedMessage(call.data, v.id.instructionId, call.submissionTag, call.status, c.chainId);
        var signer := RecoverSigner(m, call.signature);
        if signer == ZERO_ADDRESS || signer != j.terms.expectedTee then Err(InvalidVerdict)
        else if !IdentityMatches(c, j, v.id, call.id) then Err(InvalidVerdict)
        else if !OutcomeMatches(j, v.result, s.now, call.liveCodeHash) then Err(InvalidVerdict)
        else Ok(v)
  }

  // What it takes for a call to settle a verdict: the job is under verification and in
  // time, the response is a completed, routed one, its data encodes the verdict, the
  // pinned TEE signed exactly this response, and the verdict is about this attempt.
  ghost predicate Settles(c: Chain, s: State, call: Call, v: VerdictV1)
    requires call.SettleAttempt?
  {
    var j := JobAt(s.core.store, call.id);
    && s.frame.Idle? && j.state.Verifying? && s.now <= j.current.timeoutAt && s.now <= j.terms.graceEnds
    && call.status == 1 && call.opType == OP_TYPE && call.opCommand == OP_COMMAND
    && c.keccak(call.submissionTag) == c.keccak(THRESHOLD_TAG) && j.current.instructionId != 0
    && Abi.DecodeVerdict(call.data) == Some(v)
    && j.terms.expectedTee != ZERO_ADDRESS
    && call.signature == SignedBy(j.terms.expectedTee, SignedMessage(
         call.data, v.id.instructionId, call.submissionTag, call.status, c.chainId))
    && IdentityMatches(c, j, v.id, call.id) && OutcomeMatches(j, v.result, s.now, call.liveCodeHash)
  }

  lemma AcceptsExactlySettling(c: Chain, s: State, call: Call)
    requires call.SettleAttempt?
    ensures forall v :: AcceptedVerdict(c, s, call) == Ok(v) <==> Settles(c, s, call, v)
  {
  }

  function SettledState(j: Job, o: Outcome, now: nat): JobState {
    match o
    case Fail => if now > j.terms.submitBy then RefundPending else AwaitingResubmission
    case Inconclusive => if now > j.terms.submitBy then RefundPending else Retryable
    case Pass => Paid
  }

  // settleAttempt once the verdict is accepted.
  function ApplyOutcome(c: Chain, s: State, id: nat, o: Outcome): Result<State, Error> {
    var j := JobAt(s.core.store, id);
    var h := s.core.hist;
    var settled := h.(settlements := h.settlements + multiset{(id, j.current.attempt as nat)});
    var state := SettledState(j, o, s.now);
    if !o.Pass? then
      Ok(WithHist(PutJob(s, id, j.(state := state)), settled))
    else
      Pay(s, WithHist(PutJob(s, id, j.(state := state, settled := true)), settled), id,
          [(j.terms.contractor, j.terms.principal as nat), (c.treasury, j.terms.fee as nat)])
  }

  function DoSettle(c: Chain, s: State, call: Call): Result<State, Error>
    requires call.SettleAttempt?
  {
    match AcceptedVerdict(c, s, call)
    case Err(e) => Err(e)
    case Ok(v) => ApplyOutcome(c, s, call.id, v.result.outcome)
  }

  function DoRefundExpired(s: State, id: nat): Result<State, Error> {
    var j := JobAt(s.core.store, id);
    if s.frame.Busy? then Err(Reentrancy)
    else if j.settled || s.now <= j.terms.graceEnds then Err(InvalidState)
    else Pay(s, PutJob(s, id, j.(state := Refunded, settled := true)), id, [(j.terms.client, Refund(j.terms))])
  }

  predicate IsOwnerCall(call: Call) {
    call.PauseNewWork? || call.UnpauseNewWork? || call.SetProtocolFee? || call.TransferOwnership?
  }

  function DoOwnerCall(st: Storage, sender: Address, call: Call): Result<Storage, Error>
    requires IsOwnerCall(call)
  {
    if sender != st.owner then Err(NotOwner)
    else match call
      case PauseNewWork => Ok(st.(paused := true))
      case UnpauseNewWork => Ok(st.(paused := false))
      case SetProtocolFee(bps) =>
        if bps > MAX_PROTOCOL_FEE_BPS then Err(FeeTooHigh) else Ok(st.(protocolFeeBps := bps))
      case TransferOwnership(newOwner) =>
        if newOwner == ZERO_ADDRESS then Err(ZeroAddress) else Ok(st.(pendingOwner := newOwner))
  }

  function DoAcceptOwnership(st: Storage, sender: Address): Result<Storage, Error> {
    if sender != st.pendingOwner then Err(NotOwner) else Ok(st.(owner := sender, pendingOwner := ZERO_ADDRESS))
  }

  // The first public extension registered for this contract, if any.
  function FindExtension(self: Address, senders: seq<Address>): Option<nat> {
    if |senders| == 0 then None
    else if senders[0] == self then Some(0)
    else match FindExtension(self, senders[1..])
      case None => None
      case Some(i) => Some(i + 1)
  }

  function DoSetExtensionId(c: Chain, st: Storage, senders: seq<Address>): Result<Storage, Error> {
    if st.extensionId != 0 then Err(ExtensionIdSet)
    else match FindExtension(c.self, senders)
      case None => Err(ExtensionIdNotFound)
      case Some(i) =>
        if FIRST_PUBLIC_EXTENSION_ID + i >= TWO256 then Err(Panic)
        else Ok(st.(extensionId := FIRST_PUBLIC_EXTENSION_ID + i))
  }

  function OnStore(s: State, r: Result<Storage, Error>): Result<State, Error> {
    match r
    case Ok(st) => Ok(s.(core := s.core.(store := st)))
    case Err(e) => Err(e)
  }

  // msg.sender is never the zero address and never the escrow itself.
  function Begin(c: Chain, s: State, sender: Address, call: Call): Result<State, Error> {
    if sender == ZERO_ADDRESS || sender == c.self then Err(BadSender)
    else match call
      case CreateJob(_, _, _, _, _, _, _, _, _, _, _, _) => DoCreateJob(c, s, sender, call)
      case AcceptJob(id) => DoAcceptJob(s, sender, id)
      case CancelUnaccepted(id) => DoCancelUnaccepted(s, sender, id)
      case SubmitAttempt(id, artifact, code) => DoSubmitAttempt(c, s, sender, id, artifact, code)
      case LockRandomness(id) => DoLockRandomness(c, s, id)
      case DispatchVerification(id, status) => DoDispatch(s, id, status)
      case ExpireVerification(id) => DoExpire(s, id)
      case SettleAttempt(_, _, _, _, _, _, _, _) => DoSettle(c, s, call)
      case RefundExpired(id) => DoRefundExpired(s, id)
      case AcceptOwnership => OnStore(s, DoAcceptOwnership(s.core.store, sender))
      case SetExtensionId(senders) => OnStore(s, DoSetExtensionId(c, s.core.store, senders))
      case _ => OnStore(s, DoOwnerCall(s.core.store, sender, call))
  }

  // --- continuations ---

  function FinishCreate(s: State, terms: JobTerms): State
    requires s.frame.Busy?
  {
    var st := s.core.store;
    if st.nextJobId + 1 >= TWO256 then Rollback(s)
    else
      var j := JobAt(st, st.nextJobId);
      var jobs := st.jobs[st.nextJobId as nat := j.(terms := terms, state := Created)];
      s.(core := s.core.(store := st.(nextJobId := st.nextJobId + 1, jobs := jobs)), frame := Idle)
  }

  function Resume(c: Chain, s: State, instructionId: Bytes32): State
    requires s.frame.Busy?
  {
    match s.frame.pc
    case Pulling(terms) =>
      (match TransferFrom(s.core.token, terms.client, c.self, Refund(terms))
       case None => Rollback(s)
       case Some(t) => s.(core := s.core.(token := t), frame := s.frame.(pc := Pulled(terms))))
    case Pulled(terms) => FinishCreate(s, terms)
    case Sending(id) =>
      (match Dispatched(s, id, instructionId)
       case Err(_) => Rollback(s)
       case Ok(s') => s'.(frame := Idle))
    case Paying(id, queue) =>
      if |queue| == 0 then s.(frame := Idle)
      else
        match Transfer(s.core.token, c.self, queue[0].0, queue[0].1)
        case None => Rollback(s)
        case Some(t) =>
          var h := s.core.hist;
          var paid := h.(payouts := h.payouts + [Payout(id, queue[0].0, queue[0].1, s.now)]);
          s.(core := s.core.(token := t, hist := paid), frame := s.frame.(pc := Paying(id, queue[1..])))
  }

  function DonationOf(t: Ledger, t': Ledger, self: Address): nat {
    if BalanceOf(t', self) >= BalanceOf(t, self) then BalanceOf(t', self) - BalanceOf(t, self) else 0
  }

  function DoTokenAct(c: Chain, s: State, a: Action): State {
    var t' := Act(s.core.token, c.self, a);
    var h := s.core.hist;
    s.(core := s.core.(token := t', hist := h.(donated := h.donated + DonationOf(s.core.token, t', c.self))))
  }

  // A reverted call and an event that cannot happen leave the state alone; time
  // stands still inside a transaction.
  function Step(c: Chain, s: State, e: Event): State {
    match e
    case Invoke(sender, call) =>
      (match Begin(c, s, sender, call) case Ok(s') => s' case Err(_) => s)
    case Proceed(instructionId) => if s.frame.Busy? then Resume(c, s, instructionId) else s
    case Abort => if s.frame.Busy? then Rollback(s) else s
    case Tick(now, height) =>
      if s.frame.Idle? && now >= s.now && height >= s.height then s.(now := now, height := height) else s
    case TokenAct(a) => DoTokenAct(c, s, a)
  }

  function Run(c: Chain, s: State, es: seq<Event>): State
    decreases |es|
  {
    if |es| == 0 then s else Run(c, Step(c, s, es[0]), es[1..])
  }

  lemma {:induction false} RunConcat(c: Chain, s: State, a: seq<Event>, b: seq<Event>)
    ensures Run(c, s, a + b) == Run(c, Run(c, s, a), b)
    decreases |a|
  {
    if |a| == 0 {
      assert a + b == b;
    } else {
      assert (a + b)[1..] == a[1..] + b;
      RunConcat(c, Step(c, s, a[0]), a[1..], b);
    }
  }

  const NO_HISTORY := History(map[], map[], multiset{}, multiset{}, [], 0)

  // A freshly deployed escrow. It may already hold tokens.
  predicate IsInitial(c: Chain, s: State) {
    && s.frame.Idle?
    && s.core.store.protocolFeeBps <= MAX_PROTOCOL_FEE_BPS
    && !s.core.store.paused && s.core.store.extensionId == 0 && s.core.store.pendingOwner == ZERO_ADDRESS
    && s.core.store.nextJobId == 0 && s.core.store.jobs == map[]
    && s.core.hist == NO_HISTORY.(donated := BalanceOf(s.core.token, c.self))
  }
}
