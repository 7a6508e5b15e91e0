// The confidential verifier's VERIFY procedure: cross-check the instruction
// against the chain, fetch the committed bundle, select and execute vectors,
// and fold their outcomes into a verdict.
module Verifier {
  import opened Base
  import opened Records
  import opened Selection
  import opened Bundle
  import opened Vectors
  import Abi
  import Hex

  // Everything Verify reads from outside: its configuration, the clock, the
  // chain, the gateway and the node's decryption. None is an error.
  datatype Env = Env(
    chainId: Uint64, escrow: Address, engineVersionHash: Bytes32, hasGateway: bool,
    keccak: Hash, job: Option<Job>, now: Uint64, later: Uint64,
    code: (Address, nat) -> Option<seq<Byte>>,
    random: nat -> Option<(Uint256, bool)>,
    fetch: Bytes32 -> Option<seq<Byte>>, decrypt: seq<Byte> -> Option<seq<Byte>>,
    parse: seq<Byte> -> Option<WorkProofBundle>, canonical: WorkProofBundle -> Option<seq<Byte>>,
    report: seq<VectorOutcome> -> Option<seq<Byte>>,
    views: nat -> View)  // the endpoint as seen by the k-th executed vector

  // status=0: no verdict is produced at all.
  datatype HandlerFailure =
    | WrongChain | WrongEscrow | WrongEngine | JobUnreadable | InstructionMismatch | DeadlinePassed
    | WrongInstructionId | CodeUnreadable | CodeHashMismatch | RandomUnreadable | RandomInsecure
    | RandomMismatch | ReportFailed

  predicate CrossCheck(m: WorkProofInstruction, j: Job) {
    && !j.settled && j.state.Verifying?
    && j.terms.specHash == m.specHash && j.terms.privateBundleHash == m.privateBundleHash
    && j.terms.ciphertextHash == m.ciphertextHash && j.terms.engineVersionHash == m.engineVersionHash
    && j.terms.graceEnds == m.expiresAt && j.current.attempt == m.attempt
    && j.current.artifactAddress == m.artifactAddress && j.current.artifactBlock == m.artifactBlock
    && j.current.artifactCodeHash == m.artifactCodeHash
    && j.current.randomRound == m.randomRound && j.current.randomValueHash == m.randomValueHash
  }

  // Every check whose failure is a handler failure, in order.
  function Preflight(env: Env, instructionId: Bytes32, m: WorkProofInstruction): Option<HandlerFailure> {
    if m.chainId != env.chainId then Some(WrongChain)
    else if m.escrowAddress != env.escrow then Some(WrongEscrow)
    else if m.engineVersionHash != env.engineVersionHash then Some(WrongEngine)
    else if env.job.None? then Some(JobUnreadable)
    else if !CrossCheck(m, env.job.value) then Some(InstructionMismatch)
    else if env.now > env.job.value.current.timeoutAt || env.now > env.job.value.terms.graceEnds
    then Some(DeadlinePassed)
    else if instructionId != env.job.value.current.instructionId then Some(WrongInstructionId)
    else
      var code := env.code(m.artifactAddress, m.artifactBlock);
      if code.None? then Some(CodeUnreadable)
      else if env.keccak(code.value) != m.artifactCodeHash then Some(CodeHashMismatch)
      else
        var random := env.random(m.randomRound);
        if random.None? then Some(RandomUnreadable)
        else if !random.value.1 then Some(RandomInsecure)
        else if env.keccak(Abi.EncodeUint256(random.value.0)) != m.randomValueHash then Some(RandomMismatch)
        else None
  }

  // What must hold of an instruction for any verdict to be given on it.
  ghost predicate Admissible(env: Env, instructionId: Bytes32, m: WorkProofInstruction) {
    && m.chainId == env.chainId && m.escrowAddress == env.escrow && m.engineVersionHash == env.engineVersionHash
    && (exists j ::
          && env.job == Some(j) && CrossCheck(m, j) && instructionId == j.current.instructionId
          && env.now <= j.current.timeoutAt && env.now <= j.terms.graceEnds)
    && (exists code ::
          env.code(m.artifactAddress, m.artifactBlock) == Some(code) && env.keccak(code) == m.artifactCodeHash)
    && (exists value: Uint256 ::
          && env.random(m.randomRound) == Some((value, true))
          && env.keccak(Abi.EncodeUint256(value)) == m.randomValueHash)
  }

  lemma PassesExactlyAdmissible(env: Env, instructionId: Bytes32, m: WorkProofInstruction)
    ensures Preflight(env, instructionId, m).None? <==> Admissible(env, instructionId, m)
  {
    if Preflight(env, instructionId, m).None? {
      var random := env.random(m.randomRound).value;
      assert env.random(m.randomRound) == Some((random.0, true));
    }
  }

  // The same guards as they run, one after the other.
  method CheckInstruction(env: Env, instructionId: Bytes32, m: WorkProofInstruction)
    returns (problem: Option<HandlerFailure>)
    ensures problem == Preflight(env, instructionId, m)
    ensures problem.None? <==> Admissible(env, instructionId, m)
  {
    PassesExactlyAdmissible(env, instructionId, m);
    if m.chainId != env.chainId {
      return Some(WrongChain);
    }
    if m.escrowAddress != env.escrow {
      return Some(WrongEscrow);
    }
    if m.engineVersionHash != env.engineVersionHash {
      return Some(WrongEngine);
    }
    if env.job == None {
      return Some(JobUnreadable);
    }
    var job := env.job.value;
    if !CrossCheck(m, job) {
      return Some(InstructionMismatch);
    }
    if env.now > job.current.timeoutAt || env.now > job.terms.graceEnds {
      return Some(DeadlinePassed);
    }
    if instructionId != job.current.instructionId {
      return Some(WrongInstructionId);
    }
    var code := env.code(m.artifactAddress, m.artifactBlock);
    if code == None {
      return Some(CodeUnreadable);
    }
    if env.keccak(code.value) != m.artifactCodeHash {
      return Some(CodeHashMismatch);
    }
    var random := env.random(m.randomRound);
    if random == None {
      return Some(RandomUnreadable);
    }
    if !random.value.1 {
      return Some(RandomInsecure);
    }
    if env.keccak(Abi.EncodeUint256(random.value.0)) != m.randomValueHash {
      return Some(RandomMismatch);
    }
    return None;
  }

  function IdentityFrom(m: WorkProofInstruction, instructionId: Bytes32): VerdictIdentity {
    VerdictIdentity(1, m.escrowAddress, m.chainId, m.jobId, m.attempt, instructionId, m.specHash,
                    m.privateBundleHash, m.artifactAddress, m.artifactBlock)
  }

  // The bundle hashes to the commitment the job was created with.
  predicate HashesTo(env: Env, b: WorkProofBundle, hash: Bytes32) {
    env.canonical(b).Some? && env.keccak(env.canonical(b).value) == hash
  }

  predicate SpecMatches(b: WorkProofBundle, specHash: Bytes32) {
    match Hex.HexutilDecode(b.publicSpecHash)
    case Some(bytes) => |bytes| == 32 && bytes == Abi.EncodeUint256(specHash)
    case None => false
  }

  function FetchAndDecrypt(env: Env, m: WorkProofInstruction): Option<WorkProofBundle> {
    if !env.hasGateway then None
    else
      match env.fetch(m.ciphertextHash)
      case None => None
      case Some(ciphertext) =>
        if env.keccak(ciphertext) != m.ciphertextHash then None
        else
          match env.decrypt(ciphertext)
          case None => None
          case Some(plaintext) =>
            if |plaintext| > MAX_BUNDLE_BYTES then None
            else
              match env.parse(plaintext)
              case None => None
              case Some(b) =>
                if BundleOk(b) && SpecMatches(b, m.specHash) && HashesTo(env, b, m.privateBundleHash)
                then Some(b) else None
  }

  // The committed bundle, as the gateway and the node deliver it.
  ghost predicate Delivered(env: Env, m: WorkProofInstruction, b: WorkProofBundle) {
    && env.hasGateway && BundleOk(b) && SpecMatches(b, m.specHash) && HashesTo(env, b, m.privateBundleHash)
    && exists ciphertext, plaintext ::
         && env.fetch(m.ciphertextHash) == Some(ciphertext) && env.keccak(ciphertext) == m.ciphertextHash
         && env.decrypt(ciphertext) == Some(plaintext) && |plaintext| <= MAX_BUNDLE_BYTES
         && env.parse(plaintext) == Some(b)
  }

  // A bundle is used exactly when it is what was committed to.
  lemma FetchesExactlyDelivered(env: Env, m: WorkProofInstruction, b: WorkProofBundle)
    ensures FetchAndDecrypt(env, m) == Some(b) <==> Delivered(env, m, b)
  {
  }

  method FetchBundle(env: Env, m: WorkProofInstruction) returns (bundle: Option<WorkProofBundle>)
    ensures bundle == FetchAndDecrypt(env, m)
  {
    if !env.hasGateway {
      return None;
    }
    var ciphertext := env.fetch(m.ciphertextHash);
    if ciphertext == None || env.keccak(ciphertext.value) != m.ciphertextHash {
      return None;
    }
    var plaintext := env.decrypt(ciphertext.value);
    if plaintext == None || |plaintext.value| > MAX_BUNDLE_BYTES {
      return None;
    }
    var parsed := env.parse(plaintext.value);
    if parsed == None {
      return None;
    }
    var problem := Validate(parsed.value);
    if problem.Some? || !SpecMatches(parsed.value, m.specHash) {
      return None;
    }
    var canonical := env.canonical(parsed.value);
    if canonical == None || env.keccak(canonical.value) != m.privateBundleHash {
      return None;
    }
    return parsed;
  }

  function TestSeed(keccak: Hash, random: Uint256, escrow: Address, jobId: Uint256, attempt: Uint64,
                    specHash: Bytes32, codeHash: Bytes32): Bytes32
  {
    keccak(TestSeedPreimage(random, escrow, jobId, attempt, specHash, codeHash))
  }

  function TestSeedPreimage(random: Uint256, escrow: Address, jobId: Uint256, attempt: Uint64,
                            specHash: Bytes32, codeHash: Bytes32): seq<Byte>
  {
    Abi.EncodeWords([random, escrow, jobId, attempt, specHash, codeHash])
  }

  // The six inputs of the seed, one to a word, in this order.
  lemma TestSeedLayout(random: Uint256, escrow: Address, jobId: Uint256, attempt: Uint64, specHash: Bytes32,
                       codeHash: Bytes32)
    ensures var d := TestSeedPreimage(random, escrow, jobId, attempt, specHash, codeHash);
            && |d| == 192 && Abi.WordAt(d, 0) == random && Abi.WordAt(d, 1) == escrow && Abi.WordAt(d, 2) == jobId
            && Abi.WordAt(d, 3) == attempt && Abi.WordAt(d, 4) == specHash && Abi.WordAt(d, 5) == codeHash
  {
    var ws: seq<nat> := [random, escrow, jobId, attempt, specHash, codeHash];
    forall i: nat | i < 6 ensures Abi.WordAt(Abi.EncodeWords(ws), i) == ws[i] {
      Abi.WordsStandInOrder(ws, i);
    }
  }

  // Changing any one input changes what is hashed.
  lemma TestSeedPreimageInjective(r: Uint256, e: Address, j: Uint256, a: Uint64, s: Bytes32, h: Bytes32,
                                  r': Uint256, e': Address, j': Uint256, a': Uint64, s': Bytes32, h': Bytes32)
    requires TestSeedPreimage(r, e, j, a, s, h) == TestSeedPreimage(r', e', j', a', s', h')
    ensures (r, e, j, a, s, h) == (r', e', j', a', s', h')
  {
    var x: seq<nat>, y: seq<nat> := [r, e, j, a, s, h], [r', e', j', a', s', h'];
    Abi.EncodeWordsInjective(x, y);
    assert x[0] == y[0] && x[1] == y[1] && x[2] == y[2] && x[3] == y[3] && x[4] == y[4] && x[5] == y[5];
  }

  function TargetOf(m: WorkProofInstruction, b: WorkProofBundle): Target {
    Target(m.artifactAddress, m.artifactBlock, b.gasLimitPerCall, b.maxResponseBytes)
  }

  // --- outcomes ---

  function CountPassed(os: seq<VectorOutcome>): (n: nat)
    ensures n <= |os|
  {
    if |os| == 0 then 0 else CountPassed(os[..|os| - 1]) + (if os[|os| - 1].passed then 1 else 0)
  }

  predicate AnySkipped(os: seq<VectorOutcome>) { exists i | 0 <= i < |os| :: os[i].skipped }
  predicate AllPassed(os: seq<VectorOutcome>) { forall i | 0 <= i < |os| :: os[i].passed }

  function Decide(os: seq<VectorOutcome>): Outcome {
    if AnySkipped(os) then Inconclusive
    else if forall i | 0 <= i < |os| :: os[i].skipped || os[i].passed then Pass
    else Fail
  }

  // No executor's outcome is both passed and skipped.
  predicate Exclusive(os: seq<VectorOutcome>) {
    forall i | 0 <= i < |os| :: !(os[i].passed && os[i].skipped)
  }

  lemma {:induction false} AllPassedIffCount(os: seq<VectorOutcome>)
    ensures CountPassed(os) == |os| <==> AllPassed(os)
  {
    if |os| > 0 {
      var front := os[..|os| - 1];
      AllPassedIffCount(front);
      assert forall i | 0 <= i < |front| :: front[i] == os[i];
      assert AllPassed(os) <==> AllPassed(front) && os[|os| - 1].passed;
    }
  }

  // PASS exactly when everything passed; so the counts the verdict carries are
  // the ones the escrow accepts for its outcome.
  lemma OutcomeMatchesCounts(os: seq<VectorOutcome>)
    requires Exclusive(os)
    ensures Decide(os).Pass? <==> AllPassed(os)
    ensures Decide(os).Pass? <==> CountPassed(os) == |os|
    ensures Decide(os).Inconclusive? <==> AnySkipped(os)
  {
    AllPassedIffCount(os);
  }

  predicate AllBelow(s: seq<nat>, n: nat) { forall k | 0 <= k < |s| :: s[k] < n }

  function RunVectors(env: Env, m: WorkProofInstruction, b: WorkProofBundle, selected: seq<nat>)
    : (os: seq<VectorOutcome>)
    requires AllBelow(selected, |b.vectors|)
    ensures |os| == |selected|
  {
    seq(|selected|, k requires 0 <= k < |selected| =>
      ExecuteVector(env.views(k), TargetOf(m, b), b.vectors[selected[k]]))
  }

  lemma RunVectorsExclusive(env: Env, m: WorkProofInstruction, b: WorkProofBundle, selected: seq<nat>)
    requires AllBelow(selected, |b.vectors|)
    ensures Exclusive(RunVectors(env, m, b, selected))
  {
    var os := RunVectors(env, m, b, selected);
    forall k | 0 <= k < |os| ensures !(os[k].passed && os[k].skipped) {
      assert os[k] == ExecuteVector(env.views(k), TargetOf(m, b), b.vectors[selected[k]]);
    }
  }

  // --- the verdict ---

  function Respond(env: Env, m: WorkProofInstruction, identity: VerdictIdentity, outcome: Outcome,
                   passed: Uint32, executed: Uint32, report: seq<Byte>, issuedAt: Uint64): VerdictV1
  {
    VerdictV1(identity, VerdictOutcome(
      m.artifactCodeHash, m.randomRound, m.randomValueHash, env.engineVersionHash, outcome, passed,
      executed, env.keccak(report), issuedAt, m.expiresAt))
  }

  const INFRASTRUCTURE: VectorOutcome := VectorOutcome("infrastructure", false, true)

  function InconclusiveVerdict(env: Env, m: WorkProofInstruction, identity: VerdictIdentity)
    : Result<VerdictV1, HandlerFailure>
  {
    match env.report([INFRASTRUCTURE])
    case None => Err(ReportFailed)
    case Some(report) => Ok(Respond(env, m, identity, Inconclusive, 0, 1, report, env.later))
  }

  function SelectedVectors(env: Env, m: WorkProofInstruction, b: WorkProofBundle): (s: seq<nat>)
    requires BundleOk(b) && env.random(m.randomRound).Some?
    ensures |s| == b.selectionCount && AllBelow(s, |b.vectors|)
  {
    var seed := TestSeed(env.keccak, env.random(m.randomRound).value.0, m.escrowAddress, m.jobId, m.attempt,
                         m.specHash, m.artifactCodeHash);
    SelectIsSelection(env.keccak, seed, |b.vectors|, b.selectionCount);
    var s := Select(env.keccak, seed, |b.vectors|, b.selectionCount);
    assert forall k | 0 <= k < |s| :: s[k] in s;
    s
  }

  // From a trusted bundle to a verdict.
  function BundleVerdict(env: Env, m: WorkProofInstruction, identity: VerdictIdentity, b: WorkProofBundle)
    : Result<VerdictV1, HandlerFailure>
    requires BundleOk(b) && env.random(m.randomRound).Some?
  {
    var os := RunVectors(env, m, b, SelectedVectors(env, m, b));
    match env.report(os)
    case None => InconclusiveVerdict(env, m, identity)
    case Some(report) => Ok(Respond(env, m, identity, Decide(os), CountPassed(os), |os|, report, env.now))
  }

  function VerdictFor(env: Env, instructionId: Bytes32, m: WorkProofInstruction)
    : Result<VerdictV1, HandlerFailure>
  {
    var problem := Preflight(env, instructionId, m);
    if problem.Some? then Err(problem.value)
    else
      var identity := IdentityFrom(m, instructionId);
      match FetchAndDecrypt(env, m)
      case None => InconclusiveVerdict(env, m, identity)
      case Some(b) =>
        BundleVerdict(env, m, identity, b)
  }

  // --- the procedure itself ---

  method CountPassedLoop(os: seq<VectorOutcome>) returns (n: Uint32)
    requires |os| < TWO32
    ensures n == CountPassed(os)
  {
    n := 0;
    for i := 0 to |os|
      invariant n == CountPassed(os[..i])
    {
      assert os[..i + 1][..i] == os[..i];
      if os[i].passed {
        n := n + 1;
      }
    }
    assert os[..|os|] == os;
  }

  method ExecuteSelected(env: Env, m: WorkProofInstruction, b: WorkProofBundle, selected: seq<nat>)
    returns (outcomes: seq<VectorOutcome>, allPassed: bool, anySkipped: bool)
    requires AllBelow(selected, |b.vectors|)
    ensures outcomes == RunVectors(env, m, b, selected)
    ensures anySkipped <==> AnySkipped(outcomes)
    ensures allPassed <==> forall i | 0 <= i < |outcomes| :: outcomes[i].skipped || outcomes[i].passed
  {
    outcomes, allPassed, anySkipped := [], true, false;
    for k := 0 to |selected|
      invariant |outcomes| == k
      invariant forall i | 0 <= i < k :: outcomes[i] == RunVectors(env, m, b, selected)[i]
      invariant anySkipped <==> AnySkipped(outcomes)
      invariant allPassed <==> forall i | 0 <= i < k :: outcomes[i].skipped || outcomes[i].passed
    {
      var o := ExecuteVector(env.views(k), TargetOf(m, b), b.vectors[selected[k]]);
      ghost var before := outcomes;
      outcomes := outcomes + [o];
      assert outcomes[k] == o;
      if o.skipped {
        anySkipped := true;
      } else if !o.passed {
        allPassed := false;
      }
      assert forall i | 0 <= i < k :: outcomes[i] == before[i];
    }
  }

  // The seed, and the vectors it selects.
  method SelectFrom(env: Env, m: WorkProofInstruction, b: WorkProofBundle) returns (selected: seq<nat>)
    requires BundleOk(b) && env.random(m.randomRound).Some?
    ensures selected == SelectedVectors(env, m, b)
  {
    ValidBundleBounds(b);
    var seed := TestSeed(env.keccak, env.random(m.randomRound).value.0, m.escrowAddress, m.jobId, m.attempt,
                         m.specHash, m.artifactCodeHash);
    selected := SelectVectors(env.keccak, seed, |b.vectors|, b.selectionCount);
  }

  method VerifyBundle(env: Env, m: WorkProofInstruction, identity: VerdictIdentity, b: WorkProofBundle)
    returns (r: Result<VerdictV1, HandlerFailure>)
    requires BundleOk(b) && env.random(m.randomRound).Some?
    ensures r == BundleVerdict(env, m, identity, b)
  {
    ValidBundleBounds(b);
    var selected := SelectFrom(env, m, b);
    var outcomes, allPassed, anySkipped := ExecuteSelected(env, m, b, selected);
    var outcome := Pass;
    if anySkipped {
      outcome := Inconclusive;
    } else if !allPassed {
      outcome := Fail;
    }
    var report := env.report(outcomes);
    if report.None? {
      return InconclusiveVerdict(env, m, identity);
    }
    var passed := CountPassedLoop(outcomes);
    return Ok(Respond(env, m, identity, outcome, passed, |outcomes|, report.value, env.now));
  }

  // --- what the verdict must be, told without the procedure ---

  // The vectors drawn by the seed, each executed on its own view of the endpoint.
  ghost predicate IsExecuted(env: Env, m: WorkProofInstruction, b: WorkProofBundle, selected: seq<nat>,
                             os: seq<VectorOutcome>)
    requires env.random(m.randomRound).Some? && BundleOk(b)
  {
    && IsDrawn(env.keccak,
               env.keccak(Abi.EncodeWords([env.random(m.randomRound).value.0, m.escrowAddress, m.jobId, m.attempt,
                                           m.specHash, m.artifactCodeHash])),
               |b.vectors|, b.selectionCount, selected)
    && |os| == |selected|
    && forall k | 0 <= k < |os| ::
         && selected[k] < |b.vectors|
         && os[k] == ExecuteVector(env.views(k),
                                   Target(m.artifactAddress, m.artifactBlock, b.gasLimitPerCall, b.maxResponseBytes),
                                   b.vectors[selected[k]])
  }

  // The instruction's own fields, handed back.
  predicate Echoes(env: Env, instructionId: Bytes32, m: WorkProofInstruction, v: VerdictV1) {
    && v.id.schemaVersion == 1 && v.id.escrowAddress == m.escrowAddress && v.id.chainId == m.chainId
    && v.id.jobId == m.jobId && v.id.attempt == m.attempt && v.id.instructionId == instructionId
    && v.id.specHash == m.specHash && v.id.privateBundleHash == m.privateBundleHash
    && v.id.artifactAddress == m.artifactAddress && v.id.artifactBlock == m.artifactBlock
    && v.result.artifactCodeHash == m.artifactCodeHash && v.result.randomRound == m.randomRound
    && v.result.randomValueHash == m.randomValueHash && v.result.engineVersionHash == env.engineVersionHash
    && v.result.expiresAt == m.expiresAt
  }

  // How many of the outcomes passed.
  ghost function PassedSet(os: seq<VectorOutcome>): set<nat> {
    set i: nat | i < |os| && os[i].passed
  }

  // The verdict of these outcomes and this report on them.
  ghost predicate Reports(env: Env, v: VerdictV1, os: seq<VectorOutcome>, report: seq<Byte>) {
    && v.result.executedCount == |os| && v.result.passedCount == |PassedSet(os)|
    && v.result.reportHash == env.keccak(report) && v.result.issuedAt == env.now
    && (v.result.outcome == Inconclusive <==> exists i | 0 <= i < |os| :: os[i].skipped)
    && (v.result.outcome == Fail <==>
          (forall i | 0 <= i < |os| :: !os[i].skipped) && exists i | 0 <= i < |os| :: !os[i].passed)
    && (v.result.outcome == Pass <==> forall i | 0 <= i < |os| :: os[i].passed)
  }

  // The verdict when nothing could be judged: no vector passed of one, a report of that.
  ghost predicate GivesUp(env: Env, v: VerdictV1) {
    && v.result.outcome == Inconclusive && v.result.passedCount == 0 && v.result.executedCount == 1
    && v.result.issuedAt == env.later
    && exists report :: env.report([VectorOutcome("infrastructure", false, true)]) == Some(report)
                        && v.result.reportHash == env.keccak(report)
  }

  // The answer where nothing could be judged: that verdict, or none if it has no report.
  ghost predicate GivesUpOrFails(env: Env, r: Result<VerdictV1, HandlerFailure>) {
    if env.report([VectorOutcome("infrastructure", false, true)]).None? then r == Err(ReportFailed)
    else r.Ok? && GivesUp(env, r.value)
  }

  // The answer with a bundle at hand: its own outcomes, reported if they can be.
  ghost predicate Judges(env: Env, m: WorkProofInstruction, b: WorkProofBundle, r: Result<VerdictV1, HandlerFailure>)
    requires env.random(m.randomRound).Some? && BundleOk(b)
  {
    exists selected, os ::
      && IsExecuted(env, m, b, selected, os)
      && match env.report(os)
         case Some(report) => r.Ok? && Reports(env, r.value, os, report)
         case None => GivesUpOrFails(env, r)
  }

  // What is answered to an admissible instruction: what the delivered bundle says, or
  // that none was delivered.
  ghost predicate Answers(env: Env, instructionId: Bytes32, m: WorkProofInstruction,
                          r: Result<VerdictV1, HandlerFailure>)
    requires Admissible(env, instructionId, m)
  {
    && (r.Ok? ==> Echoes(env, instructionId, m, r.value))
    && (forall b | Delivered(env, m, b) :: Judges(env, m, b, r))
    && ((forall b :: !Delivered(env, m, b)) ==> GivesUpOrFails(env, r))
  }

  lemma {:induction false} PassedAreCounted(os: seq<VectorOutcome>)
    ensures CountPassed(os) == |PassedSet(os)|
  {
    if |os| > 0 {
      var front, last := os[..|os| - 1], |os| - 1;
      PassedAreCounted(front);
      assert PassedSet(os) == PassedSet(front) + (if os[last].passed then {last} else {});
    }
  }

  lemma OutcomesAreReported(env: Env, m: WorkProofInstruction, identity: VerdictIdentity, os: seq<VectorOutcome>,
                            report: seq<Byte>)
    requires Exclusive(os) && |os| < TWO32
    ensures Reports(env, Respond(env, m, identity, Decide(os), CountPassed(os), |os|, report, env.now), os, report)
  {
    PassedAreCounted(os);
    OutcomeMatchesCounts(os);
    if Decide(os).Fail? {
      assert !AllPassed(os);
    }
  }

  lemma ThoseAreExecuted(env: Env, m: WorkProofInstruction, b: WorkProofBundle)
    requires BundleOk(b) && env.random(m.randomRound).Some?
    ensures IsExecuted(env, m, b, SelectedVectors(env, m, b), RunVectors(env, m, b, SelectedVectors(env, m, b)))
  {
    SelectedAreDrawn(env, m, b);
  }

  lemma BundleIsJudged(env: Env, m: WorkProofInstruction, identity: VerdictIdentity, b: WorkProofBundle)
    requires BundleOk(b) && env.random(m.randomRound).Some?
    ensures Judges(env, m, b, BundleVerdict(env, m, identity, b))
  {
    ValidBundleBounds(b);
    var selected := SelectedVectors(env, m, b);
    var os := RunVectors(env, m, b, selected);
    ThoseAreExecuted(env, m, b);
    RunVectorsExclusive(env, m, b, selected);
    if env.report(os).Some? {
      OutcomesAreReported(env, m, identity, os, env.report(os).value);
    } else {
      InconclusiveGivesUp(env, m, identity);
    }
    assert IsExecuted(env, m, b, selected, os);
  }

  lemma InconclusiveGivesUp(env: Env, m: WorkProofInstruction, identity: VerdictIdentity)
    ensures GivesUpOrFails(env, InconclusiveVerdict(env, m, identity))
  {
  }

  lemma SelectedAreDrawn(env: Env, m: WorkProofInstruction, b: WorkProofBundle)
    requires BundleOk(b) && env.random(m.randomRound).Some?
    ensures var seed := env.keccak(Abi.EncodeWords([env.random(m.randomRound).value.0, m.escrowAddress, m.jobId,
                                                    m.attempt, m.specHash, m.artifactCodeHash]));
            IsDrawn(env.keccak, seed, |b.vectors|, b.selectionCount, SelectedVectors(env, m, b))
  {
    var seed := TestSeed(env.keccak, env.random(m.randomRound).value.0, m.escrowAddress, m.jobId, m.attempt,
                         m.specHash, m.artifactCodeHash);
    SelectIsDrawn(env.keccak, seed, |b.vectors|, b.selectionCount, SelectedVectors(env, m, b));
  }

  lemma VerdictAnswers(env: Env, instructionId: Bytes32, m: WorkProofInstruction)
    requires Admissible(env, instructionId, m)
    ensures Answers(env, instructionId, m, VerdictFor(env, instructionId, m))
  {
    PassesExactlyAdmissible(env, instructionId, m);
    var identity := IdentityFrom(m, instructionId);
    forall b ensures FetchAndDecrypt(env, m) == Some(b) <==> Delivered(env, m, b) {
      FetchesExactlyDelivered(env, m, b);
    }
    match FetchAndDecrypt(env, m)
    case Some(b) => BundleIsJudged(env, m, identity, b);
    case None =>
  }

  method Verify(env: Env, instructionId: Bytes32, m: WorkProofInstruction)
    returns (r: Result<VerdictV1, HandlerFailure>)
    ensures r == VerdictFor(env, instructionId, m)
    ensures r.Ok? ==> Admissible(env, instructionId, m)
    ensures Admissible(env, instructionId, m) ==> Answers(env, instructionId, m, r)
    ensures r.Err? && Admissible(env, instructionId, m) ==>
              r == Err(ReportFailed) && env.report([INFRASTRUCTURE]) == None
  {
    var problem := CheckInstruction(env, instructionId, m);
    if problem.Some? {
      return Err(problem.value);
    }
    VerdictAnswers(env, instructionId, m);
    var identity := IdentityFrom(m, instructionId);
    var bundle := FetchBundle(env, m);
    if bundle == None {
      return InconclusiveVerdict(env, m, identity);
    }
    r := VerifyBundle(env, m, identity, bundle.value);
  }
}
