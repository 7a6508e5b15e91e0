// Registering a TEE machine: four on-chain steps, each recorded in a state file so
// that a run that fails or dies can be resumed by the next one.
module Registration {
  import opened Base

  datatype Step = Register | Attest | Check | Promote

  function Letter(step: Step): char {
    match step
    case Register => 'r'
    case Attest => 'R'
    case Check => 'a'
    case Promote => 'p'
  }

  datatype State = State(completed: string, attestId: Bytes32, availabilityId: Bytes32)
  {
    predicate Has(step: Step) { Letter(step) in completed }
  }

  const NEW_STATE := State("", 0, 0)

  // A save that is cut short leaves text that no longer parses.
  datatype File = Missing | Torn | Saved(state: State)

  // One run of the command: what it was asked for, and how the outside world answers.
  // An answer is the instruction id of a call that went through.
  datatype Session = Session(
    command: string, explicitId: Option<Bytes32>, teeInfoOk: bool, registered: bool,
    preRegistration: Option<Bytes32>, freshAttestation: Option<Bytes32>, attestation: Option<Bytes32>,
    policyInSync: bool, availability: Option<Bytes32>, proofReady: bool, promoted: bool)
  {
    predicate Wants(step: Step) { Letter(step) in command }

    predicate Smooth() {
      && teeInfoOk && policyInSync && proofReady && promoted
      && (if registered then freshAttestation.Some? else preRegistration.Some?)
      && attestation.Some? && availability.Some?
    }
  }

  // The letters of a command, as its documentation has them.
  lemma CommandLetters(session: Session)
    ensures session.Wants(Register) <==> 'r' in session.command
    ensures session.Wants(Attest) <==> 'R' in session.command
    ensures session.Wants(Check) <==> 'a' in session.command
    ensures session.Wants(Promote) <==> 'p' in session.command
  {
  }

  datatype Call =
    | PreRegister
    | RequestAttestation
    | RequestCheck(challenge: Bytes32)
    | ToProduction(availabilityId: Bytes32)

  datatype Entry =
    | Performed(step: Step, session: Session, call: Call)
    | Recorded(step: Step, id: Bytes32)
    | Removed

  datatype Exit = Done | Failed | Died

  // --- what the log says is on record ---

  function Completed(log: seq<Entry>): set<Step> {
    if |log| == 0 then {}
    else
      var before := Completed(log[..|log| - 1]);
      match log[|log| - 1]
      case Performed(_, _, _) => before
      case Recorded(step, _) => before + {step}
      case Removed => {}
  }

  predicate IsAttestation(e: Entry) { e.Recorded? && (e.step == Register || e.step == Attest) }

  function LastAttest(log: seq<Entry>): Bytes32 {
    if |log| == 0 then 0
    else
      var last := log[|log| - 1];
      if last.Removed? then 0
      else if IsAttestation(last) then last.id
      else LastAttest(log[..|log| - 1])
  }

  function LastAvailability(log: seq<Entry>): Bytes32 {
    if |log| == 0 then 0
    else
      var last := log[|log| - 1];
      if last.Removed? then 0
      else if last.Recorded? && last.step == Check then last.id
      else LastAvailability(log[..|log| - 1])
  }

  // Every earlier step the session asks for is on record.
  predicate Prepared(session: Session, done: set<Step>, steps: set<Step>) {
    forall step | step in steps && session.Wants(step) :: step in done
  }

  predicate CallFits(before: seq<Entry>, step: Step, session: Session, call: Call) {
    match step
    case Register => call == if session.registered then RequestAttestation else PreRegister
    case Attest => call == RequestAttestation && Prepared(session, Completed(before), {Register})
    case Check =>
      && Prepared(session, Completed(before), {Register, Attest}) && session.policyInSync
      && call == RequestCheck(if session.Wants(Register) || session.Wants(Attest) then LastAttest(before) else 0)
    case Promote =>
      && Prepared(session, Completed(before), {Register, Attest, Check}) && session.proofReady
      && call == ToProduction(
                   if session.explicitId.Some? && !session.Wants(Check) then session.explicitId.value
                   else LastAvailability(before))
  }

  function AnswerOf(step: Step, session: Session): Option<Bytes32> {
    match step
    case Register => if session.registered then session.freshAttestation else session.preRegistration
    case Attest => session.attestation
    case Check => session.availability
    case Promote => None
  }

  // The id with which the world answered the session's call for a step.
  predicate IsAnswer(step: Step, session: Session, id: Bytes32) {
    match step
    case Register =>
      if session.registered then session.freshAttestation == Some(id) else session.preRegistration == Some(id)
    case Attest => session.attestation == Some(id)
    case Check => session.availability == Some(id)
    case Promote => false
  }

  predicate Fits(before: seq<Entry>, e: Entry) {
    match e
    case Performed(step, session, call) =>
      step !in Completed(before) && session.Wants(step) && CallFits(before, step, session, call)
    case Recorded(step, id) =>
      && |before| > 0 && before[|before| - 1].Performed? && before[|before| - 1].step == step
      && IsAnswer(step, before[|before| - 1].session, id)
    case Removed => true
  }

  ghost predicate GoodLog(log: seq<Entry>) {
    forall i | 0 <= i < |log| :: Fits(log[..i], log[i])
  }

  lemma GoodAppend(log: seq<Entry>, e: Entry)
    requires GoodLog(log) && Fits(log, e)
    ensures GoodLog(log + [e]) && (log + [e])[..|log|] == log
  {
    var longer := log + [e];
    assert longer[..|log|] == log;
    forall i | 0 <= i < |longer| ensures Fits(longer[..i], longer[i]) {
      if i < |log| {
        assert longer[..i] == log[..i];
      }
    }
  }

  lemma {:induction false} NothingAvailable(log: seq<Entry>)
    requires Check !in Completed(log)
    ensures LastAvailability(log) == 0
  {
    if |log| > 0 && !log[|log| - 1].Removed? {
      NothingAvailable(log[..|log| - 1]);
    }
  }

  // --- what a good log means ---

  // Once recorded, a step is not performed again until the state file is removed.
  lemma {:induction false} StaysCompleted(log: seq<Entry>, i: nat, j: nat)
    requires i < j <= |log| && log[i].Recorded?
    requires forall k | i < k < j :: log[k] != Removed
    ensures log[i].step in Completed(log[..j])
  {
    assert log[..j][..j - 1] == log[..j - 1];
    if j > i + 1 {
      StaysCompleted(log, i, j - 1);
    }
  }

  lemma RecordedIsNotRepeated(log: seq<Entry>, i: nat, j: nat)
    requires GoodLog(log) && i < j < |log| && log[i].Recorded?
    requires forall k | i < k < j :: log[k] != Removed
    ensures !(log[j].Performed? && log[j].step == log[i].step)
  {
    StaysCompleted(log, i, j);
    assert Fits(log[..j], log[j]);
  }

  // Entry i is the last attestation on record before entry j.
  predicate LatestAttestation(log: seq<Entry>, i: nat, j: nat)
    requires i < j <= |log|
  {
    IsAttestation(log[i]) && forall k | i < k < j :: log[k] != Removed && !IsAttestation(log[k])
  }

  predicate LatestCheck(log: seq<Entry>, i: nat, j: nat)
    requires i < j <= |log|
  {
    log[i].Recorded? && log[i].step == Check
    && forall k | i < k < j :: log[k] != Removed && !(log[k].Recorded? && log[k].step == Check)
  }

  lemma {:induction false} FindAttestation(log: seq<Entry>, j: nat) returns (i: nat)
    requires j <= |log| && (Register in Completed(log[..j]) || Attest in Completed(log[..j]))
    ensures i < j && LatestAttestation(log, i, j) && log[i].id == LastAttest(log[..j])
  {
    assert log[..j][..j - 1] == log[..j - 1];
    if IsAttestation(log[j - 1]) {
      i := j - 1;
    } else {
      i := FindAttestation(log, j - 1);
    }
  }

  lemma {:induction false} FindCheck(log: seq<Entry>, j: nat) returns (i: nat)
    requires j <= |log| && Check in Completed(log[..j])
    ensures i < j && LatestCheck(log, i, j) && log[i].id == LastAvailability(log[..j])
  {
    assert log[..j][..j - 1] == log[..j - 1];
    if log[j - 1].Recorded? && log[j - 1].step == Check {
      i := j - 1;
    } else {
      i := FindCheck(log, j - 1);
    }
  }

  lemma {:induction false} LatestIsLast(log: seq<Entry>, i: nat, j: nat)
    requires i < j <= |log| && LatestAttestation(log, i, j)
    ensures LastAttest(log[..j]) == log[i].id
  {
    assert log[..j][..j - 1] == log[..j - 1];
    if i < j - 1 {
      assert log[j - 1] != Removed && !IsAttestation(log[j - 1]);
      LatestIsLast(log, i, j - 1);
    }
  }

  lemma {:induction false} LatestCheckIsLast(log: seq<Entry>, i: nat, j: nat)
    requires i < j <= |log| && LatestCheck(log, i, j)
    ensures LastAvailability(log[..j]) == log[i].id
  {
    assert log[..j][..j - 1] == log[..j - 1];
    if i < j - 1 {
      assert log[j - 1] != Removed && !(log[j - 1].Recorded? && log[j - 1].step == Check);
      LatestCheckIsLast(log, i, j - 1);
    }
  }

  // An availability check whose command also asks for an attestation finds one on
  // record. It answers the latest recorded one exactly if its command asks for one
  // (or that id is zero); a command that does not sends a zero challenge.
  lemma CheckUsesLatestAttestation(log: seq<Entry>, j: nat)
    requires GoodLog(log) && j < |log| && log[j].Performed? && log[j].step == Check
    ensures log[j].call.RequestCheck?
    ensures var asks := log[j].session.Wants(Register) || log[j].session.Wants(Attest);
            && (asks ==> exists i: nat | i < j :: LatestAttestation(log, i, j))
            && (!asks ==> log[j].call.challenge == 0)
            && forall i: nat | i < j && LatestAttestation(log, i, j) ::
                 log[j].call.challenge == log[i].id <==> asks || log[i].id == 0
  {
    assert Fits(log[..j], log[j]);
    var session := log[j].session;
    if session.Wants(Register) || session.Wants(Attest) {
      var i := FindAttestation(log, j);
    }
    forall i: nat | i < j && LatestAttestation(log, i, j) ensures LastAttest(log[..j]) == log[i].id {
      LatestIsLast(log, i, j);
    }
  }

  // A promotion asked for together with the check finds one on record. It uses the
  // latest recorded one, unless it was given another id and not asked to check.
  lemma PromotionUsesLatestCheck(log: seq<Entry>, j: nat)
    requires GoodLog(log) && j < |log| && log[j].Performed? && log[j].step == Promote
    ensures log[j].call.ToProduction?
    ensures log[j].session.Wants(Check) ==> exists i: nat | i < j :: LatestCheck(log, i, j)
    ensures forall i: nat | i < j && LatestCheck(log, i, j) ::
              log[j].call.availabilityId == log[i].id <==>
              log[j].session.Wants(Check) || log[j].session.explicitId in {None, Some(log[i].id)}
  {
    assert Fits(log[..j], log[j]);
    if log[j].session.Wants(Check) {
      var i := FindCheck(log, j);
    }
    forall i: nat | i < j && LatestCheck(log, i, j) ensures LastAvailability(log[..j]) == log[i].id {
      LatestCheckIsLast(log, i, j);
    }
  }

  // --- the program ---

  ghost predicate Mirrors(state: State, log: seq<Entry>) {
    && (forall step :: state.Has(step) <==> step in Completed(log))
    && state.attestId == LastAttest(log) && state.availabilityId == LastAvailability(log)
  }

  ghost predicate FileMirrors(file: File, log: seq<Entry>) {
    match file
    case Missing => Mirrors(NEW_STATE, log)
    case Torn => true
    case Saved(state) => Mirrors(state, log)
  }

  ghost predicate InSession(log: seq<Entry>, from: nat, session: Session) {
    forall k | from <= k < |log| :: log[k] != Removed && (log[k].Performed? ==> log[k].session == session)
  }

  ghost predicate DidIn(log: seq<Entry>, from: nat, step: Step) {
    exists k | from <= k < |log| :: log[k].Performed? && log[k].step == step
  }

  function SavedAvailability(explicitId: Option<Bytes32>, state: State): Bytes32 {
    if explicitId.Some? then explicitId.value
    else if state.Has(Check) && state.availabilityId != 0 then state.availabilityId
    else 0
  }

  function Noted(state: State, step: Step, id: Bytes32): State {
    var done := state.completed + [Letter(step)];
    if step == Check then state.(completed := done, availabilityId := id)
    else state.(completed := done, attestId := id)
  }

  // --- a run, as a function ---

  datatype Progress = Progress(exit: Exit, state: State, life: nat, file: File, log: seq<Entry>)

  function CallOf(step: Step, session: Session, state: State): Call {
    match step
    case Register => if session.registered then RequestAttestation else PreRegister
    case Attest => RequestAttestation
    case Check => RequestCheck(if session.Wants(Register) || session.Wants(Attest) then state.attestId else 0)
    case Promote =>
      ToProduction(if session.Wants(Check) then state.availabilityId else SavedAvailability(session.explicitId, state))
  }

  // r, R or a: skipped if not asked for or on record; otherwise called and recorded, as
  // far as the process lives.
  function Stepped(p: Progress, step: Step, session: Session, torn: bool): Progress {
    if p.exit != Done || !session.Wants(step) || p.state.Has(step) then p
    else if step == Check && !session.policyInSync then p.(exit := Failed)
    else if p.life == 0 then p.(exit := Died)
    else
      var called := p.(life := p.life - 1, log := p.log + [Performed(step, session, CallOf(step, session, p.state))]);
      match AnswerOf(step, session)
      case None => called.(exit := Failed)
      case Some(id) =>
        if called.life == 0 then called.(exit := Died, file := if torn then Torn else called.file)
        else
          var next := Noted(p.state, step, id);
          Progress(Done, next, called.life - 1, Saved(next), called.log + [Recorded(step, id)])
  }

  function Promoted(p: Progress, session: Session): Progress {
    if p.exit != Done || !session.Wants(Promote) then p
    else if !session.proofReady then p.(exit := Failed)
    else if p.life == 0 then p.(exit := Died)
    else
      var call := CallOf(Promote, session, p.state);
      p.(exit := if session.promoted then Done else Failed, life := p.life - 1,
         log := p.log + [Performed(Promote, session, call)])
  }

  function Finished(p: Progress): Progress {
    if p.exit != Done then p
    else if p.life == 0 then p.(exit := Died)
    else p.(file := Missing, log := p.log + [Removed])
  }

  function ToAttest(p: Progress, session: Session, torn: bool): Progress {
    Stepped(Stepped(p, Register, session, torn), Attest, session, torn)
  }

  function ToCheck(p: Progress, session: Session, torn: bool): Progress {
    Stepped(ToAttest(p, session, torn), Check, session, torn)
  }

  function AllSteps(p: Progress, session: Session, torn: bool): Progress {
    Promoted(ToCheck(p, session, torn), session)
  }

  lemma StopsThere(p: Progress, session: Session, torn: bool)
    requires p.exit != Done
    ensures forall step :: Stepped(p, step, session, torn) == p
  {
  }

  // RegisterNode on a file, with what was logged before it.
  function RunOf(file: File, log: seq<Entry>, session: Session, lifetime: nat, torn: bool): Progress {
    if !session.teeInfoOk || file == Torn then Progress(Failed, NEW_STATE, lifetime, file, log)
    else
      var state := if file == Missing then NEW_STATE else file.state;
      Finished(AllSteps(Progress(Done, state, lifetime, file, log), session, torn))
  }

  lemma NotedMirrors(state: State, log: seq<Entry>, step: Step, id: Bytes32)
    requires Mirrors(state, log) && step != Promote
    ensures Mirrors(Noted(state, step, id), log + [Recorded(step, id)])
  {
    var longer := log + [Recorded(step, id)];
    assert longer[..|log|] == log;
    forall other: Step ensures Noted(state, step, id).Has(other) <==> other in Completed(longer) {
      assert other == step <==> Letter(other) == Letter(step);
    }
  }

  // Everything a session adds to the log is its own, and nothing on record is dropped.
  ghost predicate Extends(before: seq<Entry>, after: seq<Entry>, session: Session) {
    before <= after && InSession(after, |before|, session)
  }

  // The session has got past a step: done before if not asked for or on record,
  // performed and recorded otherwise.
  ghost predicate Advanced(before: seq<Entry>, after: seq<Entry>, session: Session, step: Step) {
    && Extends(before, after, session)
    && Completed(before) <= Completed(after) <= Completed(before) + {step}
    && (session.Wants(step) ==> step in Completed(after))
    && (session.Wants(step) && step !in Completed(before) ==> DidIn(after, |before|, step))
  }

  lemma JustDone(before: seq<Entry>, after: seq<Entry>, session: Session, step: Step, call: Call, id: Bytes32)
    requires step !in Completed(before)
    requires after == before + [Performed(step, session, call)] + [Recorded(step, id)]
    ensures Advanced(before, after, session, step)
  {
    var mid := before + [Performed(step, session, call)];
    assert mid[..|before|] == before && after[..|mid|] == mid;
    assert after[|before|].step == step;
  }

  lemma {:induction false} NeverPromoted(log: seq<Entry>)
    requires GoodLog(log)
    ensures Promote !in Completed(log)
  {
    if |log| > 0 {
      var before, last := log[..|log| - 1], log[|log| - 1];
      forall i | 0 <= i < |before| ensures Fits(before[..i], before[i]) {
        assert before[..i] == log[..i];
      }
      NeverPromoted(before);
      assert Fits(before, last);
    }
  }

  lemma PromotionFits(state: State, log: seq<Entry>, session: Session, availabilityId: Bytes32)
    requires GoodLog(log) && Mirrors(state, log) && session.Wants(Promote) && session.proofReady
    requires Prepared(session, Completed(log), {Register, Attest, Check})
    requires availabilityId ==
             if session.explicitId.Some? && !session.Wants(Check) then session.explicitId.value
             else state.availabilityId
    ensures CallOf(Promote, session, state) == ToProduction(availabilityId)
    ensures Fits(log, Performed(Promote, session, ToProduction(availabilityId)))
  {
    NeverPromoted(log);
    if !state.Has(Check) {
      NothingAvailable(log);
    }
  }

  lemma Did(before: seq<Entry>, after: seq<Entry>, all: seq<Entry>, from: nat, step: Step)
    requires DidIn(after, |before|, step) && after <= all && from <= |before|
    ensures DidIn(all, from, step)
  {
    var k :| |before| <= k < |after| && after[k].Performed? && after[k].step == step;
    assert all[k] == after[k];
  }

  // The steps asked for and not on record have been performed.
  ghost predicate AllDid(before: seq<Entry>, after: seq<Entry>, session: Session, steps: set<Step>) {
    && Completed(after) <= Completed(before) + steps
    && forall step | step in steps && session.Wants(step) && step !in Completed(before) ::
         DidIn(after, |before|, step)
  }

  lemma ThenDid(l0: seq<Entry>, l1: seq<Entry>, l2: seq<Entry>, session: Session, steps: set<Step>, step: Step)
    requires Extends(l0, l1, session) && AllDid(l0, l1, session, steps) && Advanced(l1, l2, session, step)
    requires step !in steps
    ensures AllDid(l0, l2, session, steps + {step})
  {
    forall s | s in steps + {step} && session.Wants(s) && s !in Completed(l0) ensures DidIn(l2, |l0|, s) {
      if s == step {
        Did(l1, l2, l2, |l0|, s);
      } else {
        Did(l0, l1, l2, |l0|, s);
      }
    }
  }

  class Registrar {
    var file: File
    ghost var log: seq<Entry>

    ghost predicate Valid()
      reads this
    {
      GoodLog(log) && FileMirrors(file, log)
    }

    constructor ()
      ensures Valid() && log == [] && file == Missing
    {
      file, log := Missing, [];
    }

    // A resumed run works on the saved state exactly when mem mirrors the log.
    ghost predicate Running(mem: State)
      reads this
    {
      Valid() && Mirrors(mem, log)
    }

    // Where the run is, as the function has it.
    ghost predicate Reached(p: Progress, exit: Exit, state: State, life: nat)
      reads this
    {
      exit == p.exit && file == p.file && log == p.log && (exit == Done ==> state == p.state && life == p.life)
    }

    method LoadState() returns (state: Option<State>)
      requires Valid()
      ensures state.None? <==> file == Torn
      ensures state.Some? ==> Running(state.value)
      ensures state.Some? ==> state.value == if file == Missing then NEW_STATE else file.state
    {
      match file {
        case Missing => return Some(NEW_STATE);
        case Torn => return None;
        case Saved(s) => return Some(s);
      }
    }

    // A call leaves the process: the world sees it whether or not it is ever recorded.
    ghost method Perform(mem: State, step: Step, session: Session, call: Call)
      requires Running(mem) && Fits(log, Performed(step, session, call))
      modifies this`log
      ensures Running(mem) && log == old(log) + [Performed(step, session, call)]
      ensures Completed(log) == Completed(old(log))
    {
      GoodAppend(log, Performed(step, session, call));
      log := log + [Performed(step, session, call)];
    }

    // Saving takes the file from one state to the next unless the process dies first.
    method Save(state: State, ghost step: Step, ghost id: Bytes32, life: nat, torn: bool) returns (alive: bool)
      requires Valid() && step != Promote && Fits(log, Recorded(step, id))
      requires Mirrors(state, log + [Recorded(step, id)])
      modifies this
      ensures Valid() && alive == (life > 0)
      ensures alive ==> log == old(log) + [Recorded(step, id)] && Mirrors(state, log) && file == Saved(state)
      ensures !alive ==> log == old(log) && file == if torn then Torn else old(file)
    {
      if life == 0 {
        file := if torn then Torn else file;
        return false;
      }
      file := Saved(state);
      GoodAppend(log, Recorded(step, id));
      log := log + [Recorded(step, id)];
      return true;
    }

    // The operator, or the last line of a finished run, deletes the state file.
    method Remove()
      requires GoodLog(log)
      modifies this
      ensures Valid() && file == Missing && log == old(log) + [Removed]
    {
      GoodAppend(log, Removed);
      log := log + [Removed];
      file := Missing;
    }

    // Make the call for a step, then record its answer.
    method PerformAndRecord(state: State, step: Step, session: Session, ghost call: Call, life: nat, torn: bool)
      returns (exit: Exit, next: State, left: nat)
      requires Running(state) && step != Promote && Fits(log, Performed(step, session, call))
      requires session.Wants(step) && !state.Has(step) && call == CallOf(step, session, state)
      requires step == Check ==> session.policyInSync
      modifies this
      ensures Valid() && Extends(old(log), log, session)
      ensures Reached(Stepped(Progress(Done, state, life, old(file), old(log)), step, session, torn), exit, next, left)
      ensures exit == Done ==>
                && Running(next) && left + 2 == life
                && AnswerOf(step, session).Some? && next == Noted(state, step, AnswerOf(step, session).value)
                && Advanced(old(log), log, session, step)
      ensures exit == Failed ==> AnswerOf(step, session).None?
      ensures exit == Died ==> life < 2
    {
      ghost var p := Stepped(Progress(Done, state, life, file, log), step, session, torn);
      next, left := state, life;
      if left == 0 {
        return Died, next, left;
      }
      left := left - 1;
      Perform(state, step, session, call);
      var answer := AnswerOf(step, session);
      if answer.None? {
        return Failed, next, left;
      }
      next := Noted(state, step, answer.value);
      NotedMirrors(state, log, step, answer.value);
      var alive := Save(next, step, answer.value, left, torn);
      if !alive {
        return Died, next, left;
      }
      assert p == Progress(Done, next, left - 1, file, log);
      JustDone(old(log), log, session, step, call, answer.value);
      return Done, next, left - 1;
    }

    // r: pre-register, or ask for a fresh attestation if the machine is registered.
    method RegisterStep(state: State, session: Session, life: nat, torn: bool)
      returns (exit: Exit, next: State, attestId: Bytes32, left: nat)
      requires Running(state)
      modifies this
      ensures Valid() && Extends(old(log), log, session)
      ensures Reached(Stepped(Progress(Done, state, life, old(file), old(log)), Register, session, torn),
                      exit, next, left)
      ensures exit == Done ==> Running(next) && Advanced(old(log), log, session, Register) && left + 2 >= life
      ensures exit == Done ==> attestId == if session.Wants(Register) then next.attestId else 0
      ensures exit == Failed ==> AnswerOf(Register, session).None?
      ensures exit == Died ==> life < 2
    {
      exit, next, attestId, left := Done, state, 0, life;
      if session.Wants(Register) {
        if !state.Has(Register) {
          ghost var call := if session.registered then RequestAttestation else PreRegister;
          exit, next, left := PerformAndRecord(state, Register, session, call, life, torn);
        }
        attestId := next.attestId;
      }
    }

    // R: ask for an attestation.
    method AttestStep(state: State, session: Session, attestSoFar: Bytes32, life: nat, torn: bool)
      returns (exit: Exit, next: State, attestId: Bytes32, left: nat)
      requires Running(state) && Prepared(session, Completed(log), {Register})
      requires attestSoFar == if session.Wants(Register) then state.attestId else 0
      modifies this
      ensures Valid() && Extends(old(log), log, session)
      ensures Reached(Stepped(Progress(Done, state, life, old(file), old(log)), Attest, session, torn),
                      exit, next, left)
      ensures exit == Done ==> Running(next) && Advanced(old(log), log, session, Attest) && left + 2 >= life
      ensures exit == Done ==>
                attestId == if session.Wants(Register) || session.Wants(Attest) then next.attestId else 0
      ensures exit == Failed ==> session.attestation.None?
      ensures exit == Died ==> life < 2
    {
      exit, next, attestId, left := Done, state, attestSoFar, life;
      if session.Wants(Attest) {
        if !state.Has(Attest) {
          exit, next, left := PerformAndRecord(state, Attest, session, RequestAttestation, life, torn);
        }
        attestId := next.attestId;
      }
    }

    // a: have the machine's availability checked against the attestation.
    method CheckStep(state: State, session: Session, attestId: Bytes32, life: nat, torn: bool)
      returns (exit: Exit, next: State, availabilityId: Bytes32, left: nat)
      requires Running(state) && Prepared(session, Completed(log), {Register, Attest})
      requires attestId == if session.Wants(Register) || session.Wants(Attest) then state.attestId else 0
      modifies this
      ensures Valid() && Extends(old(log), log, session)
      ensures Reached(Stepped(Progress(Done, state, life, old(file), old(log)), Check, session, torn), exit, next, left)
      ensures exit == Done ==> Running(next) && Advanced(old(log), log, session, Check) && left + 2 >= life
      ensures exit == Done ==>
                availabilityId ==
                if session.explicitId.Some? && !session.Wants(Check) then session.explicitId.value
                else next.availabilityId
      ensures exit == Failed ==> !session.policyInSync || session.availability.None?
      ensures exit == Died ==> life < 2
    {
      exit, next, left := Done, state, life;
      if session.Wants(Check) {
        if !state.Has(Check) {
          if !session.policyInSync {
            return Failed, state, 0, life;
          }
          exit, next, left := PerformAndRecord(state, Check, session, RequestCheck(attestId), life, torn);
        }
        availabilityId := next.availabilityId;
      } else {
        availabilityId := SavedAvailability(session.explicitId, state);
        if !state.Has(Check) {
          NothingAvailable(log);
        }
      }
    }

    // p: move the machine to production on the strength of a check.
    method PromoteStep(ghost state: State, session: Session, availabilityId: Bytes32, life: nat)
      returns (exit: Exit, left: nat)
      requires Running(state) && Prepared(session, Completed(log), {Register, Attest, Check})
      requires availabilityId ==
               if session.explicitId.Some? && !session.Wants(Check) then session.explicitId.value
               else state.availabilityId
      modifies this
      ensures Valid() && Extends(old(log), log, session)
      ensures Reached(Promoted(Progress(Done, state, life, old(file), old(log)), session), exit, state, left)
      ensures exit == Done ==> left + 1 >= life && (session.Wants(Promote) ==> DidIn(log, |old(log)|, Promote))
      ensures exit == Failed ==> !session.proofReady || !session.promoted
      ensures exit == Died ==> life == 0
    {
      exit, left := Done, life;
      if session.Wants(Promote) {
        if !session.proofReady {
          return Failed, left;
        }
        if life == 0 {
          return Died, left;
        }
        left := life - 1;
        PromotionFits(state, log, session, availabilityId);
        Perform(state, Promote, session, ToProduction(availabilityId));
        assert log[|old(log)|].step == Promote;
        if !session.promoted {
          return Failed, left;
        }
      }
    }

    // The four steps in order, each skipped when not asked for or already on record.
    method RunSteps(loaded: State, session: Session, lifetime: nat, torn: bool) returns (exit: Exit, life: nat)
      requires Running(loaded)
      modifies this
      ensures Valid() && Extends(old(log), log, session)
      ensures exists state ::
                Reached(AllSteps(Progress(Done, loaded, lifetime, old(file), old(log)), session, torn),
                        exit, state, life)
      ensures exit == Done ==> life + 7 >= lifetime
      ensures exit == Done ==>
                forall step | session.Wants(step) && step !in Completed(old(log)) :: DidIn(log, |old(log)|, step)
      ensures exit == Failed ==> !session.Smooth()
      ensures exit == Died ==> lifetime < 7
    {
      ghost var l0, p0 := log, Progress(Done, loaded, lifetime, file, log);
      var state, availabilityId;
      exit, state, availabilityId, life := RunToCheck(loaded, session, lifetime, torn);
      ghost var p3 := ToCheck(p0, session, torn);
      assert AllSteps(p0, session, torn) == Promoted(p3, session);
      if exit != Done {
        assert Reached(Promoted(p3, session), exit, state, life);
        return;
      }
      assert p3 == Progress(Done, state, life, file, log);
      ghost var l3 := log;
      exit, life := PromoteStep(state, session, availabilityId, life);
      assert Reached(AllSteps(p0, session, torn), exit, state, life);
      if exit == Done && session.Wants(Promote) {
        Did(l3, log, log, |l0|, Promote);
      }
      forall step | step in {Register, Attest, Check} && DidIn(l3, |l0|, step) ensures DidIn(log, |l0|, step) {
        Did(l0, l3, log, |l0|, step);
      }
    }

    // The three steps that are recorded.
    method RunToCheck(loaded: State, session: Session, lifetime: nat, torn: bool)
      returns (exit: Exit, state: State, availabilityId: Bytes32, life: nat)
      requires Running(loaded)
      modifies this
      ensures Valid() && Extends(old(log), log, session)
      ensures Reached(ToCheck(Progress(Done, loaded, lifetime, old(file), old(log)), session, torn), exit, state, life)
      ensures exit == Done ==>
                && Running(state) && life + 6 >= lifetime
                && Prepared(session, Completed(log), {Register, Attest, Check})
                && availabilityId ==
                   (if session.explicitId.Some? && !session.Wants(Check) then session.explicitId.value
                    else state.availabilityId)
                && AllDid(old(log), log, session, {Register, Attest, Check})
      ensures exit == Failed ==> !session.Smooth()
      ensures exit == Died ==> lifetime < 6
    {
      ghost var l0, p0 := log, Progress(Done, loaded, lifetime, file, log);
      var attestId: Bytes32;
      availabilityId := 0;
      exit, state, attestId, life := RunToAttest(loaded, session, lifetime, torn);
      ghost var p2 := ToAttest(p0, session, torn);
      if exit != Done {
        StopsThere(p2, session, torn);
        return;
      }
      ghost var l2 := log;
      exit, state, availabilityId, life := CheckStep(state, session, attestId, life, torn);
      if exit == Done {
        ThenDid(l0, l2, log, session, {Register, Attest}, Check);
      }
    }

    // The two steps that yield an attestation.
    method RunToAttest(loaded: State, session: Session, lifetime: nat, torn: bool)
      returns (exit: Exit, state: State, attestId: Bytes32, life: nat)
      requires Running(loaded)
      modifies this
      ensures Valid() && Extends(old(log), log, session)
      ensures Reached(ToAttest(Progress(Done, loaded, lifetime, old(file), old(log)), session, torn), exit, state, life)
      ensures exit == Done ==>
                && Running(state) && life + 4 >= lifetime
                && Prepared(session, Completed(log), {Register, Attest})
                && attestId == (if session.Wants(Register) || session.Wants(Attest) then state.attestId else 0)
                && AllDid(old(log), log, session, {Register, Attest})
      ensures exit == Failed ==> !session.Smooth()
      ensures exit == Died ==> lifetime < 4
    {
      ghost var l0, p0 := log, Progress(Done, loaded, lifetime, file, log);
      exit, state, attestId, life := RegisterStep(loaded, session, lifetime, torn);
      ghost var p1 := Stepped(p0, Register, session, torn);
      if exit != Done {
        StopsThere(p1, session, torn);
        return;
      }
      ghost var l1 := log;
      exit, state, attestId, life := AttestStep(state, session, attestId, life, torn);
      if exit == Done {
        ThenDid(l0, l1, log, session, {Register}, Attest);
      }
    }

    // One run of the command. The process survives `lifetime` calls and saves; a death
    // in the middle of a save may tear the file.
    method RegisterNode(session: Session, lifetime: nat, torn: bool) returns (exit: Exit)
      requires Valid()
      modifies this
      ensures Valid()
      ensures var p := RunOf(old(file), old(log), session, lifetime, torn);
              exit == p.exit && file == p.file && log == p.log
      ensures exit != Done ==> Extends(old(log), log, session)
      ensures exit == Done ==>
                && file == Missing && |log| > 0 && log[|log| - 1] == Removed
                && Extends(old(log), log[..|log| - 1], session)
                && forall step | session.Wants(step) && step !in Completed(old(log)) ::
                     DidIn(log[..|log| - 1], |old(log)|, step)
      ensures session.Smooth() && lifetime >= 8 && old(file) != Torn ==> exit == Done
    {
      if !session.teeInfoOk {
        return Failed;
      }
      var loaded := LoadState();
      if loaded.None? {
        return Failed;
      }
      var life;
      exit, life := RunSteps(loaded.value, session, lifetime, torn);
      if exit != Done {
        return;
      }
      if life == 0 {
        return Died;
      }
      ghost var done := log;
      Remove();
      assert log[..|log| - 1] == done;
    }
  }

  // --- any sequence of runs ---

  // Each run is cut short anywhere, and the operator deletes the state file whenever
  // they like.
  datatype Act = Run(session: Session, lifetime: nat, torn: bool) | Delete

  // What is on disk, and what has happened.
  datatype Trail = Trail(file: File, log: seq<Entry>)

  function Then(t: Trail, act: Act): Trail {
    match act
    case Run(session, lifetime, torn) =>
      var p := RunOf(t.file, t.log, session, lifetime, torn);
      Trail(p.file, p.log)
    case Delete => Trail(Missing, t.log + [Removed])
  }

  function After(acts: seq<Act>): Trail {
    if |acts| == 0 then Trail(Missing, []) else Then(After(acts[..|acts| - 1]), acts[|acts| - 1])
  }

  method Operate(acts: seq<Act>) returns (registrar: Registrar)
    ensures fresh(registrar) && registrar.Valid()
    ensures registrar.file == After(acts).file && registrar.log == After(acts).log
  {
    registrar := new Registrar();
    for i := 0 to |acts|
      invariant fresh(registrar) && registrar.Valid()
      invariant registrar.file == After(acts[..i]).file && registrar.log == After(acts[..i]).log
    {
      assert acts[..i + 1][..i] == acts[..i];
      match acts[i] {
        case Run(session, lifetime, torn) =>
          var _ := registrar.RegisterNode(session, lifetime, torn);
        case Delete =>
          registrar.Remove();
      }
    }
    assert acts[..|acts|] == acts;
  }

  // What a run keeps while it is under way: a good log, mirrored by the file and, as
  // long as it goes on, by the state in memory.
  ghost predicate OnTrack(p: Progress) {
    GoodLog(p.log) && FileMirrors(p.file, p.log) && (p.exit == Done ==> Mirrors(p.state, p.log))
  }

  lemma CallKeeps(state: State, log: seq<Entry>, step: Step, session: Session, call: Call)
    requires GoodLog(log) && Fits(log, Performed(step, session, call))
    ensures var called := log + [Performed(step, session, call)];
            && GoodLog(called) && Completed(called) == Completed(log)
            && (Mirrors(state, log) ==> Mirrors(state, called))
            && forall file | FileMirrors(file, log) :: FileMirrors(file, called)
  {
    GoodAppend(log, Performed(step, session, call));
  }

  lemma RecordKeeps(state: State, log: seq<Entry>, step: Step, id: Bytes32)
    requires GoodLog(log) && Mirrors(state, log) && step != Promote && Fits(log, Recorded(step, id))
    ensures var recorded := log + [Recorded(step, id)];
            && GoodLog(recorded) && Completed(recorded) == Completed(log) + {step}
            && Mirrors(Noted(state, step, id), recorded)
  {
    NotedMirrors(state, log, step, id);
    GoodAppend(log, Recorded(step, id));
  }

  // What is known of a run after a step it was free to make.
  ghost predicate Kept(p: Progress, q: Progress, step: Step, session: Session) {
    && OnTrack(q)
    && (q.exit == Done ==> p.exit == Done && Completed(p.log) <= Completed(q.log))
    && (q.exit == Done && session.Wants(step) ==> step in Completed(q.log))
  }

  lemma CalledStepKeeps(p: Progress, step: Step, session: Session, torn: bool)
    requires OnTrack(p) && step != Promote && p.exit == Done && session.Wants(step) && !p.state.Has(step)
    requires (step == Check ==> session.policyInSync) && p.life > 0
    requires CallFits(p.log, step, session, CallOf(step, session, p.state))
    ensures Kept(p, Stepped(p, step, session, torn), step, session)
  {
    var called := p.log + [Performed(step, session, CallOf(step, session, p.state))];
    CallKeeps(p.state, p.log, step, session, CallOf(step, session, p.state));
    if AnswerOf(step, session).Some? {
      RecordKeeps(p.state, called, step, AnswerOf(step, session).value);
    }
  }

  lemma StepKeeps(p: Progress, step: Step, session: Session, torn: bool)
    requires OnTrack(p) && step != Promote
    requires p.exit == Done && session.Wants(step) && step !in Completed(p.log)
             && (step == Check ==> session.policyInSync) ==>
               CallFits(p.log, step, session, CallOf(step, session, p.state))
    ensures Kept(p, Stepped(p, step, session, torn), step, session)
  {
    if p.exit == Done && session.Wants(step) && !p.state.Has(step) {
      if (step == Check ==> session.policyInSync) && p.life > 0 {
        CalledStepKeeps(p, step, session, torn);
      }
    }
  }

  lemma PromotionKeeps(p: Progress, session: Session)
    requires OnTrack(p) && (p.exit == Done ==> Prepared(session, Completed(p.log), {Register, Attest, Check}))
    ensures OnTrack(Promoted(p, session))
  {
    if p.exit == Done && session.Wants(Promote) && session.proofReady && p.life > 0 {
      var availabilityId := if session.explicitId.Some? && !session.Wants(Check) then session.explicitId.value
                            else p.state.availabilityId;
      PromotionFits(p.state, p.log, session, availabilityId);
      CallKeeps(p.state, p.log, Promote, session, CallOf(Promote, session, p.state));
    }
  }

  lemma StepsKeep(p: Progress, session: Session, torn: bool)
    requires OnTrack(p) && p.exit == Done
    ensures OnTrack(AllSteps(p, session, torn))
  {
    var p1 := Stepped(p, Register, session, torn);
    StepKeeps(p, Register, session, torn);
    var p2 := Stepped(p1, Attest, session, torn);
    StepKeeps(p1, Attest, session, torn);
    StepKeeps(p2, Check, session, torn);
    PromotionKeeps(Stepped(p2, Check, session, torn), session);
  }

  lemma FinishKeeps(p: Progress)
    requires OnTrack(p)
    ensures GoodLog(Finished(p).log) && FileMirrors(Finished(p).file, Finished(p).log)
  {
    GoodAppend(p.log, Removed);
  }

  lemma RunKeeps(file: File, log: seq<Entry>, session: Session, lifetime: nat, torn: bool)
    requires GoodLog(log) && FileMirrors(file, log)
    ensures var p := RunOf(file, log, session, lifetime, torn); GoodLog(p.log) && FileMirrors(p.file, p.log)
  {
    if session.teeInfoOk && file != Torn {
      var p := Progress(Done, if file == Missing then NEW_STATE else file.state, lifetime, file, log);
      StepsKeep(p, session, torn);
      var q := AllSteps(p, session, torn);
      FinishKeeps(q);
      assert RunOf(file, log, session, lifetime, torn) == Finished(q);
    }
  }

  // Whatever is run and deleted, and wherever runs are cut short, the log is good.
  lemma {:induction false} AfterIsGood(acts: seq<Act>)
    ensures GoodLog(After(acts).log) && FileMirrors(After(acts).file, After(acts).log)
  {
    if |acts| > 0 {
      var before, act := After(acts[..|acts| - 1]), acts[|acts| - 1];
      AfterIsGood(acts[..|acts| - 1]);
      match act
      case Run(session, lifetime, torn) => RunKeeps(before.file, before.log, session, lifetime, torn);
      case Delete => GoodAppend(before.log, Removed);
    }
  }

  // So over any acts no recorded step is performed again before the file is removed.
  lemma NeverRepeated(acts: seq<Act>, i: nat, j: nat)
    requires i < j < |After(acts).log| && After(acts).log[i].Recorded?
    requires forall k | i < k < j :: After(acts).log[k] != Removed
    ensures !(After(acts).log[j].Performed? && After(acts).log[j].step == After(acts).log[i].step)
  {
    AfterIsGood(acts);
    RecordedIsNotRepeated(After(acts).log, i, j);
  }

  // Nor is a check sent out of sync or a promotion without its proof, and what is
  // recorded is the answer to the call just made.
  lemma CallsAreReady(acts: seq<Act>, j: nat)
    requires j < |After(acts).log|
    ensures var e := After(acts).log[j];
            && (e.Performed? ==> e.session.Wants(e.step))
            && (e.Performed? && e.step == Register ==>
                  e.call == if e.session.registered then RequestAttestation else PreRegister)
            && (e.Performed? && e.step == Attest ==> e.call == RequestAttestation)
            && (e.Performed? && e.step == Check ==> e.session.policyInSync)
            && (e.Performed? && e.step == Promote ==> e.session.proofReady)
            && (e.Recorded? ==>
                  && j > 0 && After(acts).log[j - 1].Performed? && After(acts).log[j - 1].step == e.step
                  && IsAnswer(e.step, After(acts).log[j - 1].session, e.id))
  {
    AfterIsGood(acts);
    var log := After(acts).log;
    assert Fits(log[..j], log[j]);
  }

  // Every availability check in a command that asks for an attestation too answers the
  // latest recorded one, and every promotion in a command that asks for the check too
  // uses the latest recorded check.
  lemma IdsAreTheLatest(acts: seq<Act>, i: nat, j: nat)
    requires i < j < |After(acts).log| && After(acts).log[j].Performed?
    ensures var log := After(acts).log; var e := log[j];
            && (e.step == Check && (e.session.Wants(Register) || e.session.Wants(Attest)) ==>
                  && e.call.RequestCheck? && (exists h: nat | h < j :: LatestAttestation(log, h, j))
                  && (LatestAttestation(log, i, j) ==> e.call.challenge == log[i].id))
            && (e.step == Promote && e.session.Wants(Check) ==>
                  && e.call.ToProduction? && (exists h: nat | h < j :: LatestCheck(log, h, j))
                  && (LatestCheck(log, i, j) ==> e.call.availabilityId == log[i].id))
  {
    AfterIsGood(acts);
    var log := After(acts).log;
    if log[j].step == Check {
      CheckUsesLatestAttestation(log, j);
    } else if log[j].step == Promote {
      PromotionUsesLatestCheck(log, j);
    }
  }

  // --- a command with a alone ---

  function AttestOnly(): Session { Session("R", None, true, false, None, None, Some(7), true, Some(9), true, true) }
  function CheckOnly(): Session { Session("a", None, true, false, None, None, Some(7), true, Some(9), true, true) }

  lemma Commands()
    ensures forall step :: AttestOnly().Wants(step) <==> step == Attest
    ensures forall step :: CheckOnly().Wants(step) <==> step == Check
  {
    assert "R"[0] == 'R' && "a"[0] == 'a';
  }

  // An attestation is recorded by a run that dies, and the next run asks for the check
  // alone: its challenge is zero, not the recorded id.
  lemma ZeroChallengeRuns()
    ensures var p := RunOf(Missing, [], AttestOnly(), 2, false);
            && p.log == [Performed(Attest, AttestOnly(), RequestAttestation), Recorded(Attest, 7)]
            && p.file == Saved(State("R", 7, 0))
            && RunOf(p.file, p.log, CheckOnly(), 8, false).log ==
               p.log + [Performed(Check, CheckOnly(), RequestCheck(0)), Recorded(Check, 9), Removed]
  {
    Commands();
    FirstRun();
    SecondRun(RunOf(Missing, [], AttestOnly(), 2, false).log);
  }

  lemma FirstRun()
    ensures var p := RunOf(Missing, [], AttestOnly(), 2, false);
            && p.log == [Performed(Attest, AttestOnly(), RequestAttestation), Recorded(Attest, 7)]
            && p.file == Saved(State("R", 7, 0))
  {
    Commands();
    assert "" + ['R'] == "R";
  }

  lemma SecondRun(log: seq<Entry>)
    ensures RunOf(Saved(State("R", 7, 0)), log, CheckOnly(), 8, false).log ==
            log + [Performed(Check, CheckOnly(), RequestCheck(0)), Recorded(Check, 9), Removed]
  {
    Commands();
    assert "R"[0] != 'a';
  }

  method ZeroChallengeHappens() returns (registrar: Registrar)
    ensures fresh(registrar) && registrar.Valid()
    ensures |registrar.log| >= 3 && registrar.log[1] == Recorded(Attest, 7)
    ensures LatestAttestation(registrar.log, 1, 2)
    ensures registrar.log[2] == Performed(Check, CheckOnly(), RequestCheck(0))
  {
    registrar := new Registrar();
    ZeroChallengeRuns();
    var _ := registrar.RegisterNode(AttestOnly(), 2, false);
    var _ := registrar.RegisterNode(CheckOnly(), 8, false);
  }
}
