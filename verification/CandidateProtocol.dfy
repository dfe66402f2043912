/** One candidate model of a stage, and one adjudicator: what the adapter may answer, and the record
    the runner keeps of it.

    The answers of an adapter are a table fixed before the run. A statement over every table covers
    every adapter, whatever its answers depend on. */
module CandidateProtocol {
  import opened Prelude
  import opened SessionModel

  /** One `infer` call, up to and including its synchronisation, and the time the runner measures for it. */
  datatype Inference = Inference(patches: Outcome<Patches>, ms: nat)

  datatype CandidateAnswers = CandidateAnswers(
    create: Outcome<()>,
    load: Outcome<nat>,
    first: Inference,
    repair: Inference,
    payloadError: Option<Raise>)

  datatype AttemptKind = InitialAttempt | RepairAttempt

  datatype Attempt = Attempt(number: nat, kind: AttemptKind, status: RunStatus, ms: nat, errorCode: Option<string>)

  const INVALID_OUTPUT := "invalid_model_output"
  const RUNTIME_ERROR := "model_runtime_error"

  datatype ModelRun = ModelRun(
    role: Role,
    modelId: string,
    revision: string,
    status: RunStatus,
    loadMs: nat,
    inferenceMs: nat,
    errorCode: Option<string>)

  datatype CandidateRun = CandidateRun(
    candidateId: string,
    rank: int,
    role: Role,
    isJudge: bool,
    modelId: string,
    revision: string,
    status: RunStatus,
    loadMs: nat,
    inferenceMs: nat,
    repaired: bool,
    payload: Option<Patches>,
    judgePayload: Option<string>,
    errorCode: Option<string>)

  datatype Execution = Execution(
    candidate: Candidate,
    run: ModelRun,
    candidateRun: CandidateRun,
    results: Option<Results>,
    attempts: seq<Attempt>,
    repaired: bool)

  /** The two exception classes the runner treats as an answer it can ask to have repaired. */
  predicate IsInvalidOutput(e: Raise) {
    e.ModelOutputError? || e.OutputValidationError?
  }

  function CodeOf(e: Raise): string {
    if IsInvalidOutput(e) then INVALID_OUTPUT else RUNTIME_ERROR
  }

  /** An inference together with the validation of its patches. */
  function Tried(batch: Batch, check: ItemCheck, base: Results, call: Inference): Outcome<Results>
    requires Ids(batch) <= base.Keys
  {
    match call.patches
    case Raised(e) => Raised(e)
    case Returned(patches) => Validated(batch, check, base, patches)
  }

  /** How the guarded part of a candidate ends: `error` is what reached the handlers, if anything. */
  datatype Ending = Ending(
    error: Option<Raise>,
    loadMs: nat,
    inferenceMs: nat,
    attempts: seq<Attempt>,
    results: Option<Results>,
    payload: Option<Patches>,
    repaired: bool)

  function Conclude(ending: Ending, patches: Patches, payloadError: Option<Raise>): Ending {
    ending.(error := payloadError, payload := if payloadError.None? then Some(patches) else None)
  }

  function EndOfCandidate(batch: Batch, check: ItemCheck, base: Results, repairs: int, a: CandidateAnswers): Ending
    requires Ids(batch) <= base.Keys
  {
    match a.load
    case Raised(e) => Ending(Some(e), 0, 0, [], None, None, false)
    case Returned(loadMs) =>
      match Tried(batch, check, base, a.first)
      case Returned(results) =>
        var attempts := [Attempt(1, InitialAttempt, Succeeded, a.first.ms, None)];
        Conclude(Ending(None, loadMs, a.first.ms, attempts, Some(results), None, false),
                 a.first.patches.value, a.payloadError)
      case Raised(e) =>
        if e.Interrupt? then
          Ending(Some(e), loadMs, 0, [], None, None, false)
        else
          var initial := [Attempt(1, InitialAttempt, Failed, a.first.ms, Some(CodeOf(e)))];
          if !IsInvalidOutput(e) || repairs < 1 then
            Ending(Some(e), loadMs, a.first.ms, initial, None, None, false)
          else
            match Tried(batch, check, base, a.repair)
            case Returned(results) =>
              var attempts := initial + [Attempt(2, RepairAttempt, Succeeded, a.repair.ms, None)];
              Conclude(Ending(None, loadMs, a.first.ms + a.repair.ms, attempts, Some(results), None, true),
                       a.repair.patches.value, a.payloadError)
            case Raised(second) =>
              if second.Interrupt? then
                Ending(Some(second), loadMs, a.first.ms, initial, None, None, false)
              else
                Ending(Some(second), loadMs, a.first.ms + a.repair.ms,
                       initial + [Attempt(2, RepairAttempt, Failed, a.repair.ms, Some(CodeOf(second)))],
                       None, None, false)
  }

  function ErrorCodeOf(error: Option<Raise>): Option<string> {
    if error.Some? then Some(CodeOf(error.value)) else None
  }

  function ExecutionOf(role: Role, candidate: Candidate, e: Ending): Execution {
    var status := if e.error.None? then Succeeded else Failed;
    var code := ErrorCodeOf(e.error);
    Execution(
      candidate,
      ModelRun(role, candidate.modelId, candidate.revision, status, e.loadMs, e.inferenceMs, code),
      CandidateRun(candidate.candidateId, candidate.rank, role, false, candidate.modelId, candidate.revision,
                   status, e.loadMs, e.inferenceMs, e.repaired, e.payload, None, code),
      e.results, e.attempts, e.repaired)
  }

  /** `_execute_candidate`: an exception escapes only when no adapter could be created or when the guarded
      part was interrupted. */
  function Executed(batch: Batch, check: ItemCheck, role: Role, candidate: Candidate, base: Results,
                    repairs: int, a: CandidateAnswers): Outcome<Execution>
    requires Ids(batch) <= base.Keys
  {
    if a.create.Raised? then
      Raised(a.create.error)
    else
      var e := EndOfCandidate(batch, check, base, repairs, a);
      if e.error == Some(Interrupt) then Raised(Interrupt) else Returned(ExecutionOf(role, candidate, e))
  }

  // ----- what the protocol guarantees -----

  function TotalMs(attempts: seq<Attempt>): nat {
    if attempts == [] then 0 else TotalMs(attempts[..|attempts| - 1]) + attempts[|attempts| - 1].ms
  }

  /** The closed set of attempt lists. */
  ghost predicate AttemptShape(attempts: seq<Attempt>) {
    || attempts == []
    || (&& |attempts| == 1
        && attempts[0].kind == InitialAttempt && attempts[0].number == 1
        && (|| (attempts[0].status == Succeeded && attempts[0].errorCode == None)
            || (attempts[0].status == Failed
                && attempts[0].errorCode in {Some(INVALID_OUTPUT), Some(RUNTIME_ERROR)})))
    || (&& |attempts| == 2
        && attempts[0].kind == InitialAttempt && attempts[0].number == 1
        && attempts[0].status == Failed && attempts[0].errorCode == Some(INVALID_OUTPUT)
        && attempts[1].kind == RepairAttempt && attempts[1].number == 2
        && (|| (attempts[1].status == Succeeded && attempts[1].errorCode == None)
            || (attempts[1].status == Failed
                && attempts[1].errorCode in {Some(INVALID_OUTPUT), Some(RUNTIME_ERROR)})))
  }

  /** The attempt protocol: at most two attempts in one of the listed shapes, the repair only after an invalid
      first answer and with a repair budget; inference time is the sum over the attempts; `repaired`
      exactly when the initial attempt failed and the repair succeeded. */
  lemma AttemptProtocol(batch: Batch, check: ItemCheck, role: Role, candidate: Candidate, base: Results,
                        repairs: int, a: CandidateAnswers, x: Execution)
    requires Ids(batch) <= base.Keys
    requires Executed(batch, check, role, candidate, base, repairs, a) == Returned(x)
    ensures AttemptShape(x.attempts)
    ensures |x.attempts| == 2 <==>
      && a.load.Returned? && repairs >= 1
      && Tried(batch, check, base, a.first).Raised? && IsInvalidOutput(Tried(batch, check, base, a.first).error)
    ensures x.attempts == [] <==> a.load.Raised?
    ensures x.run.inferenceMs == x.candidateRun.inferenceMs == TotalMs(x.attempts)
    ensures x.repaired <==> |x.attempts| == 2 && x.attempts[1].status == Succeeded
    ensures x.repaired == x.candidateRun.repaired
  {
    assert forall s: seq<Attempt> :: |s| == 1 ==> TotalMs(s) == s[0].ms;
    if |x.attempts| == 2 {
      assert x.attempts[..1] == [x.attempts[0]];
      assert TotalMs(x.attempts) == TotalMs(x.attempts[..1]) + x.attempts[1].ms;
    }
  }

  /** Status, results, payload and error code of a candidate, with the one place they come apart: when the
      output payload cannot be built the candidate has failed although its results were kept. */
  lemma CandidateVerdict(batch: Batch, check: ItemCheck, role: Role, candidate: Candidate, base: Results,
                         repairs: int, a: CandidateAnswers, x: Execution)
    requires Ids(batch) <= base.Keys
    requires Executed(batch, check, role, candidate, base, repairs, a) == Returned(x)
    ensures x.run.status == x.candidateRun.status
    ensures x.run.status == Succeeded || x.run.status == Failed
    ensures x.results.Some? <==> x.attempts != [] && x.attempts[|x.attempts| - 1].status == Succeeded
    ensures x.run.status == Succeeded <==> x.results.Some? && a.payloadError == None
    ensures x.candidateRun.payload.Some? <==> x.run.status == Succeeded
    ensures x.run.errorCode == x.candidateRun.errorCode
    ensures x.run.errorCode.None? <==> x.run.status == Succeeded
    ensures x.run.status == Failed ==> x.run.errorCode in {Some(INVALID_OUTPUT), Some(RUNTIME_ERROR)}
    ensures x.attempts != [] && (x.results.None? || a.payloadError == None) ==>
      x.run.errorCode == x.attempts[|x.attempts| - 1].errorCode
  {}

  /** Results are never invented: they are the base map patched by the answer of the last attempt, fully
      validated; and the payload of a succeeded candidate is that very answer. */
  lemma ResultsComeFromLastAnswer(batch: Batch, check: ItemCheck, role: Role, candidate: Candidate,
                                  base: Results, repairs: int, a: CandidateAnswers, x: Execution)
    requires Ids(batch) <= base.Keys
    requires Executed(batch, check, role, candidate, base, repairs, a) == Returned(x)
    requires x.results.Some?
    ensures var answer := if x.repaired then a.repair.patches else a.first.patches;
      && answer.Returned?
      && Validated(batch, check, base, answer.value) == Returned(x.results.value)
      && x.results.value.Keys == base.Keys
      && AllValid(batch, check, x.results.value)
      && (x.run.status == Succeeded ==> x.candidateRun.payload == Some(answer.value))
  {}

  // ----- the outcome of a candidate, from its answers alone -----

  /** The call came back with patches that validate. */
  predicate Good(batch: Batch, check: ItemCheck, base: Results, call: Inference)
    requires Ids(batch) <= base.Keys
  {
    call.patches.Returned? && Validated(batch, check, base, call.patches.value).Returned?
  }

  /** What a call that is not good raises: its own exception, or that its patches do not validate. */
  function Complaint(call: Inference): Raise {
    if call.patches.Raised? then call.patches.error else OutputValidationError
  }

  /** The first answer was malformed or invalid, and there is a budget for a repair. */
  predicate Repairs(batch: Batch, check: ItemCheck, base: Results, repairs: int, a: CandidateAnswers)
    requires Ids(batch) <= base.Keys
  {
    && a.load.Returned? && repairs >= 1
    && !Good(batch, check, base, a.first)
    && (Complaint(a.first) == ModelOutputError || Complaint(a.first) == OutputValidationError)
  }

  /** The exception that reaches the handlers of a candidate whose adapter was created. */
  function Reaching(batch: Batch, check: ItemCheck, base: Results, repairs: int, a: CandidateAnswers): Option<Raise>
    requires Ids(batch) <= base.Keys
  {
    if a.load.Raised? then Some(a.load.error)
    else if Good(batch, check, base, a.first) then a.payloadError
    else if !Repairs(batch, check, base, repairs, a) then Some(Complaint(a.first))
    else if Good(batch, check, base, a.repair) then a.payloadError
    else Some(Complaint(a.repair))
  }

  /** The recorded code names the kind of exception. */
  predicate CodeNames(code: Option<string>, e: Option<Raise>) {
    match e
    case None => code == None
    case Some(ModelOutputError) => code == Some("invalid_model_output")
    case Some(OutputValidationError) => code == Some("invalid_model_output")
    case Some(OtherException) => code == Some("model_runtime_error")
    case Some(Interrupt) => false
  }

  lemma TriedMeaning(batch: Batch, check: ItemCheck, base: Results, call: Inference)
    requires Ids(batch) <= base.Keys
    ensures if Good(batch, check, base, call) then Tried(batch, check, base, call).Returned?
            else Tried(batch, check, base, call) == Raised(Complaint(call))
  {
    if call.patches.Returned? { ValidatedMeaning(batch, check, base, call.patches.value); }
    hide Validated;
  }

  /** An exception escapes `_execute_candidate` exactly when the adapter could not be created, and then it is that
      one, or when an interruption reached the handlers. */
  lemma CandidateEscapes(batch: Batch, check: ItemCheck, role: Role, candidate: Candidate, base: Results,
                         repairs: int, a: CandidateAnswers)
    requires Ids(batch) <= base.Keys
    ensures var r := Executed(batch, check, role, candidate, base, repairs, a);
      && (r.Raised? <==> a.create.Raised? || Reaching(batch, check, base, repairs, a) == Some(Interrupt))
      && (r.Raised? ==> r.error == if a.create.Raised? then a.create.error else Interrupt)
  {
    TriedMeaning(batch, check, base, a.first);
    TriedMeaning(batch, check, base, a.repair);
    hide Tried, Good, Complaint;
  }

  /** Status, codes and results of a candidate from its answers: it failed exactly when something reached the
      handlers, and the code says what; it holds results exactly when some answer was good. */
  lemma CandidateOutcome(batch: Batch, check: ItemCheck, role: Role, candidate: Candidate, base: Results,
                         repairs: int, a: CandidateAnswers, x: Execution)
    requires Ids(batch) <= base.Keys
    requires Executed(batch, check, role, candidate, base, repairs, a) == Returned(x)
    ensures var e := Reaching(batch, check, base, repairs, a);
      && x.run.status == (if e.None? then Succeeded else Failed)
      && CodeNames(x.run.errorCode, e)
    ensures x.results.Some? <==>
      && a.load.Returned?
      && (|| Good(batch, check, base, a.first)
          || (Repairs(batch, check, base, repairs, a) && Good(batch, check, base, a.repair)))
  {
    TriedMeaning(batch, check, base, a.first);
    TriedMeaning(batch, check, base, a.repair);
    hide Tried, Good, Complaint;
  }

  /** The attempts of a candidate, one by one, from its answers: none when loading failed or the first call was
      interrupted, the second exactly for a repair that was not interrupted, each with its time and code. */
  lemma AttemptsFollowTheAnswers(batch: Batch, check: ItemCheck, role: Role, candidate: Candidate, base: Results,
                                 repairs: int, a: CandidateAnswers, x: Execution)
    requires Ids(batch) <= base.Keys
    requires Executed(batch, check, role, candidate, base, repairs, a) == Returned(x)
    ensures |x.attempts| ==
      if a.load.Raised? then 0 else if Repairs(batch, check, base, repairs, a) then 2 else 1
    ensures |x.attempts| >= 1 ==>
      && x.attempts[0].number == 1 && x.attempts[0].kind == InitialAttempt && x.attempts[0].ms == a.first.ms
      && x.attempts[0].status == (if Good(batch, check, base, a.first) then Succeeded else Failed)
      && CodeNames(x.attempts[0].errorCode,
                   if Good(batch, check, base, a.first) then None else Some(Complaint(a.first)))
    ensures |x.attempts| == 2 ==>
      && x.attempts[1].number == 2 && x.attempts[1].kind == RepairAttempt && x.attempts[1].ms == a.repair.ms
      && x.attempts[1].status == (if Good(batch, check, base, a.repair) then Succeeded else Failed)
      && CodeNames(x.attempts[1].errorCode,
                   if Good(batch, check, base, a.repair) then None else Some(Complaint(a.repair)))
  {
    TriedMeaning(batch, check, base, a.first);
    TriedMeaning(batch, check, base, a.repair);
    hide Tried, Good, Complaint;
  }

  /** Both records of a candidate name the candidate, its place and its model, and carry the time of its load. */
  lemma RecordsNameTheCandidate(batch: Batch, check: ItemCheck, role: Role, candidate: Candidate, base: Results,
                                repairs: int, a: CandidateAnswers, x: Execution)
    requires Ids(batch) <= base.Keys
    requires Executed(batch, check, role, candidate, base, repairs, a) == Returned(x)
    ensures x.candidate == candidate
    ensures x.run.role == role && x.run.modelId == candidate.modelId && x.run.revision == candidate.revision
    ensures var c := x.candidateRun;
      && c.candidateId == candidate.candidateId && c.rank == candidate.rank && c.role == role && !c.isJudge
      && c.modelId == candidate.modelId && c.revision == candidate.revision && c.judgePayload == None
      && c.status == x.run.status && c.loadMs == x.run.loadMs && c.inferenceMs == x.run.inferenceMs
      && c.errorCode == x.run.errorCode
    ensures x.run.loadMs == if a.load.Returned? then a.load.value else 0
  {}

  // ----- the adjudicator -----

  /** A verdict is only handed on; its payload is all the runner records of it. */
  datatype Verdict = Verdict(payload: string)

  datatype Ruling = Ruling(verdict: Outcome<Verdict>, ms: nat)

  /** `finishError` is an exception of the last synchronisation or of reading the verdict's payload. */
  datatype JudgeAnswers = JudgeAnswers(
    create: Outcome<()>,
    load: Outcome<nat>,
    first: Ruling,
    correction: Ruling,
    finishError: Option<Raise>)

  datatype JudgeEnding = JudgeEnding(
    error: Option<Raise>,
    loadMs: nat,
    inferenceMs: nat,
    repaired: bool,
    verdict: Option<Verdict>)

  function EndOfJudge(a: JudgeAnswers): JudgeEnding {
    if a.create.Raised? then JudgeEnding(Some(a.create.error), 0, 0, false, None)
    else match a.load
      case Raised(e) => JudgeEnding(Some(e), 0, 0, false, None)
      case Returned(loadMs) =>
        match a.first.verdict
        case Returned(v) => JudgeEnding(a.finishError, loadMs, a.first.ms, false, Some(v))
        case Raised(e) =>
          if !e.ModelOutputError? then JudgeEnding(Some(e), loadMs, 0, false, None)
          else match a.correction.verdict
            case Raised(second) => JudgeEnding(Some(second), loadMs, 0, false, None)
            case Returned(v) => JudgeEnding(a.finishError, loadMs, a.first.ms + a.correction.ms, true, Some(v))
  }

  datatype JudgeExecution = JudgeExecution(candidateRun: CandidateRun, verdict: Option<Verdict>)

  /** The judge reports `invalid_model_output` for a malformed verdict only. */
  function JudgeCodeOf(e: Raise): string {
    if e.ModelOutputError? then INVALID_OUTPUT else RUNTIME_ERROR
  }

  function JudgeExecutionOf(role: Role, judge: Candidate, e: JudgeEnding): JudgeExecution {
    JudgeExecution(
      CandidateRun(judge.candidateId, judge.rank, role, true, judge.modelId, judge.revision,
                   if e.error.None? then Succeeded else Failed, e.loadMs, e.inferenceMs, e.repaired, None,
                   if e.error.None? && e.verdict.Some? then Some(e.verdict.value.payload) else None,
                   if e.error.None? then None else Some(JudgeCodeOf(e.error.value))),
      e.verdict)
  }

  /** `_execute_adjudicator`: only an interruption escapes. */
  function Judged(role: Role, judge: Candidate, a: JudgeAnswers): Outcome<JudgeExecution> {
    var e := EndOfJudge(a);
    if e.error == Some(Interrupt) then Raised(Interrupt) else Returned(JudgeExecutionOf(role, judge, e))
  }

  /** A succeeded judge always has a verdict. A failed one has a verdict exactly when only the final step
      failed, so that a verdict is used although its judge is recorded as failed. */
  lemma JudgeVerdict(role: Role, judge: Candidate, a: JudgeAnswers, j: JudgeExecution)
    requires Judged(role, judge, a) == Returned(j)
    ensures j.candidateRun.status == Succeeded ==> j.verdict.Some?
    ensures j.candidateRun.errorCode.None? <==> j.candidateRun.status == Succeeded
    ensures j.candidateRun.judgePayload.Some? <==> j.candidateRun.status == Succeeded
    ensures j.candidateRun.status == Failed && j.verdict.Some? <==>
      && a.create.Returned? && a.load.Returned? && a.finishError.Some?
      && (|| a.first.verdict.Returned?
          || (a.first.verdict.error.ModelOutputError? && a.correction.verdict.Returned?))
  {}

  /** The exception that reaches the handlers of a judge, if any: a malformed first verdict is corrected once, with no
      budget to ask for. */
  function JudgeReaching(a: JudgeAnswers): Option<Raise> {
    if a.create.Raised? then Some(a.create.error)
    else if a.load.Raised? then Some(a.load.error)
    else if a.first.verdict.Returned? then a.finishError
    else if a.first.verdict.error != ModelOutputError then Some(a.first.verdict.error)
    else if a.correction.verdict.Returned? then a.finishError
    else Some(a.correction.verdict.error)
  }

  /** A judge from its answers: only an interruption escapes; it failed exactly when something reached the handlers; its
      code is `invalid_model_output` for a malformed verdict and the runtime code for all else, invalid output
      included; and its verdict is the first one, or the correction of a malformed first one. */
  lemma JudgeOutcome(role: Role, judge: Candidate, a: JudgeAnswers)
    ensures Judged(role, judge, a) == Raised(Interrupt) <==> JudgeReaching(a) == Some(Interrupt)
    ensures Judged(role, judge, a).Raised? ==> Judged(role, judge, a).error == Interrupt
    ensures Judged(role, judge, a).Returned? ==>
      var c, e := Judged(role, judge, a).value.candidateRun, JudgeReaching(a);
      && c.status == (if e.None? then Succeeded else Failed)
      && (e.None? ==> c.errorCode == None)
      && (e == Some(ModelOutputError) ==> c.errorCode == Some("invalid_model_output"))
      && (e == Some(OutputValidationError) || e == Some(OtherException) ==> c.errorCode == Some("model_runtime_error"))
    ensures Judged(role, judge, a).Returned? ==>
      var j := Judged(role, judge, a).value;
      var asked := a.create.Returned? && a.load.Returned?;
      && (asked && a.first.verdict.Returned? ==> j.verdict == Some(a.first.verdict.value))
      && (asked && a.first.verdict == Raised(ModelOutputError) && a.correction.verdict.Returned? ==>
            j.verdict == Some(a.correction.verdict.value))
      && (j.candidateRun.repaired <==>
            asked && a.first.verdict == Raised(ModelOutputError) && a.correction.verdict.Returned?)
      && j.candidateRun.inferenceMs ==
         (if j.verdict.None? then 0 else a.first.ms + if j.candidateRun.repaired then a.correction.ms else 0)
      && (j.candidateRun.judgePayload.Some? ==>
            j.verdict.Some? && j.candidateRun.judgePayload.value == j.verdict.value.payload)
  {}

  lemma JudgeRecordNamesTheJudge(role: Role, judge: Candidate, a: JudgeAnswers, j: JudgeExecution)
    requires Judged(role, judge, a) == Returned(j)
    ensures var c := j.candidateRun;
      && c.candidateId == judge.candidateId && c.rank == judge.rank && c.role == role && c.isJudge
      && c.modelId == judge.modelId && c.revision == judge.revision && c.payload == None
      && c.loadMs == (if a.create.Returned? && a.load.Returned? then a.load.value else 0)
  {}
}
