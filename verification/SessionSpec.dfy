/** A whole session as a function of the batch, the configuration and everything the outside world
    answers: one record per stage, folded over the four roles. */
module SessionSpec {
  import opened Prelude
  import opened SessionModel
  import opened StageGates
  import opened CandidateProtocol

  /** A consensus evaluation; `decision` and the reason codes are only handed on. */
  datatype Evaluation = Evaluation(
    requiresAdjudication: bool,
    decision: string,
    selected: Option<string>,
    reasonCodes: seq<string>,
    downstreamAllowed: bool)

  /** What the outside world answers during one stage. */
  datatype StageAnswers = StageAnswers(
    candidates: nat -> CandidateAnswers,
    challenge: Outcome<bool>,
    consensus: Outcome<Evaluation>,
    judge: JudgeAnswers,
    adjudication: Outcome<Evaluation>,
    elapsedSeconds: real)

  datatype Context = Context(
    batch: Batch,
    check: ItemCheck,
    registry: map<Role, Group>,
    contracts: Role -> Contract,
    answers: Role -> StageAnswers)

  // ----- adapters -----

  datatype AdapterOwner = CandidateAdapter(role: Role, position: nat) | JudgeAdapter(role: Role)

  datatype AdapterEvent = Created(owner: AdapterOwner) | Released(owner: AdapterOwner) | Finalized

  function UseOf(create: Outcome<()>, owner: AdapterOwner): seq<AdapterEvent> {
    if create.Raised? then [] else [Created(owner), Released(owner)]
  }

  // ----- candidates of a stage -----

  /** The candidates executed so far, the adapters used, and the exception that ended the loop if any. */
  datatype GroupRun = GroupRun(done: seq<Execution>, events: seq<AdapterEvent>, raised: Option<Raise>)

  /** The cascade asks whether its first candidate needs a challenger only under these conditions. */
  predicate MayStopAfterFirst(group: Group, first: Execution) {
    && group.strategy == Cascade
    && first.results.Some?
    && group.minimumSuccessful == 1
    && group.minimumAgreeing == 1
    && !group.alwaysChallenge
  }

  function ExecuteOne(ctx: Context, role: Role, group: Group, base: Results, i: nat): Outcome<Execution>
    requires Ids(ctx.batch) <= base.Keys && i < |group.candidates|
  {
    Executed(ctx.batch, ctx.check, role, group.candidates[i], base, ctx.contracts(role).maxRepairAttempts,
             ctx.answers(role).candidates(i))
  }

  /** The loop over the candidates from position `i`. */
  function ExecuteFrom(ctx: Context, role: Role, group: Group, base: Results, i: nat): GroupRun
    requires Ids(ctx.batch) <= base.Keys && i <= |group.candidates|
    decreases |group.candidates| - i
  {
    if i == |group.candidates| then
      GroupRun([], [], None)
    else
      var used := UseOf(ctx.answers(role).candidates(i).create, CandidateAdapter(role, i));
      match ExecuteOne(ctx, role, group, base, i)
      case Raised(e) => GroupRun([], used, Some(e))
      case Returned(x) =>
        if i == 0 && MayStopAfterFirst(group, x) && ctx.answers(role).challenge.Raised? then
          GroupRun([x], used, Some(ctx.answers(role).challenge.error))
        else if i == 0 && MayStopAfterFirst(group, x) && !ctx.answers(role).challenge.value then
          GroupRun([x], used, None)
        else
          var rest := ExecuteFrom(ctx, role, group, base, i + 1);
          GroupRun([x] + rest.done, used + rest.events, rest.raised)
  }

  // ----- the verdict on a stage -----

  datatype ErrorEntry =
    | StageError(role: Role, code: string)
    | CandidateError(role: Role, candidateId: string, code: string)
    | JudgeError(role: Role, code: string)
    | ConsensusError(role: Role, code: string)
    | GateError(role: Role, code: string)

  function CandidateErrors(role: Role, done: seq<Execution>): seq<ErrorEntry> {
    if done == [] then []
    else
      var x := done[|done| - 1];
      CandidateErrors(role, done[..|done| - 1])
      + if x.run.status == Failed
        then [CandidateError(role, x.candidate.candidateId, OrElse(x.run.errorCode, ""))] else []
  }

  /** `successful`: the executions that succeeded and hold results, in order. */
  function Successful(done: seq<Execution>): seq<Execution> {
    if done == [] then []
    else
      var x := done[|done| - 1];
      Successful(done[..|done| - 1]) + if x.run.status == Succeeded && x.results.Some? then [x] else []
  }

  /** The position of the first execution of the selected candidate. */
  function FirstMatch(done: seq<Execution>, selected: Option<string>): (r: Option<nat>)
    ensures r.Some? ==> && r.value < |done|
                        && selected == Some(done[r.value].candidate.candidateId)
                        && forall i | 0 <= i < r.value :: selected != Some(done[i].candidate.candidateId)
    ensures r.None? ==> forall i | 0 <= i < |done| :: selected != Some(done[i].candidate.candidateId)
  {
    if done == [] then None
    else if selected == Some(done[0].candidate.candidateId) then Some(0)
    else
      var rest := FirstMatch(done[1..], selected);
      if rest.Some? then Some(rest.value + 1) else None
  }

  datatype Decision = Decision(evaluation: Evaluation, judge: Option<JudgeExecution>, events: seq<AdapterEvent>)

  datatype Deciding = Decided(decision: Decision) | Undecided(error: Raise, events: seq<AdapterEvent>)

  function JudgeFailed(group: Group): Evaluation {
    Evaluation(false, group.disagreementDecision, None, ["adjudicator_failed"], false)
  }

  /** The consensus, and the adjudication when it is asked for. */
  function Decide(ctx: Context, role: Role, group: Group): Deciding {
    var a := ctx.answers(role);
    match a.consensus
    case Raised(e) => Undecided(e, [])
    case Returned(evaluation) =>
      if !evaluation.requiresAdjudication then
        Decided(Decision(evaluation, None, []))
      else if group.adjudicator.None? then
        Undecided(OtherException, [])
      else
        var used := UseOf(a.judge.create, JudgeAdapter(role));
        match Judged(role, group.adjudicator.value, a.judge)
        case Raised(e) => Undecided(e, used)
        case Returned(j) =>
          if j.verdict.None? then
            Decided(Decision(JudgeFailed(group), Some(j), used))
          else match a.adjudication
            case Raised(e) => Undecided(e, used)
            case Returned(final) => Decided(Decision(final, Some(j), used))
  }

  /** The execution whose results the stage accepts. */
  function Accepted(done: seq<Execution>, evaluation: Evaluation): (r: Option<nat>)
    ensures r.Some? ==> r.value < |done| && done[r.value].results.Some?
  {
    var selected := FirstMatch(done, evaluation.selected);
    if evaluation.downstreamAllowed && selected.Some? && done[selected.value].results.Some? then selected
    else None
  }

  // ----- one stage -----

  datatype Course =
    | GateSkipped
    | Unconfigured
    | Run(done: seq<Execution>, judge: Option<JudgeExecution>, evaluation: Evaluation, accepted: Option<nat>)

  /** All that a stage leaves behind. `base` is the running map it started from, `next` the one it leaves. */
  datatype StageRecord = StageRecord(
    role: Role,
    base: Results,
    next: Results,
    preflight: GateRecord,
    course: Course,
    run: ModelRun,
    status: RunStatus,
    attempts: seq<Attempt>,
    postflight: Option<GateRecord>,
    errors: seq<ErrorEntry>)

  datatype StageStep = Completed(record: StageRecord, events: seq<AdapterEvent>)
                     | Aborted(error: Raise, events: seq<AdapterEvent>)

  function IdleRun(role: Role, modelId: string, revision: string, code: Option<string>): ModelRun {
    ModelRun(role, modelId, revision, Skipped, 0, 0, code)
  }

  function SkippedStage(role: Role, group: Option<Group>, base: Results, preflight: GateRecord): StageRecord
    requires group.Some? ==> group.value.candidates != []
  {
    var code := if preflight.decision == NotApplicable then None else Some("gate_" + preflight.reason);
    StageRecord(
      role, base, base, preflight, GateSkipped,
      if group.Some? then IdleRun(role, group.value.candidates[0].modelId, group.value.candidates[0].revision, code)
      else IdleRun(role, "unconfigured", "unconfigured", code),
      Skipped, [], None,
      if code.Some? then [StageError(role, code.value)] else [])
  }

  function MissingModelCode(role: Role): string {
    if role == FireDetection then "checkpoint_not_configured" else "model_not_configured"
  }

  function UnconfiguredStage(ctx: Context, role: Role, base: Results, preflight: GateRecord): StageRecord {
    var before := Capabilities(ctx.batch, base);
    var code := MissingModelCode(role);
    StageRecord(role, base, base, preflight, Unconfigured,
                IdleRun(role, "unconfigured", "unconfigured", Some(code)), Skipped, [],
                Some(Postflight(ctx.contracts(role), before, before, Skipped, Some(code), 0.0, 0)),
                [StageError(role, code)])
  }

  function OutputCount(role: Role, result: ItemResult): nat {
    match role
    case Asr => |result.segments|
    case FireDetection => CountRegions(result.regions, {FireDetectionTask}) + |result.selection|
    case VisualGrounding => CountRegions(result.regions, {PhraseGrounding, Ocr})
    case MultimodalExtraction => |result.facts| + |result.places| + |result.times|
  }

  function CountRegions(regions: seq<Region>, tasks: set<Task>): nat {
    if regions == [] then 0
    else CountRegions(regions[1..], tasks) + if regions[0].task in tasks then 1 else 0
  }

  /** The largest output of the stage over the items, 0 for an empty batch. */
  function MaximumOutput(role: Role, batch: Batch, results: Results): (m: nat)
    requires Ids(batch) <= results.Keys
    ensures forall item | item in batch ::
      item.inputId in results && OutputCount(role, results[item.inputId]) <= m
    ensures m == 0 || exists item | item in batch ::
      item.inputId in results && OutputCount(role, results[item.inputId]) == m
  {
    if batch == [] then 0
    else
      assert batch[0].inputId in Ids(batch);
      assert Ids(batch[1..]) <= Ids(batch);
      var rest := MaximumOutput(role, batch[1..], results);
      var here := OutputCount(role, results[batch[0].inputId]);
      assert forall item | item in batch :: item == batch[0] || item in batch[1..];
      assert forall item | item in batch[1..] :: item in batch;
      if here > rest then (assert batch[0] in batch; here) else rest
  }

  /** The run a stage reports: the accepted one, or the first one marked with the refusal. */
  function ReportedRun(done: seq<Execution>, accepted: Option<nat>, reason: string): ModelRun
    requires done != [] && (accepted.Some? ==> accepted.value < |done|)
  {
    if accepted.Some? then done[accepted.value].run
    else if Successful(done) != [] then
      done[0].run.(status := Failed, errorCode := Some("consensus_" + reason))
    else done[0].run
  }

  function ReportedAttempts(done: seq<Execution>, accepted: Option<nat>): seq<Attempt>
    requires done != [] && (accepted.Some? ==> accepted.value < |done|)
  {
    if accepted.Some? then done[accepted.value].attempts
    else if Successful(done) != [] then []
    else done[0].attempts
  }

  function Verdicts(role: Role, accepted: Option<nat>, reason: string, postflight: GateRecord): seq<ErrorEntry> {
    (if accepted.Some? then [] else [ConsensusError(role, reason)])
    + (if Blocking(postflight.decision) then [GateError(role, postflight.reason)] else [])
  }

  function Departure(ctx: Context, role: Role, base: Results, next: Results, status: RunStatus,
                     errorCode: Option<string>): GateRecord
    requires Ids(ctx.batch) <= next.Keys
  {
    Postflight(ctx.contracts(role), Capabilities(ctx.batch, base), Capabilities(ctx.batch, next), status,
               errorCode, ctx.answers(role).elapsedSeconds, MaximumOutput(role, ctx.batch, next))
  }

  /** What a stage records once its candidates have been judged: the results of the accepted execution
      become the running map, otherwise the map stays. */
  function Settled(ctx: Context, role: Role, base: Results, preflight: GateRecord, done: seq<Execution>,
                   decision: Decision, accepted: Option<nat>, reason: string): StageRecord
    requires Ids(ctx.batch) <= base.Keys && done != [] && KeysKept(done, base)
    requires accepted.Some? ==> accepted.value < |done| && done[accepted.value].results.Some?
  {
    var run := ReportedRun(done, accepted, reason);
    var status := if accepted.Some? then Succeeded else Failed;
    var next := if accepted.Some? then done[accepted.value].results.value else base;
    assert accepted.Some? ==> done[accepted.value] in done;
    var postflight := Departure(ctx, role, base, next, status, if accepted.Some? then None else run.errorCode);
    StageRecord(
      role, base, next, preflight, Run(done, decision.judge, decision.evaluation, accepted), run, status,
      ReportedAttempts(done, accepted), Some(postflight),
      CandidateErrors(role, done) + JudgeErrors(role, decision.judge)
      + Verdicts(role, accepted, reason, postflight))
  }

  /** A refusal without a reason code cannot be reported: the session ends there. */
  function JudgedStage(ctx: Context, role: Role, base: Results, preflight: GateRecord,
                       done: seq<Execution>, decision: Decision): Outcome<StageRecord>
    requires Ids(ctx.batch) <= base.Keys && done != [] && KeysKept(done, base)
  {
    var accepted := Accepted(done, decision.evaluation);
    var reasons := decision.evaluation.reasonCodes;
    if accepted.None? && reasons == [] then Raised(OtherException)
    else Returned(Settled(ctx, role, base, preflight, done, decision, accepted,
                          if accepted.None? then reasons[0] else ""))
  }

  /** A judge without a verdict leaves an error entry. */
  function JudgeErrors(role: Role, judge: Option<JudgeExecution>): seq<ErrorEntry> {
    if judge.Some? && judge.value.verdict.None?
    then [JudgeError(role, OrElse(judge.value.candidateRun.errorCode, ""))] else []
  }

  lemma ExecuteOneKeys(ctx: Context, role: Role, group: Group, base: Results, i: nat)
    requires Ids(ctx.batch) <= base.Keys && i < |group.candidates|
    ensures var r := ExecuteOne(ctx, role, group, base, i);
      r.Returned? && r.value.results.Some? ==> r.value.results.value.Keys == base.Keys
  {}

  predicate KeysKept(done: seq<Execution>, base: Results) {
    forall x | x in done && x.results.Some? :: x.results.value.Keys == base.Keys
  }

  lemma {:induction false} ExecutedKeys(ctx: Context, role: Role, group: Group, base: Results, i: nat)
    requires Ids(ctx.batch) <= base.Keys && i <= |group.candidates|
    ensures var g := ExecuteFrom(ctx, role, group, base, i);
      KeysKept(g.done, base) && (i < |group.candidates| && g.raised.None? ==> g.done != [])
    decreases |group.candidates| - i
  {
    hide ExecuteOne;
    if i < |group.candidates| {
      ExecuteOneKeys(ctx, role, group, base, i);
      ExecutedKeys(ctx, role, group, base, i + 1);
      var one := ExecuteOne(ctx, role, group, base, i);
      var rest := ExecuteFrom(ctx, role, group, base, i + 1);
      if one.Returned? {
        assert KeysKept([one.value], base);
        assert KeysKept([one.value] + rest.done, base);
      }
    }
  }

  /** Lines 710 to 882 of the source: candidates, consensus, acceptance, postflight. */
  function ExecuteStage(ctx: Context, role: Role, group: Group, base: Results, preflight: GateRecord): StageStep
    requires Ids(ctx.batch) <= base.Keys && group.candidates != []
  {
    ExecutedKeys(ctx, role, group, base, 0);
    var g := ExecuteFrom(ctx, role, group, base, 0);
    if g.raised.Some? then Aborted(g.raised.value, g.events)
    else match Decide(ctx, role, group)
      case Undecided(e, events) => Aborted(e, g.events + events)
      case Decided(d) =>
        match JudgedStage(ctx, role, base, preflight, g.done, d)
        case Raised(e) => Aborted(e, g.events + d.events)
        case Returned(record) => Completed(record, g.events + d.events)
  }

  function PreflightOf(ctx: Context, role: Role, base: Results): GateRecord {
    Preflight(ctx.contracts(role), Capabilities(ctx.batch, base), |ctx.batch|)
  }

  /** One turn of the loop over the roles. A configured group without candidates has no primary model to
      name, which ends the session. */
  function RunStage(ctx: Context, role: Role, base: Results): StageStep
    requires Ids(ctx.batch) <= base.Keys
  {
    var preflight := PreflightOf(ctx, role, base);
    var group := if role in ctx.registry then Some(ctx.registry[role]) else None;
    if group.Some? && group.value.candidates == [] then
      Aborted(OtherException, [])
    else if preflight.decision != Proceed then
      Completed(SkippedStage(role, group, base, preflight), [])
    else if group.None? then
      Completed(UnconfiguredStage(ctx, role, base, preflight), [])
    else
      ExecuteStage(ctx, role, group.value, base, preflight)
  }

  lemma JudgedStageKeys(ctx: Context, role: Role, base: Results, preflight: GateRecord,
                        done: seq<Execution>, d: Decision)
    requires Ids(ctx.batch) <= base.Keys && done != [] && KeysKept(done, base)
    ensures var s := JudgedStage(ctx, role, base, preflight, done, d);
      s.Returned? ==> s.value.next.Keys == base.Keys && s.value.base == base && s.value.role == role
  {
    var accepted := Accepted(done, d.evaluation);
    if accepted.Some? { assert done[accepted.value] in done; }
  }

  lemma StageKeys(ctx: Context, role: Role, base: Results)
    requires Ids(ctx.batch) <= base.Keys
    ensures var s := RunStage(ctx, role, base);
      s.Completed? ==> s.record.next.Keys == base.Keys && s.record.base == base && s.record.role == role
  {
    hide JudgedStage, ExecuteFrom, Decide, PreflightOf, KeysKept, Capabilities;
    if role in ctx.registry && ctx.registry[role].candidates != [] {
      var group := ctx.registry[role];
      ExecutedKeys(ctx, role, group, base, 0);
      var g := ExecuteFrom(ctx, role, group, base, 0);
      var d := Decide(ctx, role, group);
      if g.raised.None? && d.Decided? {
        JudgedStageKeys(ctx, role, base, PreflightOf(ctx, role, base), g.done, d.decision);
      }
    }
  }
}
