/** A stage from what it was given and what the outside world answered, without the runner's own helpers: which course
    it takes, whom it executes, what is decided, which candidate is accepted, and what is recorded. */
module StageLaws {
  import opened Prelude
  import opened SessionModel
  import opened StageGates
  import opened CandidateProtocol
  import opened SessionSpec
  import opened StageShapes

  // ----- the course of a stage -----

  lemma JudgedStagesRan(ctx: Context, role: Role, base: Results, preflight: GateRecord, done: seq<Execution>,
                        d: Decision)
    requires Ids(ctx.batch) <= base.Keys && done != [] && KeysKept(done, base)
    ensures var s := JudgedStage(ctx, role, base, preflight, done, d);
      s.Returned? ==> s.value.course.Run? && s.value.preflight == preflight
                      && s.value.base == base && s.value.role == role
  {
    hide Departure, Accepted, CandidateErrors, KeysKept;
  }

  /** A stage is skipped exactly when its preflight does not let it run, unconfigured exactly when it may run and the
      registry has no group for it; a configured group without candidates ends the session. */
  lemma CourseOfStage(ctx: Context, role: Role, base: Results)
    requires Ids(ctx.batch) <= base.Keys
    ensures var step := RunStage(ctx, role, base);
      var preflight := Preflight(ctx.contracts(role), Capabilities(ctx.batch, base), |ctx.batch|);
      var hollow := role in ctx.registry && ctx.registry[role].candidates == [];
      && (hollow ==> step == Aborted(OtherException, []))
      && (step.Completed? ==>
            && step.record.role == role && step.record.base == base && step.record.preflight == preflight
            && (step.record.course.GateSkipped? <==> preflight.decision != Proceed)
            && (step.record.course.Unconfigured? <==> preflight.decision == Proceed && role !in ctx.registry))
      && (!hollow && (preflight.decision != Proceed || role !in ctx.registry) ==> step.Completed?)
  {
    hide Capabilities, Preflight, Postflight, ExecuteFrom, Decide, JudgedStage, KeysKept;
    if role in ctx.registry && ctx.registry[role].candidates != [] {
      var group := ctx.registry[role];
      var g, d := ExecuteFrom(ctx, role, group, base, 0), Decide(ctx, role, group);
      ExecutedKeys(ctx, role, group, base, 0);
      if g.raised.None? && d.Decided? {
        JudgedStagesRan(ctx, role, base, PreflightOf(ctx, role, base), g.done, d.decision);
      }
    }
  }

  /** What a skipped stage records: nothing was run or changed, and unless the stage does not apply its run and its one
      error name the reason of the gate. */
  lemma SkippedRecord(ctx: Context, role: Role, base: Results, r: StageRecord, events: seq<AdapterEvent>)
    requires Ids(ctx.batch) <= base.Keys
    requires RunStage(ctx, role, base) == Completed(r, events) && r.course.GateSkipped?
    ensures
      && r.next == base && r.status == Skipped && r.attempts == [] && r.postflight == None
      && r.run.role == role && r.run.status == Skipped && r.run.loadMs == 0 && r.run.inferenceMs == 0
      && (role in ctx.registry && ctx.registry[role].candidates != [] ==>
            && r.run.modelId == ctx.registry[role].candidates[0].modelId
            && r.run.revision == ctx.registry[role].candidates[0].revision)
      && (role !in ctx.registry ==> r.run.modelId == "unconfigured" && r.run.revision == "unconfigured")
      && (if r.preflight.decision == NotApplicable then r.run.errorCode == None && r.errors == []
          else r.run.errorCode == Some("gate_" + r.preflight.reason)
               && r.errors == [StageError(role, "gate_" + r.preflight.reason)])
  {
    hide Capabilities, Preflight, ExecuteStage;
    CourseOfStage(ctx, role, base);
  }

  /** What an unconfigured stage records: the detector lacks a checkpoint, any other role a model. */
  lemma UnconfiguredRecord(ctx: Context, role: Role, base: Results, r: StageRecord, events: seq<AdapterEvent>)
    requires Ids(ctx.batch) <= base.Keys
    requires RunStage(ctx, role, base) == Completed(r, events) && r.course.Unconfigured?
    ensures var code := if role == FireDetection then "checkpoint_not_configured" else "model_not_configured";
      && r.next == base && r.status == Skipped && r.attempts == []
      && r.run.role == role && r.run.status == Skipped && r.run.loadMs == 0 && r.run.inferenceMs == 0
      && r.run.modelId == "unconfigured" && r.run.revision == "unconfigured"
      && r.run.errorCode == Some(code) && r.errors == [StageError(role, code)]
      && r.postflight.Some? && r.postflight.value.decision == Abstain && r.postflight.value.reason == code
      && r.postflight.value.available == Capabilities(ctx.batch, base)
  {
    hide Capabilities, Preflight, ExecuteStage;
    CourseOfStage(ctx, role, base);
  }

  // ----- whom a stage executes -----

  /** The parts of a stage that ran. */
  lemma PartsOfRun(ctx: Context, role: Role, base: Results, r: StageRecord, events: seq<AdapterEvent>)
    returns (group: Group, done: seq<Execution>, d: Decision)
    requires Ids(ctx.batch) <= base.Keys
    requires RunStage(ctx, role, base) == Completed(r, events) && r.course.Run?
    ensures role in ctx.registry && group == ctx.registry[role] && group.candidates != []
    ensures var g := ExecuteFrom(ctx, role, group, base, 0); g.done == done && g.raised.None?
    ensures Decide(ctx, role, group) == Decided(d)
    ensures done != [] && KeysKept(done, base)
    ensures JudgedStage(ctx, role, base, r.preflight, done, d) == Returned(r)
    ensures r.course == Run(done, d.judge, d.evaluation, Accepted(done, d.evaluation))
    ensures events == ExecuteFrom(ctx, role, group, base, 0).events + d.events
  {
    hide Capabilities, Preflight, Postflight, ExecuteFrom, Decide, Accepted, Departure, KeysKept, ReportedRun,
      ReportedAttempts, Verdicts, CandidateErrors, JudgeErrors;
    group := ctx.registry[role];
    ExecutedKeys(ctx, role, group, base, 0);
    done := ExecuteFrom(ctx, role, group, base, 0).done;
    d := Decide(ctx, role, group).decision;
  }

  /** The cascade of this group may be content with its first candidate. */
  predicate Content(group: Group, first: Execution) {
    group.strategy == Cascade && group.minimumSuccessful == 1 && group.minimumAgreeing == 1 && !group.alwaysChallenge
    && first.results.Some?
  }

  /** A content cascade stops exactly when it is told that no challenger is needed. */
  lemma ContentStops(ctx: Context, role: Role, group: Group, base: Results)
    requires Ids(ctx.batch) <= base.Keys && group.candidates != []
    requires ExecuteFrom(ctx, role, group, base, 0).raised.None?
    ensures var done := ExecuteFrom(ctx, role, group, base, 0).done;
      && done != []
      && (Content(group, done[0]) ==> ctx.answers(role).challenge.Returned?)
      && (Content(group, done[0]) && !ctx.answers(role).challenge.value ==> |done| == 1)
  {
    hide ExecuteOne;
  }

  /** A stage executes its candidates in group order, each on the map the stage started from with the stage's repair
      budget and its own answers: the first alone exactly when a content cascade is told that it needs no
      challenger, and otherwise all of them. */
  lemma WhomAStageExecutes(ctx: Context, role: Role, base: Results, r: StageRecord, events: seq<AdapterEvent>)
    requires Ids(ctx.batch) <= base.Keys
    requires RunStage(ctx, role, base) == Completed(r, events) && r.course.Run?
    ensures role in ctx.registry
    ensures var done, group := r.course.done, ctx.registry[role];
      && done != []
      && (Content(group, done[0]) ==> ctx.answers(role).challenge.Returned?)
      && |done| == (if Content(group, done[0]) && !ctx.answers(role).challenge.value then 1 else |group.candidates|)
      && forall j | 0 <= j < |done| ::
           && j < |group.candidates|
           && Executed(ctx.batch, ctx.check, role, group.candidates[j], base, ctx.contracts(role).maxRepairAttempts,
                       ctx.answers(role).candidates(j)) == Returned(done[j])
  {
    hide RunStage, JudgedStage, Decide, Executed, ExecuteFrom;
    var group, done, d := PartsOfRun(ctx, role, base, r, events);
    ContentStops(ctx, role, group, base);
    PrefixOf(ctx, role, group, base);
    assert forall j | 0 <= j < |done| :: ExecuteOne(ctx, role, group, base, j) == Returned(done[j]);
  }

  // ----- what is decided -----

  /** The evaluation a stage settles on: the consensus' own unless it requires adjudication; then the adjudication's if
      the judge ruled, and a refusal with the group's decision if it did not. A judge is asked exactly then. */
  lemma WhatIsDecided(ctx: Context, role: Role, base: Results, r: StageRecord, events: seq<AdapterEvent>)
    requires Ids(ctx.batch) <= base.Keys
    requires RunStage(ctx, role, base) == Completed(r, events) && r.course.Run?
    ensures role in ctx.registry && ctx.answers(role).consensus.Returned?
    ensures var a, group := ctx.answers(role), ctx.registry[role];
      && (r.course.judge.Some? <==> a.consensus.value.requiresAdjudication)
      && (r.course.judge.None? ==> r.course.evaluation == a.consensus.value)
      && (r.course.judge.Some? ==>
            && group.adjudicator.Some?
            && Judged(role, group.adjudicator.value, a.judge) == Returned(r.course.judge.value)
            && (r.course.judge.value.verdict.Some? ==> a.adjudication == Returned(r.course.evaluation))
            && (r.course.judge.value.verdict.None? ==>
                  r.course.evaluation
                  == Evaluation(false, group.disagreementDecision, None, ["adjudicator_failed"], false)))
  {
    hide RunStage, JudgedStage, ExecuteFrom, Judged;
    var group, done, d := PartsOfRun(ctx, role, base, r, events);
  }

  /** The i-th execution is the first one of the candidate the evaluation names. */
  predicate FirstNamed(done: seq<Execution>, evaluation: Evaluation, i: nat) {
    && i < |done|
    && evaluation.selected == Some(done[i].candidate.candidateId)
    && forall j | 0 <= j < i :: evaluation.selected != Some(done[j].candidate.candidateId)
  }

  /** When a candidate is accepted: exactly when the evaluation lets later stages use it, names an executed candidate,
      and the first execution of that candidate holds results. Then that execution's map, run and attempts are the
      stage's; otherwise the map stays, and a reason was given. */
  lemma WhoIsAccepted(ctx: Context, role: Role, base: Results, r: StageRecord, events: seq<AdapterEvent>)
    requires Ids(ctx.batch) <= base.Keys
    requires RunStage(ctx, role, base) == Completed(r, events) && r.course.Run?
    ensures var done, evaluation := r.course.done, r.course.evaluation;
      && (r.course.accepted.Some? <==>
            evaluation.downstreamAllowed && exists i: nat :: FirstNamed(done, evaluation, i) && done[i].results.Some?)
      && (r.course.accepted.Some? ==>
            var i := r.course.accepted.value;
            && FirstNamed(done, evaluation, i)
            && done[i].results == Some(r.next) && r.run == done[i].run && r.attempts == done[i].attempts
            && r.status == Succeeded)
      && (r.course.accepted.None? ==> r.next == base && r.status == Failed && evaluation.reasonCodes != [])
  {
    hide RunStage, ExecuteFrom, Decide, Departure, CandidateErrors, Successful, Verdicts, KeysKept;
    var group, done, d := PartsOfRun(ctx, role, base, r, events);
    if i: nat :| FirstNamed(done, d.evaluation, i) && done[i].results.Some? {
      var first := FirstMatch(done, d.evaluation.selected);
      assert first == Some(i);
    }
  }

  /** The run a refused stage reports: when some candidate had succeeded, the first one marked as failed by the
      consensus, without attempts; otherwise the first one as it was. */
  lemma WhatARefusalReports(ctx: Context, role: Role, base: Results, r: StageRecord, events: seq<AdapterEvent>)
    requires Ids(ctx.batch) <= base.Keys
    requires RunStage(ctx, role, base) == Completed(r, events) && r.course.Run?
    requires r.course.accepted.None?
    ensures var done, evaluation := r.course.done, r.course.evaluation;
      && done != [] && evaluation.reasonCodes != []
      && if exists x :: x in done && x.run.status == Succeeded && x.results.Some?
         then
           && r.run.status == Failed && r.run.errorCode == Some("consensus_" + evaluation.reasonCodes[0])
           && r.run.role == done[0].run.role && r.run.modelId == done[0].run.modelId
           && r.run.revision == done[0].run.revision && r.run.loadMs == done[0].run.loadMs
           && r.run.inferenceMs == done[0].run.inferenceMs && r.attempts == []
         else r.run == done[0].run && r.attempts == done[0].attempts
  {
    hide RunStage, ExecuteFrom, Decide, Departure, CandidateErrors, Verdicts, KeysKept, FirstMatch;
    var group, done, d := PartsOfRun(ctx, role, base, r, events);
    SomeSuccessful(done);
    hide Successful;
  }

  lemma {:induction false} SomeSuccessful(done: seq<Execution>)
    ensures Successful(done) != [] <==> exists x :: x in done && x.run.status == Succeeded && x.results.Some?
  {
    if done != [] {
      SomeSuccessful(done[..|done| - 1]);
      assert done == done[..|done| - 1] + [done[|done| - 1]];
    }
  }

  // ----- what is recorded -----

  /** The departure of a stage that ran, in terms of the gate alone. */
  lemma HowAStageDeparts(ctx: Context, role: Role, base: Results, r: StageRecord, events: seq<AdapterEvent>)
    requires Ids(ctx.batch) <= base.Keys
    requires RunStage(ctx, role, base) == Completed(r, events) && r.course.Run?
    ensures Ids(ctx.batch) <= r.next.Keys
    ensures r.postflight == Some(Postflight(
        ctx.contracts(role), Capabilities(ctx.batch, base), Capabilities(ctx.batch, r.next), r.status,
        if r.course.accepted.Some? then None else r.run.errorCode, ctx.answers(role).elapsedSeconds,
        MaximumOutput(role, ctx.batch, r.next)))
  {
    hide RunStage, ExecuteFrom, Decide, CandidateErrors, Successful, Verdicts, FirstMatch, Capabilities, Postflight;
    var group, done, d := PartsOfRun(ctx, role, base, r, events);
  }

  predicate HasTask(regions: seq<Region>, i: int, tasks: set<Task>) {
    0 <= i < |regions| && regions[i].task in tasks
  }

  /** What the size limit of a stage counts in one item: the regions are counted with repetition. */
  lemma OutputCountMeaning(result: ItemResult)
    ensures OutputCount(Asr, result) == |result.segments|
    ensures OutputCount(FireDetection, result)
         == |set i | 0 <= i < |result.regions| && HasTask(result.regions, i, {FireDetectionTask})| + |result.selection|
    ensures OutputCount(VisualGrounding, result)
         == |set i | 0 <= i < |result.regions| && HasTask(result.regions, i, {PhraseGrounding, Ocr})|
    ensures OutputCount(MultimodalExtraction, result) == |result.facts| + |result.places| + |result.times|
  {
    assert result.regions[0..] == result.regions;
    CountedRegions(result.regions, {FireDetectionTask}, 0);
    CountedRegions(result.regions, {PhraseGrounding, Ocr}, 0);
  }

  lemma {:induction false} CountedRegions(regions: seq<Region>, tasks: set<Task>, lo: nat)
    requires lo <= |regions|
    ensures CountRegions(regions[lo..], tasks) == |set i | lo <= i < |regions| && HasTask(regions, i, tasks)|
    decreases |regions| - lo
  {
    var all := set i | lo <= i < |regions| && HasTask(regions, i, tasks);
    if lo == |regions| {
      assert all == {};
    } else {
      CountedRegions(regions, tasks, lo + 1);
      assert regions[lo..][1..] == regions[lo + 1..] && regions[lo..][0] == regions[lo];
      var more := set i | lo + 1 <= i < |regions| && HasTask(regions, i, tasks);
      assert all == if HasTask(regions, lo, tasks) then more + {lo} else more;
    }
  }

  predicate Blocks(decision: GateDecision) {
    decision == HumanReview || decision == FailedRetryable || decision == FailedTerminal
  }

  /** The errors a stage that ran adds: one for each failed candidate with its code, one for a judge without a verdict,
      one for a refusal with its reason, one for a postflight that blocks; and no others. */
  lemma ErrorsOfARun(ctx: Context, role: Role, base: Results, r: StageRecord, events: seq<AdapterEvent>,
                     e: ErrorEntry)
    requires Ids(ctx.batch) <= base.Keys
    requires RunStage(ctx, role, base) == Completed(r, events) && r.course.Run?
    ensures
      && r.postflight.Some?
      && (r.course.accepted.None? ==> r.course.evaluation.reasonCodes != [])
      && (e in r.errors <==>
            || (exists x :: x in r.course.done && x.run.status == Failed
                            && e == CandidateError(role, x.candidate.candidateId, OrElse(x.run.errorCode, "")))
            || (r.course.judge.Some? && r.course.judge.value.verdict.None?
                && e == JudgeError(role, OrElse(r.course.judge.value.candidateRun.errorCode, "")))
            || (r.course.accepted.None? && e == ConsensusError(role, r.course.evaluation.reasonCodes[0]))
            || (Blocks(r.postflight.value.decision) && e == GateError(role, r.postflight.value.reason)))
  {
    hide RunStage, ExecuteFrom, Decide, Departure, Successful, KeysKept, FirstMatch;
    var group, done, d := PartsOfRun(ctx, role, base, r, events);
    CandidateErrorsMember(role, done, e);
    hide CandidateErrors;
  }

  lemma {:induction false} CandidateErrorsMember(role: Role, done: seq<Execution>, e: ErrorEntry)
    ensures e in CandidateErrors(role, done) <==>
      exists x :: x in done && x.run.status == Failed
                  && e == CandidateError(role, x.candidate.candidateId, OrElse(x.run.errorCode, ""))
  {
    if done != [] {
      CandidateErrorsMember(role, done[..|done| - 1], e);
      assert done == done[..|done| - 1] + [done[|done| - 1]];
    }
  }

  /** Errors come by kind: candidates, judge, consensus, gate; and each of the last three at most once. */
  function KindOfError(e: ErrorEntry): nat {
    match e
    case StageError(_, _) => 0
    case CandidateError(_, _, _) => 1
    case JudgeError(_, _) => 2
    case ConsensusError(_, _) => 3
    case GateError(_, _) => 4
  }

  /** The i-th error is that of the execution at the i-th place, which failed. */
  predicate IsErrorOf(role: Role, done: seq<Execution>, errors: seq<ErrorEntry>, at: seq<nat>, i: int) {
    && 0 <= i < |at| && i < |errors| && at[i] < |done|
    && done[at[i]].run.status == Failed
    && errors[i] == CandidateError(role, done[at[i]].candidate.candidateId, OrElse(done[at[i]].run.errorCode, ""))
  }

  /** The order of the errors of a stage that ran: first those of its failed candidates, in the order in which the
      candidates were executed, then at most one each of the judge, the consensus and the gate, in that order. */
  lemma ErrorsInOrder(ctx: Context, role: Role, base: Results, r: StageRecord, events: seq<AdapterEvent>)
    returns (at: seq<nat>)
    requires Ids(ctx.batch) <= base.Keys
    requires RunStage(ctx, role, base) == Completed(r, events) && r.course.Run?
    ensures |at| <= |r.errors|
    ensures forall i | 0 <= i < |at| :: IsErrorOf(role, r.course.done, r.errors, at, i)
    ensures forall i, j | 0 <= i < j < |at| :: at[i] < at[j]
    ensures forall p: nat | p < |r.course.done| :: p in at <==> r.course.done[p].run.status == Failed
    ensures forall i | |at| <= i < |r.errors| :: KindOfError(r.errors[i]) > 1
    ensures forall i, j | |at| <= i < j < |r.errors| :: KindOfError(r.errors[i]) < KindOfError(r.errors[j])
  {
    hide RunStage;
    var rest := CandidateErrorsFirst(ctx, role, base, r, events);
    at := CandidateErrorsInOrder(role, r.course.done);
    var errors := CandidateErrors(role, r.course.done);
    hide CandidateErrors;
    forall i | 0 <= i < |at| ensures IsErrorOf(role, r.course.done, r.errors, at, i) {
      assert IsErrorOf(role, r.course.done, errors, at, i);
      assert r.errors[i] == errors[i];
    }
    assert forall i | |at| <= i < |r.errors| :: r.errors[i] == rest[i - |at|];
  }

  lemma CandidateErrorsFirst(ctx: Context, role: Role, base: Results, r: StageRecord, events: seq<AdapterEvent>)
    returns (rest: seq<ErrorEntry>)
    requires Ids(ctx.batch) <= base.Keys
    requires RunStage(ctx, role, base) == Completed(r, events) && r.course.Run?
    ensures r.errors == CandidateErrors(role, r.course.done) + rest
    ensures forall i | 0 <= i < |rest| :: KindOfError(rest[i]) > 1
    ensures forall i, j | 0 <= i < j < |rest| :: KindOfError(rest[i]) < KindOfError(rest[j])
  {
    hide RunStage, ExecuteFrom, Decide, Departure, Successful, KeysKept, Accepted, CandidateErrors, JudgeErrors,
      Verdicts, ReportedRun, ReportedAttempts;
    var group, done, d := PartsOfRun(ctx, role, base, r, events);
    var accepted := Accepted(done, d.evaluation);
    var reason := if accepted.None? then d.evaluation.reasonCodes[0] else "";
    rest := JudgeErrors(role, d.judge) + Verdicts(role, accepted, reason, r.postflight.value);
    RestInOrder(role, d.judge, accepted, reason, r.postflight.value);
  }

  lemma RestInOrder(role: Role, judge: Option<JudgeExecution>, accepted: Option<nat>, reason: string, gate: GateRecord)
    ensures var rest := JudgeErrors(role, judge) + Verdicts(role, accepted, reason, gate);
      && (forall i | 0 <= i < |rest| :: KindOfError(rest[i]) > 1)
      && (forall i, j | 0 <= i < j < |rest| :: KindOfError(rest[i]) < KindOfError(rest[j]))
  {}

  /** These places are those of the failed executions, and the errors are theirs. */
  ghost predicate ErrorsAt(role: Role, done: seq<Execution>, errors: seq<ErrorEntry>, at: seq<nat>) {
    && |at| == |errors|
    && (forall i | 0 <= i < |at| :: IsErrorOf(role, done, errors, at, i))
    && (forall i, j | 0 <= i < j < |at| :: at[i] < at[j])
    && (forall p: nat | p < |done| :: p in at <==> done[p].run.status == Failed)
  }

  lemma {:induction false} CandidateErrorsInOrder(role: Role, done: seq<Execution>) returns (at: seq<nat>)
    ensures ErrorsAt(role, done, CandidateErrors(role, done), at)
  {
    hide ErrorsAt;
    if done == [] {
      at := [];
      assert ErrorsAt(role, done, [], at) by { NoErrors(role); }
    } else {
      var n := |done| - 1;
      var before := CandidateErrorsInOrder(role, done[..n]);
      var errors := CandidateErrors(role, done[..n]);
      at := if done[n].run.status == Failed then before + [n] else before;
      OneMoreExecution(role, done, errors, before);
      assert errors + [] == errors;
    }
  }

  lemma NoErrors(role: Role)
    ensures ErrorsAt(role, [], [], [])
  {}

  lemma OneMoreExecution(role: Role, done: seq<Execution>, errors: seq<ErrorEntry>, before: seq<nat>)
    requires done != [] && ErrorsAt(role, done[..|done| - 1], errors, before)
    ensures var n := |done| - 1;
      var x := done[n];
      if x.run.status == Failed then
        ErrorsAt(role, done, errors + [CandidateError(role, x.candidate.candidateId, OrElse(x.run.errorCode, ""))],
                 before + [n])
      else ErrorsAt(role, done, errors, before)
  {
    var n := |done| - 1;
    forall i | 0 <= i < |before|
      ensures before[i] < n && IsErrorOf(role, done, errors, before, i)
    {
      assert IsErrorOf(role, done[..n], errors, before, i);
    }
    var x := done[n];
    if x.run.status == Failed {
      var more := errors + [CandidateError(role, x.candidate.candidateId, OrElse(x.run.errorCode, ""))];
      forall i | 0 <= i < |before| + 1 ensures IsErrorOf(role, done, more, before + [n], i) {
        if i < |before| { assert IsErrorOf(role, done, errors, before, i); }
      }
    }
  }

  // ----- when a stage ends the session -----

  /** Every answer a stage can ask for came back. */
  ghost predicate AllAnswer(ctx: Context, role: Role, group: Group, base: Results)
    requires Ids(ctx.batch) <= base.Keys
  {
    var a := ctx.answers(role);
    && (forall i | 0 <= i < |group.candidates| ::
          a.candidates(i).create.Returned?
          && Reaching(ctx.batch, ctx.check, base, ctx.contracts(role).maxRepairAttempts, a.candidates(i))
             != Some(Interrupt))
    && a.challenge.Returned? && a.consensus.Returned? && a.consensus.value.reasonCodes != []
    && (a.consensus.value.requiresAdjudication ==>
          && group.adjudicator.Some? && JudgeReaching(a.judge) != Some(Interrupt)
          && a.adjudication.Returned? && a.adjudication.value.reasonCodes != [])
  }

  /** A configured stage whose answers all come back completes. */
  lemma CompletesWhenAllAnswer(ctx: Context, role: Role, base: Results)
    requires Ids(ctx.batch) <= base.Keys && role in ctx.registry && ctx.registry[role].candidates != []
    requires AllAnswer(ctx, role, ctx.registry[role], base)
    ensures RunStage(ctx, role, base).Completed?
  {
    hide ExecuteFrom, Judged, Executed, PreflightOf, Accepted, Reaching;
    var group := ctx.registry[role];
    LoopCompletes(ctx, role, group, base, 0);
    if group.adjudicator.Some? { JudgeOutcome(role, group.adjudicator.value, ctx.answers(role).judge); }
  }

  lemma {:induction false} LoopCompletes(ctx: Context, role: Role, group: Group, base: Results, i: nat)
    requires Ids(ctx.batch) <= base.Keys && i <= |group.candidates|
    requires AllAnswer(ctx, role, group, base)
    ensures ExecuteFrom(ctx, role, group, base, i).raised.None?
    decreases |group.candidates| - i
  {
    hide Executed, Reaching;
    if i < |group.candidates| {
      CandidateEscapes(ctx.batch, ctx.check, role, group.candidates[i], base,
                       ctx.contracts(role).maxRepairAttempts, ctx.answers(role).candidates(i));
      LoopCompletes(ctx, role, group, base, i + 1);
    }
  }

  /** What escapes from the i-th candidate: its adapter cannot be created, or it is interrupted. */
  ghost predicate CandidateRaises(ctx: Context, role: Role, base: Results, i: nat, e: Raise)
    requires Ids(ctx.batch) <= base.Keys
  {
    var a := ctx.answers(role).candidates(i);
    || a.create == Raised(e)
    || (a.create.Returned? && e == Interrupt
        && Reaching(ctx.batch, ctx.check, base, ctx.contracts(role).maxRepairAttempts, a) == Some(Interrupt))
  }

  /** Some answer of the i-th candidate was good. */
  predicate HoldsResults(ctx: Context, role: Role, base: Results, i: nat)
    requires Ids(ctx.batch) <= base.Keys
  {
    var a := ctx.answers(role).candidates(i);
    && a.load.Returned?
    && (|| Good(ctx.batch, ctx.check, base, a.first)
        || (Repairs(ctx.batch, ctx.check, base, ctx.contracts(role).maxRepairAttempts, a)
            && Good(ctx.batch, ctx.check, base, a.repair)))
  }

  /** The challenge rule is asked: a cascade that would be content with one, after a first candidate with results. */
  predicate AsksForChallenge(ctx: Context, role: Role, group: Group, base: Results)
    requires Ids(ctx.batch) <= base.Keys
  {
    group.strategy == Cascade && group.minimumSuccessful == 1 && group.minimumAgreeing == 1 && !group.alwaysChallenge
    && HoldsResults(ctx, role, base, 0)
  }

  /** The candidates from the i-th on are all executed up to the k-th, from which the exception escapes. */
  ghost predicate EscapesAt(ctx: Context, role: Role, group: Group, base: Results, i: nat, k: int, e: Raise)
    requires Ids(ctx.batch) <= base.Keys
  {
    && i <= k < |group.candidates|
    && CandidateRaises(ctx, role, base, k, e)
    && forall j, f | i <= j < k :: !CandidateRaises(ctx, role, base, j, f)
  }

  lemma OneCandidate(ctx: Context, role: Role, group: Group, base: Results, i: nat)
    requires Ids(ctx.batch) <= base.Keys && i < |group.candidates|
    ensures forall e :: CandidateRaises(ctx, role, base, i, e) <==> ExecuteOne(ctx, role, group, base, i) == Raised(e)
    ensures ExecuteOne(ctx, role, group, base, i).Returned? ==>
      (ExecuteOne(ctx, role, group, base, i).value.results.Some? <==> HoldsResults(ctx, role, base, i))
  {
    var a := ctx.answers(role).candidates(i);
    var repairs := ctx.contracts(role).maxRepairAttempts;
    CandidateEscapes(ctx.batch, ctx.check, role, group.candidates[i], base, repairs, a);
    var one := ExecuteOne(ctx, role, group, base, i);
    if one.Returned? {
      CandidateOutcome(ctx.batch, ctx.check, role, group.candidates[i], base, repairs, a, one.value);
    }
    hide Executed, Reaching, Good, Repairs;
  }

  lemma LaterEscape(ctx: Context, role: Role, group: Group, base: Results, i: nat, k: int, e: Raise)
    requires Ids(ctx.batch) <= base.Keys && forall f :: !CandidateRaises(ctx, role, base, i, f)
    ensures EscapesAt(ctx, role, group, base, i, k, e) <==> EscapesAt(ctx, role, group, base, i + 1, k, e)
  {
    hide CandidateRaises;
    if EscapesAt(ctx, role, group, base, i + 1, k, e) {
      forall j, f | i <= j < k ensures !CandidateRaises(ctx, role, base, j, f) {}
    }
  }

  /** The loop over the candidates after the first: an exception ends it exactly when it escapes from one of them. */
  lemma {:induction false} LoopEnds(ctx: Context, role: Role, group: Group, base: Results, i: nat, e: Raise)
    requires Ids(ctx.batch) <= base.Keys && 0 < i <= |group.candidates|
    ensures ExecuteFrom(ctx, role, group, base, i).raised == Some(e)
       <==> exists k :: EscapesAt(ctx, role, group, base, i, k, e)
    decreases |group.candidates| - i
  {
    hide ExecuteOne, CandidateRaises, MayStopAfterFirst, HoldsResults;
    if i < |group.candidates| {
      OneCandidate(ctx, role, group, base, i);
      if ExecuteOne(ctx, role, group, base, i).Returned? {
        var next := i + 1;
        LoopEnds(ctx, role, group, base, next, e);
        assert forall f :: !CandidateRaises(ctx, role, base, i, f);
        forall k ensures EscapesAt(ctx, role, group, base, i, k, e)
                    <==> EscapesAt(ctx, role, group, base, next, k, e)
        {
          LaterEscape(ctx, role, group, base, i, k, e);
        }
      } else {
        var f := ExecuteOne(ctx, role, group, base, i).error;
        assert CandidateRaises(ctx, role, base, i, f);
        if f == e { assert EscapesAt(ctx, role, group, base, i, i, e); }
      }
    }
  }

  /** When an exception ends the execution of a stage's candidates: it escapes from the first; or from the challenge
      rule, if that is asked; or, if no challenge is asked or one is wanted, from a later one. */
  ghost predicate LoopRaises(ctx: Context, role: Role, group: Group, base: Results, e: Raise)
    requires Ids(ctx.batch) <= base.Keys
  {
    || CandidateRaises(ctx, role, base, 0, e)
    || (&& (forall f :: !CandidateRaises(ctx, role, base, 0, f))
        && var asks, challenge := AsksForChallenge(ctx, role, group, base), ctx.answers(role).challenge;
           || (asks && challenge == Raised(e))
           || ((asks ==> challenge == Returned(true))
               && exists k :: EscapesAt(ctx, role, group, base, 1, k, e)))
  }

  lemma FirstTurn(ctx: Context, role: Role, group: Group, base: Results)
    requires Ids(ctx.batch) <= base.Keys && group.candidates != []
    ensures var one, challenge := ExecuteOne(ctx, role, group, base, 0), ctx.answers(role).challenge;
      ExecuteFrom(ctx, role, group, base, 0).raised ==
        if one.Raised? then Some(one.error)
        else if MayStopAfterFirst(group, one.value) && challenge.Raised? then Some(challenge.error)
        else if MayStopAfterFirst(group, one.value) && !challenge.value then None
        else ExecuteFrom(ctx, role, group, base, 1).raised
  {
    hide ExecuteOne, MayStopAfterFirst;
  }

  lemma WhatEndsTheLoop(ctx: Context, role: Role, group: Group, base: Results, e: Raise)
    requires Ids(ctx.batch) <= base.Keys && group.candidates != []
    ensures ExecuteFrom(ctx, role, group, base, 0).raised == Some(e) <==> LoopRaises(ctx, role, group, base, e)
  {
    hide ExecuteOne, CandidateRaises, EscapesAt;
    var one := ExecuteOne(ctx, role, group, base, 0);
    OneCandidate(ctx, role, group, base, 0);
    assert one.Returned? ==> (MayStopAfterFirst(group, one.value) <==> AsksForChallenge(ctx, role, group, base));
    hide HoldsResults, MayStopAfterFirst, AsksForChallenge, ExecuteFrom;
    FirstTurn(ctx, role, group, base);
    LoopEnds(ctx, role, group, base, 1, e);
    if one.Raised? {
      assert CandidateRaises(ctx, role, base, 0, one.error);
    }
  }

  /** The judge gives a verdict: its first one, or the correction of a malformed first one. */
  predicate JudgeRules(a: JudgeAnswers) {
    && a.create.Returned? && a.load.Returned?
    && (a.first.verdict.Returned? || (a.first.verdict.error == ModelOutputError && a.correction.verdict.Returned?))
  }

  /** When an exception ends the decision: that of the consensus; a missing adjudicator, an interrupted judge, or that
      of the adjudication, when one is required. */
  ghost predicate DecisionRaises(ctx: Context, role: Role, group: Group, e: Raise) {
    var a := ctx.answers(role);
    || a.consensus == Raised(e)
    || (&& a.consensus.Returned? && a.consensus.value.requiresAdjudication
        && (|| (group.adjudicator.None? && e == OtherException)
            || (group.adjudicator.Some? && JudgeReaching(a.judge) == Some(Interrupt) && e == Interrupt)
            || (group.adjudicator.Some? && JudgeReaching(a.judge) != Some(Interrupt) && JudgeRules(a.judge)
                && a.adjudication == Raised(e))))
  }

  lemma WhatEndsTheDecision(ctx: Context, role: Role, group: Group, e: Raise)
    ensures Decide(ctx, role, group).Undecided? && Decide(ctx, role, group).error == e
       <==> DecisionRaises(ctx, role, group, e)
  {}

  /** When a stage ends the session, and with which exception: a group without candidates; otherwise only a stage that
      may run, with what ends its candidates, else with what ends its decision, else for a refusal without a reason. */
  lemma HowAStageEndsTheSession(ctx: Context, role: Role, base: Results, e: Raise)
    requires Ids(ctx.batch) <= base.Keys && role in ctx.registry && ctx.registry[role].candidates != []
    ensures var group, step := ctx.registry[role], RunStage(ctx, role, base);
      var loops, decides := LoopRaises(ctx, role, group, base, e), DecisionRaises(ctx, role, group, e);
      var looped := exists f :: LoopRaises(ctx, role, group, base, f);
      var undecided := exists f :: DecisionRaises(ctx, role, group, f);
      && (step.Aborted? ==> PreflightOf(ctx, role, base).decision == Proceed)
      && (step.Aborted? && step.error == e ==>
            loops || (!looped && decides) || (!looped && !undecided && e == OtherException))
      && (PreflightOf(ctx, role, base).decision == Proceed && (loops || (!looped && decides)) ==>
            step.Aborted? && step.error == e)
  {
    hide ExecuteFrom, Decide, JudgedStage, LoopRaises, DecisionRaises, PreflightOf, KeysKept;
    var group := ctx.registry[role];
    forall f
      ensures ExecuteFrom(ctx, role, group, base, 0).raised == Some(f) <==> LoopRaises(ctx, role, group, base, f)
    {
      WhatEndsTheLoop(ctx, role, group, base, f);
    }
    forall f ensures Decide(ctx, role, group).Undecided? && Decide(ctx, role, group).error == f
                <==> DecisionRaises(ctx, role, group, f) {
      WhatEndsTheDecision(ctx, role, group, f);
    }
    var g, d := ExecuteFrom(ctx, role, group, base, 0), Decide(ctx, role, group);
    ExecutedKeys(ctx, role, group, base, 0);
    if g.raised.Some? { assert LoopRaises(ctx, role, group, base, g.raised.value); }
    if d.Undecided? { assert DecisionRaises(ctx, role, group, d.error); }
    if g.raised.None? && d.Decided? {
      OnlyForALackOfReasons(ctx, role, base, PreflightOf(ctx, role, base), g.done, d.decision);
    }
  }

  lemma OnlyForALackOfReasons(ctx: Context, role: Role, base: Results, preflight: GateRecord, done: seq<Execution>,
                              d: Decision)
    requires Ids(ctx.batch) <= base.Keys && done != [] && KeysKept(done, base)
    ensures var s := JudgedStage(ctx, role, base, preflight, done, d);
      s.Raised? ==> s.error == OtherException && d.evaluation.reasonCodes == []
  {
    hide Departure, Accepted, CandidateErrors, KeysKept;
  }

  // ----- adapters -----

  /** The n candidates from the given position use their adapters in turn. */
  ghost predicate InTurn(role: Role, events: seq<AdapterEvent>, position: nat, n: nat) {
    && 2 * n <= |events|
    && forall j | 0 <= j < n ::
         && events[2 * j] == Created(CandidateAdapter(role, position + j))
         && events[2 * j + 1] == Released(CandidateAdapter(role, position + j))
  }

  /** The adapters of a stage that ran: one for each executed candidate, created and released in turn, then the judge's
      if one was asked and could be created. A stage that did not run uses none. */
  lemma AdaptersOfAStage(ctx: Context, role: Role, base: Results, r: StageRecord, events: seq<AdapterEvent>)
    requires Ids(ctx.batch) <= base.Keys
    requires RunStage(ctx, role, base) == Completed(r, events)
    ensures !r.course.Run? ==> events == []
    ensures r.course.Run? ==>
      var n := |r.course.done|;
      && InTurn(role, events, 0, n)
      && events[2 * n..] == if r.course.judge.Some? && ctx.answers(role).judge.create.Returned?
                            then [Created(JudgeAdapter(role)), Released(JudgeAdapter(role))] else []
  {
    if r.course.Run? {
      hide RunStage, JudgedStage, Decide, ExecuteFrom, InTurn;
      var group, done, d := PartsOfRun(ctx, role, base, r, events);
      var g := ExecuteFrom(ctx, role, group, base, 0);
      LoopInTurn(ctx, role, group, base, 0);
      CandidatesFirst(role, g.events, |done|, d.events);
      AdaptersOfADecision(ctx, role, group);
    } else {
      IdleStagesUseNone(ctx, role, base, r, events);
    }
  }

  lemma IdleStagesUseNone(ctx: Context, role: Role, base: Results, r: StageRecord, events: seq<AdapterEvent>)
    requires Ids(ctx.batch) <= base.Keys
    requires RunStage(ctx, role, base) == Completed(r, events) && !r.course.Run?
    ensures events == []
  {
    hide ExecuteFrom, Decide, JudgedStage, PreflightOf, KeysKept;
    if role in ctx.registry && ctx.registry[role].candidates != [] {
      var group := ctx.registry[role];
      var g, d := ExecuteFrom(ctx, role, group, base, 0), Decide(ctx, role, group);
      ExecutedKeys(ctx, role, group, base, 0);
      if g.raised.None? && d.Decided? {
        JudgedStagesRan(ctx, role, base, PreflightOf(ctx, role, base), g.done, d.decision);
      }
    }
  }

  lemma CandidatesFirst(role: Role, events: seq<AdapterEvent>, n: nat, more: seq<AdapterEvent>)
    requires |events| == 2 * n && InTurn(role, events, 0, n)
    ensures InTurn(role, events + more, 0, n) && (events + more)[2 * n..] == more
  {}

  lemma AdaptersOfADecision(ctx: Context, role: Role, group: Group)
    requires Decide(ctx, role, group).Decided?
    ensures var d := Decide(ctx, role, group).decision;
      d.events == if d.judge.Some? && ctx.answers(role).judge.create.Returned?
                  then [Created(JudgeAdapter(role)), Released(JudgeAdapter(role))] else []
  {
    hide Judged;
  }

  lemma {:induction false} LoopInTurn(ctx: Context, role: Role, group: Group, base: Results, i: nat)
    requires Ids(ctx.batch) <= base.Keys && i <= |group.candidates|
    requires ExecuteFrom(ctx, role, group, base, i).raised.None?
    ensures var g := ExecuteFrom(ctx, role, group, base, i);
      |g.events| == 2 * |g.done| && InTurn(role, g.events, i, |g.done|)
    decreases |group.candidates| - i
  {
    hide ExecuteOne, InTurn, MayStopAfterFirst;
    var g := ExecuteFrom(ctx, role, group, base, i);
    NoneInTurn(role, i);
    if i < |group.candidates| {
      CreatedWhenReturned(ctx, role, group, base, i);
      if |g.done| == 1 && g.events == UseOf(Returned(()), CandidateAdapter(role, i)) {
        OneInTurn(role, i, [], 0);
        assert g.events + [] == g.events;
      } else {
        LoopInTurn(ctx, role, group, base, i + 1);
        var rest := ExecuteFrom(ctx, role, group, base, i + 1);
        OneInTurn(role, i, rest.events, |rest.done|);
      }
    }
  }

  lemma NoneInTurn(role: Role, i: nat)
    ensures InTurn(role, [], i, 0) && InTurn(role, [], i + 1, 0)
  {}

  lemma OneInTurn(role: Role, i: nat, rest: seq<AdapterEvent>, n: nat)
    requires InTurn(role, rest, i + 1, n)
    ensures InTurn(role, [Created(CandidateAdapter(role, i)), Released(CandidateAdapter(role, i))] + rest, i, n + 1)
  {
    var all := [Created(CandidateAdapter(role, i)), Released(CandidateAdapter(role, i))] + rest;
    forall j | 1 <= j < n + 1
      ensures all[2 * j] == Created(CandidateAdapter(role, i + j))
      ensures all[2 * j + 1] == Released(CandidateAdapter(role, i + j))
    {
      assert all[2 * j] == rest[2 * (j - 1)];
      assert all[2 * j + 1] == rest[2 * (j - 1) + 1];
    }
  }

  lemma CreatedWhenReturned(ctx: Context, role: Role, group: Group, base: Results, i: nat)
    requires Ids(ctx.batch) <= base.Keys && i < |group.candidates|
    ensures ExecuteOne(ctx, role, group, base, i).Returned? ==> ctx.answers(role).candidates(i).create.Returned?
  {
    hide EndOfCandidate, ExecutionOf;
  }
}
