/** The runner itself: local lists that grow stage by stage, adapters created and released around
    guarded calls, one `finally` at the very end. Every method is tied to the session's specification. */
module SessionRunner {
  import opened Prelude
  import opened SessionModel
  import opened StageGates
  import opened CandidateProtocol
  import opened SessionSpec
  import opened Session

  /** The memory manager and the adapter factory, seen through what they are asked to do. */
  class AdapterLedger {
    var log: seq<AdapterEvent>

    constructor ()
      ensures log == []
    {
      log := [];
    }

    method Record(event: AdapterEvent)
      modifies this
      ensures log == old(log) + [event]
    {
      log := log + [event];
    }
  }

  method Infer(ctx: Context, base: Results, call: Inference) returns (r: Outcome<Results>)
    requires Ids(ctx.batch) <= base.Keys
    ensures r == Tried(ctx.batch, ctx.check, base, call)
    ensures r.Returned? ==> call.patches.Returned?
  {
    if call.patches.Raised? {
      return Raised(call.patches.error);
    }
    r := ValidatedCandidates(ctx.batch, ctx.check, base, call.patches.value);
  }

  /** A group run with executions and adapter uses put in front. */
  function Prepend(done: seq<Execution>, used: seq<AdapterEvent>, rest: GroupRun): GroupRun {
    GroupRun(done + rest.done, used + rest.events, rest.raised)
  }

  lemma PrependStep(ctx: Context, role: Role, group: Group, base: Results, i: nat,
                    done: seq<Execution>, used: seq<AdapterEvent>)
    requires Ids(ctx.batch) <= base.Keys && i < |group.candidates|
    ensures var now := used + UseOf(ctx.answers(role).candidates(i).create, CandidateAdapter(role, i));
      var all := Prepend(done, used, ExecuteFrom(ctx, role, group, base, i));
      match ExecuteOne(ctx, role, group, base, i)
      case Raised(e) => all == GroupRun(done, now, Some(e))
      case Returned(x) =>
        if i == 0 && MayStopAfterFirst(group, x) && ctx.answers(role).challenge.Raised? then
          all == GroupRun(done + [x], now, Some(ctx.answers(role).challenge.error))
        else if i == 0 && MayStopAfterFirst(group, x) && !ctx.answers(role).challenge.value then
          all == GroupRun(done + [x], now, None)
        else
          all == Prepend(done + [x], now, ExecuteFrom(ctx, role, group, base, i + 1))
  {
    var used1 := UseOf(ctx.answers(role).candidates(i).create, CandidateAdapter(role, i));
    var rest := ExecuteFrom(ctx, role, group, base, i + 1);
    var one := ExecuteOne(ctx, role, group, base, i);
    if one.Returned? {
      assert done + ([one.value] + rest.done) == done + [one.value] + rest.done;
      assert used + (used1 + rest.events) == used + used1 + rest.events;
    }
  }

  lemma NoExecutions(ctx: Context, role: Role, group: Group, base: Results)
    requires Ids(ctx.batch) <= base.Keys
    ensures CandidateErrors(role, []) == []
    ensures ExecuteFrom(ctx, role, group, base, |group.candidates|) == GroupRun([], [], None)
  {}

  lemma CandidateErrorsAppend(role: Role, done: seq<Execution>, x: Execution)
    ensures CandidateErrors(role, done + [x]) == CandidateErrors(role, done)
      + if x.run.status == Failed
        then [CandidateError(role, x.candidate.candidateId, OrElse(x.run.errorCode, ""))] else []
  {
    assert (done + [x])[..|done|] == done;
  }

  lemma {:induction false} CandidateErrorsKind(role: Role, done: seq<Execution>)
    ensures forall e | e in CandidateErrors(role, done) :: e.CandidateError?
  {
    if done != [] { CandidateErrorsKind(role, done[..|done| - 1]); }
  }

  lemma AppendTwice<T>(a: seq<T>, b: seq<T>, c: seq<T>)
    ensures (a + b) + c == a + (b + c)
  {}

  function OutcomeOf(step: StageStep): Outcome<StageRecord> {
    match step
    case Completed(record, _) => Returned(record)
    case Aborted(e, _) => Raised(e)
  }

  /** The runner's local lists hold what the stage records say. */
  ghost predicate Accumulated(registry: map<Role, Group>, records: seq<StageRecord>, runs: seq<ModelRun>,
                              errors: seq<ErrorEntry>, gates: seq<GateRecord>, traces: seq<StageTrace>,
                              candidateRuns: seq<CandidateRun>, consensus: seq<ConsensusResult>)
  {
    && runs == RunsOf(records)
    && errors == ErrorsOf(records)
    && gates == GatesOf(records)
    && traces == TracesOf(records)
    && candidateRuns == AllCandidateRuns(records)
    && consensus == AllConsensus(registry, records)
  }

  lemma AccumulateStep(registry: map<Role, Group>, records: seq<StageRecord>, record: StageRecord,
                       runs: seq<ModelRun>, errors: seq<ErrorEntry>, gates: seq<GateRecord>,
                       traces: seq<StageTrace>, candidateRuns: seq<CandidateRun>, consensus: seq<ConsensusResult>)
    requires Accumulated(registry, records, runs, errors, gates, traces, candidateRuns, consensus)
    ensures Accumulated(
      registry, records + [record], runs + [record.run], errors + record.errors, gates + Gates(record),
      traces + [TraceOf(record, |records| + 1)], candidateRuns + CandidateRunsOf(record),
      consensus + ConsensusPart(registry, record))
  {
    hide ConsensusPart, Gates, CandidateRunsOf, FlatMap;
    FlatMapAppend(ErrorsIn, records, record);
    FlatMapAppend(Gates, records, record);
    FlatMapAppend(CandidateRunsOf, records, record);
    ConsensusAppend(registry, records, record);
  }

  lemma ConsensusAppend(registry: map<Role, Group>, records: seq<StageRecord>, record: StageRecord)
    ensures AllConsensus(registry, records + [record])
         == AllConsensus(registry, records) + ConsensusPart(registry, record)
  {
    assert (records + [record])[..|records|] == records;
  }

  lemma NothingAccumulated(registry: map<Role, Group>)
    ensures Accumulated(registry, [], [], [], [], [], [], []) && GateErrorsFrom([], [])
  {}

  lemma AccumulatedOutput(ctx: Context, p: Progress, runs: seq<ModelRun>, errors: seq<ErrorEntry>,
                          gates: seq<GateRecord>, traces: seq<StageTrace>, candidateRuns: seq<CandidateRun>,
                          consensus: seq<ConsensusResult>)
    requires Ids(ctx.batch) <= p.results.Keys
    requires Accumulated(ctx.registry, p.records, runs, errors, gates, traces, candidateRuns, consensus)
    ensures OutputOf(ctx, p) == SessionOutput(
      Overall(runs, gates),
      exists gate | gate in gates :: gate.decision == FailedRetryable,
      runs, Items(ctx.batch, p.results), errors, gates, traces, candidateRuns, consensus)
  {}

  /** Gate errors name only roles already run, so the runner's duplicate check always lets one through. */
  ghost predicate GateErrorsFrom(roles: seq<Role>, errors: seq<ErrorEntry>) {
    forall e | e in errors :: e.GateError? ==> e.role in roles
  }

  lemma GateErrorsGrow(roles: seq<Role>, errors: seq<ErrorEntry>, role: Role)
    requires GateErrorsFrom(roles, errors) && role !in roles
    ensures forall e | e in errors :: e.GateError? ==> e.role != role
  {}

  lemma GateErrorsMore(roles: seq<Role>, errors: seq<ErrorEntry>, role: Role, more: seq<ErrorEntry>)
    requires GateErrorsFrom(roles, errors) && OwnGateErrors(role, more)
    ensures GateErrorsFrom(roles + [role], errors + more)
  {}

  predicate OwnGateErrors(role: Role, errors: seq<ErrorEntry>) {
    forall e | e in errors :: e.GateError? ==> e.role == role
  }

  lemma SettledErrorsOwn(ctx: Context, role: Role, base: Results, preflight: GateRecord, done: seq<Execution>,
                         d: Decision, accepted: Option<nat>, reason: string)
    requires Ids(ctx.batch) <= base.Keys && done != [] && KeysKept(done, base)
    requires accepted.Some? ==> accepted.value < |done| && done[accepted.value].results.Some?
    ensures OwnGateErrors(role, Settled(ctx, role, base, preflight, done, d, accepted, reason).errors)
  {
    hide Departure, ReportedRun, ReportedAttempts, CandidateErrors;
    CandidateErrorsKind(role, done);
  }

  lemma StageErrorsOwn(ctx: Context, role: Role, base: Results)
    requires Ids(ctx.batch) <= base.Keys
    ensures RunStage(ctx, role, base).Completed? ==> OwnGateErrors(role, RunStage(ctx, role, base).record.errors)
  {
    hide Settled, ExecuteFrom, Decide, Accepted, OwnGateErrors, PreflightOf;
    var preflight := PreflightOf(ctx, role, base);
    var group := if role in ctx.registry then Some(ctx.registry[role]) else None;
    IdleErrorsOwn(ctx, role, base, preflight);
    if group.Some? && group.value.candidates != [] {
      ExecutedKeys(ctx, role, group.value, base, 0);
      var g := ExecuteFrom(ctx, role, group.value, base, 0);
      var d := Decide(ctx, role, group.value);
      if g.raised.None? && d.Decided? {
        var accepted := Accepted(g.done, d.decision.evaluation);
        var reasons := d.decision.evaluation.reasonCodes;
        SettledErrorsOwn(ctx, role, base, preflight, g.done, d.decision, accepted,
                         if accepted.None? && reasons != [] then reasons[0] else "");
      }
    }
  }

  lemma IdleErrorsOwn(ctx: Context, role: Role, base: Results, preflight: GateRecord)
    ensures forall group: Option<Group> | (group.Some? ==> group.value.candidates != []) ::
      OwnGateErrors(role, SkippedStage(role, group, base, preflight).errors)
    ensures OwnGateErrors(role, UnconfiguredStage(ctx, role, base, preflight).errors)
  {}

  lemma AfterStart(ctx: Context)
    ensures After(ctx, 0) == Progress([], InitialResults(ctx.batch), [], None)
  {}

  lemma AfterStep(ctx: Context, k: nat)
    requires k < |ROLE_ORDER| && After(ctx, k).raised.None?
    ensures var p := After(ctx, k);
      Ids(ctx.batch) <= p.results.Keys && After(ctx, k + 1) == Advance(p, RunStage(ctx, ROLE_ORDER[k], p.results))
  {
    hide RunStage;
  }

  lemma {:induction false} FrozenFrom(ctx: Context, k: nat)
    requires k <= |ROLE_ORDER| && After(ctx, k).raised.Some?
    ensures Finished(ctx) == After(ctx, k)
    decreases |ROLE_ORDER| - k
  {
    hide RunStage, Advance;
    if k < |ROLE_ORDER| { FrozenFrom(ctx, k + 1); }
  }

  class SessionRunner {
    const registry: map<Role, Group>
    const contracts: Role -> Contract
    const memory: AdapterLedger

    constructor (registry: map<Role, Group>, contracts: Role -> Contract, memory: AdapterLedger)
      ensures this.registry == registry && this.contracts == contracts && this.memory == memory
    {
      this.registry, this.contracts, this.memory := registry, contracts, memory;
    }

    /** The guarded part of a candidate: load, infer, validate, repair once, build the payload. The locals are what
        the handlers and the code after them see, however the part was left. */
    method AttemptCandidate(ctx: Context, base: Results, maxRepairAttempts: int, a: CandidateAnswers)
      returns (ending: Ending)
      requires Ids(ctx.batch) <= base.Keys
      ensures ending == EndOfCandidate(ctx.batch, ctx.check, base, maxRepairAttempts, a)
    {
      hide Tried;
      var loadMs, inferenceMs := 0, 0;
      var repaired := false;
      var attempts: seq<Attempt> := [];
      var results: Option<Results> := None;
      var payload: Option<Patches> := None;
      var raised: Option<Raise> := None;

      label Guarded: {
        if a.load.Raised? {
          raised := Some(a.load.error);
          break Guarded;
        }
        loadMs := a.load.value;
        var patches: Patches := map[];
        var first := Infer(ctx, base, a.first);
        if first.Returned? {
          inferenceMs := a.first.ms;
          results := Some(first.value);
          patches := a.first.patches.value;
          attempts := attempts + [Attempt(1, InitialAttempt, Succeeded, a.first.ms, None)];
        } else if first.error.Interrupt? {
          raised := Some(first.error);
          break Guarded;
        } else {
          inferenceMs := a.first.ms;
          attempts := attempts + [Attempt(1, InitialAttempt, Failed, a.first.ms, Some(CodeOf(first.error)))];
          if !IsInvalidOutput(first.error) || maxRepairAttempts < 1 {
            raised := Some(first.error);
            break Guarded;
          }
          var second := Infer(ctx, base, a.repair);
          if second.Raised? {
            if !second.error.Interrupt? {
              inferenceMs := inferenceMs + a.repair.ms;
              attempts := attempts + [Attempt(2, RepairAttempt, Failed, a.repair.ms, Some(CodeOf(second.error)))];
            }
            raised := Some(second.error);
            break Guarded;
          }
          results := Some(second.value);
          patches := a.repair.patches.value;
          inferenceMs := inferenceMs + a.repair.ms;
          repaired := true;
          attempts := attempts + [Attempt(2, RepairAttempt, Succeeded, a.repair.ms, None)];
        }
        if a.payloadError.Some? {
          raised := a.payloadError;
          break Guarded;
        }
        payload := Some(patches);
      }
      ending := Ending(raised, loadMs, inferenceMs, attempts, results, payload, repaired);
    }

    /** The adapter is created first and released however the guarded part ended; then the outcome is recorded. */
    method ExecuteCandidate(ctx: Context, role: Role, candidate: Candidate, position: nat, base: Results,
                            maxRepairAttempts: int, a: CandidateAnswers)
      returns (r: Outcome<Execution>)
      requires Ids(ctx.batch) <= base.Keys
      modifies memory
      ensures r == Executed(ctx.batch, ctx.check, role, candidate, base, maxRepairAttempts, a)
      ensures memory.log == old(memory.log) + UseOf(a.create, CandidateAdapter(role, position))
    {
      hide EndOfCandidate;
      if a.create.Raised? {
        return Raised(a.create.error);
      }
      memory.Record(Created(CandidateAdapter(role, position)));
      var ending := AttemptCandidate(ctx, base, maxRepairAttempts, a);
      memory.Record(Released(CandidateAdapter(role, position)));

      var status := Succeeded;
      var errorCode: Option<string> := None;
      if ending.error.Some? {
        if ending.error.value.Interrupt? {
          return Raised(Interrupt);
        }
        status := Failed;
        errorCode := Some(CodeOf(ending.error.value));
      }
      var run := ModelRun(role, candidate.modelId, candidate.revision, status, ending.loadMs, ending.inferenceMs,
                          errorCode);
      var candidateRun := CandidateRun(
        candidate.candidateId, candidate.rank, role, false, candidate.modelId, candidate.revision,
        status, ending.loadMs, ending.inferenceMs, ending.repaired, ending.payload, None, errorCode);
      r := Returned(Execution(candidate, run, candidateRun, ending.results, ending.attempts, ending.repaired));
    }

    method ExecuteAdjudicator(role: Role, judge: Candidate, a: JudgeAnswers) returns (r: Outcome<JudgeExecution>)
      modifies memory
      ensures r == Judged(role, judge, a)
      ensures memory.log == old(memory.log) + UseOf(a.create, JudgeAdapter(role))
    {
      var loadMs, inferenceMs := 0, 0;
      var status, repaired := Failed, false;
      var errorCode: Option<string> := None;
      var verdict: Option<Verdict> := None;
      var payload: Option<string> := None;
      var raised: Option<Raise> := None;
      var resident := false;

      label Guarded: {
        if a.create.Raised? {
          raised := Some(a.create.error);
          break Guarded;
        }
        memory.Record(Created(JudgeAdapter(role)));
        resident := true;
        if a.load.Raised? {
          raised := Some(a.load.error);
          break Guarded;
        }
        loadMs := a.load.value;
        if a.first.verdict.Returned? {
          verdict := Some(a.first.verdict.value);
          inferenceMs := a.first.ms;
        } else if a.first.verdict.error.ModelOutputError? {
          if a.correction.verdict.Raised? {
            raised := Some(a.correction.verdict.error);
            break Guarded;
          }
          verdict := Some(a.correction.verdict.value);
          inferenceMs := a.first.ms + a.correction.ms;
          repaired := true;
        } else {
          raised := Some(a.first.verdict.error);
          break Guarded;
        }
        if a.finishError.Some? {
          raised := a.finishError;
          break Guarded;
        }
        payload := Some(verdict.value.payload);
        status := Succeeded;
      }
      if raised.Some? {
        errorCode := Some(JudgeCodeOf(raised.value));
      }
      if resident {
        memory.Record(Released(JudgeAdapter(role)));
      }
      if raised == Some(Interrupt) {
        return Raised(Interrupt);
      }
      var candidateRun := CandidateRun(
        judge.candidateId, judge.rank, role, true, judge.modelId, judge.revision, status, loadMs, inferenceMs,
        repaired, None, payload, errorCode);
      r := Returned(JudgeExecution(candidateRun, verdict));
    }

    /** The loop over the candidates of a group; `errors` grows with every failed one. */
    method ExecuteCandidates(ctx: Context, role: Role, group: Group, base: Results)
      returns (executions: seq<Execution>, errors: seq<ErrorEntry>, raised: Option<Raise>)
      requires Ids(ctx.batch) <= base.Keys
      modifies memory
      ensures var g := ExecuteFrom(ctx, role, group, base, 0);
        executions == g.done && raised == g.raised && memory.log == old(memory.log) + g.events
      ensures errors == CandidateErrors(role, executions)
    {
      hide Executed, ExecuteFrom, CandidateErrors;
      executions, errors, raised := [], [], None;
      NoExecutions(ctx, role, group, base);
      var i := 0;
      ghost var all := ExecuteFrom(ctx, role, group, base, 0);
      ghost var used: seq<AdapterEvent> := [];
      assert all == Prepend([], [], all);
      while i < |group.candidates|
        invariant i <= |group.candidates| && |executions| == i && raised.None?
        invariant all == Prepend(executions, used, ExecuteFrom(ctx, role, group, base, i))
        invariant memory.log == old(memory.log) + used
        invariant errors == CandidateErrors(role, executions)
      {
        var answers := ctx.answers(role).candidates(i);
        PrependStep(ctx, role, group, base, i, executions, used);
        var execution := ExecuteCandidate(ctx, role, group.candidates[i], i, base,
                                          ctx.contracts(role).maxRepairAttempts, answers);
        used := used + UseOf(answers.create, CandidateAdapter(role, i));
        if execution.Raised? {
          raised := Some(execution.error);
          break;
        }
        var x := execution.value;
        CandidateErrorsAppend(role, executions, x);
        executions := executions + [x];
        if x.run.status == Failed {
          errors := errors + [CandidateError(role, x.candidate.candidateId, OrElse(x.run.errorCode, ""))];
        }
        if |executions| == 1 && MayStopAfterFirst(group, x) {
          if ctx.answers(role).challenge.Raised? {
            raised := Some(ctx.answers(role).challenge.error);
            break;
          }
          if !ctx.answers(role).challenge.value {
            break;
          }
        }
        i := i + 1;
      }
      assert all == GroupRun(executions, used, raised);
    }

    /** Consensus and, when asked for, adjudication. */
    method Consensus(ctx: Context, role: Role, group: Group)
      returns (r: Outcome<Decision>, errors: seq<ErrorEntry>)
      modifies memory
      ensures match Decide(ctx, role, group)
        case Decided(d) =>
          && r == Returned(d)
          && errors == JudgeErrors(role, d.judge)
          && memory.log == old(memory.log) + d.events
        case Undecided(e, events) => r == Raised(e) && memory.log == old(memory.log) + events
    {
      errors := [];
      var a := ctx.answers(role);
      if a.consensus.Raised? {
        return Raised(a.consensus.error), errors;
      }
      var evaluation := a.consensus.value;
      if !evaluation.requiresAdjudication {
        return Returned(Decision(evaluation, None, [])), errors;
      }
      if group.adjudicator.None? {
        return Raised(OtherException), errors;
      }
      var judged := ExecuteAdjudicator(role, group.adjudicator.value, a.judge);
      if judged.Raised? {
        return Raised(judged.error), errors;
      }
      var j := judged.value;
      if j.verdict.Some? {
        if a.adjudication.Raised? {
          return Raised(a.adjudication.error), errors;
        }
        evaluation := a.adjudication.value;
      } else {
        errors := errors + [JudgeError(role, OrElse(j.candidateRun.errorCode, ""))];
        evaluation := JudgeFailed(group);
      }
      r := Returned(Decision(evaluation, Some(j), UseOf(a.judge.create, JudgeAdapter(role))));
    }

    /** Acceptance or rejection of a judged stage, and its postflight. `own` holds the stage's error
        entries so far, `before` those of the earlier stages. */
    method Settle(ctx: Context, role: Role, base: Results, preflight: GateRecord, done: seq<Execution>,
                  decision: Decision, before: seq<ErrorEntry>, own: seq<ErrorEntry>)
      returns (r: Outcome<StageRecord>)
      requires Ids(ctx.batch) <= base.Keys && done != [] && KeysKept(done, base)
      requires forall e | e in before :: e.GateError? ==> e.role != role
      requires own == CandidateErrors(role, done) + JudgeErrors(role, decision.judge)
      ensures r == JudgedStage(ctx, role, base, preflight, done, decision)
    {
      hide Departure, CandidateErrors, Successful;
      var evaluation := decision.evaluation;
      var results := base;
      var run := done[0].run;
      var status := Succeeded;
      var errorCode: Option<string> := None;
      var attempts: seq<Attempt> := [];
      var verdicts: seq<ErrorEntry> := [];
      var reason := "";
      var accepted := Accepted(done, evaluation);
      if accepted.Some? {
        assert done[accepted.value] in done;
        results := done[accepted.value].results.value;
        run := done[accepted.value].run;
        attempts := done[accepted.value].attempts;
      } else {
        if evaluation.reasonCodes == [] {
          return Raised(OtherException);
        }
        reason := evaluation.reasonCodes[0];
        if Successful(done) != [] {
          errorCode := Some("consensus_" + reason);
          run := run.(status := Failed, errorCode := errorCode);
        } else {
          errorCode := run.errorCode;
          attempts := done[0].attempts;
        }
        status := Failed;
        verdicts := [ConsensusError(role, reason)];
      }
      var postflight := Depart(ctx, role, base, results, status, errorCode);
      if Blocking(postflight.decision) {
        var gateError := GateError(role, postflight.reason);
        CandidateErrorsKind(role, done);
        if gateError !in before + own + verdicts {
          verdicts := verdicts + [gateError];
        }
      }
      assert verdicts == Verdicts(role, accepted, reason, postflight);
      r := Returned(StageRecord(role, base, results, preflight,
                                Run(done, decision.judge, evaluation, accepted),
                                run, status, attempts, Some(postflight), own + verdicts));
    }

    /** `Postflight` over the capabilities derived from the map the stage started from and the one it leaves. */
    method Depart(ctx: Context, role: Role, base: Results, results: Results, status: RunStatus,
                  errorCode: Option<string>) returns (postflight: GateRecord)
      requires Ids(ctx.batch) <= results.Keys
      ensures postflight == Departure(ctx, role, base, results, status, errorCode)
    {
      var before := DeriveCapabilities(ctx.batch, base);
      var after := DeriveCapabilities(ctx.batch, results);
      postflight := Postflight(ctx.contracts(role), before, after, status, errorCode,
                               ctx.answers(role).elapsedSeconds, MaximumOutput(role, ctx.batch, results));
    }

    /** What comes after the candidates of a stage: consensus, acceptance, postflight. */
    method Conclude(ctx: Context, role: Role, group: Group, base: Results, preflight: GateRecord,
                    executions: seq<Execution>, before: seq<ErrorEntry>, errors: seq<ErrorEntry>)
      returns (r: Outcome<StageRecord>, ghost used: seq<AdapterEvent>)
      requires Ids(ctx.batch) <= base.Keys && executions != [] && KeysKept(executions, base)
      requires errors == CandidateErrors(role, executions)
      requires forall e | e in before :: e.GateError? ==> e.role != role
      modifies memory
      ensures memory.log == old(memory.log) + used
      ensures match Decide(ctx, role, group)
        case Decided(d) => r == JudgedStage(ctx, role, base, preflight, executions, d) && used == d.events
        case Undecided(e, events) => r == Raised(e) && used == events
    {
      hide Decide, JudgedStage, CandidateErrors, JudgeErrors, KeysKept;
      var deciding, judgeErrors := Consensus(ctx, role, group);
      used := match Decide(ctx, role, group) case Decided(d) => d.events case Undecided(_, events) => events;
      if deciding.Raised? {
        r := Raised(deciding.error);
      } else {
        r := Settle(ctx, role, base, preflight, executions, deciding.value, before, errors + judgeErrors);
      }
    }

    /** The part of a stage that runs models: candidates, consensus, acceptance, postflight. */
    method RunModels(ctx: Context, role: Role, group: Group, base: Results, preflight: GateRecord,
                     before: seq<ErrorEntry>)
      returns (r: Outcome<StageRecord>)
      requires Ids(ctx.batch) <= base.Keys && group.candidates != []
      requires forall e | e in before :: e.GateError? ==> e.role != role
      modifies memory
      ensures var step := ExecuteStage(ctx, role, group, base, preflight);
        && memory.log == old(memory.log) + step.events
        && r == OutcomeOf(step)
    {
      ExecutedKeys(ctx, role, group, base, 0);
      hide JudgedStage, ExecuteFrom, Decide, CandidateErrors, KeysKept;
      var executions, errors, raised := ExecuteCandidates(ctx, role, group, base);
      if raised.Some? {
        r := Raised(raised.value);
      } else {
        ghost var used;
        r, used := Conclude(ctx, role, group, base, preflight, executions, before, errors);
        AppendTwice(old(memory.log), ExecuteFrom(ctx, role, group, base, 0).events, used);
      }
    }

    /** The body of the loop over the roles. */
    method RunOne(ctx: Context, role: Role, base: Results, before: seq<ErrorEntry>)
      returns (r: Outcome<StageRecord>)
      requires Ids(ctx.batch) <= base.Keys
      requires ctx.registry == registry
      requires forall e | e in before :: e.GateError? ==> e.role != role
      modifies memory
      ensures var step := RunStage(ctx, role, base);
        && memory.log == old(memory.log) + step.events
        && r == OutcomeOf(step)
    {
      hide ExecuteStage, Capabilities, Preflight, SkippedStage, UnconfiguredStage;
      var available := DeriveCapabilities(ctx.batch, base);
      var preflight := Preflight(ctx.contracts(role), available, |ctx.batch|);
      var group := if role in registry then Some(registry[role]) else None;
      if group.Some? && group.value.candidates == [] {
        return Raised(OtherException);
      }
      if preflight.decision != Proceed {
        return Returned(SkippedStage(role, group, base, preflight));
      }
      if group.None? {
        return Returned(UnconfiguredStage(ctx, role, base, preflight));
      }
      r := RunModels(ctx, role, group.value, base, preflight, before);
    }

    /** `_run_with_trace`: the loop over the roles and the lists it grows. */
    method RunStages(ctx: Context) returns (r: Outcome<SessionOutput>)
      requires ctx.registry == registry
      modifies memory
      ensures r == Outputs(ctx)
      ensures memory.log == old(memory.log) + Finished(ctx).events
    {
      hide RunStage, After, Accumulated, TraceOf, Gates, CandidateRunsOf, ConsensusOf, ConsensusPart, OwnGateErrors,
        GateErrorsFrom, Overall, OutputOf;
      var results := InitialResults(ctx.batch);
      var runs: seq<ModelRun> := [];
      var errors: seq<ErrorEntry> := [];
      var gates: seq<GateRecord> := [];
      var traces: seq<StageTrace> := [];
      var candidateRuns: seq<CandidateRun> := [];
      var consensus: seq<ConsensusResult> := [];
      ghost var records: seq<StageRecord> := [];
      NothingAccumulated(registry);
      AfterStart(ctx);
      for k := 0 to |ROLE_ORDER|
        invariant var p := After(ctx, k);
          p.raised.None? && p.records == records && p.results == results
          && memory.log == old(memory.log) + p.events
        invariant |records| == k
        invariant Ids(ctx.batch) <= results.Keys
        invariant Accumulated(registry, records, runs, errors, gates, traces, candidateRuns, consensus)
        invariant GateErrorsFrom(ROLE_ORDER[..k], errors)
      {
        var role := ROLE_ORDER[k];
        assert role !in ROLE_ORDER[..k];
        StageKeys(ctx, role, results);
        StageErrorsOwn(ctx, role, results);
        GateErrorsGrow(ROLE_ORDER[..k], errors, role);
        AfterStep(ctx, k);
        AppendTwice(old(memory.log), After(ctx, k).events, RunStage(ctx, role, results).events);
        var step := RunOne(ctx, role, results, errors);
        if step.Raised? {
          FrozenFrom(ctx, k + 1);
          return Raised(step.error);
        }
        var record := step.value;
        GateErrorsMore(ROLE_ORDER[..k], errors, role, record.errors);
        AccumulateStep(registry, records, record, runs, errors, gates, traces, candidateRuns, consensus);
        runs := runs + [record.run];
        errors := errors + record.errors;
        gates := gates + Gates(record);
        traces := traces + [TraceOf(record, k + 1)];
        candidateRuns := candidateRuns + CandidateRunsOf(record);
        consensus := consensus + ConsensusPart(registry, record);
        results := record.next;
        records := records + [record];
        assert ROLE_ORDER[..k + 1] == ROLE_ORDER[..k] + [role];
      }
      AccumulatedOutput(ctx, After(ctx, |ROLE_ORDER|), runs, errors, gates, traces, candidateRuns, consensus);
      r := Returned(SessionOutput(
        Overall(runs, gates),
        exists gate | gate in gates :: gate.decision == FailedRetryable,
        runs, Items(ctx.batch, results), errors, gates, traces, candidateRuns, consensus));
    }

    /** `run_with_trace`: whatever happens, the job is finalized last and once. */
    method RunWithTrace(batch: Batch, check: ItemCheck, answers: Role -> StageAnswers)
      returns (r: Outcome<SessionOutput>)
      modifies memory
      ensures var ctx := Context(batch, check, registry, contracts, answers);
        && r == Outputs(ctx)
        && memory.log == old(memory.log) + Finished(ctx).events + [Finalized]
    {
      r := RunStages(Context(batch, check, registry, contracts, answers));
      memory.Record(Finalized);
    }
  }
}
