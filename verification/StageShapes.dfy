/** What every stage guarantees, and how the stages of a session chain. */
module StageShapes {
  import opened Prelude
  import opened SessionModel
  import opened StageGates
  import opened CandidateProtocol
  import opened SessionSpec
  import opened Session

  // ----- what one stage guarantees -----

  /** The executed candidates are a prefix of the group, each started from the same base map: all of them, or
      the first alone when the cascade was content with it. */
  ghost predicate ExecutedPrefix(ctx: Context, role: Role, group: Group, base: Results, done: seq<Execution>)
    requires Ids(ctx.batch) <= base.Keys
  {
    && |done| <= |group.candidates|
    && (forall i | 0 <= i < |done| :: ExecuteOne(ctx, role, group, base, i) == Returned(done[i]))
    && (|done| == |group.candidates|
        || (|done| == 1 && MayStopAfterFirst(group, done[0]) && ctx.answers(role).challenge == Returned(false)))
  }

  lemma {:induction false} ExecutedFrom(ctx: Context, role: Role, group: Group, base: Results, i: nat)
    requires Ids(ctx.batch) <= base.Keys && i <= |group.candidates|
    ensures var g := ExecuteFrom(ctx, role, group, base, i);
      && i + |g.done| <= |group.candidates|
      && (forall j | 0 <= j < |g.done| :: ExecuteOne(ctx, role, group, base, i + j) == Returned(g.done[j]))
      && (g.raised.None? ==>
            || i + |g.done| == |group.candidates|
            || (i == 0 && |g.done| == 1 && MayStopAfterFirst(group, g.done[0])
                && ctx.answers(role).challenge == Returned(false)))
    decreases |group.candidates| - i
  {
    hide ExecuteOne, MayStopAfterFirst;
    if i < |group.candidates| {
      ExecutedFrom(ctx, role, group, base, i + 1);
      var g := ExecuteFrom(ctx, role, group, base, i);
      forall j | 0 <= j < |g.done| ensures ExecuteOne(ctx, role, group, base, i + j) == Returned(g.done[j]) {
        if j > 0 {
          assert g.done[j] == ExecuteFrom(ctx, role, group, base, i + 1).done[j - 1];
        }
      }
    }
  }

  /** What `CandidateVerdict` and `ResultsComeFromLastAnswer` say, for an execution in a stage. */
  ghost predicate SoundExecution(ctx: Context, role: Role, base: Results, i: nat, x: Execution)
    requires Ids(ctx.batch) <= base.Keys
  {
    var a := ctx.answers(role).candidates(i);
    && x.run.role == role
    && (x.run.status == Succeeded || x.run.status == Failed)
    && (x.run.status == Succeeded <==> x.results.Some? && a.payloadError == None)
    && (x.run.errorCode.None? <==> x.run.status == Succeeded)
    && (x.run.errorCode.Some? ==> x.run.errorCode.value == INVALID_OUTPUT || x.run.errorCode.value == RUNTIME_ERROR)
    && (x.results.Some? ==> Answered(ctx, base, a, x))
  }

  /** The results are the base map patched by an answer this candidate gave, fully validated; a succeeded
      candidate publishes that answer. */
  ghost predicate Answered(ctx: Context, base: Results, a: CandidateAnswers, x: Execution)
    requires Ids(ctx.batch) <= base.Keys
  {
    var answer := if x.repaired then a.repair.patches else a.first.patches;
    && x.results.Some?
    && answer.Returned?
    && Validated(ctx.batch, ctx.check, base, answer.value) == Returned(x.results.value)
    && (x.run.status == Succeeded ==> x.candidateRun.payload == Some(answer.value))
  }

  lemma OneIsSound(ctx: Context, role: Role, group: Group, base: Results, i: nat, x: Execution)
    requires Ids(ctx.batch) <= base.Keys && i < |group.candidates|
    requires ExecuteOne(ctx, role, group, base, i) == Returned(x)
    ensures SoundExecution(ctx, role, base, i, x)
  {
    var a := ctx.answers(role).candidates(i);
    var repairs := ctx.contracts(role).maxRepairAttempts;
    CandidateVerdict(ctx.batch, ctx.check, role, group.candidates[i], base, repairs, a, x);
    if x.results.Some? {
      ResultsComeFromLastAnswer(ctx.batch, ctx.check, role, group.candidates[i], base, repairs, a, x);
    }
  }

  lemma {:induction false} SuccessfulEmpty(done: seq<Execution>)
    ensures Successful(done) == [] <==> forall x | x in done :: !(x.run.status == Succeeded && x.results.Some?)
  {
    if done != [] {
      var n := |done| - 1;
      SuccessfulEmpty(done[..n]);
      assert done == done[..n] + [done[n]];
    }
  }

  lemma {:induction false} CandidateErrorsEmpty(role: Role, done: seq<Execution>)
    ensures CandidateErrors(role, done) == [] <==> forall x | x in done :: x.run.status != Failed
  {
    if done != [] {
      var n := |done| - 1;
      CandidateErrorsEmpty(role, done[..n]);
      assert done == done[..n] + [done[n]];
    }
  }

  predicate Taken(r: StageRecord) {
    r.course.Run? && r.course.accepted.Some?
  }

  ghost predicate SkippedShape(r: StageRecord) {
    && r.preflight.decision != Proceed
    && r.next == r.base && r.status == Skipped && r.attempts == [] && r.postflight == None
    && r.run.role == r.role && r.run.status == Skipped
    && (r.run.errorCode == None <==> r.preflight.decision == NotApplicable)
    && (r.run.errorCode.Some? ==> r.run.errorCode.value != "")
    && (r.errors == [] <==> r.preflight.decision == NotApplicable)
  }

  ghost predicate UnconfiguredShape(r: StageRecord) {
    && r.preflight.decision == Proceed
    && r.next == r.base && r.status == Skipped && r.attempts == []
    && r.run.role == r.role && r.run.status == Skipped
    && r.run.errorCode.Some? && r.run.errorCode.value != ""
    && r.postflight.Some? && r.postflight.value.decision == Abstain
    && r.postflight.value.available == r.preflight.available
    && r.errors != []
  }

  /** A judge that was asked is the group's adjudicator. */
  predicate JudgeIsAdjudicator(group: Group, judge: Option<JudgeExecution>) {
    judge.Some? ==>
      && group.adjudicator.Some?
      && judge.value.candidateRun.isJudge
      && judge.value.candidateRun.candidateId == group.adjudicator.value.candidateId
  }

  lemma JudgeComesFromGroup(ctx: Context, role: Role, group: Group)
    requires Decide(ctx, role, group).Decided?
    ensures JudgeIsAdjudicator(group, Decide(ctx, role, group).decision.judge)
  {
    hide EndOfJudge;
  }

  ghost predicate RunShape(ctx: Context, r: StageRecord)
    requires r.course.Run? && Ids(ctx.batch) <= r.base.Keys && Ids(ctx.batch) <= r.next.Keys
  {
    var done, accepted := r.course.done, r.course.accepted;
    && r.preflight.decision == Proceed
    && r.role in ctx.registry
    && done != []
    && ExecutedPrefix(ctx, r.role, ctx.registry[r.role], r.base, done)
    && (forall i | 0 <= i < |done| :: SoundExecution(ctx, r.role, r.base, i, done[i]))
    && JudgeIsAdjudicator(ctx.registry[r.role], r.course.judge)
    && (accepted.Some? ==>
          && accepted.value < |done|
          && done[accepted.value].results == Some(r.next)
          && r.run == done[accepted.value].run
          && r.attempts == done[accepted.value].attempts
          && r.course.evaluation.downstreamAllowed
          && r.course.evaluation.selected == Some(done[accepted.value].candidate.candidateId))
    && (accepted.None? ==>
          && r.next == r.base
          && r.run.role == r.role
          && r.run.status == Failed
          && (r.run.errorCode == Some(RUNTIME_ERROR) <==>
                Successful(done) == [] && done[0].run.errorCode == Some(RUNTIME_ERROR)))
    && r.status == (if accepted.Some? then Succeeded else Failed)
    && r.postflight == Some(Departure(ctx, r.role, r.base, r.next, r.status,
                                      if accepted.Some? then None else r.run.errorCode))
    && (r.errors == [] <==>
          && accepted.Some?
          && (forall x | x in done :: x.run.status != Failed)
          && !Blocking(r.postflight.value.decision)
          && !(r.course.judge.Some? && r.course.judge.value.verdict.None?))
  }

  ghost predicate StageShape(ctx: Context, r: StageRecord)
    requires Ids(ctx.batch) <= r.base.Keys && Ids(ctx.batch) <= r.next.Keys
  {
    && r.preflight == PreflightOf(ctx, r.role, r.base)
    && match r.course
       case GateSkipped => SkippedShape(r)
       case Unconfigured => UnconfiguredShape(r)
       case Run(_, _, _, _) => RunShape(ctx, r)
  }

  lemma SettledShape(ctx: Context, role: Role, group: Group, base: Results, preflight: GateRecord,
                     done: seq<Execution>, d: Decision, r: StageRecord)
    requires Ids(ctx.batch) <= base.Keys && done != [] && KeysKept(done, base)
    requires role in ctx.registry && ctx.registry[role] == group && preflight.decision == Proceed
    requires ExecutedPrefix(ctx, role, group, base, done)
    requires JudgedStage(ctx, role, base, preflight, done, d) == Returned(r) && JudgeIsAdjudicator(group, d.judge)
    ensures Ids(ctx.batch) <= r.base.Keys && Ids(ctx.batch) <= r.next.Keys
    ensures r.course.Run? && r.base == base && r.role == role && r.preflight == preflight && RunShape(ctx, r)
  {
    hide ExecuteOne, Departure, CandidateErrors, Successful, SoundExecution, MayStopAfterFirst, FirstMatch;
    JudgedStageKeys(ctx, role, base, preflight, done, d);
    forall i | 0 <= i < |done| ensures SoundExecution(ctx, role, base, i, done[i]) {
      OneIsSound(ctx, role, group, base, i, done[i]);
    }
    SuccessfulEmpty(done);
    CandidateErrorsEmpty(role, done);
    RefusedRun(ctx, role, group, base, done);
  }

  /** The run a refused stage reports has failed, with the runtime code only when nothing succeeded. */
  lemma RefusedRun(ctx: Context, role: Role, group: Group, base: Results, done: seq<Execution>)
    requires Ids(ctx.batch) <= base.Keys && done != []
    requires ExecutedPrefix(ctx, role, group, base, done)
    ensures forall reason :: var run := ReportedRun(done, None, reason);
      && run.role == role && run.status == Failed
      && (run.errorCode == Some(RUNTIME_ERROR) <==>
            Successful(done) == [] && done[0].run.errorCode == Some(RUNTIME_ERROR))
  {
    hide ExecuteOne, Successful, MayStopAfterFirst;
    OneIsSound(ctx, role, group, base, 0, done[0]);
    SuccessfulEmpty(done);
    assert done[0] in done;
    forall reason: string ensures "consensus_" + reason != RUNTIME_ERROR {
      assert ("consensus_" + reason)[0] != RUNTIME_ERROR[0];
    }
  }

  lemma IdleShapes(ctx: Context, role: Role, base: Results)
    requires Ids(ctx.batch) <= base.Keys
    ensures var preflight := PreflightOf(ctx, role, base);
      && (forall group: Option<Group> | (group.Some? ==> group.value.candidates != []) ::
            preflight.decision != Proceed ==> SkippedShape(SkippedStage(role, group, base, preflight)))
      && (preflight.decision == Proceed ==> UnconfiguredShape(UnconfiguredStage(ctx, role, base, preflight)))
  {
    hide Capabilities, Missing, IsNotApplicable;
  }

  lemma StageIsShaped(ctx: Context, role: Role, base: Results)
    requires Ids(ctx.batch) <= base.Keys
    requires RunStage(ctx, role, base).Completed?
    ensures var r := RunStage(ctx, role, base).record;
      && r.role == role && r.base == base && r.next.Keys == base.Keys
      && StageShape(ctx, r)
  {
    hide JudgedStage, ExecuteFrom, Decide, PreflightOf, KeysKept, RunShape, SkippedShape, UnconfiguredShape,
      ExecutedPrefix, Preflight, Postflight;
    StageKeys(ctx, role, base);
    IdleShapes(ctx, role, base);
    if role in ctx.registry && ctx.registry[role].candidates != [] {
      var group := ctx.registry[role];
      var preflight := PreflightOf(ctx, role, base);
      ExecutedKeys(ctx, role, group, base, 0);
      var g := ExecuteFrom(ctx, role, group, base, 0);
      var d := Decide(ctx, role, group);
      if preflight.decision == Proceed && g.raised.None? && d.Decided? {
        PrefixOf(ctx, role, group, base);
        var j := JudgedStage(ctx, role, base, preflight, g.done, d.decision);
        if j.Returned? {
          JudgeComesFromGroup(ctx, role, group);
          SettledShape(ctx, role, group, base, preflight, g.done, d.decision, j.value);
        }
      }
    }
  }

  lemma PrefixOf(ctx: Context, role: Role, group: Group, base: Results)
    requires Ids(ctx.batch) <= base.Keys
    requires ExecuteFrom(ctx, role, group, base, 0).raised.None?
    ensures ExecutedPrefix(ctx, role, group, base, ExecuteFrom(ctx, role, group, base, 0).done)
  {
    hide ExecuteFrom, ExecuteOne, MayStopAfterFirst;
    ExecutedFrom(ctx, role, group, base, 0);
    var g := ExecuteFrom(ctx, role, group, base, 0);
    forall i | 0 <= i < |g.done| ensures ExecuteOne(ctx, role, group, base, i) == Returned(g.done[i]) {
      assert ExecuteOne(ctx, role, group, base, 0 + i) == Returned(g.done[i]);
    }
  }

  // ----- the chain of stages -----

  function BaseOf(ctx: Context, records: seq<StageRecord>, i: nat): Results
    requires i <= |records|
  {
    if i == 0 then InitialResults(ctx.batch) else records[i - 1].next
  }

  ghost predicate Link(ctx: Context, records: seq<StageRecord>, i: nat)
    requires i < |records|
  {
    && i < |ROLE_ORDER|
    && records[i].role == ROLE_ORDER[i]
    && records[i].base == BaseOf(ctx, records, i)
    && records[i].base.Keys == records[i].next.Keys == Ids(ctx.batch)
    && StageShape(ctx, records[i])
  }

  /** The records of a session, in order: each stage starts from the map the one before it left. */
  ghost predicate Chain(ctx: Context, records: seq<StageRecord>) {
    forall i | 0 <= i < |records| :: Link(ctx, records, i)
  }

  lemma LinkGrows(ctx: Context, records: seq<StageRecord>, record: StageRecord)
    requires Chain(ctx, records)
    ensures forall i | 0 <= i < |records| :: Link(ctx, records + [record], i)
  {
    hide StageShape;
    forall i | 0 <= i < |records| ensures Link(ctx, records + [record], i) {
      assert Link(ctx, records, i);
      assert (records + [record])[i] == records[i];
      if i > 0 { assert (records + [record])[i - 1] == records[i - 1]; }
    }
  }

  lemma {:induction false} RecordsChain(ctx: Context, k: nat)
    requires k <= |ROLE_ORDER|
    ensures var p := After(ctx, k);
      && Chain(ctx, p.records)
      && |p.records| <= k && (p.raised.None? ==> |p.records| == k)
      && p.results == BaseOf(ctx, p.records, |p.records|)
  {
    hide RunStage, StageShape;
    if k > 0 {
      RecordsChain(ctx, k - 1);
      var p := After(ctx, k - 1);
      if p.raised.None? && RunStage(ctx, ROLE_ORDER[k - 1], p.results).Completed? {
        StageIsShaped(ctx, ROLE_ORDER[k - 1], p.results);
        var record := RunStage(ctx, ROLE_ORDER[k - 1], p.results).record;
        LinkGrows(ctx, p.records, record);
        assert Link(ctx, p.records + [record], k - 1);
      }
    }
  }
}
