/** Every stage of every session, from its answers: the laws of a single stage hold for each record a session keeps, and
    what the finished session reports is those records. */
module SessionLaws {
  import opened Prelude
  import opened SessionModel
  import opened StageGates
  import opened CandidateProtocol
  import opened SessionSpec
  import opened Session
  import opened StageShapes
  import opened SessionTheorems
  import opened StageLaws
  import TemporalSampling

  // ----- records are stages -----

  /** The record is what the stage of this role completes with, from the map the record started from. */
  ghost predicate IsStage(ctx: Context, role: Role, r: StageRecord) {
    Ids(ctx.batch) <= r.base.Keys && exists events :: RunStage(ctx, role, r.base) == Completed(r, events)
  }

  ghost predicate AreStages(ctx: Context, records: seq<StageRecord>) {
    |records| <= |ROLE_ORDER| && forall i | 0 <= i < |records| :: IsStage(ctx, ROLE_ORDER[i], records[i])
  }

  lemma {:induction false} RecordsAreStages(ctx: Context, k: nat)
    requires k <= |ROLE_ORDER|
    ensures var p := After(ctx, k);
      AreStages(ctx, p.records) && |p.records| <= k && (p.raised.None? ==> |p.records| == k)
  {
    hide RunStage;
    if k > 0 {
      RecordsAreStages(ctx, k - 1);
      var p := After(ctx, k - 1);
      if p.raised.None? && RunStage(ctx, ROLE_ORDER[k - 1], p.results).Completed? {
        StageKeys(ctx, ROLE_ORDER[k - 1], p.results);
        var step := RunStage(ctx, ROLE_ORDER[k - 1], p.results);
        assert step == Completed(step.record, step.events);
        assert IsStage(ctx, ROLE_ORDER[k - 1], step.record);
      }
    }
  }

  /** The session gets as far as its i-th stage, and that stage ends with the exception. */
  ghost predicate EndsAt(ctx: Context, i: int, e: Raise) {
    && 0 <= i < |ROLE_ORDER| && After(ctx, i).raised.None?
    && var step := RunStage(ctx, ROLE_ORDER[i], After(ctx, i).results);
       step.Aborted? && step.error == e
  }

  /** A session ends with an exception exactly when some stage does, with that stage's exception. */
  lemma {:induction false} SessionRaises(ctx: Context, k: nat, e: Raise)
    requires k <= |ROLE_ORDER|
    ensures After(ctx, k).raised == Some(e) <==> exists i :: 0 <= i < k && EndsAt(ctx, i, e)
  {
    hide RunStage;
    if k > 0 {
      SessionRaises(ctx, k - 1, e);
      assert After(ctx, k).raised == Some(e) <==> After(ctx, k - 1).raised == Some(e) || EndsAt(ctx, k - 1, e);
      hide After, EndsAt;
    }
  }

  // ----- acceptance -----

  /** What a stage that ran takes, in every session: a candidate exactly when the evaluation lets later stages use it
      and the first execution of the candidate it names holds results; then the map is that execution's. */
  lemma AcceptanceInASession(ctx: Context, k: nat, i: nat)
    requires k <= |ROLE_ORDER| && i < |After(ctx, k).records| && After(ctx, k).records[i].course.Run?
    ensures var r := After(ctx, k).records[i];
      && (Taken(r) <==>
            && r.course.evaluation.downstreamAllowed
            && exists j: nat :: FirstNamed(r.course.done, r.course.evaluation, j) && r.course.done[j].results.Some?)
      && (Taken(r) ==>
            forall j: nat | FirstNamed(r.course.done, r.course.evaluation, j) ::
              r.course.done[j].results == Some(r.next) && r.run == r.course.done[j].run)
      && (!Taken(r) ==> r.next == r.base)
  {
    hide RunStage, After;
    RecordsAreStages(ctx, k);
    var r := After(ctx, k).records[i];
    assert IsStage(ctx, ROLE_ORDER[i], r);
    var events :| RunStage(ctx, ROLE_ORDER[i], r.base) == Completed(r, events);
    WhoIsAccepted(ctx, ROLE_ORDER[i], r.base, r, events);
  }

  // ----- retrying -----

  /** The exception that reaches the handlers of the j-th candidate of a stage, by its answers. */
  function ReachingAt(ctx: Context, role: Role, base: Results, j: nat): Option<Raise>
    requires Ids(ctx.batch) <= base.Keys
  {
    Reaching(ctx.batch, ctx.check, base, ctx.contracts(role).maxRepairAttempts, ctx.answers(role).candidates(j))
  }

  /** The answers of a stage ask for a retry: it took nothing although it ran, every executed candidate died, the first
      of them of something other than invalid output; or it took a candidate after its time was up. */
  ghost predicate AnswersAskForRetry(ctx: Context, role: Role, r: StageRecord)
    requires Ids(ctx.batch) <= r.base.Keys
  {
    && r.course.Run?
    && (if Taken(r) then ctx.answers(role).elapsedSeconds > ctx.contracts(role).maxWallTimeSeconds
        else
          && ReachingAt(ctx, role, r.base, 0) == Some(OtherException)
          && forall j | 0 <= j < |r.course.done| :: ReachingAt(ctx, role, r.base, j).Some?)
  }

  lemma DoneFollowsTheAnswers(ctx: Context, role: Role, base: Results, r: StageRecord, events: seq<AdapterEvent>,
                              j: nat)
    requires Ids(ctx.batch) <= base.Keys
    requires RunStage(ctx, role, base) == Completed(r, events) && r.course.Run? && j < |r.course.done|
    ensures var x := r.course.done[j];
      && (x.run.status == Succeeded <==> ReachingAt(ctx, role, base, j).None?)
      && (x.run.status == Succeeded || x.run.status == Failed)
      && (x.run.status == Succeeded ==> x.results.Some?)
      && CodeNames(x.run.errorCode, ReachingAt(ctx, role, base, j))
  {
    hide RunStage, Reaching, CodeNames, Executed;
    WhomAStageExecutes(ctx, role, base, r, events);
    var group, a := ctx.registry[role], ctx.answers(role).candidates(j);
    var repairs := ctx.contracts(role).maxRepairAttempts;
    CandidateOutcome(ctx.batch, ctx.check, role, group.candidates[j], base, repairs, a, r.course.done[j]);
    CandidateVerdict(ctx.batch, ctx.check, role, group.candidates[j], base, repairs, a, r.course.done[j]);
  }

  lemma CauseIsInTheAnswers(ctx: Context, role: Role, base: Results, r: StageRecord, events: seq<AdapterEvent>)
    requires Ids(ctx.batch) <= base.Keys && r.base == base && r.role == role
    requires RunStage(ctx, role, base) == Completed(r, events)
    ensures RetryCause(ctx, r) <==> AnswersAskForRetry(ctx, role, r)
  {
    hide RunStage, ReachingAt, Successful;
    if r.course.Run? {
      WhomAStageExecutes(ctx, role, base, r, events);
      var done := r.course.done;
      forall j | 0 <= j < |done|
        ensures done[j].run.status == Succeeded && done[j].results.Some? <==> ReachingAt(ctx, role, base, j).None?
        ensures CodeNames(done[j].run.errorCode, ReachingAt(ctx, role, base, j))
      {
        DoneFollowsTheAnswers(ctx, role, base, r, events, j);
      }
      SuccessfulEmpty(done);
      assert Successful(done) == [] <==> forall j | 0 <= j < |done| :: ReachingAt(ctx, role, base, j).Some?;
    }
  }

  /** A batch is retryable exactly when the answers of one of its stages ask for it. */
  lemma RetryFollowsTheAnswers(ctx: Context, out: SessionOutput)
    requires Outputs(ctx) == Returned(out)
    ensures out.retryable <==>
      exists i | 0 <= i < |Finished(ctx).records| ::
        && i < |ROLE_ORDER| && Ids(ctx.batch) <= Finished(ctx).records[i].base.Keys
        && AnswersAskForRetry(ctx, ROLE_ORDER[i], Finished(ctx).records[i])
  {
    hide After, Outputs, RunStage, RetryCause, AnswersAskForRetry, StageShape;
    RetryMeaning(ctx, out);
    RecordsAreStages(ctx, |ROLE_ORDER|);
    RecordsChain(ctx, |ROLE_ORDER|);
    var records := Finished(ctx).records;
    forall i | 0 <= i < |records|
      ensures i < |ROLE_ORDER| && Ids(ctx.batch) <= records[i].base.Keys
      ensures RetryCause(ctx, records[i]) <==> AnswersAskForRetry(ctx, ROLE_ORDER[i], records[i])
    {
      assert IsStage(ctx, ROLE_ORDER[i], records[i]);
      assert Link(ctx, records, i);
      var events :| RunStage(ctx, ROLE_ORDER[i], records[i].base) == Completed(records[i], events);
      CauseIsInTheAnswers(ctx, ROLE_ORDER[i], records[i].base, records[i], events);
    }
  }

  // ----- what is reported -----

  /** Runs and traces are those of the stages, field by field; a trace is retryable when the stage's last gate asks for
      a retry. */
  lemma TracesAreTheRecords(ctx: Context, out: SessionOutput, i: nat)
    requires Outputs(ctx) == Returned(out) && i < |ROLE_ORDER|
    ensures |Finished(ctx).records| == |out.traces| == |out.runs| == |ROLE_ORDER|
    ensures var r, t := Finished(ctx).records[i], out.traces[i];
      && out.runs[i] == r.run
      && t.role == ROLE_ORDER[i] && t.sequence == i + 1 && t.status == r.status && t.attempts == r.attempts
      && t.preflight == r.preflight && t.postflight == r.postflight
      && (t.retryable <==> if r.postflight.Some? then r.postflight.value.decision == FailedRetryable
                           else r.preflight.decision == FailedRetryable)
  {
    hide After, Outputs, StageShape, GatesOf, ErrorsOf, AllCandidateRuns, AllConsensus, Overall;
    FinishedRecords(ctx, out);
    assert Link(ctx, Finished(ctx).records, i);
  }

  /** One consensus result for each stage that ran and none for the others, with the group's rules, the executed
      candidates in order, how many of them succeeded with results, and what was decided. */
  lemma ConsensusIsReported(registry: map<Role, Group>, r: StageRecord)
    ensures !r.course.Run? ==> ConsensusPart(registry, r) == []
    ensures r.course.Run? && r.role in registry ==>
      var part, done := ConsensusPart(registry, r), r.course.done;
      && |part| == 1 && part[0].role == r.role
      && part[0].strategy == registry[r.role].strategy && part[0].required == registry[r.role].minimumSuccessful
      && |part[0].candidateIds| == |done|
      && (forall j | 0 <= j < |done| :: part[0].candidateIds[j] == done[j].candidate.candidateId)
      && part[0].successful == |set j | 0 <= j < |done| && HoldsSuccess(done, j)|
      && part[0].decision == r.course.evaluation.decision && part[0].selected == r.course.evaluation.selected
      && part[0].reasonCodes == r.course.evaluation.reasonCodes
      && (part[0].downstreamAllowed <==> r.course.evaluation.downstreamAllowed)
      && part[0].adjudicator == (if r.course.judge.None? then None
                                 else Some(r.course.judge.value.candidateRun.candidateId))
  {
    if r.course.Run? { SuccessfulCount(r.course.done); }
    hide Successful;
  }

  predicate HoldsSuccess(done: seq<Execution>, j: int) {
    0 <= j < |done| && done[j].run.status == Succeeded && done[j].results.Some?
  }

  function SuccessPlaces(done: seq<Execution>): set<int> {
    set j | 0 <= j < |done| && HoldsSuccess(done, j)
  }

  lemma OneMorePlace(done: seq<Execution>)
    requires done != []
    ensures var n := |done| - 1;
      && n !in SuccessPlaces(done[..n])
      && SuccessPlaces(done)
         == SuccessPlaces(done[..n]) + if done[n].run.status == Succeeded && done[n].results.Some? then {n} else {}
  {
    assert forall j | 0 <= j < |done| - 1 :: done[..|done| - 1][j] == done[j];
  }

  lemma {:induction false} SuccessfulCount(done: seq<Execution>)
    ensures |Successful(done)| == |SuccessPlaces(done)|
  {
    if done == [] {
      assert SuccessPlaces(done) == {};
    } else {
      hide SuccessPlaces;
      SuccessfulCount(done[..|done| - 1]);
      OneMorePlace(done);
    }
  }

  /** The lists of a finished session are those of its stages, one after the other; its items are the batch's, each
      with what the running map holds under its id. */
  lemma SessionReportsItsStages(ctx: Context, out: SessionOutput)
    requires Outputs(ctx) == Returned(out)
    ensures out.errors == FlatMap(ErrorsIn, Finished(ctx).records)
    ensures out.candidateRuns == FlatMap(CandidateRunsOf, Finished(ctx).records)
    ensures out.consensus == FlatMap(record => ConsensusPart(ctx.registry, record), Finished(ctx).records)
    ensures |out.items| == |ctx.batch|
    ensures forall i | 0 <= i < |ctx.batch| ::
      ctx.batch[i].inputId in Finished(ctx).results
      && out.items[i] == Finished(ctx).results[ctx.batch[i].inputId]
  {
    hide After, Overall, Gates, CandidateRunsOf, ConsensusPart;
    forall i | 0 <= i < |ctx.batch| ensures ctx.batch[i].inputId in Ids(ctx.batch) {}
  }

  /** The candidate runs of a stage: those of its executed candidates in order, then the judge's. */
  lemma CandidateRunsOfAStage(r: StageRecord)
    ensures !r.course.Run? ==> CandidateRunsOf(r) == []
    ensures r.course.Run? ==>
      && |CandidateRunsOf(r)| == |r.course.done| + (if r.course.judge.Some? then 1 else 0)
      && (forall j | 0 <= j < |r.course.done| :: CandidateRunsOf(r)[j] == r.course.done[j].candidateRun)
      && (r.course.judge.Some? ==> CandidateRunsOf(r)[|r.course.done|] == r.course.judge.value.candidateRun)
  {}

  // ----- the initial map -----

  /** What an item is shown as before any model ran: nothing found, and one selection per frame, or one for the item
      itself when it has no frames but a working file; chosen are those of the even sample of eight. */
  lemma InitialMeaning(item: BatchItem)
    ensures var r := InitialResult(item);
      var sources := if item.frames != [] then item.frames else if item.hasWorkingFile then [item.inputId] else [];
      && r.inputId == item.inputId && r.location == item.location
      && r.segments == [] && r.regions == [] && r.facts == [] && r.places == [] && r.times == []
      && |r.selection| == |sources|
      && (forall i | 0 <= i < |sources| ::
            && r.selection[i].evidenceId == sources[i]
            && (r.selection[i].selected <==> sources[i] in TemporalSampling.Sample(sources, 8))
            && r.selection[i].reason == (if |sources| == 1 then SingleImage
                                         else if r.selection[i].selected then DetectorFallback
                                         else CapacityLimit))
      && (|sources| <= 8 ==> forall s | s in r.selection :: s.selected)
  {
    var sources := VisualSources(item);
    if |sources| <= 8 { assert TemporalSampling.Sample(sources, 8) == sources; }
    hide TemporalSampling.Sample;
  }

  /** The initial map holds, under each batch id, the initial result of the last item of that id. */
  lemma InitialMap(batch: Batch, i: nat)
    requires i < |batch| && forall j | i < j < |batch| :: batch[j].inputId != batch[i].inputId
    ensures batch[i].inputId in InitialResults(batch)
    ensures InitialResults(batch)[batch[i].inputId] == InitialResult(batch[i])
    ensures InitialResults(batch).Keys == Ids(batch)
  {
    assert batch[i].inputId in Ids(batch);
    LastIs(batch, i);
    hide InitialResult, LastItem;
  }

  lemma {:induction false} LastIs(batch: Batch, i: nat)
    requires i < |batch| && forall j | i < j < |batch| :: batch[j].inputId != batch[i].inputId
    ensures batch[i].inputId in Ids(batch) && LastItem(batch, batch[i].inputId) == batch[i]
    decreases |batch|
  {
    assert batch[i] in batch;
    if i < |batch| - 1 {
      LastIs(batch[..|batch| - 1], i);
    }
  }
}
