/** What every session guarantees, whatever the models, the consensus, the judge and the clock answer. */
module SessionTheorems {
  import opened Prelude
  import opened SessionModel
  import opened StageGates
  import opened CandidateProtocol
  import opened SessionSpec
  import opened Session
  import opened StageShapes
  import TemporalSampling

  // ----- the result map -----

  /** The last stage that accepted a candidate. */
  function LastTaken(records: seq<StageRecord>): (r: Option<nat>)
    ensures r.Some? ==> r.value < |records| && Taken(records[r.value])
                        && forall i | r.value < i < |records| :: !Taken(records[i])
    ensures r.None? ==> forall i | 0 <= i < |records| :: !Taken(records[i])
  {
    if records == [] then None
    else if Taken(records[|records| - 1]) then Some(|records| - 1)
    else LastTaken(records[..|records| - 1])
  }

  /** Where a running map comes from: the initial map, or the accepted execution of a stage, validated as a
      patch of the map that stage started from. */
  ghost predicate Provenance(ctx: Context, records: seq<StageRecord>, results: Results) {
    match LastTaken(records)
    case None => results == InitialResults(ctx.batch)
    case Some(j) =>
      var r := records[j];
      && r.course.accepted.value < |r.course.done|
      && Ids(ctx.batch) <= r.base.Keys
      && r.base == BaseOf(ctx, records, j)
      && var x := r.course.done[r.course.accepted.value];
         && x.results == Some(results)
         && Answered(ctx, r.base, ctx.answers(r.role).candidates(r.course.accepted.value), x)
  }

  lemma {:induction false} RejectedKeep(ctx: Context, records: seq<StageRecord>, i: nat, j: nat)
    requires Chain(ctx, records)
    requires i <= j <= |records| && forall m | i <= m < j :: !Taken(records[m])
    ensures BaseOf(ctx, records, j) == BaseOf(ctx, records, i)
    decreases j - i
  {
    hide StageShape;
    if i < j {
      assert Link(ctx, records, j - 1);
      RefusedKeeps(ctx, records[j - 1]);
      RejectedKeep(ctx, records, i, j - 1);
    }
  }

  lemma RefusedKeeps(ctx: Context, r: StageRecord)
    requires Ids(ctx.batch) <= r.base.Keys && Ids(ctx.batch) <= r.next.Keys && StageShape(ctx, r)
    ensures !Taken(r) ==> r.next == r.base
  {
    hide ExecutedPrefix, SoundExecution, PreflightOf, Departure;
  }

  /** The result map, at every point of every session and also when an exception ends it: it is keyed by
      exactly the batch ids, and it is the initial map or a fully validated map of the last accepted
      stage. */
  lemma ResultMapProvenance(ctx: Context, k: nat)
    requires k <= |ROLE_ORDER|
    ensures var p := After(ctx, k);
      && p.results.Keys == Ids(ctx.batch)
      && Provenance(ctx, p.records, p.results)
  {
    hide ExecutedPrefix, PreflightOf, Departure, After, InitialResults;
    RecordsChain(ctx, k);
    var records := After(ctx, k).records;
    match LastTaken(records)
    case None => RejectedKeep(ctx, records, 0, |records|);
    case Some(j) =>
      assert Link(ctx, records, j);
      RejectedKeep(ctx, records, j + 1, |records|);
  }

  /** The map files under each batch id a result that names that id and carries that item's own metadata. */
  ghost predicate Identified(batch: Batch, results: Results) {
    forall id | id in Ids(batch) ::
      id in results && results[id].inputId == id && results[id].location == LastItem(batch, id).location
  }

  lemma PatchKeepsIdentity(ctx: Context, base: Results, patches: Patches, next: Results)
    requires Ids(ctx.batch) <= base.Keys && Identified(ctx.batch, base)
    requires Validated(ctx.batch, ctx.check, base, patches) == Returned(next)
    ensures Identified(ctx.batch, next)
  {
    hide AllValid, LastItem;
  }

  lemma {:induction false} BasesAreIdentified(ctx: Context, records: seq<StageRecord>, i: nat)
    requires Chain(ctx, records) && i <= |records|
    ensures Identified(ctx.batch, BaseOf(ctx, records, i))
  {
    hide ExecutedPrefix, PreflightOf, Departure, Validated;
    if i == 0 {
      InitialIsIdentified(ctx.batch);
    } else {
      BasesAreIdentified(ctx, records, i - 1);
      var r := records[i - 1];
      assert Link(ctx, records, i - 1);
      if r.next != r.base {
        var k := r.course.accepted.value;
        assert SoundExecution(ctx, r.role, r.base, k, r.course.done[k]);
        var a := ctx.answers(r.role).candidates(k);
        var answer := if r.course.done[k].repaired then a.repair.patches else a.first.patches;
        PatchKeepsIdentity(ctx, r.base, answer.value, r.next);
      }
    }
  }

  lemma InitialIsIdentified(batch: Batch)
    ensures Identified(batch, InitialResults(batch))
  {
    forall id | id in Ids(batch) ensures LastItem(batch, id).inputId == id {
      LastItemHasId(batch, id);
    }
  }

  lemma {:induction false} LastItemHasId(batch: Batch, id: string)
    requires id in Ids(batch)
    ensures LastItem(batch, id).inputId == id
  {
    if batch[|batch| - 1].inputId != id {
      var item :| item in batch && item.inputId == id;
      assert item in batch[..|batch| - 1];
      LastItemHasId(batch[..|batch| - 1], id);
    }
  }

  /** No model can rename an item or touch its metadata: the items of the output are the batch's, in order. */
  lemma ItemsKeepTheirIdentity(ctx: Context, out: SessionOutput)
    requires Outputs(ctx) == Returned(out)
    ensures |out.items| == |ctx.batch|
    ensures forall i | 0 <= i < |ctx.batch| ::
      && out.items[i].inputId == ctx.batch[i].inputId
      && ctx.batch[i].inputId in Ids(ctx.batch)
      && out.items[i].location == LastItem(ctx.batch, ctx.batch[i].inputId).location
  {
    hide After, Outputs, ExecutedPrefix, PreflightOf, Departure, Chain, LastItem, OutputOf;
    RecordsChain(ctx, |ROLE_ORDER|);
    var p := Finished(ctx);
    BasesAreIdentified(ctx, p.records, |p.records|);
    FinishedItems(ctx, out);
    forall i | 0 <= i < |ctx.batch| ensures ctx.batch[i].inputId in Ids(ctx.batch) {}
  }

  lemma FinishedItems(ctx: Context, out: SessionOutput)
    requires Outputs(ctx) == Returned(out)
    ensures Finished(ctx).raised.None? && Ids(ctx.batch) <= Finished(ctx).results.Keys
    ensures out.items == Items(ctx.batch, Finished(ctx).results)
  {
    hide After, Overall;
  }

  /** Within a stage every candidate starts from the map the stage started from, whatever the others did, and
      a refused stage hands that very map on. */
  lemma CandidatesShareTheBase(ctx: Context, k: nat, i: nat)
    requires k <= |ROLE_ORDER| && i < |After(ctx, k).records|
    ensures var r := After(ctx, k).records[i];
      && r.base == BaseOf(ctx, After(ctx, k).records, i)
      && (!Taken(r) ==> r.next == r.base)
      && (r.course.Run? ==>
            && r.role in ctx.registry
            && Ids(ctx.batch) <= r.base.Keys
            && ExecutedPrefix(ctx, r.role, ctx.registry[r.role], r.base, r.course.done))
  {
    hide ExecutedPrefix, SoundExecution, PreflightOf, Departure, After;
    RecordsChain(ctx, k);
    assert Link(ctx, After(ctx, k).records, i);
  }

  /** The evaluation the stage settled on names nobody, or one of the candidates the consensus was shown: those that
      succeeded and hold results. */
  ghost predicate NamesOneItWasShown(r: StageRecord) {
    r.course.Run? && r.course.evaluation.selected.Some? ==>
      exists x :: x in Successful(r.course.done) && x.candidate.candidateId == r.course.evaluation.selected.value
  }

  /** The consensus and the adjudication choose among the candidates they are given, in every stage. */
  ghost predicate ChoosesAmongShown(ctx: Context) {
    forall i | 0 <= i < |Finished(ctx).records| :: NamesOneItWasShown(Finished(ctx).records[i])
  }

  /** What the runner's constructor has every group checked for. */
  ghost predicate DistinctCandidates(ctx: Context) {
    forall role | role in ctx.registry :: DistinctIds(ctx.registry[role].candidates)
  }

  ghost predicate DistinctIds(candidates: seq<Candidate>) {
    forall i, j | 0 <= i < j < |candidates| :: candidates[i].candidateId != candidates[j].candidateId
  }

  lemma {:induction false} SuccessfulMember(done: seq<Execution>, x: Execution)
    ensures x in Successful(done) <==> x in done && x.run.status == Succeeded && x.results.Some?
  {
    if done != [] {
      SuccessfulMember(done[..|done| - 1], x);
      assert done == done[..|done| - 1] + [done[|done| - 1]];
    }
  }

  /** A stage takes only a candidate that has succeeded, although it looks the chosen id up among all executed
      candidates and asks only whether results are there. */
  lemma TakenHasSucceeded(ctx: Context, r: StageRecord)
    requires Ids(ctx.batch) <= r.base.Keys && Ids(ctx.batch) <= r.next.Keys && StageShape(ctx, r)
    requires DistinctCandidates(ctx) && NamesOneItWasShown(r) && Taken(r)
    ensures r.run.status == Succeeded
  {
    hide SoundExecution, PreflightOf, Departure, Successful, ExecuteOne;
    var done, k := r.course.done, r.course.accepted.value;
    var group := ctx.registry[r.role];
    var x :| x in Successful(done) && x.candidate.candidateId == r.course.evaluation.selected.value;
    SuccessfulMember(done, x);
    var j :| 0 <= j < |done| && done[j] == x;
    RunNamesCandidate(ctx, r.role, group, r.base, j, done[j]);
    RunNamesCandidate(ctx, r.role, group, r.base, k, done[k]);
    assert DistinctIds(group.candidates);
    assert j == k;
  }

  /** When the consensus chooses among the candidates it is shown, the accepted execution has succeeded and its
      published payload is the answer that made the map. */
  lemma AcceptedHasSucceeded(ctx: Context, k: nat, j: nat)
    requires k <= |ROLE_ORDER| && DistinctCandidates(ctx)
    requires j < |After(ctx, k).records| && Taken(After(ctx, k).records[j])
    requires NamesOneItWasShown(After(ctx, k).records[j])
    ensures var r := After(ctx, k).records[j];
      && r.run.status == Succeeded
      && r.course.accepted.value < |r.course.done|
      && var x := r.course.done[r.course.accepted.value];
         && x.run == r.run
         && x.candidateRun.payload.Some?
         && Ids(ctx.batch) <= r.base.Keys
         && Validated(ctx.batch, ctx.check, r.base, x.candidateRun.payload.value) == Returned(r.next)
  {
    hide ExecutedPrefix, PreflightOf, Departure, After, Validated, NamesOneItWasShown, DistinctCandidates;
    RecordsChain(ctx, k);
    var r := After(ctx, k).records[j];
    assert Link(ctx, After(ctx, k).records, j);
    TakenHasSucceeded(ctx, r);
    var i := r.course.accepted.value;
    assert SoundExecution(ctx, r.role, r.base, i, r.course.done[i]);
  }

  // ----- the status of a batch -----

  /** The stage was not applicable, or took a candidate and its postflight let it pass or abstain. */
  predicate Clean(r: StageRecord) {
    || r.preflight.decision == NotApplicable
    || (Taken(r) && r.postflight.Some? && r.postflight.value.decision in {Proceed, Abstain})
  }

  /** A finished session has one shaped record per role. */
  ghost predicate FinishedWith(ctx: Context, out: SessionOutput, records: seq<StageRecord>) {
    && |records| == |ROLE_ORDER|
    && Chain(ctx, records)
    && out.runs == RunsOf(records)
    && out.gates == GatesOf(records)
    && out.traces == TracesOf(records)
    && out.errors == ErrorsOf(records)
    && out.candidateRuns == AllCandidateRuns(records)
    && out.consensus == AllConsensus(ctx.registry, records)
    && out.status == Overall(out.runs, out.gates)
    && out.retryable == exists gate | gate in out.gates :: gate.decision == FailedRetryable
  }

  lemma FinishedRecords(ctx: Context, out: SessionOutput)
    requires Outputs(ctx) == Returned(out)
    ensures FinishedWith(ctx, out, Finished(ctx).records)
  {
    hide After, Chain, RunsOf, GatesOf, TracesOf, ErrorsOf, AllCandidateRuns, AllConsensus, Overall;
    RecordsChain(ctx, |ROLE_ORDER|);
  }

  ghost predicate StageBlocks(r: StageRecord) {
    || (r.run.status == Skipped && r.run.errorCode.Some? && r.run.errorCode.value != "")
    || (exists gate | gate in Gates(r) :: Blocking(gate.decision))
  }

  lemma GatesMember(records: seq<StageRecord>, gate: GateRecord)
    ensures gate in GatesOf(records) <==> exists i :: 0 <= i < |records| && gate in Gates(records[i])
  {
    hide Gates;
    FlatMapMember(Gates, records, gate);
  }

  lemma IncompleteMeans(records: seq<StageRecord>)
    ensures Incomplete(RunsOf(records), GatesOf(records))
       <==> exists i :: 0 <= i < |records| && StageBlocks(records[i])
  {
    hide Gates, GatesOf;
    var runs := RunsOf(records);
    if Incomplete(runs, GatesOf(records)) {
      if run :| run in runs && run.status == Skipped && run.errorCode.Some? && run.errorCode.value != "" {
        var i :| 0 <= i < |runs| && runs[i] == run;
        assert StageBlocks(records[i]);
      } else {
        var gate :| gate in GatesOf(records) && Blocking(gate.decision);
        GatesMember(records, gate);
        var i :| 0 <= i < |records| && gate in Gates(records[i]);
        assert StageBlocks(records[i]);
      }
    }
    if i :| 0 <= i < |records| && StageBlocks(records[i]) {
      assert records[i].run == runs[i];
      if gate :| gate in Gates(records[i]) && Blocking(gate.decision) {
        GatesMember(records, gate);
      }
    }
  }

  /** A shaped stage blocks the batch exactly when it is not clean. */
  lemma BlocksUnlessClean(ctx: Context, r: StageRecord)
    requires Ids(ctx.batch) <= r.base.Keys && Ids(ctx.batch) <= r.next.Keys && StageShape(ctx, r)
    ensures StageBlocks(r) <==> !Clean(r)
    ensures r.run.status == Failed ==> r.course.Run?
    ensures r.course.Run? && r.course.accepted.None? ==> r.run.status == Failed && StageBlocks(r)
  {
    hide ExecutedPrefix, PreflightOf, Departure;
    if r.course.Run? {
      assert Gates(r) == [r.preflight, r.postflight.value];
      assert r.postflight.value in Gates(r);
      DepartureBlocks(ctx, r.role, r.base, r.next, if r.course.accepted.None? then r.run.errorCode else None);
    } else if r.course.Unconfigured? {
      assert Gates(r) == [r.preflight, r.postflight.value];
    }
  }

  lemma DepartureBlocks(ctx: Context, role: Role, base: Results, next: Results, code: Option<string>)
    requires Ids(ctx.batch) <= next.Keys
    ensures Blocking(Departure(ctx, role, base, next, Failed, code).decision)
    ensures Departure(ctx, role, base, next, Failed, code).decision == FailedRetryable
       <==> code == Some(RUNTIME_ERROR)
    ensures Departure(ctx, role, base, next, Succeeded, None).decision != NotApplicable
    ensures Departure(ctx, role, base, next, Succeeded, None).decision == FailedRetryable
       <==> ctx.answers(role).elapsedSeconds > ctx.contracts(role).maxWallTimeSeconds
  {
    hide Capabilities, MaximumOutput;
  }

  /** The status of a finished batch, exactly. It succeeded when every stage is clean and no reported run has
      failed; it failed when the same stages are clean, some accepted candidate had failed, and no run
      succeeded; anything else is a partial failure. */
  lemma StatusMeaning(ctx: Context, out: SessionOutput)
    requires Outputs(ctx) == Returned(out)
    ensures var records := Finished(ctx).records;
      var clean := forall i | 0 <= i < |records| :: Clean(records[i]);
      var failed := exists i :: 0 <= i < |records| && records[i].run.status == Failed;
      var succeeded := exists i :: 0 <= i < |records| && records[i].run.status == Succeeded;
      && |records| == |ROLE_ORDER|
      && (out.status == BatchSucceeded <==> clean && !failed)
      && (out.status == BatchFailed <==> clean && failed && !succeeded)
  {
    hide Finished, Outputs, Clean, Incomplete, StageBlocks, StageShape, GatesOf, TracesOf, ErrorsOf,
      AllCandidateRuns, AllConsensus;
    FinishedRecords(ctx, out);
    var records := Finished(ctx).records;
    IncompleteMeans(records);
    forall i | 0 <= i < |records| ensures StageBlocks(records[i]) <==> !Clean(records[i]) {
      assert Link(ctx, records, i);
      BlocksUnlessClean(ctx, records[i]);
    }
    RunsStatus(records, Failed);
    RunsStatus(records, Succeeded);
  }

  lemma RunsStatus(records: seq<StageRecord>, status: RunStatus)
    ensures (exists run | run in RunsOf(records) :: run.status == status)
       <==> exists i :: 0 <= i < |records| && records[i].run.status == status
  {
    var runs := RunsOf(records);
    if i :| 0 <= i < |records| && records[i].run.status == status { assert runs[i] in runs; }
  }

  /** The status of a batch when the consensus chooses among the candidates it is shown: succeeded exactly when
      every stage was not applicable, or took a candidate and ended in a pass or an abstention; and the `failed`
      status is never given. */
  lemma SucceededMeansClean(ctx: Context, out: SessionOutput)
    requires Outputs(ctx) == Returned(out) && DistinctCandidates(ctx) && ChoosesAmongShown(ctx)
    ensures var records := Finished(ctx).records;
      out.status == BatchSucceeded <==> forall i | 0 <= i < |records| :: Clean(records[i])
    ensures out.status != BatchFailed
  {
    hide After, Outputs, Clean, StageShape, DistinctCandidates, NamesOneItWasShown;
    StatusMeaning(ctx, out);
    RecordsChain(ctx, |ROLE_ORDER|);
    var records := Finished(ctx).records;
    forall i | 0 <= i < |records| && Clean(records[i]) ensures records[i].run.status != Failed {
      assert Link(ctx, records, i);
      if Taken(records[i]) { AcceptedHasSucceeded(ctx, |ROLE_ORDER|, i); }
      BlocksUnlessClean(ctx, records[i]);
    }
  }

  /** The stage took a candidate whose output payload could not be built. */
  predicate Unpublished(ctx: Context, r: StageRecord) {
    Taken(r) && ctx.answers(r.role).candidates(r.course.accepted.value).payloadError.Some?
  }

  lemma CleanFailure(ctx: Context, r: StageRecord)
    requires Ids(ctx.batch) <= r.base.Keys && Ids(ctx.batch) <= r.next.Keys && StageShape(ctx, r)
    ensures Clean(r) ==> (r.run.status == Failed <==> Unpublished(ctx, r))
  {
    hide ExecutedPrefix, PreflightOf, Departure;
    BlocksUnlessClean(ctx, r);
    if Taken(r) {
      var k := r.course.accepted.value;
      assert SoundExecution(ctx, r.role, r.base, k, r.course.done[k]);
    }
  }

  /** The same for a consensus that may answer anything: with all stages clean a batch has not succeeded if and only
      if some stage took a candidate whose payload could not be built. */
  lemma StatusMissesExactly(ctx: Context, out: SessionOutput)
    requires Outputs(ctx) == Returned(out)
    requires forall i | 0 <= i < |Finished(ctx).records| :: Clean(Finished(ctx).records[i])
    ensures var records := Finished(ctx).records;
      out.status != BatchSucceeded <==> exists i :: 0 <= i < |records| && Unpublished(ctx, records[i])
  {
    hide After, Outputs, Clean, StageShape, Unpublished;
    StatusMeaning(ctx, out);
    RecordsChain(ctx, |ROLE_ORDER|);
    var records := Finished(ctx).records;
    forall i | 0 <= i < |records| ensures records[i].run.status == Failed <==> Unpublished(ctx, records[i]) {
      assert Link(ctx, records, i);
      CleanFailure(ctx, records[i]);
    }
  }

  /** A batch cannot succeed by doing nothing: the extraction stage, filed under its own role, is never "not
      applicable", so a succeeded batch has an accepted extraction candidate. */
  lemma SuccessNeedsExtraction(ctx: Context, out: SessionOutput)
    requires ctx.contracts(MultimodalExtraction).role == MultimodalExtraction
    requires Outputs(ctx) == Returned(out) && out.status == BatchSucceeded
    ensures var records := Finished(ctx).records;
      |records| == 4 && records[3].role == MultimodalExtraction && Taken(records[3])
  {
    hide After, Outputs, StageShape;
    StatusMeaning(ctx, out);
    RecordsChain(ctx, |ROLE_ORDER|);
    var r := Finished(ctx).records[3];
    assert Link(ctx, Finished(ctx).records, 3);
    ExtractionApplies(ctx, r);
  }

  lemma ExtractionApplies(ctx: Context, r: StageRecord)
    requires Ids(ctx.batch) <= r.base.Keys && Ids(ctx.batch) <= r.next.Keys && StageShape(ctx, r)
    requires r.role == MultimodalExtraction
    ensures ctx.contracts(r.role).role == r.role ==> r.preflight.decision != NotApplicable
  {
    hide Capabilities, Missing;
  }

  // ----- the error list -----

  lemma {:induction false} ErrorsEmpty(records: seq<StageRecord>)
    ensures ErrorsOf(records) == [] <==> forall i | 0 <= i < |records| :: records[i].errors == []
  {
    if records != [] {
      var n := |records| - 1;
      ErrorsEmpty(records[..n]);
      assert ErrorsOf(records) == ErrorsOf(records[..n]) + records[n].errors;
      assert forall i | 0 <= i < n :: records[..n][i] == records[i];
    }
  }

  predicate AllExecutedSucceeded(r: StageRecord) {
    r.course.Run? ==> forall x | x in r.course.done :: x.run.status != Failed
  }

  lemma StageErrorsEmpty(ctx: Context, r: StageRecord)
    requires Ids(ctx.batch) <= r.base.Keys && Ids(ctx.batch) <= r.next.Keys && StageShape(ctx, r)
    ensures r.errors == [] <==>
      && Clean(r) && AllExecutedSucceeded(r)
      && (r.course.Run? && r.course.judge.Some? ==> r.course.judge.value.verdict.Some?)
    ensures r.errors == [] ==> r.run.status != Failed
  {
    hide ExecutedPrefix, PreflightOf, Departure;
    if r.course.Run? {
      DepartureBlocks(ctx, r.role, r.base, r.next, if r.course.accepted.None? then r.run.errorCode else None);
      if r.course.accepted.Some? { assert r.run == r.course.done[r.course.accepted.value].run; }
    }
  }

  predicate JudgeRuled(r: StageRecord) {
    r.course.Run? && r.course.judge.Some? ==> r.course.judge.value.verdict.Some?
  }

  /** A batch that has not succeeded always says why, and the error list is empty exactly when all stages are
      clean, no executed candidate failed and every judge that was asked ruled. */
  lemma ErrorsMeaning(ctx: Context, out: SessionOutput)
    requires Outputs(ctx) == Returned(out)
    ensures var records := Finished(ctx).records;
      out.errors == [] <==> forall i | 0 <= i < |records| ::
        Clean(records[i]) && AllExecutedSucceeded(records[i]) && JudgeRuled(records[i])
    ensures out.status != BatchSucceeded ==> out.errors != []
  {
    hide After, Outputs, Clean, StageShape, AllExecutedSucceeded, RunsOf, GatesOf, TracesOf, ErrorsOf,
      AllCandidateRuns, AllConsensus, Overall;
    FinishedRecords(ctx, out);
    StatusMeaning(ctx, out);
    var records := Finished(ctx).records;
    ErrorsEmpty(records);
    forall i | 0 <= i < |records|
      ensures records[i].errors == [] <==>
        Clean(records[i]) && AllExecutedSucceeded(records[i]) && JudgeRuled(records[i])
      ensures records[i].errors == [] ==> records[i].run.status != Failed
    {
      assert Link(ctx, records, i);
      StageErrorsEmpty(ctx, records[i]);
    }
  }

  // ----- retrying -----

  /** A stage asks for a retry when no candidate succeeded and the first one died at run time, or when it took
      a candidate after its wall-time budget. */
  ghost predicate RetryCause(ctx: Context, r: StageRecord) {
    && r.course.Run?
    && (|| (r.course.accepted.None? && Successful(r.course.done) == [] && r.course.done != []
            && r.course.done[0].run.errorCode == Some(RUNTIME_ERROR))
        || (r.course.accepted.Some?
            && ctx.answers(r.role).elapsedSeconds > ctx.contracts(r.role).maxWallTimeSeconds))
  }

  lemma StageRetry(ctx: Context, r: StageRecord)
    requires Ids(ctx.batch) <= r.base.Keys && Ids(ctx.batch) <= r.next.Keys && StageShape(ctx, r)
    ensures LastGate(r).decision == FailedRetryable <==> RetryCause(ctx, r)
    ensures (exists gate | gate in Gates(r) :: gate.decision == FailedRetryable) <==> RetryCause(ctx, r)
  {
    hide ExecutedPrefix, PreflightOf, Departure, Successful, Capabilities;
    PreflightNeverRetries(ctx, r);
    if r.course.Run? {
      DepartureBlocks(ctx, r.role, r.base, r.next, if r.course.accepted.None? then r.run.errorCode else None);
    }
    if r.postflight.Some? { assert Gates(r) == [r.preflight, r.postflight.value]; }
    assert LastGate(r) in Gates(r);
  }

  lemma PreflightNeverRetries(ctx: Context, r: StageRecord)
    requires r.preflight == PreflightOf(ctx, r.role, r.base)
    ensures r.preflight.decision != FailedRetryable
  {
    PreflightMeaning(ctx.contracts(r.role), Capabilities(ctx.batch, r.base), |ctx.batch|);
  }

  /** A batch is retryable exactly when some trace is, and exactly when some stage has a cause for it. */
  lemma RetryMeaning(ctx: Context, out: SessionOutput)
    requires Outputs(ctx) == Returned(out)
    ensures var records := Finished(ctx).records;
      && (out.retryable <==> exists t | t in out.traces :: t.retryable)
      && (out.retryable <==> exists i :: 0 <= i < |records| && RetryCause(ctx, records[i]))
  {
    hide After, Outputs, StageShape, RetryCause, RunsOf, GatesOf, ErrorsOf, AllCandidateRuns, AllConsensus,
      Overall, Gates, LastGate;
    FinishedRecords(ctx, out);
    var records := Finished(ctx).records;
    forall i | 0 <= i < |records|
      ensures LastGate(records[i]).decision == FailedRetryable <==> RetryCause(ctx, records[i])
      ensures (exists gate | gate in Gates(records[i]) :: gate.decision == FailedRetryable)
         <==> RetryCause(ctx, records[i])
    {
      assert Link(ctx, records, i);
      StageRetry(ctx, records[i]);
    }
    forall gate ensures gate in out.gates <==> exists i :: 0 <= i < |records| && gate in Gates(records[i]) {
      GatesMember(records, gate);
    }
    if i :| 0 <= i < |records| && RetryCause(ctx, records[i]) {
      assert out.traces[i] == TraceOf(records[i], i + 1);
      assert out.traces[i] in out.traces;
    }
    if t :| t in out.traces && t.retryable {
      var i :| 0 <= i < |out.traces| && out.traces[i] == t;
      assert t == TraceOf(records[i], i + 1);
    }
  }

  /** A refusal among candidates that did succeed is never a reason to retry. */
  lemma RefusalIsFinal(ctx: Context, i: nat)
    requires i < |Finished(ctx).records|
    ensures var r := Finished(ctx).records[i];
      r.course.Run? && r.course.accepted.None? && Successful(r.course.done) != [] ==>
        && r.postflight.Some?
        && r.postflight.value.decision == FailedTerminal
  {
    hide After, ExecutedPrefix, Departure, PreflightOf, Successful;
    RecordsChain(ctx, |ROLE_ORDER|);
    var r := Finished(ctx).records[i];
    assert Link(ctx, Finished(ctx).records, i);
    if r.course.Run? && r.course.accepted.None? {
      FailedDeparture(ctx, r.role, r.base, r.next, r.run.errorCode);
    }
  }

  lemma FailedDeparture(ctx: Context, role: Role, base: Results, next: Results, code: Option<string>)
    requires Ids(ctx.batch) <= next.Keys
    ensures Departure(ctx, role, base, next, Failed, code).decision
         == if code == Some(RUNTIME_ERROR) then FailedRetryable else FailedTerminal
  {
    hide Capabilities, MaximumOutput;
  }

  // ----- traces -----

  function TraceGates(trace: StageTrace): seq<GateRecord> {
    [trace.preflight] + if trace.postflight.Some? then [trace.postflight.value] else []
  }

  lemma {:induction false} GatesFromTraces(records: seq<StageRecord>)
    ensures GatesOf(records) == FlatMap(TraceGates, TracesOf(records))
  {
    if records != [] {
      var n := |records| - 1;
      GatesFromTraces(records[..n]);
      assert TracesOf(records)[..n] == TracesOf(records[..n]);
    }
  }

  /** Four runs and four traces, in role order, numbered from 1; the gate records are those of the traces, in
      order; and the capabilities a stage finds are those the stage before it left. */
  lemma TraceConservation(ctx: Context, out: SessionOutput)
    requires Outputs(ctx) == Returned(out)
    ensures |out.runs| == |out.traces| == |ROLE_ORDER|
    ensures forall i | 0 <= i < |ROLE_ORDER| ::
      out.traces[i].role == out.runs[i].role == ROLE_ORDER[i] && out.traces[i].sequence == i + 1
    ensures out.gates == FlatMap(TraceGates, out.traces)
    ensures forall i | 0 <= i < |ROLE_ORDER| - 1 ::
      out.traces[i + 1].preflight.available
      == TraceGates(out.traces[i])[|TraceGates(out.traces[i])| - 1].available
    ensures out.traces[0].preflight.available == Capabilities(ctx.batch, InitialResults(ctx.batch))
  {
    hide After, Outputs, StageShape, ErrorsOf, AllCandidateRuns, AllConsensus, Overall, GatesOf, InitialResults,
      Capabilities;
    FinishedRecords(ctx, out);
    var records := Finished(ctx).records;
    GatesFromTraces(records);
    hide GatesOf, RunShape;
    forall i | 0 <= i < |records|
      ensures out.traces[i] == TraceOf(records[i], i + 1) && out.runs[i] == records[i].run
      ensures TraceGates(out.traces[i])[|TraceGates(out.traces[i])| - 1] == LastGate(records[i])
      ensures out.traces[i].preflight == records[i].preflight
      ensures records[i].role == ROLE_ORDER[i]
      ensures records[i].run.role == ROLE_ORDER[i]
      ensures records[i].preflight.available == Capabilities(ctx.batch, BaseOf(ctx, records, i))
      ensures LastGate(records[i]).available == Capabilities(ctx.batch, records[i].next)
    {
      assert Link(ctx, records, i);
      StageAvailable(ctx, records[i]);
    }
    forall i | 0 <= i < |ROLE_ORDER| - 1
      ensures out.traces[i + 1].preflight.available
           == TraceGates(out.traces[i])[|TraceGates(out.traces[i])| - 1].available
    {
      assert BaseOf(ctx, records, i + 1) == records[i].next;
    }
  }

  lemma StageAvailable(ctx: Context, r: StageRecord)
    requires Ids(ctx.batch) <= r.base.Keys && Ids(ctx.batch) <= r.next.Keys && StageShape(ctx, r)
    ensures r.run.role == r.role
    ensures r.preflight.available == Capabilities(ctx.batch, r.base)
    ensures LastGate(r).available == Capabilities(ctx.batch, r.next)
  {
    hide ExecutedPrefix, Capabilities, Missing, MaximumOutput;
  }

  /** The candidate runs are, stage after stage, the executed candidates in group order and then the judge. */
  lemma CandidateRunsFollowTheGroups(ctx: Context, out: SessionOutput, i: nat)
    requires Outputs(ctx) == Returned(out) && i < |Finished(ctx).records|
    ensures out.candidateRuns == FlatMap(CandidateRunsOf, Finished(ctx).records)
    ensures var r := Finished(ctx).records[i];
      && (!r.course.Run? ==> CandidateRunsOf(r) == [])
      && (r.course.Run? ==>
            && r.role in ctx.registry
            && var group := ctx.registry[r.role];
               && 1 <= |r.course.done| <= |group.candidates|
               && (|r.course.done| == 1 || |r.course.done| == |group.candidates|)
               && |CandidateRunsOf(r)| == |r.course.done| + (if r.course.judge.Some? then 1 else 0)
               && (forall j | 0 <= j < |r.course.done| ::
                     CandidateRunsOf(r)[j].candidateId == group.candidates[j].candidateId
                     && !CandidateRunsOf(r)[j].isJudge)
               && (r.course.judge.Some? ==>
                     && group.adjudicator.Some?
                     && var last := CandidateRunsOf(r)[|r.course.done|];
                        last.isJudge && last.candidateId == group.adjudicator.value.candidateId))
  {
    hide After, Outputs, SoundExecution, PreflightOf, Departure, ErrorsOf, GatesOf, TracesOf, RunsOf, AllConsensus,
      Overall, ExecuteOne;
    FinishedRecords(ctx, out);
    var r := Finished(ctx).records[i];
    assert Link(ctx, Finished(ctx).records, i);
    if r.course.Run? {
      var group := ctx.registry[r.role];
      forall j | 0 <= j < |r.course.done|
        ensures r.course.done[j].candidateRun.candidateId == group.candidates[j].candidateId
        ensures !r.course.done[j].candidateRun.isJudge
      {
        RunNamesCandidate(ctx, r.role, group, r.base, j, r.course.done[j]);
      }
    }
  }

  lemma RunNamesCandidate(ctx: Context, role: Role, group: Group, base: Results, j: nat, x: Execution)
    requires Ids(ctx.batch) <= base.Keys && j < |group.candidates|
    requires ExecuteOne(ctx, role, group, base, j) == Returned(x)
    ensures x.candidate == group.candidates[j]
    ensures x.candidateRun.candidateId == group.candidates[j].candidateId && !x.candidateRun.isJudge
  {}
}
