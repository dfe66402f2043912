/** The session as a whole: initial results, the fold over the roles, and the output derived from it. */
module Session {
  import opened Prelude
  import opened SessionModel
  import opened StageGates
  import opened CandidateProtocol
  import opened SessionSpec
  import TemporalSampling

  const FALLBACK_LIMIT := 8

  function VisualSources(item: BatchItem): seq<string> {
    if item.frames == [] && item.hasWorkingFile then [item.inputId] else item.frames
  }

  function InitialSelection(sources: seq<string>): seq<Selection> {
    var fallback := TemporalSampling.Sample(sources, FALLBACK_LIMIT);
    seq(|sources|, i requires 0 <= i < |sources| =>
      Selection(
        sources[i],
        sources[i] in fallback,
        if |sources| == 1 then SingleImage
        else if sources[i] in fallback then DetectorFallback
        else CapacityLimit))
  }

  function InitialResult(item: BatchItem): ItemResult {
    ItemResult(item.inputId, item.location, [], [], InitialSelection(VisualSources(item)), [], [], [])
  }

  /** The item a dictionary comprehension over the batch keeps for an id: the last one. */
  function LastItem(batch: Batch, id: string): BatchItem
    requires id in Ids(batch)
  {
    if batch[|batch| - 1].inputId == id then batch[|batch| - 1]
    else
      assert id in Ids(batch[..|batch| - 1]) by {
        var item :| item in batch && item.inputId == id;
        assert item in batch[..|batch| - 1];
      }
      LastItem(batch[..|batch| - 1], id)
  }

  function InitialResults(batch: Batch): Results {
    map id | id in Ids(batch) :: InitialResult(LastItem(batch, id))
  }

  // ----- the fold -----

  datatype Progress = Progress(
    records: seq<StageRecord>,
    results: Results,
    events: seq<AdapterEvent>,
    raised: Option<Raise>)

  function Advance(p: Progress, step: StageStep): Progress {
    match step
    case Completed(record, events) => Progress(p.records + [record], record.next, p.events + events, None)
    case Aborted(e, events) => p.(events := p.events + events, raised := Some(e))
  }

  /** The session after the first k roles; an exception freezes it. */
  function After(ctx: Context, k: nat): (p: Progress)
    requires k <= |ROLE_ORDER|
    ensures p.results.Keys == Ids(ctx.batch)
  {
    if k == 0 then Progress([], InitialResults(ctx.batch), [], None)
    else
      var p := After(ctx, k - 1);
      if p.raised.Some? then p
      else
        StageKeys(ctx, ROLE_ORDER[k - 1], p.results);
        Advance(p, RunStage(ctx, ROLE_ORDER[k - 1], p.results))
  }

  function Finished(ctx: Context): Progress {
    After(ctx, |ROLE_ORDER|)
  }

  // ----- what a finished session reports -----

  datatype StageTrace = StageTrace(
    role: Role,
    sequence: nat,
    status: RunStatus,
    retryable: bool,
    preflight: GateRecord,
    postflight: Option<GateRecord>,
    attempts: seq<Attempt>)

  datatype ConsensusResult = ConsensusResult(
    role: Role,
    strategy: Strategy,
    decision: string,
    candidateIds: seq<string>,
    selected: Option<string>,
    adjudicator: Option<string>,
    reasonCodes: seq<string>,
    successful: nat,
    required: int,
    downstreamAllowed: bool)

  datatype OverallStatus = BatchSucceeded | PartialFailure | BatchFailed

  datatype SessionOutput = SessionOutput(
    status: OverallStatus,
    retryable: bool,
    runs: seq<ModelRun>,
    items: seq<ItemResult>,
    errors: seq<ErrorEntry>,
    gates: seq<GateRecord>,
    traces: seq<StageTrace>,
    candidateRuns: seq<CandidateRun>,
    consensus: seq<ConsensusResult>)

  function Gates(record: StageRecord): seq<GateRecord> {
    [record.preflight] + if record.postflight.Some? then [record.postflight.value] else []
  }

  function LastGate(record: StageRecord): GateRecord {
    if record.postflight.Some? then record.postflight.value else record.preflight
  }

  function TraceOf(record: StageRecord, sequence: nat): StageTrace {
    StageTrace(record.role, sequence, record.status, LastGate(record).decision == FailedRetryable,
               record.preflight, record.postflight, record.attempts)
  }

  function CandidateRunsOf(record: StageRecord): seq<CandidateRun> {
    match record.course
    case Run(done, judge, _, _) =>
      seq(|done|, i requires 0 <= i < |done| => done[i].candidateRun)
      + if judge.Some? then [judge.value.candidateRun] else []
    case _ => []
  }

  function ConsensusOf(group: Group, record: StageRecord): seq<ConsensusResult> {
    match record.course
    case Run(done, judge, evaluation, _) =>
      [ConsensusResult(record.role, group.strategy, evaluation.decision,
                       seq(|done|, i requires 0 <= i < |done| => done[i].candidate.candidateId),
                       evaluation.selected,
                       if judge.Some? then Some(judge.value.candidateRun.candidateId) else None,
                       evaluation.reasonCodes, |Successful(done)|, group.minimumSuccessful,
                       evaluation.downstreamAllowed)]
    case _ => []
  }

  /** The parts of all elements, one after the other. */
  function FlatMap<A, B>(f: A -> seq<B>, s: seq<A>): seq<B> {
    if s == [] then [] else FlatMap(f, s[..|s| - 1]) + f(s[|s| - 1])
  }

  function RunsOf(records: seq<StageRecord>): seq<ModelRun> {
    seq(|records|, i requires 0 <= i < |records| => records[i].run)
  }

  function ErrorsIn(record: StageRecord): seq<ErrorEntry> {
    record.errors
  }

  function ErrorsOf(records: seq<StageRecord>): seq<ErrorEntry> {
    FlatMap(ErrorsIn, records)
  }

  function GatesOf(records: seq<StageRecord>): seq<GateRecord> {
    FlatMap(Gates, records)
  }

  function TracesOf(records: seq<StageRecord>): seq<StageTrace> {
    seq(|records|, i requires 0 <= i < |records| => TraceOf(records[i], i + 1))
  }

  function AllCandidateRuns(records: seq<StageRecord>): seq<CandidateRun> {
    FlatMap(CandidateRunsOf, records)
  }

  function ConsensusPart(registry: map<Role, Group>, record: StageRecord): seq<ConsensusResult> {
    if record.role in registry then ConsensusOf(registry[record.role], record) else []
  }

  function AllConsensus(registry: map<Role, Group>, records: seq<StageRecord>): seq<ConsensusResult> {
    FlatMap(record => ConsensusPart(registry, record), records)
  }

  predicate Incomplete(runs: seq<ModelRun>, gates: seq<GateRecord>) {
    || (exists run | run in runs :: run.status == Skipped && run.errorCode.Some? && run.errorCode.value != "")
    || (exists gate | gate in gates :: Blocking(gate.decision))
  }

  function Overall(runs: seq<ModelRun>, gates: seq<GateRecord>): OverallStatus {
    var failed := exists run | run in runs :: run.status == Failed;
    var succeeded := exists run | run in runs :: run.status == Succeeded;
    if !failed && !Incomplete(runs, gates) then BatchSucceeded
    else if succeeded || Incomplete(runs, gates) then PartialFailure
    else BatchFailed
  }

  function Items(batch: Batch, results: Results): seq<ItemResult>
    requires Ids(batch) <= results.Keys
  {
    seq(|batch|, i requires 0 <= i < |batch| => (assert batch[i].inputId in Ids(batch); results[batch[i].inputId]))
  }

  function OutputOf(ctx: Context, p: Progress): SessionOutput
    requires Ids(ctx.batch) <= p.results.Keys
  {
    var runs := RunsOf(p.records);
    var gates := GatesOf(p.records);
    SessionOutput(
      Overall(runs, gates),
      exists gate | gate in gates :: gate.decision == FailedRetryable,
      runs, Items(ctx.batch, p.results), ErrorsOf(p.records), gates, TracesOf(p.records),
      AllCandidateRuns(p.records), AllConsensus(ctx.registry, p.records))
  }

  /** `_run_with_trace` as a function: the output of a session nothing interrupted. */
  function Outputs(ctx: Context): Outcome<SessionOutput> {
    var p := Finished(ctx);
    if p.raised.Some? then Raised(p.raised.value) else Returned(OutputOf(ctx, p))
  }

  // ----- facts about lists of parts -----

  lemma FlatMapAppend<A, B>(f: A -> seq<B>, s: seq<A>, x: A)
    ensures FlatMap(f, s + [x]) == FlatMap(f, s) + f(x)
  {
    assert (s + [x])[..|s|] == s;
  }

  lemma {:induction false} FlatMapMember<A, B>(f: A -> seq<B>, s: seq<A>, y: B)
    ensures y in FlatMap(f, s) <==> exists i :: 0 <= i < |s| && y in f(s[i])
  {
    if s != [] {
      var n := |s| - 1;
      FlatMapMember(f, s[..n], y);
      if y in FlatMap(f, s[..n]) {
        var i :| 0 <= i < n && y in f(s[..n][i]);
        assert y in f(s[i]);
      }
      if i :| 0 <= i < |s| && y in f(s[i]) {
        if i < n { assert y in f(s[..n][i]); }
      }
    }
  }
}
