/** `from_legacy_output`: the output of a session and of the dedicated stages after it become a v2 result. The
    stages themselves are arbitrary; what counts here is which of their answers are kept, how traces are
    numbered and what happens to the facts. */
module V2Projection {
  import opened Prelude
  import CandidateProtocol
  import SessionModel
  import Session
  import SessionSpec
  import SessionTheorems
  import opened Report

  type Annotations = seq<string>

  datatype Proposal = Proposal(proposalId: string, uncertaintyCodes: seq<string>)

  /** A v2 batch item; `asOf` is its capture time or what stands in for it. */
  datatype SourceItem = SourceItem(inputId: string, provenance: Source, asOf: string, satelliteData: bool)

  datatype Trace =
    | SessionStage(stage: Session.StageTrace)
    | External(name: string, sequence: nat, failed: bool)
    | Orchestration(name: string, sequence: nat, after: string)

  function Sequence(t: Trace): nat {
    match t
    case SessionStage(stage) => stage.sequence
    case External(_, sequence, _) => sequence
    case Orchestration(_, sequence, _) => sequence
  }

  datatype RunRole = Keeps(role: SessionModel.Role) | VisualFiltering

  datatype Run = SessionRun(role: RunRole, run: CandidateProtocol.ModelRun) | ExternalRun(name: string)

  datatype Pointing = Pointing(annotations: map<string, Annotations>, trace: Trace, run: Option<Run>)

  datatype BurnedAreas = BurnedAreas(
    annotations: map<string, Annotations>,
    proposals: map<string, seq<Proposal>>,
    trace: Trace,
    run: Option<Run>)

  datatype Spatial = Spatial(proposals: map<string, seq<Proposal>>, traces: seq<Trace>, runs: seq<Run>)

  /** The dedicated stages and the mapping helpers, as arbitrary functions; all but the category may raise. */
  datatype Stages = Stages(
    pointing: Option<Pointing>,
    burnedAreas: Option<BurnedAreas>,
    spatial: Option<(map<string, Annotations>, nat) -> Outcome<Spatial>>,
    legacyAnnotations: (SourceItem, SessionModel.ItemResult) -> Outcome<Annotations>,
    hotspots: SourceItem -> Outcome<seq<Proposal>>,
    fallback: (SourceItem, Annotations) -> Outcome<seq<Proposal>>,
    category: string -> Category)

  datatype ItemResultV2 = ItemResultV2(
    inputId: string,
    legacy: SessionModel.ItemResult,
    annotations: Annotations,
    proposals: seq<Proposal>,
    facts: seq<Fact>)

  datatype OutputV2 = OutputV2(
    status: Session.OverallStatus,
    retryable: bool,
    traces: seq<Trace>,
    runs: seq<Run>,
    items: seq<ItemResultV2>,
    report: seq<Section>)

  // ----- the parts of the result -----

  /** The dictionary of the batch: of several items with one id the last one counts. */
  function Lookup(batch: seq<SourceItem>, id: string): (r: Option<SourceItem>)
    ensures r.Some? ==> r.value in batch && r.value.inputId == id
    ensures r.None? ==> forall b | b in batch :: b.inputId != id
  {
    if batch == [] then None
    else if batch[|batch| - 1].inputId == id then Some(batch[|batch| - 1])
    else Lookup(batch[..|batch| - 1], id)
  }

  predicate InBatch(batch: seq<SourceItem>, items: seq<SessionModel.ItemResult>) {
    forall item | item in items :: Lookup(batch, item.inputId).Some?
  }

  function At<T>(m: map<string, seq<T>>, id: string): seq<T> {
    if id in m then m[id] else []
  }

  function Got<T>(outcome: Outcome<seq<T>>): seq<T> {
    if outcome.Returned? then outcome.value else []
  }

  /** Burned areas first; then what pointing found, and the session's own regions only if it found nothing. */
  function AnnotationsOf(x: Stages, source: SourceItem, item: SessionModel.ItemResult): Annotations {
    var pointed := if x.pointing.Some? then At(x.pointing.value.annotations, source.inputId) else [];
    (if x.burnedAreas.Some? then At(x.burnedAreas.value.annotations, source.inputId) else [])
    + if pointed != [] then pointed else Got(x.legacyAnnotations(source, item))
  }

  /** A satellite feed shows its hotspots; otherwise non-empty burned areas win over the spatial pipeline, which
      wins over the fallback even when it answers with nothing. */
  function ProposalsOf(x: Stages, spatial: Option<Spatial>, source: SourceItem, annotations: Annotations)
    : Outcome<seq<Proposal>>
  {
    var burned := if x.burnedAreas.Some? then At(x.burnedAreas.value.proposals, source.inputId) else [];
    if source.satelliteData then x.hotspots(source)
    else if burned != [] then Returned(burned)
    else if spatial.Some? && source.inputId in spatial.value.proposals then
      Returned(spatial.value.proposals[source.inputId])
    else x.fallback(source, annotations)
  }

  /** One fact per observation, numbered from 1. */
  function FactsOf(x: Stages, source: SourceItem, observations: seq<string>): (facts: seq<Fact>)
    ensures |facts| == |observations|
  {
    seq(|observations|, i requires 0 <= i < |observations| =>
      Fact(FactId(source.inputId, i + 1, observations[i]), source.inputId, x.category(observations[i]), observations[i],
           source.asOf))
  }

  function SourceOf(batch: seq<SourceItem>, item: SessionModel.ItemResult): SourceItem
    requires Lookup(batch, item.inputId).Some?
  {
    Lookup(batch, item.inputId).value
  }

  /** What the spatial pipeline is shown: the annotations by input, a later item over an earlier one. */
  function ByInput(batch: seq<SourceItem>, items: seq<SessionModel.ItemResult>, x: Stages): map<string, Annotations>
    requires InBatch(batch, items)
  {
    if items == [] then map[]
    else
      var last := items[|items| - 1];
      var source := SourceOf(batch, last);
      ByInput(batch, items[..|items| - 1], x)[source.inputId := AnnotationsOf(x, source, last)]
  }

  function ResultOf(batch: seq<SourceItem>, item: SessionModel.ItemResult, x: Stages, spatial: Option<Spatial>)
    : ItemResultV2
    requires Lookup(batch, item.inputId).Some?
  {
    var source := SourceOf(batch, item);
    var annotations := AnnotationsOf(x, source, item);
    ItemResultV2(source.inputId, item, annotations, Got(ProposalsOf(x, spatial, source, annotations)),
                 FactsOf(x, source, item.facts))
  }

  function ResultsOf(batch: seq<SourceItem>, items: seq<SessionModel.ItemResult>, x: Stages, spatial: Option<Spatial>)
    : (r: seq<ItemResultV2>)
    requires InBatch(batch, items)
    ensures |r| == |items|
  {
    seq(|items|, i requires 0 <= i < |items| => ResultOf(batch, items[i], x, spatial))
  }

  function One<T>(value: Option<T>): seq<T> {
    if value.Some? then [value.value] else []
  }

  function Relabelled(run: CandidateProtocol.ModelRun): Run {
    SessionRun(if run.role.FireDetection? then VisualFiltering else Keeps(run.role), run)
  }

  /** The traces before the spatial pipeline. */
  function EarlyTraces(out: Session.SessionOutput, x: Stages): seq<Trace> {
    seq(|out.traces|, i requires 0 <= i < |out.traces| => SessionStage(out.traces[i]))
    + (if x.pointing.Some? then [x.pointing.value.trace] else [])
    + (if x.burnedAreas.Some? then [x.burnedAreas.value.trace] else [])
  }

  /** The answer of the spatial pipeline to the annotations and the number it is handed. */
  function SpatialAnswer(batch: seq<SourceItem>, out: Session.SessionOutput, x: Stages): Outcome<Spatial>
    requires InBatch(batch, out.items) && x.spatial.Some?
  {
    x.spatial.value(ByInput(batch, out.items, x), |EarlyTraces(out, x)| + 1)
  }

  function SpatialOf(batch: seq<SourceItem>, out: Session.SessionOutput, x: Stages): (r: Option<Spatial>)
    requires InBatch(batch, out.items)
    ensures r.Some? <==> x.spatial.Some?
  {
    if x.spatial.None? then None
    else
      match SpatialAnswer(batch, out, x)
      case Returned(spatial) => Some(spatial)
      case Raised(_) => Some(Spatial(map[], [], []))
  }

  /** Nothing raises while the annotations of an item are collected, even if they are then not used. */
  predicate Annotates(batch: seq<SourceItem>, item: SessionModel.ItemResult, x: Stages) {
    Lookup(batch, item.inputId).Some? && x.legacyAnnotations(SourceOf(batch, item), item).Returned?
  }

  predicate Proposes(batch: seq<SourceItem>, item: SessionModel.ItemResult, x: Stages, spatial: Option<Spatial>)
    requires Lookup(batch, item.inputId).Some?
  {
    var source := SourceOf(batch, item);
    ProposalsOf(x, spatial, source, AnnotationsOf(x, source, item)).Returned?
  }

  /** The session can be projected: every item is in the batch and nothing the projection calls raises. */
  predicate Projects(batch: seq<SourceItem>, out: Session.SessionOutput, x: Stages) {
    && (forall item | item in out.items :: Annotates(batch, item, x))
    && InBatch(batch, out.items)
    && (x.spatial.Some? ==> SpatialAnswer(batch, out, x).Returned?)
    && (forall item | item in out.items :: Proposes(batch, item, x, SpatialOf(batch, out, x)))
  }

  predicate HasEvidence(items: seq<ItemResultV2>) {
    exists item | item in items :: item.annotations != [] || item.proposals != [] || item.facts != []
  }

  function FinalTraces(early: seq<Trace>, spatial: Option<Spatial>, evidence: bool): seq<Trace> {
    var traces := early + if spatial.Some? then spatial.value.traces else [];
    var found := if evidence then "evidence_graph" else "explicit_abstention";
    traces + [Orchestration("evidence_fusion", |traces| + 1, found),
              Orchestration("situation_report", |traces| + 2, "report_draft")]
  }

  function RunsOf(out: Session.SessionOutput, x: Stages, spatial: Option<Spatial>): seq<Run> {
    seq(|out.runs|, i requires 0 <= i < |out.runs| => Relabelled(out.runs[i]))
    + (if x.pointing.Some? then One(x.pointing.value.run) else [])
    + (if x.burnedAreas.Some? then One(x.burnedAreas.value.run) else [])
    + (if spatial.Some? then spatial.value.runs else [])
  }

  predicate StageFailed(trace: Trace) {
    trace.External? && trace.failed
  }

  function StatusOf(status: Session.OverallStatus, x: Stages): Session.OverallStatus {
    if status.BatchSucceeded?
       && ((x.pointing.Some? && StageFailed(x.pointing.value.trace))
           || (x.burnedAreas.Some? && StageFailed(x.burnedAreas.value.trace)))
    then Session.PartialFailure
    else status
  }

  function SourcesByInput(batch: seq<SourceItem>): map<string, Source> {
    map b | b in batch ::
      b.inputId := (assert Lookup(batch, b.inputId).Some?; Lookup(batch, b.inputId).value.provenance)
  }

  function ForReport(items: seq<ItemResultV2>): (r: seq<ReportItem>)
    ensures |r| == |items|
  {
    seq(|items|, i requires 0 <= i < |items| =>
      ReportItem(items[i].facts, seq(|items[i].proposals|, j requires 0 <= j < |items[i].proposals| =>
                                   items[i].proposals[j].uncertaintyCodes)))
  }

  function ProjectionOf(batch: seq<SourceItem>, out: Session.SessionOutput, x: Stages): OutputV2
    requires InBatch(batch, out.items)
  {
    var spatial := SpatialOf(batch, out, x);
    var items := ResultsOf(batch, out.items, x, spatial);
    ReportIsKnown(batch, out.items, x, spatial);
    OutputV2(
      StatusOf(out.status, x), out.retryable, FinalTraces(EarlyTraces(out, x), spatial, HasEvidence(items)),
      RunsOf(out, x, spatial), items, ReportOf(SourcesByInput(batch), ForReport(items)))
  }

  /** Every fact of a result comes from an item of the batch, so the report finds its source. */
  lemma ReportIsKnown(batch: seq<SourceItem>, items: seq<SessionModel.ItemResult>, x: Stages, spatial: Option<Spatial>)
    requires InBatch(batch, items)
    ensures Known(SourcesByInput(batch), AllFacts(ForReport(ResultsOf(batch, items, x, spatial))))
  {
    var results := ResultsOf(batch, items, x, spatial);
    var facts := AllFacts(ForReport(results));
    forall f | f in facts ensures f.inputId in SourcesByInput(batch) {
      var i := FactIsFrom(ForReport(results), f);
      assert f in results[i].facts;
      assert f.inputId == SourceOf(batch, items[i]).inputId;
    }
  }

  lemma {:induction false} FactIsFrom(items: seq<ReportItem>, f: Fact) returns (i: nat)
    requires f in AllFacts(items)
    ensures i < |items| && f in items[i].facts
  {
    var n := |items| - 1;
    if f in items[n].facts {
      i := n;
    } else {
      i := FactIsFrom(items[..n], f);
    }
  }

  type Prepared = (SessionModel.ItemResult, SourceItem, Annotations)

  ghost predicate IsPrepared(batch: seq<SourceItem>, items: seq<SessionModel.ItemResult>, x: Stages,
                             prepared: seq<Prepared>)
  {
    && InBatch(batch, items)
    && |prepared| == |items|
    && forall j | 0 <= j < |items| ::
         && Annotates(batch, items[j], x)
         && var source := SourceOf(batch, items[j]);
            prepared[j] == (items[j], source, AnnotationsOf(x, source, items[j]))
  }

  /** The first loop: each item with its source and its annotations, and the annotations by input. */
  method Prepare(batch: seq<SourceItem>, items: seq<SessionModel.ItemResult>, x: Stages)
    returns (r: Option<(seq<Prepared>, map<string, Annotations>)>)
    ensures r.Some? <==> forall item | item in items :: Annotates(batch, item, x)
    ensures r.Some? ==> IsPrepared(batch, items, x, r.value.0) && r.value.1 == ByInput(batch, items, x)
  {
    hide AnnotationsOf;
    var prepared: seq<Prepared> := [];
    var byInput: map<string, Annotations> := map[];
    for i := 0 to |items|
      invariant IsPrepared(batch, items[..i], x, prepared)
      invariant byInput == ByInput(batch, items[..i], x)
    {
      var item := items[i];
      var source := Lookup(batch, item.inputId);
      if source.None? || x.legacyAnnotations(source.value, item).Raised? {
        assert item in items && !Annotates(batch, item, x);
        return None;
      }
      assert items[..i + 1] == items[..i] + [item];
      assert items[..i + 1][..i] == items[..i];
      var annotations := AnnotationsOf(x, source.value, item);
      prepared := prepared + [(item, source.value, annotations)];
      byInput := byInput[source.value.inputId := annotations];
    }
    assert items[..|items|] == items;
    r := Some((prepared, byInput));
  }

  /** The second loop: the result of each item. */
  method BuildItems(batch: seq<SourceItem>, legacy: seq<SessionModel.ItemResult>, x: Stages, spatial: Option<Spatial>,
                    prepared: seq<Prepared>)
    returns (r: Option<seq<ItemResultV2>>)
    requires IsPrepared(batch, legacy, x, prepared)
    ensures r.Some? <==> forall item | item in legacy :: Proposes(batch, item, x, spatial)
    ensures r.Some? ==> r.value == ResultsOf(batch, legacy, x, spatial)
  {
    hide AnnotationsOf, ProposalsOf, FactsOf;
    var items: seq<ItemResultV2> := [];
    for i := 0 to |prepared|
      invariant |items| == i
      invariant forall j | 0 <= j < i :: Proposes(batch, legacy[j], x, spatial)
      invariant forall j | 0 <= j < i :: items[j] == ResultOf(batch, legacy[j], x, spatial)
    {
      var (item, source, annotations) := prepared[i];
      assert item == legacy[i] && item in legacy;
      var proposals := ProposalsOf(x, spatial, source, annotations);
      if proposals.Raised? {
        return None;
      }
      items := items + [ItemResultV2(source.inputId, item, annotations, proposals.value,
                                     FactsOf(x, source, item.facts))];
    }
    r := Some(items);
  }

  /** `from_legacy_output`: it raises exactly when an item of the session is not in the batch, or something it calls
      raises; the report never does. */
  method FromLegacyOutput(batch: seq<SourceItem>, out: Session.SessionOutput, x: Stages) returns (r: Outcome<OutputV2>)
    ensures r.Returned? <==> Projects(batch, out, x)
    ensures r.Returned? ==> r.value == ProjectionOf(batch, out, x)
  {
    hide FinalTraces, RunsOf, EarlyTraces, HasEvidence, ReportOf, StatusOf, ForReport, AllFacts, Known, SourcesByInput,
      InBatch, ResultsOf, IsPrepared, ByInput, Annotates, Proposes;
    var ready := Prepare(batch, out.items, x);
    if ready.None? {
      return Raised(OtherException);
    }
    assert InBatch(batch, out.items) by { PreparedInBatch(batch, out.items, x, ready.value.0); }
    var early := EarlyTraces(out, x);
    var spatial: Option<Spatial> := None;
    if x.spatial.Some? {
      var answer := x.spatial.value(ready.value.1, |early| + 1);
      if answer.Raised? {
        return Raised(OtherException);
      }
      spatial := Some(answer.value);
    }
    assert spatial == SpatialOf(batch, out, x);
    var items := BuildItems(batch, out.items, x, spatial, ready.value.0);
    if items.None? {
      return Raised(OtherException);
    }
    ReportIsKnown(batch, out.items, x, spatial);
    var report := BuildReport(SourcesByInput(batch), ForReport(items.value));
    r := Returned(OutputV2(StatusOf(out.status, x), out.retryable,
                           FinalTraces(early, spatial, HasEvidence(items.value)), RunsOf(out, x, spatial), items.value,
                           report.value));
  }

  lemma PreparedInBatch(batch: seq<SourceItem>, items: seq<SessionModel.ItemResult>, x: Stages, prepared: seq<Prepared>)
    requires IsPrepared(batch, items, x, prepared)
    ensures InBatch(batch, items)
  {}

  // ----- numbering -----

  /** The sequence numbers run from `start` without a gap or a repeat. */
  ghost predicate Numbered(traces: seq<Trace>, start: nat) {
    forall i | 0 <= i < |traces| :: Sequence(traces[i]) == start + i
  }

  /** The projection numbers its own two traces right, so the result is numbered 1..N exactly when what it was
      given is: the early traces from 1, the spatial ones from the number they were handed. */
  lemma NumberingIsKept(early: seq<Trace>, spatial: Option<Spatial>, evidence: bool)
    ensures Numbered(FinalTraces(early, spatial, evidence), 1) <==>
      Numbered(early, 1) && (spatial.Some? ==> Numbered(spatial.value.traces, |early| + 1))
    ensures |FinalTraces(early, spatial, evidence)|
         == |early| + (if spatial.Some? then |spatial.value.traces| else 0) + 2
  {
    var all := FinalTraces(early, spatial, evidence);
    assert forall i | 0 <= i < |early| :: all[i] == early[i];
    if spatial.Some? {
      assert forall i | 0 <= i < |spatial.value.traces| :: all[|early| + i] == spatial.value.traces[i];
    }
  }

  /** `handle_job` hands pointing the number after the session's traces and the burned areas the one after that. */
  ghost predicate NumbersUsed(batch: seq<SourceItem>, out: Session.SessionOutput, x: Stages)
    requires InBatch(batch, out.items)
  {
    && x.pointing.Some? && Sequence(x.pointing.value.trace) == |out.traces| + 1
    && x.burnedAreas.Some? && Sequence(x.burnedAreas.value.trace) == |out.traces| + 2
    && (x.spatial.Some? ==> Numbered(SpatialOf(batch, out, x).value.traces, |EarlyTraces(out, x)| + 1))
  }

  /** From the session's enumeration to the report: when each dedicated stage uses the number it is handed, the
      traces of a v2 result are numbered 1..N, and the spatial pipeline is handed 7. */
  lemma JobNumbering(ctx: SessionSpec.Context, batch: seq<SourceItem>, out: Session.SessionOutput, x: Stages)
    requires Session.Outputs(ctx) == Returned(out) && InBatch(batch, out.items) && NumbersUsed(batch, out, x)
    ensures var traces := ProjectionOf(batch, out, x).traces;
      && Numbered(traces, 1)
      && |traces| == 8 + (if x.spatial.Some? then |SpatialOf(batch, out, x).value.traces| else 0)
    ensures |EarlyTraces(out, x)| + 1 == 7
  {
    hide Session.Outputs, ResultsOf, ReportOf, RunsOf, FinalTraces, HasEvidence, SpatialOf;
    SessionTheorems.TraceConservation(ctx, out);
    var early := EarlyTraces(out, x);
    assert Numbered(early, 1);
    var spatial := SpatialOf(batch, out, x);
    NumberingIsKept(early, spatial, HasEvidence(ResultsOf(batch, out.items, x, spatial)));
  }

  /** Without the pointing trace the number handed to the burned areas leaves a gap. */
  lemma NumberingNeedsPointing(ctx: SessionSpec.Context, batch: seq<SourceItem>, out: Session.SessionOutput,
                               x: Stages)
    requires Session.Outputs(ctx) == Returned(out) && InBatch(batch, out.items)
    requires x.pointing.None? && x.burnedAreas.Some? && Sequence(x.burnedAreas.value.trace) == |out.traces| + 2
    ensures !Numbered(ProjectionOf(batch, out, x).traces, 1)
  {
    hide Session.Outputs, ResultsOf, ReportOf, RunsOf, FinalTraces, HasEvidence, SpatialOf;
    var early := EarlyTraces(out, x);
    assert early[|out.traces|] == x.burnedAreas.value.trace;
    var spatial := SpatialOf(batch, out, x);
    NumberingIsKept(early, spatial, HasEvidence(ResultsOf(batch, out.items, x, spatial)));
  }

  // ----- the status -----

  /** A result has succeeded exactly when the session has and neither dedicated stage failed; a session that did
      not succeed keeps its status, and no dedicated stage changes whether a retry makes sense. */
  lemma StatusIsNeverImproved(batch: seq<SourceItem>, out: Session.SessionOutput, x: Stages)
    requires InBatch(batch, out.items)
    ensures var v2 := ProjectionOf(batch, out, x);
      && (v2.status.BatchSucceeded? <==>
            && out.status.BatchSucceeded?
            && (x.pointing.Some? ==> !StageFailed(x.pointing.value.trace))
            && (x.burnedAreas.Some? ==> !StageFailed(x.burnedAreas.value.trace)))
      && (!out.status.BatchSucceeded? ==> v2.status == out.status)
      && (out.status.BatchSucceeded? && !v2.status.BatchSucceeded? ==> v2.status.PartialFailure?)
      && v2.retryable == out.retryable
  {
    hide ResultsOf, ReportOf, RunsOf, FinalTraces, HasEvidence, SpatialOf, InBatch;
  }

  /** End to end: a v2 result has succeeded exactly when every stage of the session was not applicable, or took a
      candidate and ended in a pass or an abstention, and neither dedicated stage failed. */
  lemma SucceededEndToEnd(ctx: SessionSpec.Context, batch: seq<SourceItem>, out: Session.SessionOutput, x: Stages)
    requires Session.Outputs(ctx) == Returned(out) && InBatch(batch, out.items)
    requires SessionTheorems.DistinctCandidates(ctx) && SessionTheorems.ChoosesAmongShown(ctx)
    ensures var v2, records := ProjectionOf(batch, out, x), Session.Finished(ctx).records;
      && (v2.status.BatchSucceeded? <==>
            && (forall i | 0 <= i < |records| :: SessionTheorems.Clean(records[i]))
            && (x.pointing.Some? ==> !StageFailed(x.pointing.value.trace))
            && (x.burnedAreas.Some? ==> !StageFailed(x.burnedAreas.value.trace)))
      && !v2.status.BatchFailed?
  {
    hide Session.Outputs, Session.Finished, SessionTheorems.Clean, ProjectionOf;
    SessionTheorems.SucceededMeansClean(ctx, out);
    StatusIsNeverImproved(batch, out, x);
  }

  // ----- facts -----

  lemma {:induction false} FactPosition(items: seq<ReportItem>, p: nat) returns (i: nat, k: nat)
    requires p < |AllFacts(items)|
    ensures i < |items| && k < |items[i].facts| && AllFacts(items)[p] == items[i].facts[k]
    ensures p == |AllFacts(items[..i])| + k
  {
    var n := |items| - 1;
    if p < |AllFacts(items[..n])| {
      i, k := FactPosition(items[..n], p);
      assert items[..n][..i] == items[..i];
    } else {
      i, k := n, p - |AllFacts(items[..n])|;
    }
  }

  ghost predicate DistinctItems(items: seq<SessionModel.ItemResult>) {
    forall i, j | 0 <= i < j < |items| :: items[i].inputId != items[j].inputId
  }

  /** Items with distinct ids give facts with distinct ids, so with the report's conservation every fact id is in
      the content sections exactly once. */
  lemma FactIdsAreDistinct(batch: seq<SourceItem>, out: Session.SessionOutput, x: Stages, p: nat, q: nat)
    requires InBatch(batch, out.items) && DistinctItems(out.items)
    requires var facts := AllFacts(ForReport(ProjectionOf(batch, out, x).items));
      p < |facts| && q < |facts| && p != q
    ensures var facts := AllFacts(ForReport(ProjectionOf(batch, out, x).items));
      facts[p].factId != facts[q].factId
  {
    hide ReportOf, RunsOf, FinalTraces, HasEvidence, SpatialOf, AllFacts, ProposalsOf, AnnotationsOf, EarlyTraces;
    var items := ForReport(ProjectionOf(batch, out, x).items);
    var i, k := FactPosition(items, p);
    var j, l := FactPosition(items, q);
    assert AllFacts(items)[p].factId == FactId(out.items[i].inputId, k + 1, out.items[i].facts[k]);
    assert AllFacts(items)[q].factId == FactId(out.items[j].inputId, l + 1, out.items[j].facts[l]);
  }

  /** The v2 batch has an item for every item of the session. */
  ghost predicate Covers(batch: seq<SourceItem>, items: seq<SessionModel.BatchItem>) {
    forall i | 0 <= i < |items| :: Lookup(batch, items[i].inputId).Some?
  }

  /** A session over the same ids always projects: its output keeps the ids of its batch. */
  lemma SessionProjects(ctx: SessionSpec.Context, batch: seq<SourceItem>, out: Session.SessionOutput)
    requires Session.Outputs(ctx) == Returned(out) && Covers(batch, ctx.batch)
    ensures InBatch(batch, out.items)
    ensures (forall i, j | 0 <= i < j < |ctx.batch| :: ctx.batch[i].inputId != ctx.batch[j].inputId) ==>
      DistinctItems(out.items)
  {
    hide Session.Outputs, Lookup;
    SessionTheorems.ItemsKeepTheirIdentity(ctx, out);
    forall item | item in out.items ensures Lookup(batch, item.inputId).Some? {
      var i :| 0 <= i < |out.items| && out.items[i] == item;
      assert Lookup(batch, ctx.batch[i].inputId).Some?;
    }
  }

  /** End to end: whatever the models, the judge and the dedicated stages answer for items with distinct ids, every
      fact of the result is in the content sections of its report exactly once. */
  lemma EveryFactIsReportedOnce(ctx: SessionSpec.Context, batch: seq<SourceItem>, out: Session.SessionOutput, x: Stages,
                                p: nat)
    requires Session.Outputs(ctx) == Returned(out) && Covers(batch, ctx.batch)
    requires forall i, j | 0 <= i < j < |ctx.batch| :: ctx.batch[i].inputId != ctx.batch[j].inputId
    requires InBatch(batch, out.items) && p < |AllFacts(ForReport(ProjectionOf(batch, out, x).items))|
    ensures var v2 := ProjectionOf(batch, out, x);
      multiset(ContentIds(v2.report))[AllFacts(ForReport(v2.items))[p].factId] == 1
  {
    hide Session.Outputs, ProjectionOf, AllFacts, ReportOf, ContentIds, InBatch, ForReport, ResultsOf;
    SessionProjects(ctx, batch, out);
    var v2 := ProjectionOf(batch, out, x);
    var facts := AllFacts(ForReport(v2.items));
    forall i, j | 0 <= i < j < |facts| ensures facts[i].factId != facts[j].factId {
      FactIdsAreDistinct(batch, out, x, i, j);
    }
    ReportOfProjection(batch, out, x);
    EachOnce(SourcesByInput(batch), ForReport(v2.items), p);
  }

  lemma ReportOfProjection(batch: seq<SourceItem>, out: Session.SessionOutput, x: Stages)
    requires InBatch(batch, out.items)
    ensures var v2 := ProjectionOf(batch, out, x);
      && Known(SourcesByInput(batch), AllFacts(ForReport(v2.items)))
      && v2.report == ReportOf(SourcesByInput(batch), ForReport(v2.items))
  {
    hide ReportOf, RunsOf, FinalTraces, HasEvidence, SpatialOf, AllFacts, ResultsOf, ForReport, InBatch, Known;
    ReportIsKnown(batch, out.items, x, SpatialOf(batch, out, x));
  }

  lemma ItemMeaning(batch: seq<SourceItem>, out: Session.SessionOutput, x: Stages, i: nat)
    requires InBatch(batch, out.items) && i < |out.items|
    ensures var v2 := ProjectionOf(batch, out, x);
      && |v2.items| == |out.items|
      && var item := v2.items[i];
         && item.inputId == out.items[i].inputId && item.legacy == out.items[i]
         && |item.facts| == |out.items[i].facts|
         && (forall k | 0 <= k < |item.facts| ::
               && item.facts[k].inputId == item.inputId && item.facts[k].summary == out.items[i].facts[k]
               && item.facts[k].factId == FactId(item.inputId, k + 1, out.items[i].facts[k]))
  {
    hide ReportOf, RunsOf, FinalTraces, HasEvidence, SpatialOf, ProposalsOf, AnnotationsOf, EarlyTraces;
  }

  /** The items of a v2 result are the session's batch, in order, whatever the models answer: same ids, and one fact
      per observation of that item's session result. */
  lemma ItemsFollowTheBatch(ctx: SessionSpec.Context, batch: seq<SourceItem>, out: Session.SessionOutput, x: Stages,
                            i: nat)
    requires Session.Outputs(ctx) == Returned(out) && InBatch(batch, out.items) && i < |ctx.batch|
    ensures var items := ProjectionOf(batch, out, x).items;
      && |items| == |ctx.batch|
      && items[i].inputId == ctx.batch[i].inputId
      && items[i].legacy == out.items[i]
      && (forall k | 0 <= k < |items[i].facts| ::
            && k < |out.items[i].facts| && items[i].facts[k].summary == out.items[i].facts[k]
            && items[i].facts[k].factId == FactId(ctx.batch[i].inputId, k + 1, out.items[i].facts[k]))
      && |items[i].facts| == |out.items[i].facts|
  {
    hide Session.Outputs, ProjectionOf, InBatch;
    SessionTheorems.ItemsKeepTheirIdentity(ctx, out);
    ItemMeaning(batch, out, x, i);
  }
}
