/** A v2 result told by its batch, the session and the answers of the dedicated stages: which proposals, annotations and
    facts an item gets, when the projection raises, and what traces, runs and report are made of. */
module V2Laws {
  import opened Prelude
  import CandidateProtocol
  import SessionModel
  import Session
  import SessionSpec
  import opened Report
  import ReportLaws
  import opened V2Projection

  // ----- the source of an item -----

  /** The item of the batch that counts for an id: the last one that has it. */
  ghost predicate IsSource(batch: seq<SourceItem>, id: string, source: SourceItem) {
    exists i :: 0 <= i < |batch| && batch[i] == source && HasLast(batch, id, i)
  }

  predicate HasLast(batch: seq<SourceItem>, id: string, i: int) {
    0 <= i < |batch| && batch[i].inputId == id && forall j | i < j < |batch| :: batch[j].inputId != id
  }

  lemma {:induction false} LookupHasLast(batch: seq<SourceItem>, id: string) returns (i: nat)
    requires Lookup(batch, id).Some?
    ensures HasLast(batch, id, i) && Lookup(batch, id) == Some(batch[i])
  {
    var n := |batch| - 1;
    if batch[n].inputId == id {
      i := n;
    } else {
      i := LookupHasLast(batch[..n], id);
    }
  }

  lemma OneHasLast(batch: seq<SourceItem>, id: string, i: int, j: int)
    requires HasLast(batch, id, i) && HasLast(batch, id, j)
    ensures i == j
  {}

  lemma SourceFound(batch: seq<SourceItem>, id: string)
    ensures forall source :: IsSource(batch, id, source) <==> Lookup(batch, id) == Some(source)
  {
    if Lookup(batch, id).Some? {
      var i := LookupHasLast(batch, id);
      forall j | HasLast(batch, id, j) ensures j == i { OneHasLast(batch, id, i, j); }
      hide Lookup;
    }
  }

  // ----- which answers an item gets -----

  predicate HasBurnedProposals(x: Stages, id: string) {
    x.burnedAreas.Some? && id in x.burnedAreas.value.proposals && x.burnedAreas.value.proposals[id] != []
  }

  predicate HasSpatialEntry(spatial: Option<Spatial>, id: string) {
    spatial.Some? && id in spatial.value.proposals
  }

  /** The proposals of an item: the hotspots of a satellite feed; else the burned areas found for it if there are any;
      else what the spatial pipeline has for it, even nothing; else the fallback on its annotations. */
  predicate AreItsProposals(x: Stages, spatial: Option<Spatial>, source: SourceItem, annotations: Annotations,
                            proposals: seq<Proposal>)
  {
    var id := source.inputId;
    && (source.satelliteData ==> x.hotspots(source) == Returned(proposals))
    && (!source.satelliteData && HasBurnedProposals(x, id) ==> proposals == x.burnedAreas.value.proposals[id])
    && (!source.satelliteData && !HasBurnedProposals(x, id) && HasSpatialEntry(spatial, id) ==>
          proposals == spatial.value.proposals[id])
    && (!source.satelliteData && !HasBurnedProposals(x, id) && !HasSpatialEntry(spatial, id) ==>
          x.fallback(source, annotations) == Returned(proposals))
  }

  predicate HasPointed(x: Stages, id: string) {
    x.pointing.Some? && id in x.pointing.value.annotations && x.pointing.value.annotations[id] != []
  }

  /** The annotations of an item: those of the burned areas, then those of pointing if it found any, and otherwise
      those made of the session's own regions. */
  predicate AreItsAnnotations(x: Stages, source: SourceItem, item: SessionModel.ItemResult, annotations: Annotations) {
    var id := source.inputId;
    var burned := if x.burnedAreas.Some? && id in x.burnedAreas.value.annotations
                  then x.burnedAreas.value.annotations[id] else [];
    && x.legacyAnnotations(source, item).Returned?
    && annotations == burned + if HasPointed(x, id) then x.pointing.value.annotations[id]
                               else x.legacyAnnotations(source, item).value
  }

  lemma ItsProposals(x: Stages, spatial: Option<Spatial>, source: SourceItem, annotations: Annotations)
    ensures var r := ProposalsOf(x, spatial, source, annotations);
      && (r.Returned? ==> AreItsProposals(x, spatial, source, annotations, r.value))
      && (r.Raised? <==>
            || (source.satelliteData && x.hotspots(source).Raised?)
            || (!source.satelliteData && !HasBurnedProposals(x, source.inputId)
                && !HasSpatialEntry(spatial, source.inputId) && x.fallback(source, annotations).Raised?))
  {}

  lemma ItsAnnotations(x: Stages, source: SourceItem, item: SessionModel.ItemResult)
    requires x.legacyAnnotations(source, item).Returned?
    ensures AreItsAnnotations(x, source, item, AnnotationsOf(x, source, item))
  {}

  /** The k-th fact of an item is its k-th observation, numbered from 1, in the category of that observation, and of the
      time its source was captured. */
  predicate IsItsFact(x: Stages, source: SourceItem, observation: string, k: nat, fact: Fact) {
    && fact.factId == FactId(source.inputId, k + 1, observation) && fact.inputId == source.inputId
    && fact.category == x.category(observation) && fact.summary == observation && fact.asOf == source.asOf
  }

  /** The i-th item of a result, from the i-th item of the session and the item of the batch with its id. */
  ghost predicate ItemIs(batch: seq<SourceItem>, x: Stages, spatial: Option<Spatial>, item: SessionModel.ItemResult,
                         r: ItemResultV2)
  {
    && r.inputId == item.inputId && r.legacy == item
    && |r.facts| == |item.facts|
    && exists source :: IsSource(batch, item.inputId, source) && MadeFrom(x, spatial, source, item, r)
  }

  ghost predicate MadeFrom(x: Stages, spatial: Option<Spatial>, source: SourceItem, item: SessionModel.ItemResult,
                           r: ItemResultV2)
  {
    && AreItsAnnotations(x, source, item, r.annotations)
    && AreItsProposals(x, spatial, source, r.annotations, r.proposals)
    && forall k | 0 <= k < |r.facts| :: k < |item.facts| && IsItsFact(x, source, item.facts[k], k, r.facts[k])
  }

  /** Each item of a projected session gets the answers that are due to it. */
  lemma ItemsGetTheirAnswers(batch: seq<SourceItem>, out: Session.SessionOutput, x: Stages, i: nat)
    requires Projects(batch, out, x) && i < |out.items|
    ensures |ProjectionOf(batch, out, x).items| == |out.items|
    ensures ItemIs(batch, x, SpatialOf(batch, out, x), out.items[i], ProjectionOf(batch, out, x).items[i])
  {
    hide ReportOf, RunsOf, FinalTraces, HasEvidence, EarlyTraces, SpatialOf, ByInput, AreItsProposals,
      AreItsAnnotations, ProposalsOf, AnnotationsOf;
    var item, spatial := out.items[i], SpatialOf(batch, out, x);
    assert item in out.items;
    assert Annotates(batch, item, x) && Proposes(batch, item, x, spatial);
    var source := SourceOf(batch, item);
    SourceFound(batch, item.inputId);
    ItsAnnotations(x, source, item);
    ItsProposals(x, spatial, source, AnnotationsOf(x, source, item));
    hide Lookup, IsSource;
    assert MadeFrom(x, spatial, source, item, ProjectionOf(batch, out, x).items[i]);
  }

  // ----- the spatial pipeline -----

  function Count<T>(value: Option<T>): nat {
    if value.Some? then 1 else 0
  }

  predicate LastOf(items: seq<SessionModel.ItemResult>, i: int) {
    0 <= i < |items| && forall j | i < j < |items| :: items[j].inputId != items[i].inputId
  }

  /** What the spatial pipeline is shown: under each id of the session the annotations of its last item. */
  ghost predicate ShowsAnnotations(batch: seq<SourceItem>, items: seq<SessionModel.ItemResult>, x: Stages,
                                   shown: map<string, Annotations>)
  {
    && (forall id :: id in shown <==> exists item :: item in items && item.inputId == id)
    && forall i | LastOf(items, i) :: ShownAt(batch, x, items[i], shown)
  }

  ghost predicate ShownAt(batch: seq<SourceItem>, x: Stages, item: SessionModel.ItemResult,
                          shown: map<string, Annotations>)
  {
    && item.inputId in shown
    && exists source :: IsSource(batch, item.inputId, source)
                        && AreItsAnnotations(x, source, item, shown[item.inputId])
  }

  lemma {:induction false} ByInputShows(batch: seq<SourceItem>, items: seq<SessionModel.ItemResult>, x: Stages)
    requires InBatch(batch, items) && forall item | item in items :: Annotates(batch, item, x)
    ensures ShowsAnnotations(batch, items, x, ByInput(batch, items, x))
  {
    hide AnnotationsOf, AreItsAnnotations, IsSource, Lookup;
    if items != [] {
      var n := |items| - 1;
      var last := items[n];
      ByInputShows(batch, items[..n], x);
      assert items == items[..n] + [last];
      assert last in items;
      assert Annotates(batch, last, x);
      SourceFound(batch, last.inputId);
      ItsAnnotations(x, SourceOf(batch, last), last);
      var before, shown := ByInput(batch, items[..n], x), ByInput(batch, items, x);
      assert ShownAt(batch, x, last, shown);
      forall i | LastOf(items, i) ensures ShownAt(batch, x, items[i], shown) {
        if i < n {
          assert LastOf(items[..n], i);
          assert ShownAt(batch, x, items[i], before);
        }
      }
      hide ShownAt, LastOf;
      forall id ensures id in shown <==> exists item :: item in items && item.inputId == id {
        assert id in shown <==> id == last.inputId || id in before;
      }
    }
  }

  /** The spatial pipeline is asked once, with those annotations and the number after all earlier traces; without a
      pipeline there is no answer. */
  lemma SpatialIsAsked(batch: seq<SourceItem>, out: Session.SessionOutput, x: Stages)
    returns (shown: map<string, Annotations>)
    requires Projects(batch, out, x)
    ensures ShowsAnnotations(batch, out.items, x, shown)
    ensures x.spatial.None? ==> SpatialOf(batch, out, x) == None
    ensures x.spatial.Some? ==>
      && SpatialOf(batch, out, x).Some?
      && x.spatial.value(shown, |out.traces| + Count(x.pointing) + Count(x.burnedAreas) + 1)
         == Returned(SpatialOf(batch, out, x).value)
  {
    hide ShowsAnnotations, ByInput, Annotates, Proposes;
    ByInputShows(batch, out.items, x);
    shown := ByInput(batch, out.items, x);
  }

  // ----- when the projection raises -----

  /** An item that stops the projection: it is not in the batch, its own annotations cannot be made, or the one answer
      it would get its proposals from is an exception. */
  ghost predicate Stops(batch: seq<SourceItem>, x: Stages, spatial: Option<Spatial>, item: SessionModel.ItemResult) {
    || (forall b | b in batch :: b.inputId != item.inputId)
    || exists source :: IsSource(batch, item.inputId, source)
         && (|| x.legacyAnnotations(source, item).Raised?
             || (source.satelliteData && x.hotspots(source).Raised?)
             || (!source.satelliteData && !HasBurnedProposals(x, item.inputId)
                 && !HasSpatialEntry(spatial, item.inputId)
                 && x.fallback(source, AnnotationsOf(x, source, item)).Raised?))
  }

  lemma StopsExactly(batch: seq<SourceItem>, x: Stages, spatial: Option<Spatial>, item: SessionModel.ItemResult)
    ensures Stops(batch, x, spatial, item) <==>
      !Annotates(batch, item, x) || !Proposes(batch, item, x, spatial)
  {
    SourceFound(batch, item.inputId);
    hide IsSource;
    if Lookup(batch, item.inputId).Some? {
      var source := Lookup(batch, item.inputId).value;
      ItsProposals(x, spatial, source, AnnotationsOf(x, source, item));
      assert source in batch;
    }
    hide Lookup, ProposalsOf, AreItsProposals, AnnotationsOf, HasBurnedProposals, HasSpatialEntry;
  }

  /** The projection raises exactly when the spatial pipeline does or some item stops it. */
  lemma RaisesExactly(batch: seq<SourceItem>, out: Session.SessionOutput, x: Stages)
    requires InBatch(batch, out.items)
    ensures !Projects(batch, out, x) <==>
      || (exists item :: item in out.items && Stops(batch, x, SpatialOf(batch, out, x), item))
      || (x.spatial.Some?
          && x.spatial.value(ByInput(batch, out.items, x),
                             |out.traces| + Count(x.pointing) + Count(x.burnedAreas) + 1).Raised?)
  {
    hide Stops, Annotates, Proposes, ByInput, SpatialOf;
    forall item | item in out.items
      ensures Stops(batch, x, SpatialOf(batch, out, x), item)
         <==> !Annotates(batch, item, x) || !Proposes(batch, item, x, SpatialOf(batch, out, x))
    {
      StopsExactly(batch, x, SpatialOf(batch, out, x), item);
    }
  }

  // ----- traces and runs -----

  /** The traces of a result, place by place: the session's, pointing's and the burned areas' if they ran, those of the
      spatial pipeline, then the fusion and the report; and the fusion says whether any item has evidence. */
  lemma TracesInOrder(batch: seq<SourceItem>, out: Session.SessionOutput, x: Stages)
    requires InBatch(batch, out.items)
    ensures var v2, spatial := ProjectionOf(batch, out, x), SpatialOf(batch, out, x);
      var n, p := |out.traces|, Count(x.pointing);
      var early := n + p + Count(x.burnedAreas);
      var before := early + if spatial.Some? then |spatial.value.traces| else 0;
      && |v2.traces| == before + 2
      && (forall i | 0 <= i < n :: v2.traces[i] == SessionStage(out.traces[i]))
      && (x.pointing.Some? ==> v2.traces[n] == x.pointing.value.trace)
      && (x.burnedAreas.Some? ==> v2.traces[n + p] == x.burnedAreas.value.trace)
      && (spatial.Some? ==>
            forall i | 0 <= i < |spatial.value.traces| :: v2.traces[early + i] == spatial.value.traces[i])
      && v2.traces[before + 1] == Orchestration("situation_report", before + 2, "report_draft")
      && v2.traces[before] == Orchestration(
           "evidence_fusion", before + 1,
           if exists i :: 0 <= i < |v2.items| && HasSome(v2.items[i]) then "evidence_graph" else "explicit_abstention")
  {
    hide ReportOf, RunsOf, ResultsOf, SpatialOf, InBatch, EarlyTraces, FinalTraces, HasEvidence;
    var v2, spatial, early := ProjectionOf(batch, out, x), SpatialOf(batch, out, x), EarlyTraces(out, x);
    assert v2.traces == FinalTraces(early, spatial, HasEvidence(v2.items));
    hide ProjectionOf;
    EvidenceMeaning(v2.items);
    EarlyPlaces(out, x);
    FinalPlaces(early, spatial, HasEvidence(v2.items));
  }

  lemma EvidenceMeaning(items: seq<ItemResultV2>)
    ensures HasEvidence(items) <==> exists i :: 0 <= i < |items| && HasSome(items[i])
  {}

  lemma EarlyPlaces(out: Session.SessionOutput, x: Stages)
    ensures var early, n, p := EarlyTraces(out, x), |out.traces|, Count(x.pointing);
      && |early| == n + p + Count(x.burnedAreas)
      && (forall i | 0 <= i < n :: early[i] == SessionStage(out.traces[i]))
      && (x.pointing.Some? ==> early[n] == x.pointing.value.trace)
      && (x.burnedAreas.Some? ==> early[n + p] == x.burnedAreas.value.trace)
  {}

  lemma FinalPlaces(early: seq<Trace>, spatial: Option<Spatial>, evidence: bool)
    ensures var traces := FinalTraces(early, spatial, evidence);
      var before := |early| + if spatial.Some? then |spatial.value.traces| else 0;
      && |traces| == before + 2
      && (forall i | 0 <= i < |early| :: traces[i] == early[i])
      && (spatial.Some? ==>
            forall i | 0 <= i < |spatial.value.traces| :: traces[|early| + i] == spatial.value.traces[i])
      && traces[before + 1] == Orchestration("situation_report", before + 2, "report_draft")
      && traces[before] == Orchestration("evidence_fusion", before + 1,
                                         if evidence then "evidence_graph" else "explicit_abstention")
  {}

  predicate HasSome(item: ItemResultV2) {
    item.annotations != [] || item.proposals != [] || item.facts != []
  }

  /** The runs of a result: the session's in order, fire detection under its new name, then those of pointing, the
      burned areas and the spatial pipeline. */
  lemma RunsInOrder(batch: seq<SourceItem>, out: Session.SessionOutput, x: Stages)
    requires InBatch(batch, out.items)
    ensures var runs, spatial := ProjectionOf(batch, out, x).runs, SpatialOf(batch, out, x);
      var n := |out.runs|;
      && n <= |runs|
      && (forall i | 0 <= i < n ::
            && runs[i].SessionRun? && runs[i].run == out.runs[i]
            && (out.runs[i].role == SessionModel.FireDetection ==> runs[i].role == VisualFiltering)
            && (out.runs[i].role != SessionModel.FireDetection ==> runs[i].role == Keeps(out.runs[i].role)))
      && runs[n..] == (if x.pointing.Some? && x.pointing.value.run.Some? then [x.pointing.value.run.value] else [])
                      + (if x.burnedAreas.Some? && x.burnedAreas.value.run.Some?
                         then [x.burnedAreas.value.run.value] else [])
                      + (if spatial.Some? then spatial.value.runs else [])
  {
    hide ReportOf, FinalTraces, ResultsOf, SpatialOf, InBatch, HasEvidence, EarlyTraces;
  }

  // ----- the status -----

  predicate Failing(trace: Trace) {
    trace.External? && trace.failed
  }

  /** A result has succeeded exactly when its session has and no dedicated stage reports a failure; a session that has
      not keeps its status, one that has is at worst a partial failure, and a retry makes sense as before. */
  lemma StatusOfAResult(batch: seq<SourceItem>, out: Session.SessionOutput, x: Stages)
    requires InBatch(batch, out.items)
    ensures var v2 := ProjectionOf(batch, out, x);
      var hurt := (x.pointing.Some? && Failing(x.pointing.value.trace))
                  || (x.burnedAreas.Some? && Failing(x.burnedAreas.value.trace));
      && v2.retryable == out.retryable
      && v2.status == (if out.status == Session.BatchSucceeded && hurt then Session.PartialFailure else out.status)
  {
    StatusIsNeverImproved(batch, out, x);
    hide ProjectionOf, InBatch;
  }

  // ----- the report of a result -----

  /** What the report is given: the provenance of the last item of each id of the batch, and of each item its facts and
      the uncertainty codes of its proposals. */
  lemma ReportIsGiven(batch: seq<SourceItem>, items: seq<ItemResultV2>)
    ensures forall id :: id in SourcesByInput(batch) <==> exists b :: b in batch && b.inputId == id
    ensures forall id, source | IsSource(batch, id, source) ::
      id in SourcesByInput(batch) && SourcesByInput(batch)[id] == source.provenance
    ensures |ForReport(items)| == |items|
    ensures forall i | 0 <= i < |items| ::
      && ForReport(items)[i].facts == items[i].facts
      && |ForReport(items)[i].uncertainty| == |items[i].proposals|
      && forall j | 0 <= j < |items[i].proposals| ::
           ForReport(items)[i].uncertainty[j] == items[i].proposals[j].uncertaintyCodes
  {
    forall id ensures forall source :: IsSource(batch, id, source) <==> Lookup(batch, id) == Some(source) {
      SourceFound(batch, id);
    }
    hide IsSource, Lookup;
  }

  /** End to end: whatever the models, the judge and the dedicated stages answer for items with distinct ids, each
      fact of each item is in the content sections of the report exactly once. */
  lemma EachFactOfEachItem(ctx: SessionSpec.Context, batch: seq<SourceItem>, out: Session.SessionOutput, x: Stages,
                           i: nat, k: nat)
    requires Session.Outputs(ctx) == Returned(out) && Covers(batch, ctx.batch)
    requires forall i, j | 0 <= i < j < |ctx.batch| :: ctx.batch[i].inputId != ctx.batch[j].inputId
    requires InBatch(batch, out.items)
    requires i < |ProjectionOf(batch, out, x).items| && k < |ProjectionOf(batch, out, x).items[i].facts|
    ensures var v2 := ProjectionOf(batch, out, x);
      multiset(ContentIds(v2.report))[v2.items[i].facts[k].factId] == 1
  {
    hide Session.Outputs, ProjectionOf, AllFacts, ContentIds, InBatch, Covers;
    var items := ForReport(ProjectionOf(batch, out, x).items);
    ReportLaws.FactIsAt(items, i, k);
    EveryFactIsReportedOnce(ctx, batch, out, x, |AllFacts(items[..i])| + k);
  }
}
