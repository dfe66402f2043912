/** The deterministic event pipeline: pixel anchors and spatial evidence in, localization attempts and review
    proposals out, without geometry of its own; and the envelope check on its attempts. */
module EventPipeline {
  import opened Prelude
  import opened Ordering

  datatype Phenomenon =
    | ActiveFirePoint
    | VisibleFireFront
    | SmokeOrigin
    | SmokeColumnBase
    | ThermalHotspot
    | BurnedArea
    | Simulation
    | OtherPhenomenon(code: string)

  datatype Means = CameraRaycast | CrossViewRaycast | ViewpointSector | OtherMeans(code: string)

  datatype Geometry = Geometry(kind: string, coordinates: string)

  /** A digest-based id, told apart by what is digested. */
  datatype StableId = StableId(prefix: string, parts: seq<string>)

  datatype Anchor = Anchor(
    anchorId: string,
    phenomenon: Phenomenon,
    point: Option<(real, real)>,
    modelId: string,
    modelRevision: string)

  datatype Spatial = Spatial(
    anchorId: string,
    projected: bool,
    means: Means,
    referenceRevision: Option<string>,
    geometry: Option<Geometry>,
    accuracyM: Option<real>,
    directionUncertainty: Option<real>,
    distanceUncertainty: Option<real>,
    reasonCodes: seq<string>)

  datatype ShotScale = Wide | Distant | Close | Tight

  datatype ViewProfile = WideNamedViewpoint | WideKnownViewpoint | DistantKnownViewpoint | CloseKnownViewpoint
                       | TightKnownViewpoint

  datatype Viewpoint = Viewpoint(namedPlace: bool, yawDeg: Option<real>, fovDeg: Option<real>)

  datatype Observation = Observation(id: string, family: string, conflictsWith: seq<string>)

  datatype Failure = Failure(
    assetId: Option<string>,
    reasonCode: string,
    modelId: Option<string>,
    modelRevision: Option<string>)

  datatype Input = Input(
    candidateId: string,
    observedTime: string,
    viewpoint: Viewpoint,
    shotScale: Option<ShotScale>,
    external: seq<Observation>,
    anchors: seq<Anchor>,
    spatials: seq<Spatial>)

  datatype LocStatus = Localized | InSector | Abstained

  datatype SectorEstimate = SectorEstimate(bearingDeg: real, uncertaintyDeg: real)

  datatype Attempt = Attempt(
    attemptId: StableId,
    anchorId: Option<string>,
    phenomenon: Option<Phenomenon>,
    status: LocStatus,
    means: Option<Means>,
    geometry: Option<Geometry>,
    accuracyM: Option<real>,
    directionUncertainty: Option<real>,
    distanceUncertainty: Option<real>,
    sector: Option<SectorEstimate>,
    reasonCodes: seq<string>,
    modelId: Option<string>,
    modelRevision: Option<string>,
    referenceRevision: Option<string>,
    shadowOnly: bool)

  datatype Proposal = Proposal(
    proposalId: StableId,
    attemptId: StableId,
    phenomenon: Phenomenon,
    observedTime: string,
    geometry: Geometry,
    accuracyM: real)

  datatype Output = Output(
    needsReview: bool,
    viewProfile: Option<ViewProfile>,
    attempts: seq<Attempt>,
    proposals: seq<Proposal>,
    families: seq<string>,
    contradictions: seq<(string, string)>,
    reasonCodes: seq<string>)

  // ----- one anchor -----

  function OutputPhenomenon(anchor: Anchor): Phenomenon {
    match anchor.phenomenon
    case SmokeColumnBase => SmokeOrigin
    case VisibleFireFront => VisibleFireFront
    case _ => ActiveFirePoint
  }

  /** Python's `fmod` for a positive modulus: the sign of the dividend. */
  function FMod(x: real, m: real): real
    requires m > 0.0
  {
    if x >= 0.0 then x - (x / m).Floor as real * m
    else -((-x) - ((-x) / m).Floor as real * m)
  }

  function Bearing(viewpoint: Viewpoint, anchor: Anchor): Option<SectorEstimate> {
    if viewpoint.yawDeg.None? || viewpoint.fovDeg.None? || anchor.point.None? then None
    else
      var fov := viewpoint.fovDeg.value;
      Some(SectorEstimate(
        FMod(viewpoint.yawDeg.value + (anchor.point.value.0 - 0.5) * fov + 360.0, 360.0),
        if fov * 0.05 >= 1.0 then fov * 0.05 else 1.0))
  }

  /** The direction the anchor is seen in, before it is brought into one turn. */
  function Direction(viewpoint: Viewpoint, anchor: Anchor): real
    requires Bearing(viewpoint, anchor).Some?
  {
    viewpoint.yawDeg.value + (anchor.point.value.0 - 0.5) * viewpoint.fovDeg.value
  }

  /** What the contracts of a viewpoint and of an anchor promise. */
  predicate Contracted(viewpoint: Viewpoint, anchor: Anchor) {
    && (viewpoint.yawDeg.Some? ==> 0.0 <= viewpoint.yawDeg.value < 360.0)
    && (viewpoint.fovDeg.Some? ==> 0.0 < viewpoint.fovDeg.value < 180.0)
    && (anchor.point.Some? ==> 0.0 <= anchor.point.value.0 <= 1.0)
  }

  /** For contracted input a bearing is a compass bearing, in [0, 360), and it is the direction of the anchor up to a
      full turn; the uncertainty is between 1 and 9 degrees. So the sector contract accepts every sector. */
  lemma BearingIsCompass(viewpoint: Viewpoint, anchor: Anchor)
    requires Bearing(viewpoint, anchor).Some? && Contracted(viewpoint, anchor)
    ensures var b, d := Bearing(viewpoint, anchor).value, Direction(viewpoint, anchor);
      && 0.0 <= b.bearingDeg < 360.0
      && b.bearingDeg == (if d < 0.0 then d + 360.0 else if d < 360.0 then d else d - 360.0)
      && 1.0 <= b.uncertaintyDeg <= 9.0
  {
    HalfField(anchor.point.value.0, viewpoint.fovDeg.value);
    var d := Direction(viewpoint, anchor);
    RestOfTurns(d + 360.0, if d < 0.0 then 0 else if d < 360.0 then 1 else 2);
    hide FMod;
  }

  lemma RestOfTurns(x: real, k: int)
    requires k >= 0 && 360.0 * k as real <= x < 360.0 * k as real + 360.0
    ensures FMod(x, 360.0) == x - 360.0 * k as real
  {
    var turns := x / 360.0;
    assert k as real <= turns < k as real + 1.0;
    assert turns.Floor == k;
  }

  lemma HalfField(x: real, fov: real)
    requires 0.0 <= x <= 1.0 && 0.0 < fov < 180.0
    ensures -90.0 < (x - 0.5) * fov < 90.0
  {
    assert (x - 0.5) * fov <= 0.5 * fov;
    assert (x - 0.5) * fov >= -0.5 * fov;
  }

  /** For any input at all a bearing lies within one turn either way, and it is negative exactly when the anchor lies
      more than a full turn to the left of north and not a whole number of turns. */
  lemma BearingRange(viewpoint: Viewpoint, anchor: Anchor)
    requires Bearing(viewpoint, anchor).Some?
    ensures var b := Bearing(viewpoint, anchor).value;
      var left := -Direction(viewpoint, anchor) - 360.0;
      && -360.0 < b.bearingDeg < 360.0
      && b.uncertaintyDeg >= 1.0
      && (b.bearingDeg < 0.0 <==> left > 0.0 && (left / 360.0).Floor as real * 360.0 != left)
  {
    var x := Direction(viewpoint, anchor) + 360.0;
    var turns := (if x >= 0.0 then x else -x) / 360.0;
    assert turns.Floor as real <= turns < turns.Floor as real + 1.0;
  }

  /** The spatial evidence of an anchor: of several entries for one anchor the last one counts. */
  function SpatialFor(spatials: seq<Spatial>, anchorId: string): (r: Option<Spatial>)
    ensures r.Some? ==> r.value in spatials && r.value.anchorId == anchorId
    ensures r.None? ==> forall s | s in spatials :: s.anchorId != anchorId
  {
    if spatials == [] then None
    else if spatials[|spatials| - 1].anchorId == anchorId then Some(spatials[|spatials| - 1])
    else SpatialFor(spatials[..|spatials| - 1], anchorId)
  }

  function LocId(v: Input, anchor: Anchor): StableId {
    StableId("LOC", [v.candidateId, anchor.anchorId])
  }

  predicate ReferenceMissing(s: Spatial) {
    (s.means.CameraRaycast? || s.means.CrossViewRaycast?) && s.referenceRevision.None?
  }

  /** The anchor's spatial evidence is projected geometry the pipeline uses. */
  predicate Projects(v: Input, anchor: Anchor) {
    var s := SpatialFor(v.spatials, anchor.anchorId);
    s.Some? && s.value.projected && !ReferenceMissing(s.value) && !s.value.means.CrossViewRaycast?
  }

  /** Evidence that claims to be projected without a geometry or an accuracy trips an assertion; a geometry that is
      not a point, for anything but a front, is refused by the contract of a proposal. */
  predicate Malformed(v: Input, anchor: Anchor) {
    Projects(v, anchor)
    && var s := SpatialFor(v.spatials, anchor.anchorId).value;
       || s.geometry.None? || s.accuracyM.None?
       || (!OutputPhenomenon(anchor).VisibleFireFront? && s.geometry.value.kind != "Point")
  }

  predicate FrontInsufficient(anchor: Anchor, geometry: Geometry) {
    OutputPhenomenon(anchor).VisibleFireFront? && geometry.kind != "LineString" && geometry.kind != "MultiLineString"
  }

  /** The geometries the contract of a proposal allows for its phenomenon. */
  predicate FitsPhenomenon(phenomenon: Phenomenon, geometry: Geometry) {
    if phenomenon.VisibleFireFront? then geometry.kind == "LineString" || geometry.kind == "MultiLineString"
    else geometry.kind == "Point"
  }

  function Abstention(v: Input, anchor: Anchor, means: Option<Means>, reasons: seq<string>,
                      reference: Option<string>, shadow: bool): Attempt
  {
    Attempt(LocId(v, anchor), Some(anchor.anchorId), Some(OutputPhenomenon(anchor)), Abstained, means, None, None,
            None, None, None, reasons, Some(anchor.modelId), Some(anchor.modelRevision), reference, shadow)
  }

  function AttemptFor(v: Input, anchor: Anchor): Attempt
    requires !Malformed(v, anchor)
  {
    var s := SpatialFor(v.spatials, anchor.anchorId);
    if s.Some? && s.value.projected then
      if ReferenceMissing(s.value) then
        Abstention(v, anchor, Some(s.value.means), ["camera_pose_or_reference_missing"], None, false)
      else if s.value.means.CrossViewRaycast? then
        Abstention(v, anchor, Some(s.value.means), ["cross_view_shadow_only"], s.value.referenceRevision, true)
      else
        Attempt(LocId(v, anchor), Some(anchor.anchorId), Some(OutputPhenomenon(anchor)), Localized,
                Some(s.value.means), s.value.geometry, s.value.accuracyM, s.value.directionUncertainty,
                s.value.distanceUncertainty, None,
                if FrontInsufficient(anchor, s.value.geometry.value) then ["front_geometry_insufficient"] else [],
                Some(anchor.modelId), Some(anchor.modelRevision), s.value.referenceRevision, false)
    else
      var sector := Bearing(v.viewpoint, anchor);
      if sector.Some? then
        Attempt(LocId(v, anchor), Some(anchor.anchorId), Some(OutputPhenomenon(anchor)), InSector,
                Some(ViewpointSector), None, None, None, None, sector, ["distance_unknown"],
                Some(anchor.modelId), Some(anchor.modelRevision), None, false)
      else
        Abstention(v, anchor, None,
                   if s.Some? then s.value.reasonCodes else ["direction_and_distance_missing"], None, false)
  }

  function FailureAttempt(v: Input, failure: Failure): Attempt {
    var suffix :=
      if failure.assetId.Some? && failure.assetId.value != "" then failure.assetId.value else failure.reasonCode;
    Attempt(StableId("LOC", [v.candidateId, "perception-failure", suffix, failure.reasonCode]), None, None, Abstained,
            None, None, None, None, None, None, [failure.reasonCode], failure.modelId, failure.modelRevision, None,
            false)
  }

  function NoAnchorAttempt(v: Input): Attempt {
    Attempt(StableId("LOC", [v.candidateId, "no-anchor"]), None, None, Abstained, None, None, None, None, None, None,
            ["no_visual_anchor"], None, None, None, false)
  }

  predicate WellFormed(v: Input) {
    forall anchor | anchor in v.anchors :: !Malformed(v, anchor)
  }

  /** One attempt per anchor in order, then one per failure; a single "no anchor" when there is neither. */
  function Attempts(v: Input, failures: seq<Failure>): seq<Attempt>
    requires WellFormed(v)
  {
    if v.anchors == [] && failures == [] then [NoAnchorAttempt(v)]
    else
      AnchorAttempts(v)
      + seq(|failures|, i requires 0 <= i < |failures| => FailureAttempt(v, failures[i]))
  }

  predicate Promotable(a: Attempt) {
    a.status.Localized? && a.reasonCodes == [] && a.geometry.Some? && a.accuracyM.Some? && a.phenomenon.Some?
    && a.anchorId.Some?
  }

  function Promote(v: Input, a: Attempt): Proposal
    requires Promotable(a)
  {
    Proposal(StableId("EVP", [v.candidateId, a.anchorId.value]), a.attemptId, a.phenomenon.value, v.observedTime,
             a.geometry.value, a.accuracyM.value)
  }

  /** The promotions of the attempts that can be promoted, in order. */
  function Promotions(v: Input, attempts: seq<Attempt>): seq<Proposal> {
    if attempts == [] then []
    else
      var a := attempts[|attempts| - 1];
      Promotions(v, attempts[..|attempts| - 1]) + if Promotable(a) then [Promote(v, a)] else []
  }

  // ----- the summary of external observations -----

  function Ordered(a: string, b: string): (string, string) {
    if StringLess(b, a) then (b, a) else (a, b)
  }

  ghost predicate Contradicts(observations: seq<Observation>, item: Observation, other: string) {
    item in observations && other in item.conflictsWith && other != item.id
    && exists o :: o in observations && o.id == other
  }

  ghost predicate IsContradiction(observations: seq<Observation>, pair: (string, string)) {
    exists item, other :: Contradicts(observations, item, other) && pair == Ordered(item.id, other)
  }

  /** `_external_summary`: the lineage families, and every known pair one side of which names the other. */
  method ExternalSummary(observations: seq<Observation>)
    returns (families: seq<string>, pairs: seq<(string, string)>)
    ensures families == SortedStrings(set o | o in observations :: o.family)
    ensures Ascending(pairs, PairLess)
    ensures forall pair :: pair in pairs <==> IsContradiction(observations, pair)
  {
    hide SortedStrings, SortedSeq, StrictOrder, Ascending;
    families := SortedStrings(set o | o in observations :: o.family);
    var known := set o | o in observations :: o.id;
    var found: set<(string, string)> := {};
    for i := 0 to |observations|
      invariant forall pair :: pair in found <==> FoundBefore(observations, i, pair)
    {
      var item := observations[i];
      ghost var before := found;
      for j := 0 to |item.conflictsWith|
        invariant forall pair :: pair in found <==>
          pair in before || FoundIn(observations, item, item.conflictsWith[..j], pair)
      {
        var other := item.conflictsWith[j];
        assert item.conflictsWith[..j + 1] == item.conflictsWith[..j] + [other];
        if other in known && other != item.id {
          found := found + {Ordered(item.id, other)};
        }
      }
      assert item.conflictsWith[..|item.conflictsWith|] == item.conflictsWith;
      FoundStep(observations, i);
    }
    FoundAll(observations);
    PairOrder();
    pairs := SortedSeq(found, PairLess);
  }

  ghost predicate FoundIn(observations: seq<Observation>, item: Observation, conflicts: seq<string>,
                          pair: (string, string))
  {
    exists other :: other in conflicts && other != item.id && pair == Ordered(item.id, other)
                    && exists o :: o in observations && o.id == other
  }

  ghost predicate FoundBefore(observations: seq<Observation>, n: nat, pair: (string, string))
    requires n <= |observations|
  {
    exists i :: 0 <= i < n && FoundIn(observations, observations[i], observations[i].conflictsWith, pair)
  }

  lemma FoundStep(observations: seq<Observation>, i: nat)
    requires i < |observations|
    ensures forall pair :: FoundBefore(observations, i + 1, pair) <==>
      (FoundBefore(observations, i, pair)
       || FoundIn(observations, observations[i], observations[i].conflictsWith, pair))
  {
    hide FoundIn;
  }

  lemma FoundAll(observations: seq<Observation>)
    ensures forall pair :: FoundBefore(observations, |observations|, pair) <==> IsContradiction(observations, pair)
  {
    hide Ordered;
    forall pair | IsContradiction(observations, pair) ensures FoundBefore(observations, |observations|, pair) {
      var item, other :| Contradicts(observations, item, other) && pair == Ordered(item.id, other);
      var i :| 0 <= i < |observations| && observations[i] == item;
      assert FoundIn(observations, observations[i], observations[i].conflictsWith, pair);
    }
    forall pair | FoundBefore(observations, |observations|, pair) ensures IsContradiction(observations, pair) {
      var i :| 0 <= i < |observations| && FoundIn(observations, observations[i], observations[i].conflictsWith, pair);
      var other :| other in observations[i].conflictsWith && other != observations[i].id
                   && pair == Ordered(observations[i].id, other)
                   && exists o :: o in observations && o.id == other;
      assert Contradicts(observations, observations[i], other);
    }
  }

  /** A contradiction joins two different known observations, smaller id first, and is symmetric: it does not
      matter which of the two names the other. */
  lemma ContradictionMeaning(observations: seq<Observation>, a: string, b: string)
    ensures IsContradiction(observations, (a, b)) <==>
      && StringLess(a, b)
      && (exists x, y :: x in observations && y in observations && x.id == a && y.id == b)
      && (exists z, other :: z in observations && other in z.conflictsWith
                             && ((z.id == a && other == b) || (z.id == b && other == a)))
  {
    StringLessIrreflexive(a);
    if IsContradiction(observations, (a, b)) {
      var item, other :| Contradicts(observations, item, other) && (a, b) == Ordered(item.id, other);
      var o :| o in observations && o.id == other;
      StringLessConnected(item.id, other);
      if (a, b) == (item.id, other) {
        assert item in observations && o in observations && item.id == a && o.id == b;
      } else {
        assert item in observations && o in observations && o.id == a && item.id == b;
      }
    }
    if StringLess(a, b) {
      if x, y, z, other :| x in observations && y in observations && x.id == a && y.id == b
                           && z in observations && other in z.conflictsWith
                           && ((z.id == a && other == b) || (z.id == b && other == a)) {
        assert Contradicts(observations, z, other);
        if StringLess(b, a) { StringLessTransitive(a, b, a); }
        assert (a, b) == Ordered(z.id, other);
      }
    }
  }

  // ----- the run -----

  function Classify(v: Input): Option<ViewProfile> {
    match v.shotScale
    case None => None
    case Some(Wide) => Some(if v.viewpoint.namedPlace then WideNamedViewpoint else WideKnownViewpoint)
    case Some(Distant) => Some(DistantKnownViewpoint)
    case Some(Close) => Some(CloseKnownViewpoint)
    case Some(Tight) => Some(TightKnownViewpoint)
  }

  predicate Reviewable(a: Attempt) {
    a.status.Localized? || a.status.InSector?
  }

  function Reasons(v: Input, attempts: seq<Attempt>): set<string> {
    (set a, code | a in attempts && code in a.reasonCodes :: code)
    + if Classify(v).None? then {"view_profile_unclassified"} else {}
  }

  /** `run`: one pass over the anchors, one over the failures, then the summary. It raises exactly when some
      evidence that would be localized is malformed. */
  method RunPipeline(v: Input, failures: seq<Failure>) returns (r: Outcome<Output>)
    ensures r.Returned? <==> WellFormed(v)
    ensures r.Returned? ==>
      && r.value.attempts == Attempts(v, failures)
      && r.value.proposals == Promotions(v, r.value.attempts)
      && (r.value.needsReview <==>
            exists a :: a in r.value.attempts && (a.status == Localized || a.status == InSector))
      && r.value.viewProfile == Classify(v)
      && r.value.families == SortedStrings(set o | o in v.external :: o.family)
      && Ascending(r.value.contradictions, PairLess)
      && (forall pair :: pair in r.value.contradictions <==> IsContradiction(v.external, pair))
      && r.value.reasonCodes == SortedStrings(Reasons(v, r.value.attempts))
  {
    hide SortedStrings, Ascending, IsContradiction, Reasons, Classify, Attempts, Promotions, WellFormed;
    var attempts, proposals, broken := LocalizeAnchors(v);
    if broken {
      return Raised(OtherException);
    }
    attempts := AddFailures(v, failures, attempts);
    PromotionsOfAll(v, failures);
    ReviewableProposals(v, attempts);
    var families, pairs := ExternalSummary(v.external);
    var needsReview := proposals != [] || exists a | a in attempts :: Reviewable(a);
    assert needsReview <==> exists a | a in attempts :: Reviewable(a);
    r := Returned(Output(needsReview, Classify(v), attempts, proposals, families, pairs,
                         SortedStrings(Reasons(v, attempts))));
  }

  function AnchorAttempts(v: Input): seq<Attempt>
    requires WellFormed(v)
  {
    seq(|v.anchors|, i requires 0 <= i < |v.anchors| => AttemptFor(v, v.anchors[i]))
  }

  /** The loop over the failures, and the attempt that stands for nothing at all. */
  method AddFailures(v: Input, failures: seq<Failure>, before: seq<Attempt>) returns (attempts: seq<Attempt>)
    requires WellFormed(v) && before == AnchorAttempts(v)
    ensures attempts == Attempts(v, failures)
  {
    hide AttemptFor, FailureAttempt, WellFormed;
    attempts := before;
    for i := 0 to |failures|
      invariant attempts == before + seq(i, j requires 0 <= j < i => FailureAttempt(v, failures[j]))
    {
      attempts := attempts + [FailureAttempt(v, failures[i])];
    }
    if attempts == [] {
      attempts := [NoAnchorAttempt(v)];
    }
  }

  /** Failures are never promoted, so the proposals are those of the anchors. */
  lemma PromotionsOfAll(v: Input, failures: seq<Failure>)
    requires WellFormed(v)
    ensures Promotions(v, Attempts(v, failures)) == Promotions(v, AnchorAttempts(v))
  {
    hide AttemptFor, WellFormed;
    var rest := Attempts(v, failures)[|v.anchors|..];
    assert Attempts(v, failures) == AnchorAttempts(v) + rest;
    forall a | a in rest ensures !Promotable(a) {
      if failures != [] {
        var i :| 0 <= i < |failures| && a == FailureAttempt(v, failures[i]);
      }
    }
    PromotionsSkip(v, AnchorAttempts(v), rest);
  }

  lemma {:induction false} PromotionsSkip(v: Input, attempts: seq<Attempt>, rest: seq<Attempt>)
    requires forall a | a in rest :: !Promotable(a)
    ensures Promotions(v, attempts + rest) == Promotions(v, attempts)
  {
    hide Promotable, Promotions;
    if rest == [] {
      assert attempts + rest == attempts;
    } else {
      var n := |rest| - 1;
      PromotionsSkip(v, attempts, rest[..n]);
      PromotionsAppend(v, attempts + rest[..n], rest[n]);
      assert attempts + rest == attempts + rest[..n] + [rest[n]];
    }
  }

  /** The loop over the anchors. */
  method LocalizeAnchors(v: Input) returns (attempts: seq<Attempt>, proposals: seq<Proposal>, broken: bool)
    ensures broken <==> !WellFormed(v)
    ensures !broken ==> attempts == AnchorAttempts(v)
    ensures !broken ==> proposals == Promotions(v, attempts)
  {
    hide AttemptFor;
    attempts, proposals := [], [];
    for i := 0 to |v.anchors|
      invariant forall j | 0 <= j < i :: !Malformed(v, v.anchors[j])
      invariant |attempts| == i && forall j | 0 <= j < i :: attempts[j] == AttemptFor(v, v.anchors[j])
      invariant proposals == Promotions(v, attempts)
    {
      var attempt, proposal := LocalizeOne(v, v.anchors[i]);
      if attempt.None? {
        assert v.anchors[i] in v.anchors;
        return attempts, proposals, true;
      }
      PromotionsAppend(v, attempts, attempt.value);
      attempts := attempts + [attempt.value];
      if proposal.Some? {
        proposals := proposals + [proposal.value];
      }
    }
    broken := false;
  }

  /** The body of the loop: the branches of the source in their order. */
  method LocalizeOne(v: Input, anchor: Anchor) returns (attempt: Option<Attempt>, proposal: Option<Proposal>)
    ensures attempt.None? <==> Malformed(v, anchor)
    ensures attempt.Some? ==> attempt.value == AttemptFor(v, anchor)
    ensures attempt.Some? ==>
      proposal == if Promotable(attempt.value) then Some(Promote(v, attempt.value)) else None
  {
    hide Bearing, SpatialFor;
    proposal := None;
    var spatial := SpatialFor(v.spatials, anchor.anchorId);
    var phenomenon := OutputPhenomenon(anchor);
    if spatial.Some? && spatial.value.projected {
      var s := spatial.value;
      if (s.means.CameraRaycast? || s.means.CrossViewRaycast?) && s.referenceRevision.None? {
        return Some(Abstention(v, anchor, Some(s.means), ["camera_pose_or_reference_missing"], None, false)), None;
      }
      if s.means.CrossViewRaycast? {
        return Some(Abstention(v, anchor, Some(s.means), ["cross_view_shadow_only"], s.referenceRevision, true)), None;
      }
      if s.geometry.None? || s.accuracyM.None? {
        return None, None;
      }
      var insufficient := phenomenon.VisibleFireFront?
        && s.geometry.value.kind != "LineString" && s.geometry.value.kind != "MultiLineString";
      attempt := Some(Attempt(
        LocId(v, anchor), Some(anchor.anchorId), Some(phenomenon), Localized, Some(s.means), s.geometry, s.accuracyM,
        s.directionUncertainty, s.distanceUncertainty, None,
        if insufficient then ["front_geometry_insufficient"] else [],
        Some(anchor.modelId), Some(anchor.modelRevision), s.referenceRevision, false));
      if insufficient {
        return;
      }
      if !FitsPhenomenon(phenomenon, s.geometry.value) {
        return None, None;
      }
      proposal := Some(Proposal(StableId("EVP", [v.candidateId, anchor.anchorId]), LocId(v, anchor), phenomenon,
                                v.observedTime, s.geometry.value, s.accuracyM.value));
      return;
    }
    var sector := Bearing(v.viewpoint, anchor);
    if sector.Some? {
      attempt := Some(Attempt(
        LocId(v, anchor), Some(anchor.anchorId), Some(phenomenon), InSector, Some(ViewpointSector), None, None, None,
        None, sector, ["distance_unknown"], Some(anchor.modelId), Some(anchor.modelRevision), None, false));
    } else {
      attempt := Some(Abstention(
        v, anchor, None,
        if spatial.Some? then spatial.value.reasonCodes else ["direction_and_distance_missing"], None, false));
    }
  }

  lemma PromotionsAppend(v: Input, attempts: seq<Attempt>, a: Attempt)
    ensures Promotions(v, attempts + [a])
         == Promotions(v, attempts) + if Promotable(a) then [Promote(v, a)] else []
  {
    assert (attempts + [a])[..|attempts|] == attempts;
  }

  lemma {:induction false} ReviewableProposals(v: Input, attempts: seq<Attempt>)
    ensures Promotions(v, attempts) != [] ==> exists a | a in attempts :: Reviewable(a)
  {
    if attempts != [] {
      var n := |attempts| - 1;
      ReviewableProposals(v, attempts[..n]);
      if Promotable(attempts[n]) { assert attempts[n] in attempts; }
    }
  }

  // ----- what a run guarantees -----

  /** The attempt of an anchor: localized exactly when its evidence projects, and then with that evidence's geometry
      and accuracy; a geometry nowhere else, a sector only from the viewpoint, and no cross-view geometry. */
  lemma AttemptMeaning(v: Input, anchor: Anchor)
    requires !Malformed(v, anchor)
    ensures var a := AttemptFor(v, anchor);
      && a.attemptId == LocId(v, anchor)
      && a.anchorId == Some(anchor.anchorId)
      && a.phenomenon in {Some(ActiveFirePoint), Some(VisibleFireFront), Some(SmokeOrigin)}
      && (a.phenomenon == Some(SmokeOrigin) <==> anchor.phenomenon.SmokeColumnBase?)
      && (a.status.Localized? <==> Projects(v, anchor))
      && (a.geometry.Some? <==> a.status.Localized?)
      && (a.status.Localized? ==>
            var s := SpatialFor(v.spatials, anchor.anchorId).value;
            && s in v.spatials && s.anchorId == anchor.anchorId && s.projected
            && a.geometry == s.geometry && a.accuracyM == s.accuracyM && a.accuracyM.Some?
            && !s.means.CrossViewRaycast?
            && (s.means.CameraRaycast? ==> s.referenceRevision.Some?))
      && (a.status.InSector? <==> a.sector.Some?)
      && (a.sector.Some? ==> a.sector == Bearing(v.viewpoint, anchor))
      && (Promotable(a) <==> a.status.Localized? && a.reasonCodes == [])
      && (a.status.Localized? ==>
            (a.reasonCodes != [] <==> FrontInsufficient(anchor, a.geometry.value)))
  {
    hide Bearing;
  }

  /** The pipeline never invents geometry: attempts follow the anchors and then the failures; every geometry,
      in an attempt or a proposal, is that of the projected, not cross-view, evidence of its own anchor; and
      the proposals are exactly the localized attempts without a reason code, in order. */
  lemma NoInventedGeometry(v: Input, failures: seq<Failure>)
    requires WellFormed(v)
    ensures var attempts := Attempts(v, failures);
      && |attempts| == (if v.anchors == [] && failures == [] then 1 else |v.anchors| + |failures|)
      && (forall i | 0 <= i < |v.anchors| :: attempts[i] == AttemptFor(v, v.anchors[i]))
      && (forall i | |v.anchors| <= i < |attempts| ::
            attempts[i].status.Abstained? && attempts[i].geometry.None? && attempts[i].anchorId.None?)
    ensures forall p | p in Promotions(v, Attempts(v, failures)) ::
      exists i :: 0 <= i < |v.anchors| && ProposedFrom(v, v.anchors[i], p)
    ensures forall i | 0 <= i < |v.anchors| && AttemptFor(v, v.anchors[i]).status.Localized?
                       && AttemptFor(v, v.anchors[i]).reasonCodes == [] ::
      exists p :: p in Promotions(v, Attempts(v, failures)) && ProposedFrom(v, v.anchors[i], p)
  {
    hide AttemptFor, Projects, Malformed, ProposedFrom;
    var attempts := Attempts(v, failures);
    forall i | 0 <= i < |v.anchors| ensures attempts[i] == AttemptFor(v, v.anchors[i]) {}
    forall p | p in Promotions(v, attempts)
      ensures exists i :: 0 <= i < |v.anchors| && ProposedFrom(v, v.anchors[i], p)
    {
      var i := PromotedFrom(v, attempts, p);
      assert i < |v.anchors|;
      PromotedIsProposed(v, v.anchors[i]);
    }
    forall i | 0 <= i < |v.anchors| && AttemptFor(v, v.anchors[i]).status.Localized?
               && AttemptFor(v, v.anchors[i]).reasonCodes == []
      ensures exists p :: p in Promotions(v, attempts) && ProposedFrom(v, v.anchors[i], p)
    {
      AttemptMeaning(v, v.anchors[i]);
      PromotedAt(v, attempts, i);
      PromotedIsProposed(v, v.anchors[i]);
    }
  }

  lemma PromotedIsProposed(v: Input, anchor: Anchor)
    requires !Malformed(v, anchor) && Promotable(AttemptFor(v, anchor))
    ensures ProposedFrom(v, anchor, Promote(v, AttemptFor(v, anchor)))
  {
    hide Bearing, SpatialFor;
  }

  /** The proposal carries the geometry of the projected evidence filed under this anchor's id, and it fits. */
  ghost predicate ProposedFrom(v: Input, anchor: Anchor, p: Proposal) {
    && p.attemptId == LocId(v, anchor)
    && p.phenomenon == OutputPhenomenon(anchor)
    && p.observedTime == v.observedTime
    && !Malformed(v, anchor)
    && Projects(v, anchor)
    && var s := SpatialFor(v.spatials, anchor.anchorId).value;
       s in v.spatials && Some(p.geometry) == s.geometry && Some(p.accuracyM) == s.accuracyM
       && FitsPhenomenon(p.phenomenon, p.geometry)
  }

  lemma {:induction false} PromotedFrom(v: Input, attempts: seq<Attempt>, p: Proposal) returns (i: nat)
    requires p in Promotions(v, attempts)
    ensures i < |attempts| && Promotable(attempts[i]) && p == Promote(v, attempts[i])
  {
    var n := |attempts| - 1;
    if p in Promotions(v, attempts[..n]) {
      i := PromotedFrom(v, attempts[..n], p);
    } else {
      i := n;
    }
  }

  lemma {:induction false} PromotedAt(v: Input, attempts: seq<Attempt>, i: nat)
    requires i < |attempts| && Promotable(attempts[i])
    ensures Promote(v, attempts[i]) in Promotions(v, attempts)
  {
    var n := |attempts| - 1;
    if i < n { PromotedAt(v, attempts[..n], i); }
  }

  // ----- the envelope check -----

  datatype EnvelopeVerdict = EnvelopeAccepted | UnknownSupport | NotLocalized | SmokeOnly | ForbiddenEvidence

  /** The attempt filed under an id: of several the last one counts. */
  function Lookup(attempts: seq<Attempt>, id: StableId): (r: Option<Attempt>)
    ensures r.Some? ==> r.value in attempts && r.value.attemptId == id
    ensures r.None? ==> forall a | a in attempts :: a.attemptId != id
  {
    if attempts == [] then None
    else if attempts[|attempts| - 1].attemptId == id then Some(attempts[|attempts| - 1])
    else Lookup(attempts[..|attempts| - 1], id)
  }

  predicate IsSmoke(p: Option<Phenomenon>) {
    p == Some(SmokeOrigin) || p == Some(SmokeColumnBase)
  }

  predicate IsForbidden(p: Option<Phenomenon>) {
    p == Some(ThermalHotspot) || p == Some(BurnedArea) || p == Some(Simulation)
  }

  function ValidateSupports(supports: seq<StableId>, attempts: seq<Attempt>): EnvelopeVerdict {
    if exists id | id in supports :: Lookup(attempts, id).None? then UnknownSupport
    else if exists id | id in supports :: !Lookup(attempts, id).value.status.Localized? then NotLocalized
    else if forall id | id in supports :: IsSmoke(Lookup(attempts, id).value.phenomenon) then SmokeOnly
    else if exists id | id in supports :: IsForbidden(Lookup(attempts, id).value.phenomenon) then ForbiddenEvidence
    else EnvelopeAccepted
  }

  predicate DistinctAnchors(v: Input) {
    forall i, j :: 0 <= i < j < |v.anchors| ==> v.anchors[i].anchorId != v.anchors[j].anchorId
  }

  /** The support is the attempt of an anchor whose evidence projects. */
  ghost predicate SupportedBy(v: Input, id: StableId, anchor: Anchor) {
    anchor in v.anchors && id == LocId(v, anchor) && Projects(v, anchor)
  }

  /** The attempts of a run by position. */
  lemma AttemptsShape(v: Input, failures: seq<Failure>, j: nat)
    requires WellFormed(v) && j < |Attempts(v, failures)|
    ensures var a := Attempts(v, failures)[j];
      if j < |v.anchors| then
        && a == AttemptFor(v, v.anchors[j])
        && a.attemptId == LocId(v, v.anchors[j])
        && (a.status.Localized? <==> Projects(v, v.anchors[j]))
      else a.status.Abstained?
  {
    if j < |v.anchors| { AttemptMeaning(v, v.anchors[j]); }
    hide AttemptFor, Projects, Malformed;
  }

  lemma LookupOnRun(v: Input, failures: seq<Failure>, id: StableId)
    requires WellFormed(v) && DistinctAnchors(v)
    ensures var found := Lookup(Attempts(v, failures), id);
      found.Some? && found.value.status.Localized?
      <==> exists anchor :: SupportedBy(v, id, anchor)
    ensures forall anchor | SupportedBy(v, id, anchor) ::
      Lookup(Attempts(v, failures), id) == Some(AttemptFor(v, anchor))
  {
    hide AttemptFor, Projects, Malformed, Lookup, Attempts;
    var attempts := Attempts(v, failures);
    var found := Lookup(attempts, id);
    if found.Some? && found.value.status.Localized? {
      var i :| 0 <= i < |attempts| && attempts[i] == found.value;
      AttemptsShape(v, failures, i);
      assert SupportedBy(v, id, v.anchors[i]);
    }
    forall anchor | SupportedBy(v, id, anchor)
      ensures found == Some(AttemptFor(v, anchor)) && found.value.status.Localized?
    {
      var i :| 0 <= i < |v.anchors| && v.anchors[i] == anchor;
      FoundIsThat(v, failures, id, i);
    }
  }

  /** With distinct anchors the id of an anchor's attempt looks up that attempt and no other. */
  lemma FoundIsThat(v: Input, failures: seq<Failure>, id: StableId, i: nat)
    requires WellFormed(v) && DistinctAnchors(v) && i < |v.anchors| && SupportedBy(v, id, v.anchors[i])
    ensures var found := Lookup(Attempts(v, failures), id);
      found == Some(AttemptFor(v, v.anchors[i])) && found.value.status.Localized?
  {
    hide AttemptFor, Projects, Malformed, Lookup, Attempts;
    var attempts := Attempts(v, failures);
    AttemptCount(v, failures);
    AttemptsShape(v, failures, i);
    assert attempts[i] in attempts && attempts[i].attemptId == id;
    var found := Lookup(attempts, id);
    assert found.Some? && found.value.attemptId == id;
    var j :| 0 <= j < |attempts| && attempts[j] == found.value;
    AttemptsShape(v, failures, j);
    if j >= |v.anchors| {
      RestHasOtherIds(v, failures, j, v.anchors[i]);
      assert false;
    }
    assert LocId(v, v.anchors[j]).parts[1] == LocId(v, v.anchors[i]).parts[1];
  }

  lemma AttemptCount(v: Input, failures: seq<Failure>)
    requires WellFormed(v)
    ensures |v.anchors| <= |Attempts(v, failures)|
  {}

  lemma RestHasOtherIds(v: Input, failures: seq<Failure>, j: nat, anchor: Anchor)
    requires WellFormed(v) && |v.anchors| <= j < |Attempts(v, failures)| && anchor in v.anchors
    ensures Attempts(v, failures)[j].attemptId != LocId(v, anchor)
  {
    hide AttemptFor;
    assert Attempts(v, failures)[j] == FailureAttempt(v, failures[j - |v.anchors|]);
    assert |FailureAttempt(v, failures[j - |v.anchors|]).attemptId.parts| == 4;
  }

  /** Composition with the envelope check, for anchors with distinct ids: an envelope is accepted exactly when each
      support is the attempt of an anchor with usable projected evidence and not every one of those anchors
      is a smoke column base; the rejection of hotspots, burned areas and simulations never fires. */
  lemma EnvelopeOnRun(v: Input, failures: seq<Failure>, supports: seq<StableId>)
    requires WellFormed(v) && DistinctAnchors(v)
    ensures var verdict := ValidateSupports(supports, Attempts(v, failures));
      && (verdict == EnvelopeAccepted <==>
            && (forall id | id in supports :: exists anchor :: SupportedBy(v, id, anchor))
            && (exists id, anchor ::
                  id in supports && SupportedBy(v, id, anchor) && !anchor.phenomenon.SmokeColumnBase?))
      && verdict != ForbiddenEvidence
  {
    hide AttemptFor, Projects, Malformed, Lookup, Attempts;
    var attempts := Attempts(v, failures);
    forall id | id in supports
      ensures Lookup(attempts, id).Some? && Lookup(attempts, id).value.status.Localized?
         <==> exists anchor :: SupportedBy(v, id, anchor)
      ensures forall anchor | SupportedBy(v, id, anchor) ::
        && Lookup(attempts, id) == Some(AttemptFor(v, anchor))
        && (IsSmoke(AttemptFor(v, anchor).phenomenon) <==> anchor.phenomenon.SmokeColumnBase?)
        && !IsForbidden(AttemptFor(v, anchor).phenomenon)
    {
      LookupOnRun(v, failures, id);
      forall anchor | SupportedBy(v, id, anchor)
        ensures IsSmoke(AttemptFor(v, anchor).phenomenon) <==> anchor.phenomenon.SmokeColumnBase?
        ensures !IsForbidden(AttemptFor(v, anchor).phenomenon)
      {
        AttemptMeaning(v, anchor);
      }
    }
  }
}
