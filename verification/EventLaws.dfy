/** A run of the event pipeline told by the anchors and the evidence themselves: what is attempted and proposed for each
    anchor, when a run raises, and what it reports besides. */
module EventLaws {
  import opened Prelude
  import opened Ordering
  import opened EventPipeline

  // ----- the evidence of an anchor -----

  /** The entry that counts for an anchor: the last one filed under its id. */
  ghost predicate Evidence(v: Input, anchor: Anchor, s: Spatial) {
    exists i :: 0 <= i < |v.spatials| && v.spatials[i] == s && IsLast(v.spatials, anchor.anchorId, i)
  }

  predicate IsLast(spatials: seq<Spatial>, anchorId: string, i: int) {
    && 0 <= i < |spatials|
    && spatials[i].anchorId == anchorId
    && forall j | i < j < |spatials| :: spatials[j].anchorId != anchorId
  }

  lemma {:induction false} FoundIsLast(spatials: seq<Spatial>, anchorId: string) returns (i: nat)
    requires SpatialFor(spatials, anchorId).Some?
    ensures IsLast(spatials, anchorId, i) && SpatialFor(spatials, anchorId) == Some(spatials[i])
  {
    var n := |spatials| - 1;
    if spatials[n].anchorId == anchorId {
      i := n;
    } else {
      i := FoundIsLast(spatials[..n], anchorId);
    }
  }

  lemma OneIsLast(spatials: seq<Spatial>, anchorId: string, i: int, j: int)
    requires IsLast(spatials, anchorId, i) && IsLast(spatials, anchorId, j)
    ensures i == j
  {}

  lemma EvidenceFound(v: Input, anchor: Anchor, s: Spatial)
    ensures Evidence(v, anchor, s) <==> SpatialFor(v.spatials, anchor.anchorId) == Some(s)
  {
    if SpatialFor(v.spatials, anchor.anchorId).Some? {
      var i := FoundIsLast(v.spatials, anchor.anchorId);
      forall j | IsLast(v.spatials, anchor.anchorId, j) ensures j == i {
        OneIsLast(v.spatials, anchor.anchorId, i, j);
      }
      hide SpatialFor;
    }
  }

  /** Evidence of a place on the map: projected, its camera placed, and by no cross-view method. */
  predicate Usable(s: Spatial) {
    s.projected && s.means != CrossViewRaycast && (s.means == CameraRaycast ==> s.referenceRevision.Some?)
  }

  predicate IsFront(anchor: Anchor) {
    anchor.phenomenon == VisibleFireFront
  }

  predicate IsLine(geometry: Geometry) {
    geometry.kind == "LineString" || geometry.kind == "MultiLineString"
  }

  // ----- when a run raises -----

  /** An anchor makes the run raise exactly when its evidence is usable but lacks a geometry or an accuracy, or is
      anything other than a point although the anchor is no front. */
  lemma RaisesExactly(v: Input, anchor: Anchor)
    ensures Malformed(v, anchor) <==>
      exists s :: Evidence(v, anchor, s) && Usable(s)
                  && (s.geometry.None? || s.accuracyM.None?
                      || (!IsFront(anchor) && s.geometry.value.kind != "Point"))
  {
    forall s ensures Evidence(v, anchor, s) <==> SpatialFor(v.spatials, anchor.anchorId) == Some(s) {
      EvidenceFound(v, anchor, s);
    }
    hide Evidence, SpatialFor;
  }

  // ----- the attempt of an anchor -----

  /** Whose attempt it is: the ids and the model are the anchor's; a front stays a front, the base of a smoke column
      stands for its origin, and everything else for an active fire. */
  lemma WhoseAttempt(v: Input, anchor: Anchor)
    requires !Malformed(v, anchor)
    ensures var a := AttemptFor(v, anchor);
      && a.attemptId == StableId("LOC", [v.candidateId, anchor.anchorId]) && a.anchorId == Some(anchor.anchorId)
      && a.modelId == Some(anchor.modelId) && a.modelRevision == Some(anchor.modelRevision)
      && (a.phenomenon == Some(VisibleFireFront) <==> anchor.phenomenon == VisibleFireFront)
      && (a.phenomenon == Some(SmokeOrigin) <==> anchor.phenomenon == SmokeColumnBase)
      && (a.phenomenon == Some(ActiveFirePoint) <==>
            anchor.phenomenon != VisibleFireFront && anchor.phenomenon != SmokeColumnBase)
  {
    hide Bearing, SpatialFor;
  }

  /** The attempt on projected evidence: localized at its geometry when usable, marked when a front is no line; an
      abstention when no reference places the camera, and a shadow only when the method is cross-view. */
  lemma AttemptOnProjection(v: Input, anchor: Anchor, s: Spatial)
    requires !Malformed(v, anchor) && Evidence(v, anchor, s) && s.projected
    ensures var a := AttemptFor(v, anchor);
      && a.means == Some(s.means) && a.sector == None
      && (Usable(s) ==>
            && a.status == Localized && !a.shadowOnly
            && s.geometry.Some? && s.accuracyM.Some?
            && a.geometry == s.geometry && a.accuracyM == s.accuracyM
            && a.directionUncertainty == s.directionUncertainty && a.distanceUncertainty == s.distanceUncertainty
            && a.referenceRevision == s.referenceRevision
            && a.reasonCodes == (if IsFront(anchor) && !IsLine(s.geometry.value)
                                 then ["front_geometry_insufficient"] else []))
      && (!Usable(s) ==>
            && a.status == Abstained && a.geometry == None && a.accuracyM == None
            && a.directionUncertainty == None && a.distanceUncertainty == None
            && (a.shadowOnly <==> s.referenceRevision.Some?) && a.referenceRevision == s.referenceRevision
            && a.reasonCodes == [if s.referenceRevision.None? then "camera_pose_or_reference_missing"
                                 else "cross_view_shadow_only"])
  {
    EvidenceFound(v, anchor, s);
    hide Bearing, SpatialFor, Evidence;
  }

  /** The attempt without projected evidence: a sector at an unknown distance exactly when the viewpoint has a direction
      and a field and the anchor a point; else an abstention with the reasons of the evidence there is. */
  lemma AttemptWithoutProjection(v: Input, anchor: Anchor)
    requires !Malformed(v, anchor) && forall s | Evidence(v, anchor, s) :: !s.projected
    ensures var a := AttemptFor(v, anchor);
      var sighted := v.viewpoint.yawDeg.Some? && v.viewpoint.fovDeg.Some? && anchor.point.Some?;
      && a.geometry == None && a.accuracyM == None && a.directionUncertainty == None && a.distanceUncertainty == None
      && a.referenceRevision == None && !a.shadowOnly
      && (sighted ==>
            && a.status == InSector && a.means == Some(ViewpointSector) && a.reasonCodes == ["distance_unknown"]
            && a.sector == Bearing(v.viewpoint, anchor)
            && a.sector.Some? && a.sector.value.uncertaintyDeg
                                 == (if v.viewpoint.fovDeg.value < 20.0 then 1.0 else v.viewpoint.fovDeg.value / 20.0))
      && (!sighted ==>
            && a.status == Abstained && a.means == None && a.sector == None
            && (forall s | Evidence(v, anchor, s) :: a.reasonCodes == s.reasonCodes)
            && ((forall s | s in v.spatials :: s.anchorId != anchor.anchorId) ==>
                  a.reasonCodes == ["direction_and_distance_missing"]))
  {
    forall s ensures Evidence(v, anchor, s) <==> SpatialFor(v.spatials, anchor.anchorId) == Some(s) {
      EvidenceFound(v, anchor, s);
    }
    hide Evidence, SpatialFor, FMod;
  }

  // ----- proposals -----

  /** The anchor is worth a proposal: usable evidence, a line if it is a front and a point if it is not. */
  ghost predicate WorthProposing(v: Input, anchor: Anchor) {
    exists s :: Evidence(v, anchor, s) && Usable(s) && s.geometry.Some? && s.accuracyM.Some?
                && (if IsFront(anchor) then IsLine(s.geometry.value) else s.geometry.value.kind == "Point")
  }

  lemma PromotableExactly(v: Input, anchor: Anchor)
    requires !Malformed(v, anchor)
    ensures Promotable(AttemptFor(v, anchor)) <==> WorthProposing(v, anchor)
  {
    forall s ensures Evidence(v, anchor, s) <==> SpatialFor(v.spatials, anchor.anchorId) == Some(s) {
      EvidenceFound(v, anchor, s);
    }
    hide Evidence, SpatialFor, Bearing;
  }

  /** The proposal for an anchor: its ids, what it stands for, and place, accuracy and time as given. */
  ghost predicate Proposes(v: Input, anchor: Anchor, p: Proposal) {
    && p.proposalId == StableId("EVP", [v.candidateId, anchor.anchorId])
    && p.attemptId == StableId("LOC", [v.candidateId, anchor.anchorId])
    && p.observedTime == v.observedTime
    && (p.phenomenon == VisibleFireFront <==> anchor.phenomenon == VisibleFireFront)
    && (p.phenomenon == SmokeOrigin <==> anchor.phenomenon == SmokeColumnBase)
    && (p.phenomenon == ActiveFirePoint <==>
          anchor.phenomenon != VisibleFireFront && anchor.phenomenon != SmokeColumnBase)
    && exists s :: Evidence(v, anchor, s) && s.geometry == Some(p.geometry) && s.accuracyM == Some(p.accuracyM)
  }

  lemma PromotionProposes(v: Input, anchor: Anchor)
    requires !Malformed(v, anchor) && Promotable(AttemptFor(v, anchor))
    ensures Proposes(v, anchor, Promote(v, AttemptFor(v, anchor)))
  {
    PromotableExactly(v, anchor);
    var s :| Evidence(v, anchor, s) && Usable(s);
    WhoseAttempt(v, anchor);
    AttemptOnProjection(v, anchor, s);
    hide AttemptFor, Evidence;
  }

  /** The k-th proposal is that of the anchor at the k-th place. */
  ghost predicate ProposedAt(v: Input, proposals: seq<Proposal>, places: seq<nat>, k: int) {
    0 <= k < |places| && k < |proposals| && places[k] < |v.anchors|
    && WorthProposing(v, v.anchors[places[k]]) && Proposes(v, v.anchors[places[k]], proposals[k])
  }

  /** The proposals of a run are one for each anchor worth proposing, in the order of the anchors, and no others. */
  lemma ProposalsFollowTheAnchors(v: Input, failures: seq<Failure>) returns (places: seq<nat>)
    requires WellFormed(v)
    ensures var proposals := Promotions(v, Attempts(v, failures));
      && |places| == |proposals|
      && (forall j, k | 0 <= j < k < |places| :: places[j] < places[k])
      && (forall k | 0 <= k < |places| :: ProposedAt(v, proposals, places, k))
      && (forall i: nat | i < |v.anchors| :: i in places <==> WorthProposing(v, v.anchors[i]))
  {
    hide AttemptFor, Malformed, WorthProposing, Proposes, Promotable;
    PromotionsOfAll(v, failures);
    places := PlacesBefore(v, |v.anchors|);
    assert AnchorAttempts(v)[..|v.anchors|] == AnchorAttempts(v);
    hide Attempts, AnchorAttempts;
  }

  lemma {:induction false} PlacesBefore(v: Input, n: nat) returns (places: seq<nat>)
    requires WellFormed(v) && n <= |v.anchors|
    ensures var proposals := Promotions(v, AnchorAttempts(v)[..n]);
      && |places| == |proposals|
      && (forall j, k | 0 <= j < k < |places| :: places[j] < places[k])
      && (forall k | 0 <= k < |places| :: places[k] < n && ProposedAt(v, proposals, places, k))
      && (forall i: nat | i < n :: i in places <==> WorthProposing(v, v.anchors[i]))
  {
    hide AttemptFor, Malformed, WorthProposing, Proposes, Promotable, Promotions;
    var attempts := AnchorAttempts(v);
    if n == 0 {
      places := [];
      NoPromotions(v);
      assert attempts[..0] == [];
    } else {
      var before := PlacesBefore(v, n - 1);
      var anchor := v.anchors[n - 1];
      var proposals := Promotions(v, attempts[..n - 1]);
      assert attempts[..n] == attempts[..n - 1] + [attempts[n - 1]];
      PromotionsAppend(v, attempts[..n - 1], attempts[n - 1]);
      assert anchor in v.anchors;
      PromotableExactly(v, anchor);
      if Promotable(attempts[n - 1]) {
        places := before + [n - 1];
        PromotionProposes(v, anchor);
        hide AnchorAttempts;
        assert forall k | 0 <= k < |before| :: ProposedAt(v, proposals, before, k);
      } else {
        places := before;
      }
    }
  }

  lemma NoPromotions(v: Input)
    ensures Promotions(v, []) == []
  {}

  // ----- failures, and the rest of the report -----

  /** A perception failure is an abstention with its own reason and model, under an id made of the asset it
      names, or of its reason when it names none. */
  lemma FailuresAreReported(v: Input, failures: seq<Failure>, j: nat)
    requires WellFormed(v) && j < |failures|
    ensures |Attempts(v, failures)| == |v.anchors| + |failures|
    ensures var a, f := Attempts(v, failures)[|v.anchors| + j], failures[j];
      && a.status == Abstained && a.reasonCodes == [f.reasonCode]
      && a.modelId == f.modelId && a.modelRevision == f.modelRevision
      && a.anchorId == None && a.phenomenon == None && a.means == None && a.geometry == None && a.accuracyM == None
      && a.sector == None && a.directionUncertainty == None && a.distanceUncertainty == None
      && a.referenceRevision == None && !a.shadowOnly
      && (f.assetId.None? || f.assetId.value == "" ==>
            a.attemptId == StableId("LOC", [v.candidateId, "perception-failure", f.reasonCode, f.reasonCode]))
      && (f.assetId.Some? && f.assetId.value != "" ==>
            a.attemptId == StableId("LOC", [v.candidateId, "perception-failure", f.assetId.value, f.reasonCode]))
  {
    hide AttemptFor, WellFormed;
  }

  /** With neither anchor nor failure the run still reports one abstention, which says so. */
  lemma NothingToLocalize(v: Input)
    requires v.anchors == []
    ensures WellFormed(v)
    ensures var attempts := Attempts(v, []);
      && |attempts| == 1
      && var a := attempts[0];
         && a.attemptId == StableId("LOC", [v.candidateId, "no-anchor"]) && a.status == Abstained
         && a.reasonCodes == ["no_visual_anchor"] && a.anchorId == None && a.phenomenon == None && a.means == None
         && a.geometry == None && a.accuracyM == None && a.sector == None && a.modelId == None
         && a.modelRevision == None && a.referenceRevision == None && !a.shadowOnly
  {}

  /** The codes of a run: those of its attempts, and one more for a view whose scale is unknown. */
  lemma CodesOfARun(v: Input, attempts: seq<Attempt>, code: string)
    ensures code in Reasons(v, attempts) <==>
      || (exists a :: a in attempts && code in a.reasonCodes)
      || (code == "view_profile_unclassified" && v.shotScale == None)
  {}

  /** The profile of a view: unknown without a scale; only a wide view asks whether its place is named. */
  lemma ViewMeaning(v: Input)
    ensures var r := Classify(v);
      && (r == None <==> v.shotScale == None)
      && (r == Some(WideNamedViewpoint) <==> v.shotScale == Some(Wide) && v.viewpoint.namedPlace)
      && (r == Some(WideKnownViewpoint) <==> v.shotScale == Some(Wide) && !v.viewpoint.namedPlace)
      && (r == Some(DistantKnownViewpoint) <==> v.shotScale == Some(Distant))
      && (r == Some(CloseKnownViewpoint) <==> v.shotScale == Some(Close))
      && (r == Some(TightKnownViewpoint) <==> v.shotScale == Some(Tight))
  {}

  // ----- the envelope check -----

  /** The attempt an id stands for: the last one filed under it. */
  ghost predicate Filed(attempts: seq<Attempt>, id: StableId, a: Attempt) {
    exists i :: 0 <= i < |attempts| && attempts[i] == a && IsLastAttempt(attempts, id, i)
  }

  predicate IsLastAttempt(attempts: seq<Attempt>, id: StableId, i: int) {
    && 0 <= i < |attempts|
    && attempts[i].attemptId == id
    && forall j | i < j < |attempts| :: attempts[j].attemptId != id
  }

  lemma {:induction false} LookupIsLast(attempts: seq<Attempt>, id: StableId) returns (i: nat)
    requires Lookup(attempts, id).Some?
    ensures IsLastAttempt(attempts, id, i) && Lookup(attempts, id) == Some(attempts[i])
  {
    var n := |attempts| - 1;
    if attempts[n].attemptId == id {
      i := n;
    } else {
      i := LookupIsLast(attempts[..n], id);
    }
  }

  lemma OneAttemptIsLast(attempts: seq<Attempt>, id: StableId, i: int, j: int)
    requires IsLastAttempt(attempts, id, i) && IsLastAttempt(attempts, id, j)
    ensures i == j
  {}

  lemma FiledIsFound(attempts: seq<Attempt>, id: StableId)
    ensures forall a :: Filed(attempts, id, a) <==> Lookup(attempts, id) == Some(a)
  {
    if Lookup(attempts, id).Some? {
      var i := LookupIsLast(attempts, id);
      forall j | IsLastAttempt(attempts, id, j) ensures j == i { OneAttemptIsLast(attempts, id, i, j); }
      hide Lookup;
    }
  }

  predicate Smoke(a: Attempt) {
    a.phenomenon == Some(SmokeOrigin) || a.phenomenon == Some(SmokeColumnBase)
  }

  predicate NoActivity(a: Attempt) {
    a.phenomenon == Some(ThermalHotspot) || a.phenomenon == Some(BurnedArea) || a.phenomenon == Some(Simulation)
  }

  /** The verdict on an envelope over any attempts: an unknown support first, then one that is not localized, then
      nothing but smoke, then a hotspot, a burned area or a simulation; accepted exactly when none of these applies. */
  lemma EnvelopeMeaning(supports: seq<StableId>, attempts: seq<Attempt>)
    ensures var verdict := ValidateSupports(supports, attempts);
      var unknown := exists id :: id in supports && forall a :: !Filed(attempts, id, a);
      var unplaced := exists id, a :: id in supports && Filed(attempts, id, a) && a.status != Localized;
      var smoke := forall id, a | id in supports && Filed(attempts, id, a) :: Smoke(a);
      var inactive := exists id, a :: id in supports && Filed(attempts, id, a) && NoActivity(a);
      && (verdict == UnknownSupport <==> unknown)
      && (verdict == NotLocalized <==> !unknown && unplaced)
      && (verdict == SmokeOnly <==> !unknown && !unplaced && smoke)
      && (verdict == ForbiddenEvidence <==> !unknown && !unplaced && !smoke && inactive)
      && (verdict == EnvelopeAccepted <==> !unknown && !unplaced && !smoke && !inactive)
  {
    forall id ensures forall a :: Filed(attempts, id, a) <==> Lookup(attempts, id) == Some(a) {
      FiledIsFound(attempts, id);
    }
    hide Filed, Lookup;
    assert forall id :: Lookup(attempts, id).None? <==> forall a :: !Filed(attempts, id, a);
    assert forall id | Lookup(attempts, id).Some? :: Filed(attempts, id, Lookup(attempts, id).value);
  }
}
