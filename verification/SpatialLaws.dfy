/** The geometry of the v2 runner in plain terms: why a feed is refused, which features become proposals and where,
    where an image point lies, and why one is not placed. */
module SpatialLaws {
  import opened Prelude
  import opened SpatialProposals

  // ----- a satellite feed -----

  /** Whether a feed has what a conversion needs. */
  predicate Equipped(item: Item, reference: Option<string>) {
    item.hotspots.Some? && item.payload.Some? && reference.Some?
  }

  /** The refusal of a feed, by its cause: no hotspot metadata or no text; no reference bundle; text that is no feature
      collection; a collection without a list of features or with more than 5000. */
  lemma RefusalOfAFeed(item: Item, reference: Option<string>)
    ensures var r := Insufficiency(item, reference);
      var parsed := if item.payload.Some? then item.payload.value else NoCollection;
      var long := parsed.Features? && |parsed.features| > 5000;
      && (r == Some("hotspot_metadata_missing") <==> item.hotspots.None? || item.payload.None?)
      && (r == Some("reference_bundle_missing") <==>
            item.hotspots.Some? && item.payload.Some? && reference.None?)
      && (r == Some("hotspot_geojson_invalid") <==> Equipped(item, reference) && parsed == NoCollection)
      && (r == Some("hotspot_feature_count_invalid") <==>
            Equipped(item, reference) && (parsed == NoFeatureList || long))
      && (r == None <==>
            Equipped(item, reference) && (parsed == Unparsable || (parsed.Features? && !long)))
  {}

  predicate IsNumber(c: Coordinate) {
    c.Number? || c.TooLarge?
  }

  predicate Broken(features: seq<Feature>, i: int) {
    && 0 <= i < |features| && features[i].Point? && |features[i].coordinates| >= 2
    && IsNumber(features[i].coordinates[0]) && IsNumber(features[i].coordinates[1])
    && !(features[i].coordinates[0].Number? && features[i].coordinates[1].Number?)
  }

  /** A feed raises exactly when nothing refuses it and its text defeats the parser, or some point has a position too
      large for a float. */
  lemma FeedRaisesExactly(item: Item, reference: Option<string>)
    ensures FeedRaises(item, reference) <==>
      && Insufficiency(item, reference) == None
      && (item.payload.value == Unparsable || exists i :: Broken(item.payload.value.features, i))
  {
    RefusalOfAFeed(item, reference);
    if Insufficiency(item, reference) == None && item.payload.value.Features? {
      var features := item.payload.value.features;
      if f :| f in features && Overflows(f) {
        var i :| 0 <= i < |features| && features[i] == f;
        assert Broken(features, i);
      }
      if i :| Broken(features, i) { assert features[i] in features && Overflows(features[i]); }
    }
  }

  /** The i-th feature is a point inside the box. */
  predicate PointInBox(box: Box, features: seq<Feature>, i: int) {
    && 0 <= i < |features| && features[i].Point? && |features[i].coordinates| >= 2
    && features[i].coordinates[0].Number? && features[i].coordinates[1].Number?
    && box.minLon <= features[i].coordinates[0].value <= box.maxLon
    && box.minLat <= features[i].coordinates[1].value <= box.maxLat
  }

  /** The proposal shows the i-th feature: its place in the feed, longitude first, with the time, the resolution and the
      reference of the feed. */
  predicate ShowsFeature(item: Item, reference: string, features: seq<Feature>, i: int, p: Proposal)
    requires item.hotspots.Some?
  {
    && PointInBox(item.hotspots.value.bbox, features, i)
    && p == Projected(OfHotspot(item.inputId, i + 1), item.hotspots.value.acquiredAt,
                      features[i].coordinates[0].value, features[i].coordinates[1].value,
                      item.hotspots.value.resolutionM, reference)
  }

  /** The proposals of a feed that is not refused: one for each point in the box, in the order of the feed, and a
      single refusal when there is no such point. */
  lemma FeedTells(item: Item, reference: Option<string>, proposals: seq<Proposal>)
    requires !FeedRaises(item, reference) && Insufficiency(item, reference) == None
    requires FeedAnswer(item, reference, proposals)
    ensures item.hotspots.Some? && item.payload.Some? && item.payload.value.Features? && reference.Some?
    ensures var features := item.payload.value.features;
      if exists i :: PointInBox(item.hotspots.value.bbox, features, i) then
        && (forall p | p in proposals :: ShowsOne(item, reference.value, features, p))
        && (forall i: nat | PointInBox(item.hotspots.value.bbox, features, i) ::
              IsShown(item, reference.value, features, i, proposals))
        && (forall k | 0 <= k < |proposals| :: proposals[k].subject.OfHotspot?)
        && (forall k, l | 0 <= k < l < |proposals| :: proposals[k].subject.index < proposals[l].subject.index)
      else proposals == [Insufficient(OfItem(item.inputId), "hotspot_observations_empty")]
  {
    RefusalOfAFeed(item, reference);
    assert item.payload.value.Features?;
    hide Insufficiency, FeedRaises;
    var box, features := item.hotspots.value.bbox, item.payload.value.features;
    UsableAt(box, features);
    hide PointInBox, Usable, Placed, Collects, ShowsOne, IsShown;
    if exists i :: PointInBox(box, features, i) {
      assert exists f | f in features :: Usable(box, f);
      ShowsAll(item, reference.value, proposals);
      InIndexOrder(item, reference.value, proposals);
    }
  }

  lemma UsableAt(box: Box, features: seq<Feature>)
    ensures forall i | 0 <= i < |features| :: Usable(box, features[i]) <==> PointInBox(box, features, i)
    ensures (exists f | f in features :: Usable(box, f)) <==> exists i :: PointInBox(box, features, i)
  {
    if f :| f in features && Usable(box, f) {
      var i :| 0 <= i < |features| && features[i] == f;
      assert PointInBox(box, features, i);
    }
    if i :| PointInBox(box, features, i) { assert features[i] in features; }
  }

  /** The proposal shows one of the features. */
  predicate ShowsOne(item: Item, reference: string, features: seq<Feature>, p: Proposal) {
    item.hotspots.Some? && p.subject.OfHotspot? && p.subject.index > 0
    && ShowsFeature(item, reference, features, p.subject.index - 1, p)
  }

  /** One of the proposals shows the i-th feature. */
  ghost predicate IsShown(item: Item, reference: string, features: seq<Feature>, i: nat, proposals: seq<Proposal>)
    requires item.hotspots.Some?
  {
    exists p :: p in proposals && ShowsFeature(item, reference, features, i, p)
  }

  lemma FromFeatureShows(item: Item, reference: string, n: nat, p: Proposal)
    requires item.hotspots.Some? && item.payload.Some? && item.payload.value.Features?
    requires n <= |item.payload.value.features| && FromFeature(item, reference, n, p)
    ensures ShowsOne(item, reference, item.payload.value.features, p)
  {}

  lemma PlacedShows(item: Item, reference: string, features: seq<Feature>, i: nat)
    requires item.hotspots.Some? && i < |features| && Usable(item.hotspots.value.bbox, features[i])
    ensures ShowsFeature(item, reference, features, i, Placed(item, reference, i + 1, features[i]))
  {}

  lemma ShowsAll(item: Item, reference: string, proposals: seq<Proposal>)
    requires item.hotspots.Some? && item.payload.Some? && item.payload.value.Features?
    requires Collects(item, reference, |item.payload.value.features|, proposals)
    ensures var features := item.payload.value.features;
      && (forall p | p in proposals :: ShowsOne(item, reference, features, p))
      && (forall i: nat | PointInBox(item.hotspots.value.bbox, features, i) ::
            IsShown(item, reference, features, i, proposals))
  {
    var box, features := item.hotspots.value.bbox, item.payload.value.features;
    UsableAt(box, features);
    hide PointInBox, Usable, FromFeature, Placed, ShowsFeature, ShowsOne;
    forall p | p in proposals ensures ShowsOne(item, reference, features, p) {
      var k :| 0 <= k < |proposals| && proposals[k] == p;
      FromFeatureShows(item, reference, |features|, proposals[k]);
    }
    forall i: nat | PointInBox(box, features, i) ensures IsShown(item, reference, features, i, proposals) {
      InBounds(box, features, i);
      PlacedShows(item, reference, features, i);
    }
  }

  lemma InBounds(box: Box, features: seq<Feature>, i: int)
    requires PointInBox(box, features, i)
    ensures 0 <= i < |features|
  {}

  lemma InIndexOrder(item: Item, reference: string, proposals: seq<Proposal>)
    requires item.hotspots.Some? && item.payload.Some? && item.payload.value.Features?
    requires Collects(item, reference, |item.payload.value.features|, proposals)
    ensures forall k | 0 <= k < |proposals| :: proposals[k].subject.OfHotspot?
    ensures forall k, l | 0 <= k < l < |proposals| :: proposals[k].subject.index < proposals[l].subject.index
  {
    hide Usable, Placed;
    forall k | 0 <= k < |proposals| ensures proposals[k].subject.OfHotspot? {
      assert FromFeature(item, reference, |item.payload.value.features|, proposals[k]);
    }
  }

  // ----- a point of an image -----

  /** Where the affine transform of an image puts a point given as fractions of its width and height. */
  ghost predicate LiesAt(image: SatelliteImage, point: (real, real), longitude: real, latitude: real) {
    var column, row := point.0 * image.width as real, point.1 * image.height as real;
    && longitude == image.transform.originX + column * image.transform.pixelX + row * image.transform.rotationX
    && latitude == image.transform.originY + column * image.transform.rotationY + row * image.transform.pixelY
  }

  /** An annotation is placed exactly when its item is an image in geographic coordinates, there is a reference, and its
      point lies on the globe; the proposal is at that place, with twice the resolution but at least a metre for
      accuracy, and of the time of the image. */
  lemma WhereAnAnnotationLies(item: Item, reference: Option<string>, annotation: Annotation, p: Proposal)
    requires AnswersAnnotation(item, reference, annotation, p)
    ensures p.Projected? <==>
      && item.satellite.Some? && reference.Some? && annotation.point.Some? && item.satellite.value.geographicCrs
      && exists longitude, latitude :: LiesAt(item.satellite.value, annotation.point.value, longitude, latitude)
           && -180.0 <= longitude <= 180.0 && -90.0 <= latitude <= 90.0
    ensures p.Projected? ==>
      var image := item.satellite.value;
      && LiesAt(image, annotation.point.value, p.longitude, p.latitude)
      && p.subject == OfAnnotation(annotation.annotationId) && p.observedAt == image.acquiredAt
      && Some(p.reference) == reference
      && (image.resolutionM <= 0.5 ==> p.accuracyM == 1.0)
      && (image.resolutionM > 0.5 ==> p.accuracyM == 2.0 * image.resolutionM)
    ensures p.Insufficient? ==>
      p == Insufficient(OfAnnotation(annotation.annotationId), AbstentionCode(item, reference))
  {
    if item.satellite.Some? && annotation.point.Some? {
      var position := Ground(item.satellite.value, annotation.point.value);
      assert LiesAt(item.satellite.value, annotation.point.value, position.0, position.1);
    }
    hide AbstentionCode;
  }

  /** Why an annotation is not placed, by the first thing that is missing. */
  lemma WhyNotPlaced(item: Item, reference: Option<string>)
    ensures var code := AbstentionCode(item, reference);
      var imagery := item.mediaType == SatelliteImagery;
      && (code == "reference_bundle_missing" <==> reference.None?)
      && (code == "satellite_crs_projection_unsupported" <==> reference.Some? && imagery)
      && (code == "camera_pose_missing" <==> reference.Some? && !imagery && item.camera.None?)
      && (code == "camera_position_missing" <==>
            reference.Some? && !imagery && item.camera.Some?
            && !(item.camera.value.latitude.Some? && item.camera.value.longitude.Some?))
      && (code == "camera_orientation_missing" <==>
            reference.Some? && !imagery && item.camera.Some?
            && item.camera.value.latitude.Some? && item.camera.value.longitude.Some? && item.camera.value.yawDeg.None?)
      && (code == "terrain_raycast_unavailable" <==>
            reference.Some? && !imagery && item.camera.Some?
            && item.camera.value.latitude.Some? && item.camera.value.longitude.Some? && item.camera.value.yawDeg.Some?)
  {}

  /** An image is too coarse for a proposal exactly above 50 km a pixel. */
  lemma CoarseImages(item: Item)
    ensures TooCoarse(item) <==> item.satellite.Some? && item.satellite.value.resolutionM > 50000.0
  {}
}
