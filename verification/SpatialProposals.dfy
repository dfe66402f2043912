/** The geometry the v2 runner derives by itself: hotspots of a satellite feed, and image points placed through the
    image's own geotransform. Everything else abstains with a reason. */
module SpatialProposals {
  import opened Prelude

  /** A JSON number too large for a float is a number until it is converted. */
  datatype Coordinate = Number(value: real) | TooLarge | NotANumber

  /** A GeoJSON feature as far as it is looked at. */
  datatype Feature = NoPoint | Point(coordinates: seq<Coordinate>)

  /** The article text of a satellite feed once parsed. Text that is no JSON counts as no collection; `Unparsable` is
      text the parser gives up on otherwise (a number with too many digits, too deep a nesting). */
  datatype Payload = Unparsable | NoCollection | NoFeatureList | Features(features: seq<Feature>)

  datatype Box = Box(minLon: real, minLat: real, maxLon: real, maxLat: real)

  datatype Hotspots = Hotspots(bbox: Box, acquiredAt: string, resolutionM: real)

  datatype Transform = Transform(
    originX: real,
    pixelX: real,
    rotationX: real,
    originY: real,
    rotationY: real,
    pixelY: real)

  datatype SatelliteImage = SatelliteImage(
    geographicCrs: bool,
    width: nat,
    height: nat,
    transform: Transform,
    acquiredAt: string,
    resolutionM: real)

  datatype Camera = Camera(latitude: Option<real>, longitude: Option<real>, yawDeg: Option<real>)

  datatype MediaType = SatelliteData | SatelliteImagery | OtherMedia

  datatype Item = Item(
    inputId: string,
    mediaType: MediaType,
    capturedAt: Option<string>,
    hasImagery: bool,
    payload: Option<Payload>,
    hotspots: Option<Hotspots>,
    satellite: Option<SatelliteImage>,
    camera: Option<Camera>)

  datatype Annotation = Annotation(annotationId: string, point: Option<(real, real)>)

  /** What the id of a proposal is made of. */
  datatype Subject =
    | OfHotspot(inputId: string, index: nat)
    | OfAnnotation(annotationId: string)
    | OfItem(inputId: string)

  datatype Proposal =
    | Projected(subject: Subject, observedAt: string, longitude: real, latitude: real, accuracyM: real,
                reference: string)
    | Insufficient(subject: Subject, code: string)

  const MAX_FEATURES := 5000

  /** The largest accuracy the contract of a proposal allows. */
  const MAX_ACCURACY_M := 100000.0

  // ----- hotspots -----

  predicate Inside(box: Box, longitude: real, latitude: real) {
    box.minLon <= longitude <= box.maxLon && box.minLat <= latitude <= box.maxLat
  }

  /** A point feature whose position cannot be converted. */
  predicate Overflows(f: Feature) {
    f.Point? && |f.coordinates| >= 2 && !f.coordinates[0].NotANumber? && !f.coordinates[1].NotANumber?
    && (f.coordinates[0].TooLarge? || f.coordinates[1].TooLarge?)
  }

  /** A point feature with two numbers inside the hotspots' own box. */
  predicate Usable(box: Box, f: Feature) {
    f.Point? && |f.coordinates| >= 2 && f.coordinates[0].Number? && f.coordinates[1].Number?
    && Inside(box, f.coordinates[0].value, f.coordinates[1].value)
  }

  function Placed(item: Item, reference: string, index: nat, f: Feature): Proposal
    requires item.hotspots.Some? && Usable(item.hotspots.value.bbox, f)
  {
    Projected(OfHotspot(item.inputId, index), item.hotspots.value.acquiredAt, f.coordinates[0].value,
              f.coordinates[1].value, item.hotspots.value.resolutionM, reference)
  }

  function Insufficiency(item: Item, reference: Option<string>): Option<string> {
    if item.hotspots.None? || item.payload.None? then Some("hotspot_metadata_missing")
    else if reference.None? then Some("reference_bundle_missing")
    else if item.payload.value.NoCollection? then Some("hotspot_geojson_invalid")
    else if item.payload.value.NoFeatureList? then Some("hotspot_feature_count_invalid")
    else if item.payload.value.Features? && |item.payload.value.features| > MAX_FEATURES then
      Some("hotspot_feature_count_invalid")
    else None
  }

  /** The conversion of a satellite feed raises: its text defeats the parser, or a position does not fit a float. */
  predicate FeedRaises(item: Item, reference: Option<string>) {
    Insufficiency(item, reference).None?
    && (item.payload.value.Unparsable? || exists f | f in item.payload.value.features :: Overflows(f))
  }

  /** What a satellite feed that does not raise is turned into: one refusal with its reason, or exactly the usable
      features, in order and under their positions. */
  ghost predicate FeedAnswer(item: Item, reference: Option<string>, proposals: seq<Proposal>)
    requires !FeedRaises(item, reference)
  {
    match Insufficiency(item, reference)
    case Some(code) => proposals == [Insufficient(OfItem(item.inputId), code)]
    case None =>
      var features := item.payload.value.features;
      && proposals != []
      && if exists f | f in features :: Usable(item.hotspots.value.bbox, f)
         then Collects(item, reference.value, |features|, proposals)
         else proposals == [Insufficient(OfItem(item.inputId), "hotspot_observations_empty")]
  }

  /** The proposals are the usable features among the first n, in order: none is missing, none is invented. */
  ghost predicate Collects(item: Item, reference: string, n: nat, proposals: seq<Proposal>)
    requires item.hotspots.Some? && item.payload.Some? && item.payload.value.Features?
    requires n <= |item.payload.value.features|
  {
    var box, features := item.hotspots.value.bbox, item.payload.value.features;
    && (forall k | 0 <= k < |proposals| :: FromFeature(item, reference, n, proposals[k]))
    && (forall k, l | 0 <= k < l < |proposals| :: proposals[k].subject.index < proposals[l].subject.index)
    && (forall i | 0 <= i < n && Usable(box, features[i]) :: Placed(item, reference, i + 1, features[i]) in proposals)
  }

  ghost predicate FromFeature(item: Item, reference: string, n: nat, p: Proposal)
    requires item.hotspots.Some? && item.payload.Some? && item.payload.value.Features?
    requires n <= |item.payload.value.features|
  {
    var box, features := item.hotspots.value.bbox, item.payload.value.features;
    && p.subject.OfHotspot?
    && 1 <= p.subject.index <= n
    && Usable(box, features[p.subject.index - 1])
    && p == Placed(item, reference, p.subject.index, features[p.subject.index - 1])
  }

  /** `_hotspot_spatial_proposals`. */
  method HotspotProposals(item: Item, reference: Option<string>) returns (r: Outcome<seq<Proposal>>)
    ensures r.Raised? <==> FeedRaises(item, reference)
    ensures r.Returned? ==> r.value != [] && FeedAnswer(item, reference, r.value)
  {
    var refusal := Insufficiency(item, reference);
    if refusal.Some? {
      return Returned([Insufficient(OfItem(item.inputId), refusal.value)]);
    }
    if item.payload.value.Unparsable? {
      return Raised(OtherException);
    }
    var box, features := item.hotspots.value.bbox, item.payload.value.features;
    var proposals: seq<Proposal> := [];
    for i := 0 to |features|
      invariant Collects(item, reference.value, i, proposals)
      invariant forall f | f in features[..i] :: !Overflows(f)
    {
      var feature := features[i];
      assert features[..i + 1] == features[..i] + [feature];
      if feature.NoPoint? {
        continue;
      }
      var coordinates := feature.coordinates;
      if |coordinates| < 2 || coordinates[0].NotANumber? || coordinates[1].NotANumber? {
        continue;
      }
      if coordinates[0].TooLarge? || coordinates[1].TooLarge? {
        assert Overflows(feature) && feature in features;
        return Raised(OtherException);
      }
      if !Inside(box, coordinates[0].value, coordinates[1].value) {
        continue;
      }
      CollectsMore(item, reference.value, i, proposals);
      proposals := proposals + [Placed(item, reference.value, i + 1, feature)];
    }
    assert features[..|features|] == features;
    if proposals == [] {
      proposals := [Insufficient(OfItem(item.inputId), "hotspot_observations_empty")];
    } else {
      assert FromFeature(item, reference.value, |features|, proposals[0]);
    }
    r := Returned(proposals);
  }

  lemma CollectsMore(item: Item, reference: string, i: nat, proposals: seq<Proposal>)
    requires item.hotspots.Some? && item.payload.Some? && item.payload.value.Features?
    requires i < |item.payload.value.features| && Collects(item, reference, i, proposals)
    requires Usable(item.hotspots.value.bbox, item.payload.value.features[i])
    ensures var placed := Placed(item, reference, i + 1, item.payload.value.features[i]);
      Collects(item, reference, i + 1, proposals + [placed])
  {
    hide Usable;
    var p := Placed(item, reference, i + 1, item.payload.value.features[i]);
    assert FromFeature(item, reference, i + 1, p);
    forall k | 0 <= k < |proposals|
      ensures FromFeature(item, reference, i + 1, proposals[k]) && proposals[k].subject.index <= i
    {
      assert FromFeature(item, reference, i, proposals[k]);
    }
  }

  // ----- image points -----

  /** Where the geotransform puts a point of the image. */
  function Ground(image: SatelliteImage, point: (real, real)): (real, real) {
    var x, y := point.0 * image.width as real, point.1 * image.height as real;
    var t := image.transform;
    (t.originX + x * t.pixelX + y * t.rotationX, t.originY + x * t.rotationY + y * t.pixelY)
  }

  predicate OnEarth(position: (real, real)) {
    -180.0 <= position.0 <= 180.0 && -90.0 <= position.1 <= 90.0
  }

  /** `_satellite_ground_point`. */
  function GroundPoint(item: Item, reference: Option<string>, annotation: Annotation): Option<Proposal> {
    if item.satellite.None? || reference.None? || annotation.point.None? then None
    else
      var image := item.satellite.value;
      var position := Ground(image, annotation.point.value);
      if !image.geographicCrs || !OnEarth(position) then None
      else
        Some(Projected(OfAnnotation(annotation.annotationId), image.acquiredAt, position.0, position.1,
                       if image.resolutionM * 2.0 >= 1.0 then image.resolutionM * 2.0 else 1.0, reference.value))
  }

  function AbstentionCode(item: Item, reference: Option<string>): string {
    if reference.None? then "reference_bundle_missing"
    else if item.mediaType.SatelliteImagery? then "satellite_crs_projection_unsupported"
    else if item.camera.None? then "camera_pose_missing"
    else if item.camera.value.latitude.None? || item.camera.value.longitude.None? then "camera_position_missing"
    else if item.camera.value.yawDeg.None? then "camera_orientation_missing"
    else "terrain_raycast_unavailable"
  }

  predicate Placeable(item: Item, reference: Option<string>, annotation: Annotation) {
    && item.satellite.Some? && reference.Some? && annotation.point.Some? && item.satellite.value.geographicCrs
    && OnEarth(Ground(item.satellite.value, annotation.point.value))
  }

  /** The accuracy of an image point is twice the resolution, at least a metre; a coarse enough image exceeds what the
      contract of a proposal allows. */
  predicate TooCoarse(item: Item) {
    item.satellite.Some? && item.satellite.value.resolutionM * 2.0 > MAX_ACCURACY_M
  }

  /** One proposal per annotation, in order: projected exactly when the image itself can place the point on the globe,
      at that place, and otherwise an abstention with the reason. */
  ghost predicate AnswersAnnotations(item: Item, reference: Option<string>, annotations: seq<Annotation>,
                                     proposals: seq<Proposal>)
  {
    && |proposals| == |annotations|
    && forall i | 0 <= i < |annotations| :: AnswersAnnotation(item, reference, annotations[i], proposals[i])
  }

  ghost predicate AnswersAnnotation(item: Item, reference: Option<string>, annotation: Annotation, p: Proposal) {
    && p.subject == OfAnnotation(annotation.annotationId)
    && (p.Projected? <==> Placeable(item, reference, annotation))
    && (p.Projected? ==>
          && (p.longitude, p.latitude) == Ground(item.satellite.value, annotation.point.value)
          && OnEarth((p.longitude, p.latitude)) && 1.0 <= p.accuracyM <= MAX_ACCURACY_M
          && p.observedAt == item.satellite.value.acquiredAt && Some(p.reference) == reference
          && p.accuracyM == (if item.satellite.value.resolutionM > 0.5 then 2.0 * item.satellite.value.resolutionM
                             else 1.0))
    && (p.Insufficient? ==> p.code == AbstentionCode(item, reference))
  }

  /** `_spatial_proposals`. It raises exactly when the feed does, or when a point can be placed on too coarse an
      image. */
  method FallbackProposals(item: Item, reference: Option<string>, annotations: seq<Annotation>)
    returns (r: Outcome<seq<Proposal>>)
    ensures r.Raised? <==>
      if item.mediaType.SatelliteData? then FeedRaises(item, reference)
      else TooCoarse(item) && exists a | a in annotations :: Placeable(item, reference, a)
    ensures r.Returned? && item.mediaType.SatelliteData? ==> r.value != [] && FeedAnswer(item, reference, r.value)
    ensures r.Returned? && !item.mediaType.SatelliteData? ==>
      if annotations == [] && item.hasImagery
      then r.value == [Insufficient(OfItem(item.inputId), "active_fire_anchor_not_extracted")]
      else AnswersAnnotations(item, reference, annotations, r.value)
  {
    if item.mediaType.SatelliteData? {
      r := HotspotProposals(item, reference);
      return;
    }
    if annotations == [] && item.hasImagery {
      return Returned([Insufficient(OfItem(item.inputId), "active_fire_anchor_not_extracted")]);
    }
    hide AbstentionCode, Ground;
    var proposals: seq<Proposal> := [];
    for i := 0 to |annotations|
      invariant AnswersAnnotations(item, reference, annotations[..i], proposals)
      invariant forall a | a in annotations[..i] :: !(TooCoarse(item) && Placeable(item, reference, a))
    {
      var annotation := annotations[i];
      assert annotations[..i + 1] == annotations[..i] + [annotation];
      var projected := GroundPoint(item, reference, annotation);
      if projected.Some? && projected.value.accuracyM > MAX_ACCURACY_M {
        assert annotation in annotations;
        return Raised(OtherException);
      }
      proposals := proposals + [
        if projected.Some? then projected.value
        else Insufficient(OfAnnotation(annotation.annotationId), AbstentionCode(item, reference))];
    }
    assert annotations[..|annotations|] == annotations;
    r := Returned(proposals);
  }
}
