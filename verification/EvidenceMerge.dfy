/** Merging evidence records of one event: a keyed union of nine collections that fails on conflicting
    records and lists each collection by ascending id. */
module EvidenceMerge {
  import opened Prelude
  import opened Ordering

  datatype Kind =
    | Sources
    | Claims
    | Media
    | VisualObservations
    | SatelliteObservations
    | LocationCandidates
    | CandidateClusters
    | Contradictions
    | Uncertainties

  /** What a record refers to: an id among certain kinds, the video a keyframe was taken from (of the same media
      group), or the event itself. */
  datatype Reference =
    | Known(kinds: set<Kind>, id: string)
    | ParentVideo(id: string, group: string)
    | ThisEvent(id: string)

  /** One evidence record. `videoGroup` is the media group of a video; `body` stands for all that neither is an id
      nor refers to one. */
  datatype Record = Record(id: string, body: string, videoGroup: Option<string>, references: seq<Reference>)

  datatype Area = Area(body: string, sources: set<string>)

  /** `others` stands for the fields the merge leaves as they are in its first argument. */
  datatype Evidence = Evidence(
    eventId: string,
    timeWindow: string,
    candidateArea: Option<Area>,
    others: string,
    sources: seq<Record>,
    claims: seq<Record>,
    media: seq<Record>,
    visualObservations: seq<Record>,
    satelliteObservations: seq<Record>,
    locationCandidates: seq<Record>,
    candidateClusters: seq<Record>,
    contradictions: seq<Record>,
    uncertainties: seq<Record>,
    needsHumanReview: bool)
  {
    function Get(kind: Kind): seq<Record> {
      match kind
      case Sources => sources
      case Claims => claims
      case Media => media
      case VisualObservations => visualObservations
      case SatelliteObservations => satelliteObservations
      case LocationCandidates => locationCandidates
      case CandidateClusters => candidateClusters
      case Contradictions => contradictions
      case Uncertainties => uncertainties
    }
  }

  datatype MergeError =
    | NothingToMerge
    | DifferentEvents
    | DifferentTimeWindows
    | DifferentAreas
    | Conflict(kind: Kind, id: string)
    | InvalidGraph

  datatype MergeResult<T> = Merged(value: T) | Refused(error: MergeError)

  // ----- one collection -----

  function AllOf(collections: seq<seq<Record>>): set<Record> {
    set c, item | c in collections && item in c :: item
  }

  ghost predicate Consistent(items: set<Record>) {
    forall x, y | x in items && y in items && x.id == y.id :: x == y
  }

  /** Two different records share the id. */
  ghost predicate Conflicting(items: set<Record>, id: string) {
    exists x, y :: x in items && y in items && x.id == id && y.id == id && x != y
  }

  function IdsOf(items: set<Record>): set<string> {
    set item | item in items :: item.id
  }

  function ById(items: set<Record>): map<string, Record>
    requires Consistent(items)
  {
    map item | item in items :: item.id := item
  }

  /** The canonical form of a consistent set: its records by ascending id. */
  function Canonical(items: set<Record>): (s: seq<Record>)
    requires Consistent(items)
  {
    var ids := SortedStrings(IdsOf(items));
    assert forall i | 0 <= i < |ids| :: ids[i] in IdsOf(items);
    seq(|ids|, i requires 0 <= i < |ids| => ById(items)[ids[i]])
  }

  function IdList(s: seq<Record>): seq<string> {
    seq(|s|, i requires 0 <= i < |s| => s[i].id)
  }

  /** Strictly ascending by id, and exactly the given records. */
  ghost predicate ListsById(s: seq<Record>, items: set<Record>) {
    && Ascending(IdList(s), StringLess)
    && (forall x :: x in s <==> x in items)
  }

  lemma CanonicalAt(items: set<Record>, i: nat)
    requires Consistent(items) && i < |Canonical(items)|
    ensures Canonical(items)[i] in items && Canonical(items)[i].id == SortedStrings(IdsOf(items))[i]
  {
    hide SortedStrings;
    var id := SortedStrings(IdsOf(items))[i];
    assert id in IdsOf(items);
    var x :| x in items && x.id == id;
    assert ById(items)[id] == x;
  }

  lemma CanonicalLists(items: set<Record>)
    requires Consistent(items)
    ensures ListsById(Canonical(items), items)
  {
    hide SortedStrings, StringLess;
    var ids, s := SortedStrings(IdsOf(items)), Canonical(items);
    forall i | 0 <= i < |s| ensures s[i] in items && s[i].id == ids[i] { CanonicalAt(items, i); }
    assert IdList(s) == ids;
    hide Canonical;
    forall x | x in items ensures x in s {
      assert x.id in ids;
      var i :| 0 <= i < |ids| && ids[i] == x.id;
      assert s[i] == x;
    }
  }

  lemma IdListLists(s: seq<Record>, items: set<Record>)
    requires ListsById(s, items)
    ensures Lists(IdList(s), IdsOf(items))
  {
    hide StringLess;
    forall id | id in IdsOf(items) ensures id in IdList(s) {
      var x :| x in items && x.id == id;
      var i :| 0 <= i < |s| && s[i] == x;
      assert IdList(s)[i] == id;
    }
    forall id | id in IdList(s) ensures id in IdsOf(items) {
      var i :| 0 <= i < |s| && IdList(s)[i] == id;
      assert s[i] in s;
    }
  }

  /** Only one sequence lists a set by id. */
  lemma ListingUnique(s: seq<Record>, items: set<Record>)
    requires Consistent(items) && ListsById(s, items)
    ensures s == Canonical(items)
  {
    hide StringLess, Canonical, SortedStrings;
    CanonicalLists(items);
    var t := Canonical(items);
    IdListLists(s, items);
    IdListLists(t, items);
    SortedStringsUnique(IdList(s), IdsOf(items));
    SortedStringsUnique(IdList(t), IdsOf(items));
    assert |IdList(s)| == |s| && |IdList(t)| == |t|;
    forall i | 0 <= i < |s| ensures s[i] == t[i] {
      assert s[i] in s && t[i] in t;
      assert IdList(s)[i] == IdList(t)[i];
    }
  }

  lemma ListingConsistent(s: seq<Record>, items: set<Record>)
    requires ListsById(s, items)
    ensures Consistent(items)
  {
    forall x, y | x in items && y in items && x.id == y.id ensures x == y {
      var i :| 0 <= i < |s| && s[i] == x;
      var j :| 0 <= j < |s| && s[j] == y;
      StringLessIrreflexive(x.id);
      assert IdList(s)[i] == IdList(s)[j];
    }
  }

  /** The dictionary after some of the items: every seen record under its id. */
  ghost predicate Indexes(merged: map<string, Record>, seen: set<Record>) {
    && (forall id | id in merged :: merged[id] in seen && merged[id].id == id)
    && (forall x | x in seen :: x.id in merged && merged[x.id] == x)
  }

  lemma IndexesMeans(merged: map<string, Record>, seen: set<Record>)
    requires Indexes(merged, seen)
    ensures Consistent(seen) && merged.Keys == IdsOf(seen) && merged == ById(seen)
  {}

  /** The j-th item of the collection clashes with a record seen before it, and nothing before it clashes. */
  ghost predicate Clashed(seen: set<Record>, collection: seq<Record>, j: int, item: Record) {
    && 0 <= j < |collection| && collection[j] == item
    && var before := seen + set x | x in collection[..j];
       && Consistent(before)
       && exists x :: x in before && x.id == item.id && x != item
  }

  /** The inner loop of `_merge_records`: one collection into the dictionary, up to the first item that clashes
      with a record already there. */
  method MergeCollection(merged: map<string, Record>, collection: seq<Record>, ghost seen: set<Record>)
    returns (grown: map<string, Record>, clash: Option<Record>)
    requires Indexes(merged, seen)
    ensures clash.None? ==> Indexes(grown, seen + set item | item in collection)
    ensures clash.Some? ==>
      && clash.value in collection && Conflicting(seen + (set item | item in collection), clash.value.id)
      && exists j :: Clashed(seen, collection, j, clash.value)
  {
    grown := merged;
    ghost var now := seen;
    for j := 0 to |collection|
      invariant Indexes(grown, now)
      invariant now == seen + set item | item in collection[..j]
    {
      var item := collection[j];
      if item.id in grown && grown[item.id] != item {
        assert grown[item.id] in now && now <= seen + set x | x in collection;
        IndexesMeans(grown, now);
        assert Clashed(seen, collection, j, item);
        return grown, Some(item);
      }
      grown := grown[item.id := item];
      assert collection[..j + 1] == collection[..j] + [item];
      now := now + {item};
    }
    assert collection[..|collection|] == collection;
    clash := None;
  }

  lemma ConflictSpreads(items: set<Record>, more: set<Record>, id: string)
    requires Conflicting(items, id) && items <= more
    ensures Conflicting(more, id) && !Consistent(more)
  {}

  lemma AllOfPrefix(collections: seq<seq<Record>>, i: nat)
    requires i < |collections|
    ensures AllOf(collections[..i + 1]) == AllOf(collections[..i]) + set item | item in collections[i]
    ensures AllOf(collections[..i + 1]) <= AllOf(collections)
  {
    assert collections[..i + 1] == collections[..i] + [collections[i]];
    forall x | x in AllOf(collections[..i + 1]) ensures x in AllOf(collections) {
      var c :| c in collections[..i + 1] && x in c;
      assert c in collections;
    }
  }

  /** Read one after the other, the collections first clash at the j-th item of the i-th of them. */
  ghost predicate FirstClash(collections: seq<seq<Record>>, i: int, j: int, id: string) {
    0 <= i < |collections|
    && exists item: Record :: item.id == id && Clashed(AllOf(collections[..i]), collections[i], j, item)
  }

  /** `_merge_records`: fills a dictionary in nested loops and lists it by sorted id. */
  method MergeRecords(collections: seq<seq<Record>>, kind: Kind) returns (r: MergeResult<seq<Record>>)
    ensures r.Merged? <==> Consistent(AllOf(collections))
    ensures r.Merged? ==> r.value == Canonical(AllOf(collections))
    ensures r.Refused? ==> r.error.Conflict? && r.error.kind == kind && Conflicting(AllOf(collections), r.error.id)
    ensures r.Refused? ==> exists i, j :: FirstClash(collections, i, j, r.error.id)
  {
    hide SortedStrings, Canonical, Consistent, Conflicting, IdsOf, Indexes, Clashed;
    var merged: map<string, Record> := map[];
    ghost var seen: set<Record> := {};
    NothingIndexed();
    for i := 0 to |collections|
      invariant Indexes(merged, seen)
      invariant seen == AllOf(collections[..i])
    {
      AllOfPrefix(collections, i);
      ghost var before := seen;
      var clash;
      merged, clash := MergeCollection(merged, collections[i], seen);
      seen := seen + set item | item in collections[i];
      if clash.Some? {
        ConflictSpreads(seen, AllOf(collections), clash.value.id);
        ghost var j :| Clashed(before, collections[i], j, clash.value);
        assert FirstClash(collections, i, j, clash.value.id);
        return Refused(Conflict(kind, clash.value.id));
      }
    }
    assert collections[..|collections|] == collections;
    IndexesMeans(merged, seen);
    var ids := SortedStrings(merged.Keys);
    assert forall i | 0 <= i < |ids| :: ids[i] in merged.Keys;
    var listed := seq(|ids|, i requires 0 <= i < |ids| => merged[ids[i]]);
    ListedIsCanonical(merged, seen, ids, listed);
    r := Merged(listed);
  }

  lemma NothingIndexed()
    ensures Indexes(map[], {})
  {}

  lemma ListedIsCanonical(merged: map<string, Record>, seen: set<Record>, ids: seq<string>, listed: seq<Record>)
    requires Indexes(merged, seen) && Consistent(seen)
    requires ids == SortedStrings(merged.Keys) && |listed| == |ids|
    requires forall i | 0 <= i < |ids| :: ids[i] in merged && listed[i] == merged[ids[i]]
    ensures listed == Canonical(seen)
  {
    hide SortedStrings;
    IndexesMeans(merged, seen);
  }

  // ----- whole evidence records -----

  function KindItems(records: seq<Evidence>, kind: Kind): set<Record> {
    set e, item | e in records && item in e.Get(kind) :: item
  }

  predicate SameHeader(a: Evidence, b: Evidence) {
    a.eventId == b.eventId && a.timeWindow == b.timeWindow && a.candidateArea == b.candidateArea
  }

  ghost predicate HeadersAgree(records: seq<Evidence>) {
    forall a, b | a in records && b in records :: SameHeader(a, b)
  }

  /** The records can be merged: there is one, their headers agree, and no two of their records share an id
      without being equal. */
  ghost predicate Joinable(records: seq<Evidence>) {
    && records != []
    && HeadersAgree(records)
    && forall kind :: Consistent(KindItems(records, kind))
  }

  ghost function Listing(records: seq<Evidence>, kind: Kind): seq<Record>
    requires Joinable(records)
  {
    Canonical(KindItems(records, kind))
  }

  ghost function JoinOf(records: seq<Evidence>): Evidence
    requires Joinable(records)
  {
    records[0].(
      sources := Listing(records, Sources),
      claims := Listing(records, Claims),
      media := Listing(records, Media),
      visualObservations := Listing(records, VisualObservations),
      satelliteObservations := Listing(records, SatelliteObservations),
      locationCandidates := Listing(records, LocationCandidates),
      candidateClusters := Listing(records, CandidateClusters),
      contradictions := Listing(records, Contradictions),
      uncertainties := Listing(records, Uncertainties),
      needsHumanReview := exists e | e in records :: e.needsHumanReview)
  }

  /** The collections of one kind, in the order of the records. */
  function Collections(records: seq<Evidence>, kind: Kind): seq<seq<Record>> {
    seq(|records|, i requires 0 <= i < |records| => records[i].Get(kind))
  }

  method MergeKind(records: seq<Evidence>, kind: Kind) returns (r: MergeResult<seq<Record>>)
    ensures r.Merged? <==> Consistent(KindItems(records, kind))
    ensures r.Merged? ==> r.value == Canonical(KindItems(records, kind))
    ensures r.Refused? ==>
      && r.error.Conflict? && r.error.kind == kind && Conflicting(KindItems(records, kind), r.error.id)
      && exists i, j :: FirstClash(Collections(records, kind), i, j, r.error.id)
  {
    hide Canonical, Consistent, Conflicting, FirstClash;
    KindCollections(records, kind);
    r := MergeRecords(Collections(records, kind), kind);
  }

  lemma KindCollections(records: seq<Evidence>, kind: Kind)
    ensures AllOf(Collections(records, kind)) == KindItems(records, kind)
  {
    var collections := Collections(records, kind);
    forall x | x in KindItems(records, kind) ensures x in AllOf(collections) {
      var e :| e in records && x in e.Get(kind);
      var i :| 0 <= i < |records| && records[i] == e;
      assert collections[i] in collections && x in collections[i];
    }
    forall x | x in AllOf(collections) ensures x in KindItems(records, kind) {
      var c :| c in collections && x in c;
      var i :| 0 <= i < |collections| && collections[i] == c;
      assert records[i] in records;
    }
  }

  /** The fields merged in source order. */
  const KINDS: seq<Kind> :=
    [Sources, Claims, Media, VisualObservations, SatelliteObservations, LocationCandidates, CandidateClusters,
     Contradictions, Uncertainties]

  function WithListing(e: Evidence, kind: Kind, listing: seq<Record>): Evidence {
    match kind
    case Sources => e.(sources := listing)
    case Claims => e.(claims := listing)
    case Media => e.(media := listing)
    case VisualObservations => e.(visualObservations := listing)
    case SatelliteObservations => e.(satelliteObservations := listing)
    case LocationCandidates => e.(locationCandidates := listing)
    case CandidateClusters => e.(candidateClusters := listing)
    case Contradictions => e.(contradictions := listing)
    case Uncertainties => e.(uncertainties := listing)
  }

  // ----- the evidence graph -----

  predicate KnownIn(e: Evidence, kind: Kind, id: string) {
    exists item | item in e.Get(kind) :: item.id == id
  }

  predicate Resolves(e: Evidence, reference: Reference) {
    match reference
    case Known(kinds, id) => exists kind | kind in kinds :: KnownIn(e, kind, id)
    case ParentVideo(id, group) => exists item | item in e.media :: item.id == id && item.videoGroup == Some(group)
    case ThisEvent(id) => id == e.eventId
  }

  predicate KindIsValid(e: Evidence, kind: Kind) {
    && (forall i, j | 0 <= i < j < |e.Get(kind)| :: e.Get(kind)[i].id != e.Get(kind)[j].id)
    && (forall item | item in e.Get(kind) :: ReferencesResolve(e, item))
  }

  predicate ReferencesResolve(e: Evidence, item: Record) {
    forall reference | reference in item.references :: Resolves(e, reference)
  }

  /** What the contract of evidence asks of a record as a whole: ids unique within a kind, every reference resolved. */
  predicate GraphIsValid(e: Evidence) {
    && (forall kind :: KindIsValid(e, kind))
    && (e.candidateArea.Some? ==> forall id | id in e.candidateArea.value.sources :: KnownIn(e, Sources, id))
  }

  /** `merge_event_evidence`: the header checks against the first record, the nine collections in turn, and the
      validation of what they make. */
  method MergeEventEvidence(records: seq<Evidence>) returns (r: MergeResult<Evidence>)
    ensures r.Merged? <==> Joinable(records) && GraphIsValid(JoinOf(records))
    ensures r.Merged? ==> r.value == JoinOf(records)
    ensures r == Refused(NothingToMerge) <==> records == []
    ensures r.Refused? && r.error.Conflict? ==>
      && HeadersAgree(records)
      && Conflicting(KindItems(records, r.error.kind), r.error.id)
      && FirstConflict(records, r.error.kind, r.error.id)
    ensures r == Refused(InvalidGraph) ==> Joinable(records) && !GraphIsValid(JoinOf(records))
    ensures r.Refused? && r.error in {DifferentEvents, DifferentTimeWindows, DifferentAreas} ==>
      exists i :: DiffersFirst(records, i) && FirstDifference(records[0], records[i]) == Some(r.error)
  {
    hide Joinable, JoinOf, Conflicting, KindItems, HeadersAgree, GraphIsValid, FirstConflict;
    if records == [] {
      assert !Joinable(records) by { NothingIsNotJoinable(); }
      return Refused(NothingToMerge);
    }
    var difference := CheckHeaders(records);
    if difference.Some? {
      return Refused(difference.value);
    }
    r := MergeCollections(records);
    if r.Merged? && !GraphIsValid(r.value) {
      r := Refused(InvalidGraph);
    }
  }

  lemma NothingIsNotJoinable()
    ensures !Joinable([])
  {}

  /** The record is the first one whose header is not that of the first. */
  predicate DiffersFirst(records: seq<Evidence>, i: int) {
    0 < i < |records| && !SameHeader(records[i], records[0])
    && forall j | 0 <= j < i :: SameHeader(records[j], records[0])
  }

  /** The header checks, against the first record. */
  method CheckHeaders(records: seq<Evidence>) returns (difference: Option<MergeError>)
    requires records != []
    ensures difference.None? <==> HeadersAgree(records)
    ensures difference.Some? ==>
      && !Joinable(records)
      && difference.value in {DifferentEvents, DifferentTimeWindows, DifferentAreas}
      && exists i :: DiffersFirst(records, i) && FirstDifference(records[0], records[i]) == difference
  {
    hide Consistent, KindItems;
    var reference := records[0];
    for i := 1 to |records|
      invariant forall j | 0 <= j < i :: SameHeader(records[j], reference)
    {
      var record := records[i];
      assert record in records && reference in records;
      if record.eventId != reference.eventId {
        assert DiffersFirst(records, i) && FirstDifference(reference, records[i]) == Some(DifferentEvents);
        return Some(DifferentEvents);
      }
      if record.timeWindow != reference.timeWindow {
        assert DiffersFirst(records, i) && FirstDifference(reference, records[i]) == Some(DifferentTimeWindows);
        return Some(DifferentTimeWindows);
      }
      if record.candidateArea != reference.candidateArea {
        assert DiffersFirst(records, i) && FirstDifference(reference, records[i]) == Some(DifferentAreas);
        return Some(DifferentAreas);
      }
    }
    difference := None;
  }

  function FirstDifference(reference: Evidence, e: Evidence): Option<MergeError> {
    if e.eventId != reference.eventId then Some(DifferentEvents)
    else if e.timeWindow != reference.timeWindow then Some(DifferentTimeWindows)
    else if e.candidateArea != reference.candidateArea then Some(DifferentAreas)
    else None
  }

  /** The first k collections are merged into `merged`, everything else is as in the first record. */
  ghost predicate MergedSoFar(records: seq<Evidence>, k: nat, merged: Evidence)
    requires records != [] && k <= |KINDS|
  {
    && (forall m | 0 <= m < k :: Consistent(KindItems(records, KINDS[m]))
                                 && merged.Get(KINDS[m]) == Canonical(KindItems(records, KINDS[m])))
    && SameButCollections(merged, records[0])
    && merged.needsHumanReview == exists e | e in records :: e.needsHumanReview
  }

  lemma OneMoreMerged(records: seq<Evidence>, k: nat, merged: Evidence, listing: seq<Record>)
    requires records != [] && k < |KINDS| && MergedSoFar(records, k, merged)
    requires Consistent(KindItems(records, KINDS[k])) && listing == Canonical(KindItems(records, KINDS[k]))
    ensures MergedSoFar(records, k + 1, WithListing(merged, KINDS[k], listing))
  {
    hide Consistent, Canonical, KindItems;
    var after := WithListing(merged, KINDS[k], listing);
    forall m | 0 <= m < k ensures after.Get(KINDS[m]) == merged.Get(KINDS[m]) {
      WithListingGet(merged, KINDS[k], listing, KINDS[m]);
    }
    WithListingGet(merged, KINDS[k], listing, KINDS[k]);
  }

  lemma WithListingGet(e: Evidence, kind: Kind, listing: seq<Record>, other: Kind)
    ensures WithListing(e, kind, listing).Get(other) == if other == kind then listing else e.Get(other)
  {}

  /** The conflict that is reported: all kinds before this one merge, and the id is that of the first record of this
      kind that clashes with an earlier one. */
  ghost predicate FirstConflict(records: seq<Evidence>, kind: Kind, id: string) {
    && (forall m | 0 <= m < KindIndex(kind) :: Consistent(KindItems(records, KINDS[m])))
    && exists i, j :: FirstClash(Collections(records, kind), i, j, id)
  }

  /** The collections in source order, up to the first one with a conflict. */
  method MergeCollections(records: seq<Evidence>) returns (r: MergeResult<Evidence>)
    requires records != [] && HeadersAgree(records)
    ensures r.Merged? <==> Joinable(records)
    ensures r.Merged? ==> r.value == JoinOf(records)
    ensures r.Refused? ==> r.error.Conflict? && Conflicting(KindItems(records, r.error.kind), r.error.id)
    ensures r.Refused? ==> FirstConflict(records, r.error.kind, r.error.id)
  {
    hide Consistent, Conflicting, Canonical, KindItems, WithListing, JoinOf, FirstClash;
    var merged := records[0].(needsHumanReview := exists e | e in records :: e.needsHumanReview);
    for k := 0 to |KINDS|
      invariant MergedSoFar(records, k, merged)
    {
      var listing := MergeKind(records, KINDS[k]);
      if listing.Refused? {
        assert KindIndex(KINDS[k]) == k;
        return Refused(listing.error);
      }
      OneMoreMerged(records, k, merged, listing.value);
      merged := WithListing(merged, KINDS[k], listing.value);
    }
    AllKinds(records);
    JoinFields(records, merged);
    r := Merged(merged);
  }

  predicate SameButCollections(a: Evidence, b: Evidence) {
    SameHeader(a, b) && a.others == b.others
  }

  function KindIndex(kind: Kind): (m: nat)
    ensures m < |KINDS| && KINDS[m] == kind
  {
    match kind
    case Sources => 0
    case Claims => 1
    case Media => 2
    case VisualObservations => 3
    case SatelliteObservations => 4
    case LocationCandidates => 5
    case CandidateClusters => 6
    case Contradictions => 7
    case Uncertainties => 8
  }

  lemma AllKinds(records: seq<Evidence>)
    ensures (forall m | 0 <= m < |KINDS| :: Consistent(KindItems(records, KINDS[m])))
       <==> forall kind :: Consistent(KindItems(records, kind))
  {
    hide Consistent, KindItems;
    if forall m | 0 <= m < |KINDS| :: Consistent(KindItems(records, KINDS[m])) {
      forall kind ensures Consistent(KindItems(records, kind)) {
        assert KINDS[KindIndex(kind)] == kind;
      }
    }
  }

  lemma JoinFields(records: seq<Evidence>, e: Evidence)
    requires Joinable(records) && SameButCollections(e, records[0])
    requires e.needsHumanReview == exists x | x in records :: x.needsHumanReview
    requires forall m | 0 <= m < |KINDS| :: e.Get(KINDS[m]) == Canonical(KindItems(records, KINDS[m]))
    ensures e == JoinOf(records)
  {
    hide Consistent, KindItems, Canonical;
    assert KINDS[0] == Sources && KINDS[1] == Claims && KINDS[2] == Media && KINDS[3] == VisualObservations
      && KINDS[4] == SatelliteObservations && KINDS[5] == LocationCandidates && KINDS[6] == CandidateClusters
      && KINDS[7] == Contradictions && KINDS[8] == Uncertainties;
  }

  // ----- the merge is a partial join -----

  lemma JoinGet(records: seq<Evidence>, kind: Kind)
    requires Joinable(records)
    ensures JoinOf(records).Get(kind) == Canonical(KindItems(records, kind))
    ensures ListsById(JoinOf(records).Get(kind), KindItems(records, kind))
  {
    hide Canonical, ListsById, KindItems, Consistent, HeadersAgree;
    CanonicalLists(KindItems(records, kind));
    match kind {
      case Sources =>
      case Claims =>
      case Media =>
      case VisualObservations =>
      case SatelliteObservations =>
      case LocationCandidates =>
      case CandidateClusters =>
      case Contradictions =>
      case Uncertainties =>
    }
  }

  /** Two evidence records with the same merged fields and headers. */
  ghost predicate SameMerge(a: Evidence, b: Evidence) {
    && SameHeader(a, b)
    && a.needsHumanReview == b.needsHumanReview
    && forall kind :: a.Get(kind) == b.Get(kind)
  }

  lemma SameMergeEquals(a: Evidence, b: Evidence)
    requires SameMerge(a, b) && a.others == b.others
    ensures a == b
  {
    assert a.Get(Sources) == b.Get(Sources) && a.Get(Claims) == b.Get(Claims) && a.Get(Media) == b.Get(Media)
      && a.Get(VisualObservations) == b.Get(VisualObservations)
      && a.Get(SatelliteObservations) == b.Get(SatelliteObservations)
      && a.Get(LocationCandidates) == b.Get(LocationCandidates)
      && a.Get(CandidateClusters) == b.Get(CandidateClusters)
      && a.Get(Contradictions) == b.Get(Contradictions) && a.Get(Uncertainties) == b.Get(Uncertainties);
  }

  /** Order and repetition do not matter: success and every merged field depend only on which records are
      given. The fields that are not merged come from the first one, so the results are equal exactly when the
      first ones agree on those. */
  lemma OrderAndRepetitionIrrelevant(records: seq<Evidence>, others: seq<Evidence>)
    requires forall e :: e in records <==> e in others
    ensures Joinable(records) <==> Joinable(others)
    ensures Joinable(records) ==> SameMerge(JoinOf(records), JoinOf(others))
    ensures Joinable(records) ==> (JoinOf(records) == JoinOf(others) <==> records[0].others == others[0].others)
  {
    hide Canonical, Consistent;
    assert records != [] ==> records[0] in others;
    assert others != [] ==> others[0] in records;
    forall kind ensures KindItems(records, kind) == KindItems(others, kind) {}
    if Joinable(records) {
      hide KindItems;
      forall kind ensures JoinOf(records).Get(kind) == JoinOf(others).Get(kind) {
        JoinGet(records, kind);
        JoinGet(others, kind);
      }
      assert SameHeader(records[0], others[0]);
      if records[0].others == others[0].others { SameMergeEquals(JoinOf(records), JoinOf(others)); }
    }
  }

  lemma UnionItems(a: seq<Evidence>, b: seq<Evidence>, kind: Kind)
    ensures KindItems(a + b, kind) == KindItems(a, kind) + KindItems(b, kind)
  {}

  lemma JoinItems(records: seq<Evidence>, kind: Kind)
    requires Joinable(records)
    ensures KindItems([JoinOf(records)], kind) == KindItems(records, kind)
  {
    JoinGet(records, kind);
    hide Joinable, JoinOf, Canonical, Ascending;
    SingleItems(JoinOf(records), kind);
  }

  lemma SingleItems(e: Evidence, kind: Kind)
    ensures forall x :: x in KindItems([e], kind) <==> x in e.Get(kind)
  {
    assert forall x | x in [e] :: x == e;
    assert e in [e];
  }

  lemma SubsetConsistent(part: set<Record>, all: set<Record>)
    requires part <= all && Consistent(all)
    ensures Consistent(part)
  {}

  lemma PartJoinable(part: seq<Evidence>, all: seq<Evidence>)
    requires Joinable(all) && part != [] && forall e | e in part :: e in all
    ensures Joinable(part)
  {
    forall kind ensures Consistent(KindItems(part, kind)) {
      SubsetConsistent(KindItems(part, kind), KindItems(all, kind));
    }
  }

  lemma PairItems(a: seq<Evidence>, b: seq<Evidence>, kind: Kind)
    requires Joinable(a) && Joinable(b)
    ensures KindItems([JoinOf(a), JoinOf(b)], kind) == KindItems(a + b, kind)
  {
    hide KindItems, JoinOf, Joinable;
    assert [JoinOf(a), JoinOf(b)] == [JoinOf(a)] + [JoinOf(b)];
    UnionItems([JoinOf(a)], [JoinOf(b)], kind);
    UnionItems(a, b, kind);
    JoinItems(a, kind);
    JoinItems(b, kind);
  }

  /** Grouping does not matter: merging everything at once and merging two groups first succeed together and give
      the same result. */
  lemma GroupingIrrelevant(a: seq<Evidence>, b: seq<Evidence>)
    requires a != [] && b != []
    ensures Joinable(a + b) <==> Joinable(a) && Joinable(b) && Joinable([JoinOf(a), JoinOf(b)])
    ensures Joinable(a + b) ==> JoinOf(a + b) == JoinOf([JoinOf(a), JoinOf(b)])
  {
    hide Consistent, KindItems, Canonical;
    if Joinable(a + b) {
      PartJoinable(a, a + b);
      PartJoinable(b, a + b);
    }
    if Joinable(a) && Joinable(b) {
      forall kind ensures KindItems([JoinOf(a), JoinOf(b)], kind) == KindItems(a + b, kind) {
        PairItems(a, b, kind);
      }
      PairHeaders(a, b);
      if Joinable(a + b) { PairJoin(a, b); }
    }
  }

  lemma PairHeaders(a: seq<Evidence>, b: seq<Evidence>)
    requires Joinable(a) && Joinable(b)
    ensures HeadersAgree([JoinOf(a), JoinOf(b)]) <==> HeadersAgree(a + b)
  {
    hide Consistent, KindItems, Listing;
    assert a[0] in a && b[0] in b && a[0] in a + b && b[0] in a + b;
    assert SameHeader(JoinOf(a), a[0]) && SameHeader(JoinOf(b), b[0]);
    assert JoinOf(a) in [JoinOf(a), JoinOf(b)] && JoinOf(b) in [JoinOf(a), JoinOf(b)];
  }

  lemma PairJoin(a: seq<Evidence>, b: seq<Evidence>)
    requires Joinable(a) && Joinable(b) && Joinable(a + b) && Joinable([JoinOf(a), JoinOf(b)])
    requires a != []
    ensures JoinOf(a + b) == JoinOf([JoinOf(a), JoinOf(b)])
  {
    hide Joinable, KindItems, Canonical, Listing;
    var pair := [JoinOf(a), JoinOf(b)];
    forall kind ensures JoinOf(a + b).Get(kind) == JoinOf(pair).Get(kind) {
      JoinGet(a + b, kind);
      JoinGet(pair, kind);
      PairItems(a, b, kind);
    }
    assert (a + b)[0] == a[0];
    PairReview(a, b);
    SameMergeEquals(JoinOf(a + b), JoinOf(pair));
  }

  lemma PairReview(a: seq<Evidence>, b: seq<Evidence>)
    requires Joinable(a) && Joinable(b) && Joinable(a + b) && Joinable([JoinOf(a), JoinOf(b)])
    ensures JoinOf(a + b).needsHumanReview == JoinOf([JoinOf(a), JoinOf(b)]).needsHumanReview
  {
    hide Joinable, KindItems, Canonical, Listing;
    assert JoinOf(a) in [JoinOf(a), JoinOf(b)] && JoinOf(b) in [JoinOf(a), JoinOf(b)];
    assert forall e :: e in a + b <==> e in a || e in b;
  }

  /** Merging a merged record with itself, or alone, gives it back; and a record is its own merge exactly when
      its collections are already strictly sorted by id. */
  lemma Idempotent(e: Evidence)
    ensures Joinable([e, e]) <==> Joinable([e])
    ensures Joinable([e]) ==> JoinOf([e, e]) == JoinOf([e]) && Joinable([JoinOf([e])])
                              && JoinOf([JoinOf([e])]) == JoinOf([e])
    ensures Joinable([e]) && JoinOf([e]) == e
       <==> forall kind :: Ascending(IdList(e.Get(kind)), StringLess)
  {
    hide Joinable, JoinOf, StringLess, Canonical;
    OrderAndRepetitionIrrelevant([e, e], [e]);
    FixedPoint(e);
    if Joinable([e]) {
      var m := JoinOf([e]);
      forall kind ensures Ascending(IdList(m.Get(kind)), StringLess) { JoinGet([e], kind); }
      FixedPoint(m);
    }
  }

  lemma FixedPoint(e: Evidence)
    ensures Joinable([e]) && JoinOf([e]) == e
       <==> forall kind :: Ascending(IdList(e.Get(kind)), StringLess)
  {
    hide StringLess, Canonical, Consistent;
    forall kind ensures forall x :: x in e.Get(kind) <==> x in KindItems([e], kind) { SingleItems(e, kind); }
    hide KindItems;
    if Joinable([e]) && JoinOf([e]) == e {
      forall kind ensures Ascending(IdList(e.Get(kind)), StringLess) { JoinGet([e], kind); }
    }
    if forall kind :: Ascending(IdList(e.Get(kind)), StringLess) {
      forall kind
        ensures Consistent(KindItems([e], kind)) && e.Get(kind) == Canonical(KindItems([e], kind))
      {
        assert ListsById(e.Get(kind), KindItems([e], kind));
        ListingConsistent(e.Get(kind), KindItems([e], kind));
        ListingUnique(e.Get(kind), KindItems([e], kind));
      }
      forall kind ensures JoinOf([e]).Get(kind) == e.Get(kind) { JoinGet([e], kind); }
      SameMergeEquals(JoinOf([e]), e);
    }
  }

  // ----- merging keeps evidence valid -----

  lemma InJoin(records: seq<Evidence>, e: Evidence, kind: Kind, item: Record)
    requires Joinable(records)
    ensures e in records && item in e.Get(kind) ==> item in JoinOf(records).Get(kind)
    ensures item in JoinOf(records).Get(kind) ==> exists x :: x in records && item in x.Get(kind)
  {
    hide Joinable, JoinOf, Canonical, Consistent;
    JoinGet(records, kind);
  }

  lemma StillKnown(records: seq<Evidence>, e: Evidence, kind: Kind, id: string)
    requires Joinable(records) && e in records && KnownIn(e, kind, id)
    ensures KnownIn(JoinOf(records), kind, id)
  {
    hide Joinable, JoinOf;
    var item :| item in e.Get(kind) && item.id == id;
    InJoin(records, e, kind, item);
  }

  lemma StillResolves(records: seq<Evidence>, e: Evidence, reference: Reference)
    requires Joinable(records) && e in records && Resolves(e, reference)
    ensures Resolves(JoinOf(records), reference)
  {
    match reference
    case Known(kinds, id) =>
      var kind :| kind in kinds && KnownIn(e, kind, id);
      StillKnown(records, e, kind, id);
    case ParentVideo(id, group) =>
      var item :| item in e.Get(Media) && item.id == id && item.videoGroup == Some(group);
      InJoin(records, e, Media, item);
      assert item in JoinOf(records).Get(Media);
    case ThisEvent(_) =>
      assert SameHeader(e, records[0]);
  }

  lemma ItemStaysValid(records: seq<Evidence>, e: Evidence, item: Record)
    requires Joinable(records) && e in records && ReferencesResolve(e, item)
    ensures ReferencesResolve(JoinOf(records), item)
  {
    hide Joinable, JoinOf, Resolves;
    forall reference | reference in item.references ensures Resolves(JoinOf(records), reference) {
      StillResolves(records, e, reference);
    }
  }

  lemma KindStaysValid(records: seq<Evidence>, kind: Kind)
    requires Joinable(records) && forall e | e in records :: GraphIsValid(e)
    ensures KindIsValid(JoinOf(records), kind)
  {
    hide Joinable, JoinOf, ReferencesResolve, Ascending, StringLess, KnownIn, Canonical, KindItems;
    var join := JoinOf(records);
    JoinAscends(records, kind);
    AscendingIds(join.Get(kind));
    forall item | item in join.Get(kind) ensures ReferencesResolve(join, item) {
      InJoin(records, join, kind, item);
      var e :| e in records && item in e.Get(kind);
      assert KindIsValid(e, kind);
      ItemStaysValid(records, e, item);
    }
  }

  lemma JoinAscends(records: seq<Evidence>, kind: Kind)
    requires Joinable(records)
    ensures Ascending(IdList(JoinOf(records).Get(kind)), StringLess)
  {
    hide Joinable, JoinOf, Ascending, Canonical;
    JoinGet(records, kind);
  }

  lemma AscendingIds(s: seq<Record>)
    requires Ascending(IdList(s), StringLess)
    ensures forall i, j | 0 <= i < j < |s| :: s[i].id != s[j].id
  {
    forall i, j | 0 <= i < j < |s| ensures s[i].id != s[j].id {
      assert StringLess(IdList(s)[i], IdList(s)[j]);
      StringLessIrreflexive(s[i].id);
    }
  }

  /** Merging valid evidence gives valid evidence: references that resolve within one record resolve in the join, and
      no id is doubled. So for valid records the merge succeeds exactly when they can be joined, whatever their
      order, grouping and repetition. */
  lemma MergeKeepsValidity(records: seq<Evidence>)
    requires Joinable(records) && forall e | e in records :: GraphIsValid(e)
    ensures GraphIsValid(JoinOf(records))
  {
    hide KindIsValid, KnownIn, Canonical, KindItems, Consistent;
    forall kind ensures KindIsValid(JoinOf(records), kind) { KindStaysValid(records, kind); }
    var first, join := records[0], JoinOf(records);
    assert first in records && join.candidateArea == first.candidateArea;
    if first.candidateArea.Some? {
      forall id | id in first.candidateArea.value.sources ensures KnownIn(join, Sources, id) {
        StillKnown(records, first, Sources, id);
      }
    }
  }
}
