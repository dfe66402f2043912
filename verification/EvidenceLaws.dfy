/** The merge of event evidence field by field: when it is defined, what each collection of the result holds, and what
    the validation at its end asks. */
module EvidenceLaws {
  import opened Prelude
  import opened Ordering
  import opened EvidenceMerge

  /** A record of this kind in some piece of evidence. */
  ghost predicate Occurs(records: seq<Evidence>, kind: Kind, x: Record) {
    exists e :: e in records && x in e.Get(kind)
  }

  lemma OccursIsItem(records: seq<Evidence>, kind: Kind)
    ensures forall x :: x in KindItems(records, kind) <==> Occurs(records, kind, x)
  {}

  /** Two records of this kind, of the same or of two pieces of evidence, share an id but differ. */
  ghost predicate Clash(records: seq<Evidence>, kind: Kind) {
    exists x, y :: Occurs(records, kind, x) && Occurs(records, kind, y) && x.id == y.id && x != y
  }

  predicate HeaderIs(e: Evidence, eventId: string, timeWindow: string, area: Option<Area>) {
    e.eventId == eventId && e.timeWindow == timeWindow && e.candidateArea == area
  }

  /** Records can be merged exactly when there is one, all have the event, the time window and the area of the first,
      and no two records of one kind clash. */
  lemma JoinableMeaning(records: seq<Evidence>)
    ensures Joinable(records) <==>
      && records != []
      && (forall e | e in records ::
            HeaderIs(e, records[0].eventId, records[0].timeWindow, records[0].candidateArea))
      && (forall kind :: !Clash(records, kind))
  {
    if records != [] {
      assert records[0] in records;
      HeadersMeaning(records);
    }
    hide HeadersAgree, HeaderIs, Consistent, KindItems;
    forall kind ensures Consistent(KindItems(records, kind)) <==> !Clash(records, kind) {
      ClashIsConflict(records, kind);
    }
    hide Clash;
  }

  lemma HeadersMeaning(records: seq<Evidence>)
    requires records != []
    ensures HeadersAgree(records) <==>
      forall e | e in records :: HeaderIs(e, records[0].eventId, records[0].timeWindow, records[0].candidateArea)
  {
    assert records[0] in records;
  }

  lemma ClashIsConflict(records: seq<Evidence>, kind: Kind)
    ensures Consistent(KindItems(records, kind)) <==> !Clash(records, kind)
  {
    OccursIsItem(records, kind);
    hide KindItems, Occurs;
  }

  /** The collection of each kind. */
  lemma KindTable(e: Evidence)
    ensures e.Get(Sources) == e.sources && e.Get(Claims) == e.claims && e.Get(Media) == e.media
    ensures e.Get(VisualObservations) == e.visualObservations
    ensures e.Get(SatelliteObservations) == e.satelliteObservations
    ensures e.Get(LocationCandidates) == e.locationCandidates
    ensures e.Get(CandidateClusters) == e.candidateClusters
    ensures e.Get(Contradictions) == e.contradictions && e.Get(Uncertainties) == e.uncertainties
  {}

  /** The order in which the collections are merged, so which conflict is found first. */
  lemma KindOrder()
    ensures KindIndex(Sources) < KindIndex(Claims) < KindIndex(Media) < KindIndex(VisualObservations)
          < KindIndex(SatelliteObservations) < KindIndex(LocationCandidates) < KindIndex(CandidateClusters)
          < KindIndex(Contradictions) < KindIndex(Uncertainties)
  {}

  /** The list has the records of this kind in all pieces of evidence and no others, by strictly ascending id. */
  ghost predicate IsUnion(whole: seq<Record>, records: seq<Evidence>, kind: Kind) {
    && (forall x :: x in whole <==> Occurs(records, kind, x))
    && (forall i, j | 0 <= i < j < |whole| :: StringLess(whole[i].id, whole[j].id))
  }

  lemma KindIsUnion(records: seq<Evidence>, kind: Kind)
    requires Joinable(records)
    ensures IsUnion(JoinOf(records).Get(kind), records, kind)
  {
    hide Occurs, KindItems, Joinable, StringLess, JoinOf, Listing, ListsById, Canonical, Consistent;
    JoinGet(records, kind);
    OccursIsItem(records, kind);
    ListsInOrder(JoinOf(records).Get(kind), KindItems(records, kind));
  }

  lemma ListsInOrder(s: seq<Record>, items: set<Record>)
    requires ListsById(s, items)
    ensures forall x :: x in s <==> x in items
    ensures forall i, j | 0 <= i < j < |s| :: StringLess(s[i].id, s[j].id)
  {
    hide StringLess;
    forall i, j | 0 <= i < j < |s| ensures StringLess(s[i].id, s[j].id) {
      assert IdList(s)[i] == s[i].id && IdList(s)[j] == s[j].id;
    }
  }

  /** The result field by field: the header and all unmerged fields of the first record; each collection the sorted
      union of that collection over all records; a review needed exactly when one of them needs it. */
  lemma JoinMeaning(records: seq<Evidence>)
    requires Joinable(records)
    ensures var e := JoinOf(records);
      && records != []
      && HeaderIs(e, records[0].eventId, records[0].timeWindow, records[0].candidateArea)
      && e.others == records[0].others
      && (forall kind :: IsUnion(e.Get(kind), records, kind))
      && (e.needsHumanReview <==> exists x :: x in records && x.needsHumanReview)
  {
    hide IsUnion, Joinable, JoinOf;
    JoinKeeps(records);
    forall kind ensures IsUnion(JoinOf(records).Get(kind), records, kind) { KindIsUnion(records, kind); }
  }

  lemma JoinKeeps(records: seq<Evidence>)
    requires Joinable(records)
    ensures var e := JoinOf(records);
      && records != []
      && HeaderIs(e, records[0].eventId, records[0].timeWindow, records[0].candidateArea)
      && e.others == records[0].others
      && (e.needsHumanReview <==> exists x :: x in records && x.needsHumanReview)
  {
    hide Listing, Consistent, HeadersAgree;
  }

  /** What the header checks report about a record: the first of event, time window and area in which it differs. */
  lemma DifferenceMeaning(reference: Evidence, e: Evidence)
    ensures var r := FirstDifference(reference, e);
      && (r == Some(DifferentEvents) <==> e.eventId != reference.eventId)
      && (r == Some(DifferentTimeWindows) <==>
            e.eventId == reference.eventId && e.timeWindow != reference.timeWindow)
      && (r == Some(DifferentAreas) <==>
            e.eventId == reference.eventId && e.timeWindow == reference.timeWindow
            && e.candidateArea != reference.candidateArea)
      && (r == None <==>
            e.eventId == reference.eventId && e.timeWindow == reference.timeWindow
            && e.candidateArea == reference.candidateArea)
  {}

  /** There is a record of this id. */
  predicate Has(s: seq<Record>, id: string) {
    exists i :: 0 <= i < |s| && s[i].id == id
  }

  /** A reference leads somewhere: to a record of one of its kinds, to a video of the named group, to this event. */
  ghost predicate Leads(e: Evidence, reference: Reference) {
    match reference
    case Known(kinds, id) => exists kind :: kind in kinds && Has(e.Get(kind), id)
    case ParentVideo(id, group) =>
      exists i :: 0 <= i < |e.media| && e.media[i].id == id && e.media[i].videoGroup == Some(group)
    case ThisEvent(id) => id == e.eventId
  }

  lemma LeadsIsResolves(e: Evidence, reference: Reference)
    ensures Resolves(e, reference) <==> Leads(e, reference)
  {
    if reference.Known? {
      forall kind ensures KnownIn(e, kind, reference.id) <==> Has(e.Get(kind), reference.id) {}
    }
  }

  predicate DistinctIds(s: seq<Record>) {
    forall i, j | 0 <= i < j < |s| :: s[i].id != s[j].id
  }

  ghost predicate AllLead(e: Evidence, item: Record) {
    forall reference | reference in item.references :: Leads(e, reference)
  }

  /** Evidence is valid exactly when within each kind no id occurs twice, every reference of every record leads
      somewhere, and the sources of the candidate area are there. */
  lemma ValidityMeaning(e: Evidence)
    ensures GraphIsValid(e) <==>
      && (forall kind :: DistinctIds(e.Get(kind)))
      && (forall kind, item | item in e.Get(kind) :: AllLead(e, item))
      && (e.candidateArea.Some? ==> forall id | id in e.candidateArea.value.sources :: Has(e.sources, id))
  {
    forall item ensures ReferencesResolve(e, item) <==> AllLead(e, item) {
      forall reference ensures Resolves(e, reference) <==> Leads(e, reference) { LeadsIsResolves(e, reference); }
      hide Leads, Resolves;
    }
    forall id ensures KnownIn(e, Sources, id) <==> Has(e.sources, id) {}
    hide AllLead, ReferencesResolve, Has, KnownIn;
    assert forall kind :: KindIsValid(e, kind) <==>
      DistinctIds(e.Get(kind)) && forall item | item in e.Get(kind) :: AllLead(e, item);
    hide KindIsValid, DistinctIds;
  }
}
