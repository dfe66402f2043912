/** The report told by its facts: which section a fact is in and in which order, what each line says, and what a report
    without facts says instead. */
module ReportLaws {
  import opened Prelude
  import opened Ordering
  import opened Report

  // ----- one fact -----

  /** The section of every category. */
  lemma SectionTable(category: Category)
    ensures SectionFor(category) == Situation <==> category == Weather || category == Other
    ensures SectionFor(category) == ObservedActivity <==> category == FireActivity || category == BurnedArea
    ensures SectionFor(category) == EngagedResources <==> category == Resources
    ensures SectionFor(category) == Impacts <==>
      category == Evacuation || category == Access || category == Infrastructure
  {}

  predicate Given(s: Option<string>) {
    s.Some? && s.value != ""
  }

  /** Whom a line names: the attribution of the source, else the domain of its policy, else its key. */
  predicate Names(origin: string, source: Source) {
    && (Given(source.attribution) ==> Some(origin) == source.attribution)
    && (!Given(source.attribution) && Given(source.policyDomain) ==> Some(origin) == source.policyDomain)
    && (!Given(source.attribution) && !Given(source.policyDomain) ==> origin == source.key)
  }

  /** The line of a fact: what it says and of when, whom it is from, and that it needs a cross-check exactly when its
      source is a lead or the press. */
  ghost predicate TellsFact(line: Line, fact: Fact, sources: map<string, Source>) {
    && fact.inputId in sources
    && line.FactLine?
    && line.summary == fact.summary && line.asOf == fact.asOf && Names(line.origin, sources[fact.inputId])
    && (line.toCrossCheck <==>
          sources[fact.inputId].confidence == Some("lead") || sources[fact.inputId].kind == "press")
  }

  lemma LineTellsFact(sources: map<string, Source>, fact: Fact)
    requires fact.inputId in sources
    ensures TellsFact(LineOf(sources, fact), fact, sources)
  {}

  /** The line of a source: whom it names, how far it is trusted, and where it is. */
  lemma LineTellsSource(source: Source)
    ensures var line := SourceLineOf(source);
      && line.SourceLine? && Names(line.origin, source) && line.url == source.url
      && (Given(source.confidence) ==> Some(line.confidence) == source.confidence)
      && (!Given(source.confidence) ==> line.confidence == source.trust)
  {}

  // ----- all facts -----

  /** Every fact of every item is among the facts of a report, those of one item next to each other and in order. */
  lemma {:induction false} FactIsAt(items: seq<ReportItem>, i: nat, k: nat)
    requires i < |items| && k < |items[i].facts|
    ensures |AllFacts(items[..i])| + k < |AllFacts(items)|
    ensures AllFacts(items)[|AllFacts(items[..i])| + k] == items[i].facts[k]
  {
    var n := |items| - 1;
    if i < n {
      FactIsAt(items[..n], i, k);
      assert items[..n][..i] == items[..i];
    }
  }

  // ----- the content sections -----

  /** The fixed order of the sections. */
  function Rank(key: SectionKey): nat {
    match key
    case Situation => 0
    case ObservedActivity => 1
    case EngagedResources => 2
    case Impacts => 3
    case Sources => 4
    case Limitations => 5
  }

  /** The section files exactly the facts at these places, in order, with a line and an id for each. */
  ghost predicate Files(section: Section, sources: map<string, Source>, facts: seq<Fact>, at: seq<nat>) {
    && |section.lines| == |section.factIds| == |at| > 0
    && section.basisCodes == []
    && (forall i, j | 0 <= i < j < |at| :: at[i] < at[j])
    && (forall p: nat | p < |facts| :: p in at <==> SectionFor(facts[p].category) == section.key)
    && forall i | 0 <= i < |at| :: FiledAt(section, sources, facts, at, i)
  }

  ghost predicate FiledAt(section: Section, sources: map<string, Source>, facts: seq<Fact>, at: seq<nat>, i: int) {
    && 0 <= i < |at| && i < |section.lines| && i < |section.factIds| && at[i] < |facts|
    && section.factIds[i] == facts[at[i]].factId
    && TellsFact(section.lines[i], facts[at[i]], sources)
  }

  lemma ContentSectionFiles(sources: map<string, Source>, facts: seq<Fact>, key: SectionKey) returns (at: seq<nat>)
    requires Known(sources, facts) && InSection(facts, key) != []
    ensures Known(sources, InSection(facts, key))
    ensures Files(ContentSection(sources, key, InSection(facts, key)), sources, facts, at)
  {
    at := SectionKeepsOrder(facts, key);
    InSectionMembers(facts, key);
    var section := ContentSection(sources, key, InSection(facts, key));
    hide InSection, LineOf, TellsFact;
    forall i | 0 <= i < |at| ensures FiledAt(section, sources, facts, at, i) {
      assert facts[at[i]] in facts;
      LineTellsFact(sources, facts[at[i]]);
    }
  }

  /** The content sections of these keys: in the order of the keys, each with its facts and never without any. */
  ghost predicate InOrder(sections: seq<Section>, sources: map<string, Source>, facts: seq<Fact>, bound: nat) {
    && (forall i, j | 0 <= i < j < |sections| :: Rank(sections[i].key) < Rank(sections[j].key))
    && forall i | 0 <= i < |sections| ::
         Rank(sections[i].key) < bound && exists at :: Files(sections[i], sources, facts, at)
  }

  lemma {:induction false} ContentInOrder(sources: map<string, Source>, facts: seq<Fact>, n: nat)
    requires Known(sources, facts) && n <= 4
    ensures InOrder(ContentSections(sources, facts, CONTENT[..n]), sources, facts, n)
  {
    hide InSection, ContentSection, Files;
    if n > 0 {
      ContentInOrder(sources, facts, n - 1);
      var key := CONTENT[n - 1];
      assert Rank(key) == n - 1;
      assert CONTENT[..n][..n - 1] == CONTENT[..n - 1];
      InSectionMembers(facts, key);
      var before := ContentSections(sources, facts, CONTENT[..n - 1]);
      if InSection(facts, key) != [] {
        var at := ContentSectionFiles(sources, facts, key);
        var last := ContentSection(sources, key, InSection(facts, key));
        assert ContentSections(sources, facts, CONTENT[..n]) == before + [last];
        KeyOfContent(sources, facts, key);
        hide ContentSections;
        AppendInOrder(before, last, sources, facts, n - 1, at);
      } else {
        assert ContentSections(sources, facts, CONTENT[..n]) == before;
      }
    }
  }

  lemma KeyOfContent(sources: map<string, Source>, facts: seq<Fact>, key: SectionKey)
    requires Known(sources, facts) && Known(sources, InSection(facts, key))
    ensures ContentSection(sources, key, InSection(facts, key)).key == key
  {}

  lemma AppendInOrder(before: seq<Section>, last: Section, sources: map<string, Source>, facts: seq<Fact>, bound: nat,
                      at: seq<nat>)
    requires InOrder(before, sources, facts, bound) && Rank(last.key) == bound && Files(last, sources, facts, at)
    ensures InOrder(before + [last], sources, facts, bound + 1)
  {
    hide Files;
  }

  /** Some section before the last has this key. */
  ghost predicate HasContent(sections: seq<Section>, key: SectionKey) {
    exists i :: 0 <= i < |sections| - 1 && sections[i].key == key
  }

  /** The report section by section: the content sections come first, in the fixed order, each with exactly the facts of
      its categories in the order in which the items give them, a line and an id for each. */
  lemma SectionsTellTheFacts(sources: map<string, Source>, items: seq<ReportItem>)
    requires Known(sources, AllFacts(items))
    ensures var sections := ReportOf(sources, items);
      && sections != []
      && InOrder(sections[..|sections| - 1], sources, AllFacts(items), 4)
      && forall p: nat | p < |AllFacts(items)| ::
           HasContent(sections, SectionFor(AllFacts(items)[p].category))
  {
    hide InSection, ContentSections, LimitationsSection, SourcesSection, AllFacts;
    var facts, sections := AllFacts(items), ReportOf(sources, items);
    ContentInOrder(sources, facts, 4);
    assert CONTENT[..4] == CONTENT;
    var content := ContentSections(sources, facts, CONTENT);
    assert sections[..|sections| - 1] == content;
    forall p: nat | p < |facts|
      ensures HasContent(sections, SectionFor(facts[p].category))
    {
      var key := SectionFor(facts[p].category);
      InSectionMembers(facts, key);
      assert facts[p] in InSection(facts, key);
      EveryCategoryHasASection();
      ContentSectionsMeaning(sources, facts, CONTENT);
      var s :| s in content && s.key == key;
      var i :| 0 <= i < |content| && content[i] == s;
      assert sections[i] == s;
    }
  }

  // ----- without facts -----

  ghost predicate Uncertain(items: seq<ReportItem>, code: string) {
    exists i, j :: 0 <= i < |items| && 0 <= j < |items[i].uncertainty| && code in items[i].uncertainty[j]
  }

  lemma CodesMeaning(items: seq<ReportItem>, code: string)
    ensures code in Codes(items) <==> Uncertain(items, code)
  {
    if code in Codes(items) {
      var item, codes :| item in items && codes in item.uncertainty && code in codes;
      var i :| 0 <= i < |items| && items[i] == item;
      var j :| 0 <= j < |items[i].uncertainty| && items[i].uncertainty[j] == codes;
      assert code in items[i].uncertainty[j];
    }
    if Uncertain(items, code) {
      var i, j :| 0 <= i < |items| && 0 <= j < |items[i].uncertainty| && code in items[i].uncertainty[j];
      assert items[i] in items && items[i].uncertainty[j] in items[i].uncertainty;
    }
  }

  /** A report without facts is one section: it says so, and why, by the sorted uncertainty codes of the proposals, or
      by a code of its own when there are none. */
  lemma NothingToReport(sources: map<string, Source>, items: seq<ReportItem>)
    requires AllFacts(items) == []
    ensures Known(sources, AllFacts(items)) && |ReportOf(sources, items)| == 1
    ensures var only := ReportOf(sources, items)[0];
      && only.key == Limitations && only.lines == [NothingFound] && only.factIds == []
      && ((forall code :: !Uncertain(items, code)) ==> only.basisCodes == ["no_explicit_fact_extracted"])
      && ((exists code :: Uncertain(items, code)) ==>
            && Ascending(only.basisCodes, StringLess)
            && forall code :: code in only.basisCodes <==> Uncertain(items, code))
  {
    forall code ensures code in Codes(items) <==> Uncertain(items, code) { CodesMeaning(items, code); }
    hide Codes, Uncertain, AllFacts, Known;
    ContentOfNothing(sources, CONTENT);
    CodesListed(items);
    hide ContentSections, SourcesSection;
    if exists code :: Uncertain(items, code) {
      assert Codes(items) != {};
    }
  }
}
