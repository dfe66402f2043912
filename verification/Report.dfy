/** The situation report of a v2 result: facts sorted into sections by category, a section of sources, and a
    section of limitations when there is nothing to report. Bodies are kept as lists of lines. */
module Report {
  import opened Prelude
  import opened Ordering

  datatype Category = FireActivity | BurnedArea | Resources | Evacuation | Access | Infrastructure | Weather | Other

  datatype SectionKey = Situation | ObservedActivity | EngagedResources | Impacts | Sources | Limitations

  /** A digest-based id, told apart by what is digested. */
  datatype FactId = FactId(inputId: string, index: nat, observation: string)

  datatype Fact = Fact(factId: FactId, inputId: string, category: Category, summary: string, asOf: string)

  datatype Source = Source(
    key: string,
    attribution: Option<string>,
    policyDomain: Option<string>,
    confidence: Option<string>,
    trust: string,
    kind: string,
    url: Option<string>)

  /** What the report reads of an item: its facts and the uncertainty codes of its spatial proposals. */
  datatype ReportItem = ReportItem(facts: seq<Fact>, uncertainty: seq<seq<string>>)

  datatype Line =
    | FactLine(summary: string, origin: string, asOf: string, toCrossCheck: bool)
    | SourceLine(origin: string, confidence: string, url: Option<string>)
    | NothingFound

  datatype Section = Section(key: SectionKey, lines: seq<Line>, factIds: seq<FactId>, basisCodes: seq<string>)

  const CONTENT: seq<SectionKey> := [Situation, ObservedActivity, EngagedResources, Impacts]

  function SectionFor(category: Category): SectionKey {
    match category
    case FireActivity => ObservedActivity
    case BurnedArea => ObservedActivity
    case Resources => EngagedResources
    case Evacuation => Impacts
    case Access => Impacts
    case Infrastructure => Impacts
    case Weather => Situation
    case Other => Situation
  }

  /** Python's `or` over strings: an empty string counts as missing. */
  function Or(s: Option<string>, otherwise: string): string {
    if s.Some? && s.value != "" then s.value else otherwise
  }

  function Label(source: Source): string {
    Or(source.attribution, Or(source.policyDomain, source.key))
  }

  function LineOf(sources: map<string, Source>, fact: Fact): Line
    requires fact.inputId in sources
  {
    var source := sources[fact.inputId];
    FactLine(fact.summary, Label(source), fact.asOf, source.confidence == Some("lead") || source.kind == "press")
  }

  function SourceLineOf(source: Source): Line {
    SourceLine(Label(source), Or(source.confidence, source.trust), source.url)
  }

  // ----- facts by section -----

  function AllFacts(items: seq<ReportItem>): seq<Fact> {
    if items == [] then [] else AllFacts(items[..|items| - 1]) + items[|items| - 1].facts
  }

  /** The facts of one section, in order. */
  function InSection(facts: seq<Fact>, key: SectionKey): seq<Fact> {
    if facts == [] then []
    else
      var last := facts[|facts| - 1];
      InSection(facts[..|facts| - 1], key) + if SectionFor(last.category) == key then [last] else []
  }

  function IdsOf(facts: seq<Fact>): (ids: seq<FactId>)
    ensures |ids| == |facts|
  {
    seq(|facts|, i requires 0 <= i < |facts| => facts[i].factId)
  }

  /** The fact ids filed under a section. */
  function Filed(facts: seq<Fact>, key: SectionKey): multiset<FactId> {
    multiset(IdsOf(InSection(facts, key)))
  }

  lemma FiledMore(facts: seq<Fact>, fact: Fact, key: SectionKey)
    ensures Filed(facts + [fact], key)
         == Filed(facts, key) + if SectionFor(fact.category) == key then multiset{fact.factId} else multiset{}
  {
    InSectionAppend(facts, fact, key);
    IdsMore(InSection(facts, key), fact);
  }

  lemma IdsMore(facts: seq<Fact>, fact: Fact)
    ensures IdsOf(facts + [fact]) == IdsOf(facts) + [fact.factId]
  {}

  lemma InSectionAppend(facts: seq<Fact>, fact: Fact, key: SectionKey)
    ensures InSection(facts + [fact], key)
         == if SectionFor(fact.category) == key then InSection(facts, key) + [fact] else InSection(facts, key)
  {
    assert (facts + [fact])[..|facts|] == facts;
  }

  /** Every fact is filed in exactly one content section, once: the four together are a rearrangement of all. */
  lemma {:induction false} SectionsConserveFacts(facts: seq<Fact>)
    ensures Filed(facts, Situation) + Filed(facts, ObservedActivity) + Filed(facts, EngagedResources)
            + Filed(facts, Impacts)
         == multiset(IdsOf(facts))
  {
    hide InSection, IdsOf;
    EmptySections();
    if facts != [] {
      var rest, last := facts[..|facts| - 1], facts[|facts| - 1];
      assert facts == rest + [last];
      SectionsConserveFacts(rest);
      IdsMore(rest, last);
      FiledMore(rest, last, Situation);
      FiledMore(rest, last, ObservedActivity);
      FiledMore(rest, last, EngagedResources);
      FiledMore(rest, last, Impacts);
      hide Filed;
      OneOfFour(Filed(rest, Situation), Filed(rest, ObservedActivity), Filed(rest, EngagedResources),
                Filed(rest, Impacts), multiset{last.factId});
    }
  }

  lemma EmptySections()
    ensures forall key :: InSection([], key) == []
    ensures IdsOf([]) == []
  {}

  lemma OneOfFour(a: multiset<FactId>, b: multiset<FactId>, c: multiset<FactId>, d: multiset<FactId>,
                  x: multiset<FactId>)
    ensures a + x + b + c + d == a + b + c + d + x
    ensures a + (b + x) + c + d == a + b + c + d + x
    ensures a + b + (c + x) + d == a + b + c + d + x
    ensures a + b + c + (d + x) == a + b + c + d + x
  {}

  /** Where each fact of a section stands among all facts: a strictly increasing list of positions, which
      names exactly the facts of the section's categories. */
  lemma {:induction false} SectionKeepsOrder(facts: seq<Fact>, key: SectionKey) returns (at: seq<nat>)
    ensures |at| == |InSection(facts, key)|
    ensures forall i | 0 <= i < |at| :: at[i] < |facts| && InSection(facts, key)[i] == facts[at[i]]
    ensures forall i, j | 0 <= i < j < |at| :: at[i] < at[j]
    ensures forall p | 0 <= p < |facts| :: p in at <==> SectionFor(facts[p].category) == key
  {
    if facts == [] {
      at := [];
    } else {
      var n := |facts| - 1;
      at := SectionKeepsOrder(facts[..n], key);
      if SectionFor(facts[n].category) == key {
        at := at + [n];
      }
    }
  }

  // ----- the dictionary of sources -----

  function KeysOf(sources: map<string, Source>, facts: seq<Fact>): seq<string>
    requires forall f | f in facts :: f.inputId in sources
  {
    seq(|facts|, i requires 0 <= i < |facts| => sources[facts[i].inputId].key)
  }

  /** The distinct keys in the order they first occur. */
  function FirstOccurrences(keys: seq<string>): seq<string> {
    if keys == [] then []
    else
      var before := FirstOccurrences(keys[..|keys| - 1]);
      if keys[|keys| - 1] in before then before else before + [keys[|keys| - 1]]
  }

  function FirstIndex(keys: seq<string>, key: string): (i: nat)
    requires key in keys
    ensures i < |keys| && keys[i] == key && key !in keys[..i]
  {
    if keys[0] == key then 0 else 1 + FirstIndex(keys[1..], key)
  }

  lemma {:induction false} FirstIndexIs(keys: seq<string>, i: nat)
    requires i < |keys| && keys[i] !in keys[..i]
    ensures FirstIndex(keys, keys[i]) == i
  {
    if i > 0 {
      assert keys[..i][0] == keys[0];
      assert keys[1..][..i - 1] == keys[..i][1..];
      FirstIndexIs(keys[1..], i - 1);
    }
  }

  lemma FirstIndexOfPrefix(keys: seq<string>, n: nat, key: string)
    requires n <= |keys| && key in keys[..n]
    ensures FirstIndex(keys, key) == FirstIndex(keys[..n], key) < n
  {
    var f := FirstIndex(keys[..n], key);
    assert keys[..f] == keys[..n][..f];
    FirstIndexIs(keys, f);
  }

  /** One line per distinct key, in the order of first occurrence. */
  lemma {:induction false} FirstOccurrencesMeaning(keys: seq<string>)
    ensures forall k :: k in FirstOccurrences(keys) <==> k in keys
    ensures forall i, j | 0 <= i < j < |FirstOccurrences(keys)| ::
      FirstIndex(keys, FirstOccurrences(keys)[i]) < FirstIndex(keys, FirstOccurrences(keys)[j])
  {
    hide FirstIndex;
    if keys != [] {
      var n := |keys| - 1;
      var before := FirstOccurrences(keys[..n]);
      FirstOccurrencesMeaning(keys[..n]);
      assert keys == keys[..n] + [keys[n]];
      forall i | 0 <= i < |before| ensures FirstIndex(keys, before[i]) == FirstIndex(keys[..n], before[i]) < n {
        assert before[i] in before;
        FirstIndexOfPrefix(keys, n, before[i]);
      }
      if keys[n] !in keys[..n] { FirstIndexIs(keys, n); }
    }
  }

  /** The source of the last fact with this key. */
  function LastSource(sources: map<string, Source>, facts: seq<Fact>, key: string): (r: Source)
    requires forall f | f in facts :: f.inputId in sources
    requires key in KeysOf(sources, facts)
    ensures r.key == key
  {
    var last := facts[|facts| - 1];
    if sources[last.inputId].key == key then sources[last.inputId]
    else
      assert key in KeysOf(sources, facts[..|facts| - 1]) by {
        var i :| 0 <= i < |facts| && KeysOf(sources, facts)[i] == key;
        assert KeysOf(sources, facts[..|facts| - 1])[i] == key;
      }
      LastSource(sources, facts[..|facts| - 1], key)
  }

  // ----- the report -----

  predicate Known(sources: map<string, Source>, facts: seq<Fact>) {
    forall f | f in facts :: f.inputId in sources
  }

  function ContentSection(sources: map<string, Source>, key: SectionKey, facts: seq<Fact>): Section
    requires Known(sources, facts)
  {
    Section(key, seq(|facts|, i requires 0 <= i < |facts| => LineOf(sources, facts[i])), IdsOf(facts), [])
  }

  lemma {:induction false} InSectionMembers(facts: seq<Fact>, key: SectionKey)
    ensures forall f :: f in InSection(facts, key) <==> f in facts && SectionFor(f.category) == key
  {
    if facts != [] {
      InSectionMembers(facts[..|facts| - 1], key);
      assert facts == facts[..|facts| - 1] + [facts[|facts| - 1]];
    }
  }

  /** The content sections that have facts, in the fixed order. */
  function ContentSections(sources: map<string, Source>, facts: seq<Fact>, keys: seq<SectionKey>): seq<Section>
    requires Known(sources, facts)
  {
    if keys == [] then []
    else
      var key := keys[|keys| - 1];
      InSectionMembers(facts, key);
      ContentSections(sources, facts, keys[..|keys| - 1])
      + if InSection(facts, key) == [] then [] else [ContentSection(sources, key, InSection(facts, key))]
  }

  function SourcesSection(sources: map<string, Source>, facts: seq<Fact>): Section
    requires Known(sources, facts)
  {
    var keys := KeysOf(sources, facts);
    var order := FirstOccurrences(keys);
    FirstOccurrencesMeaning(keys);
    Section(
      Sources,
      seq(|order|, i requires 0 <= i < |order| =>
        (assert order[i] in order; SourceLineOf(LastSource(sources, facts, order[i])))),
      IdsOf(facts), [])
  }

  function Codes(items: seq<ReportItem>): set<string> {
    set item, codes, code | item in items && codes in item.uncertainty && code in codes :: code
  }

  function LimitationsSection(items: seq<ReportItem>): Section {
    Section(Limitations, [NothingFound], [],
            if Codes(items) == {} then ["no_explicit_fact_extracted"] else SortedStrings(Codes(items)))
  }

  function ReportOf(sources: map<string, Source>, items: seq<ReportItem>): seq<Section>
    requires Known(sources, AllFacts(items))
  {
    var facts := AllFacts(items);
    ContentSections(sources, facts, CONTENT)
    + [if facts == [] then LimitationsSection(items) else SourcesSection(sources, facts)]
  }

  function Get(bySection: map<SectionKey, seq<Fact>>, key: SectionKey): seq<Fact> {
    if key in bySection then bySection[key] else []
  }

  ghost predicate Sorted(bySection: map<SectionKey, seq<Fact>>, facts: seq<Fact>) {
    forall key :: Get(bySection, key) == InSection(facts, key)
  }

  lemma SortedMore(bySection: map<SectionKey, seq<Fact>>, facts: seq<Fact>, fact: Fact)
    requires Sorted(bySection, facts)
    ensures var key := SectionFor(fact.category);
      Sorted(bySection[key := Get(bySection, key) + [fact]], facts + [fact])
  {
    hide InSection;
    forall key
      ensures InSection(facts + [fact], key)
           == if SectionFor(fact.category) == key then InSection(facts, key) + [fact] else InSection(facts, key)
    {
      InSectionAppend(facts, fact, key);
    }
  }

  /** The first loop: every fact is put into the list of its section. */
  method SortFacts(items: seq<ReportItem>) returns (bySection: map<SectionKey, seq<Fact>>)
    ensures Sorted(bySection, AllFacts(items))
  {
    EmptySections();

    bySection := map[];
    assert Sorted(bySection, []);
    hide Sorted, InSection, Get;
    ghost var seen: seq<Fact> := [];
    for i := 0 to |items|
      invariant seen == AllFacts(items[..i])
      invariant Sorted(bySection, seen)
    {
      ghost var before := seen;
      var facts := items[i].facts;
      for j := 0 to |facts|
        invariant seen == before + facts[..j]
        invariant Sorted(bySection, seen)
      {
        SortedMore(bySection, seen, facts[j]);
        var key := SectionFor(facts[j].category);
        bySection := bySection[key := Get(bySection, key) + [facts[j]]];
        seen := seen + [facts[j]];
        assert facts[..j + 1] == facts[..j] + [facts[j]];
      }
      assert facts[..|facts|] == facts;
      assert items[..i + 1][..i] == items[..i];
    }
    assert items[..|items|] == items;
  }

  method Render(sources: map<string, Source>, facts: seq<Fact>) returns (lines: Option<seq<Line>>)
    ensures lines.Some? <==> Known(sources, facts)
    ensures lines.Some? ==> lines.value == seq(|facts|, i requires 0 <= i < |facts| => LineOf(sources, facts[i]))
  {
    hide LineOf;
    var rendered: seq<Line> := [];
    for i := 0 to |facts|
      invariant forall j | 0 <= j < i :: facts[j].inputId in sources
      invariant |rendered| == i && forall j | 0 <= j < i :: rendered[j] == LineOf(sources, facts[j])
    {
      if facts[i].inputId !in sources {
        assert facts[i] in facts;
        return None;
      }
      rendered := rendered + [LineOf(sources, facts[i])];
    }
    lines := Some(rendered);
  }

  /** The dictionary holds, for each key, the line of the last fact with that key; `order` is insertion order. */
  ghost predicate Collected(sources: map<string, Source>, facts: seq<Fact>, order: seq<string>,
                            values: map<string, Line>)
    requires Known(sources, facts)
  {
    && order == FirstOccurrences(KeysOf(sources, facts))
    && (forall key :: key in values <==> key in order)
    && (forall key :: key in order <==> key in KeysOf(sources, facts))
    && (forall key | key in KeysOf(sources, facts) ::
          key in values && values[key] == SourceLineOf(LastSource(sources, facts, key)))
  }

  lemma LastSourceMore(sources: map<string, Source>, facts: seq<Fact>, fact: Fact, key: string)
    requires Known(sources, facts + [fact])
    requires key in KeysOf(sources, facts + [fact])
    ensures LastSource(sources, facts + [fact], key)
         == if sources[fact.inputId].key == key then sources[fact.inputId]
            else (KeysMore(sources, facts, fact); LastSource(sources, facts, key))
  {
    assert (facts + [fact])[..|facts|] == facts;
    KeysMore(sources, facts, fact);
  }

  lemma KeysMore(sources: map<string, Source>, facts: seq<Fact>, fact: Fact)
    requires Known(sources, facts + [fact])
    ensures Known(sources, facts) && fact.inputId in sources
    ensures KeysOf(sources, facts + [fact]) == KeysOf(sources, facts) + [sources[fact.inputId].key]
  {
    assert forall f | f in facts :: f in facts + [fact];
    assert fact in facts + [fact];
  }

  lemma CollectedMore(sources: map<string, Source>, facts: seq<Fact>, fact: Fact, order: seq<string>,
                      values: map<string, Line>)
    requires Known(sources, facts + [fact]) && Known(sources, facts) && Collected(sources, facts, order, values)
    ensures var source := sources[fact.inputId];
      Collected(sources, facts + [fact], if source.key in values then order else order + [source.key],
                values[source.key := SourceLineOf(source)])
  {
    hide SourceLineOf, LastSource, KeysOf;
    KeysMore(sources, facts, fact);
    var keys, more := KeysOf(sources, facts), KeysOf(sources, facts + [fact]);
    assert more[..|more| - 1] == keys;
    forall key | key in more ensures LastSource(sources, facts + [fact], key)
      == if sources[fact.inputId].key == key then sources[fact.inputId] else LastSource(sources, facts, key)
    {
      LastSourceMore(sources, facts, fact, key);
    }
  }

  /** The dictionary of sources. */
  method CollectSources(sources: map<string, Source>, facts: seq<Fact>)
    returns (order: seq<string>, values: map<string, Line>)
    requires Known(sources, facts)
    ensures Collected(sources, facts, order, values)
  {
    order, values := [], map[];
    for i := 0 to |facts|
      invariant Collected(sources, facts[..i], order, values)
    {
      hide Collected;
      var source := sources[facts[i].inputId];
      assert facts[..i + 1] == facts[..i] + [facts[i]];
      CollectedMore(sources, facts[..i], facts[i], order, values);
      if source.key !in values {
        order := order + [source.key];
      }
      values := values[source.key := SourceLineOf(source)];
    }
    assert facts[..|facts|] == facts;
  }

  lemma SourceLines(sources: map<string, Source>, facts: seq<Fact>, order: seq<string>, values: map<string, Line>)
    requires Known(sources, facts) && Collected(sources, facts, order, values)
    ensures var lines := SourcesSection(sources, facts).lines;
      |lines| == |order| && forall i | 0 <= i < |order| :: order[i] in values && values[order[i]] == lines[i]
  {
    hide KeysOf, LastSource, FirstOccurrences;
    forall i | 0 <= i < |order|
      ensures order[i] in values && values[order[i]] == SourcesSection(sources, facts).lines[i]
    {
      assert order[i] in order;
    }
  }

  /** The loop over the content keys. */
  method AddContent(sources: map<string, Source>, facts: seq<Fact>, bySection: map<SectionKey, seq<Fact>>)
    returns (sections: Option<seq<Section>>)
    requires Sorted(bySection, facts)
    ensures sections.Some? <==> Known(sources, facts)
    ensures sections.Some? ==> sections.value == ContentSections(sources, facts, CONTENT)
  {
    hide InSection, IdsOf, Get;
    var added: seq<Section> := [];
    for i := 0 to |CONTENT|
      invariant forall f | f in facts && SectionFor(f.category) in CONTENT[..i] :: f.inputId in sources
      invariant Known(sources, facts) ==> added == ContentSections(sources, facts, CONTENT[..i])
    {
      var key := CONTENT[i];
      assert CONTENT[..i + 1] == CONTENT[..i] + [key];
      assert CONTENT[..i + 1][..i] == CONTENT[..i];
      InSectionMembers(facts, key);
      var lines := Render(sources, Get(bySection, key));
      if lines.None? {
        return None;
      }
      if Get(bySection, key) != [] {
        added := added + [Section(key, lines.value, IdsOf(Get(bySection, key)), [])];
      }
    }
    assert CONTENT[..|CONTENT|] == CONTENT;
    EveryCategoryHasASection();
    sections := Some(added);
  }

  lemma EveryCategoryHasASection()
    ensures forall category :: SectionFor(category) in CONTENT
  {
    assert CONTENT[0] == Situation && CONTENT[1] == ObservedActivity;
    assert CONTENT[2] == EngagedResources && CONTENT[3] == Impacts;
  }

  /** `_report`: it raises exactly when a fact's input has no source in the batch. */
  method BuildReport(sources: map<string, Source>, items: seq<ReportItem>) returns (r: Outcome<seq<Section>>)
    ensures r.Returned? <==> Known(sources, AllFacts(items))
    ensures r.Returned? ==> r.value == ReportOf(sources, items)
  {
    hide ContentSections, IdsOf, Codes, AllFacts, SortedStrings, InSection, KeysOf, LastSource;
    var bySection := SortFacts(items);
    var facts := AllFacts(items);
    var content := AddContent(sources, facts, bySection);
    if content.None? {
      return Raised(OtherException);
    }
    var sections := content.value;
    if facts != [] {
      var order, values := CollectSources(sources, facts);
      var lines := seq(|order|, i requires 0 <= i < |order| => (assert order[i] in order; values[order[i]]));
      sections := sections + [Section(Sources, lines, IdsOf(facts), [])];
      SourceLines(sources, facts, order, values);
      assert lines == SourcesSection(sources, facts).lines;
    } else {
      ContentOfNothing(sources, CONTENT);
    }
    if sections == [] {
      var codes := SortedStrings(Codes(items));
      sections := [Section(Limitations, [NothingFound], [],
                           if codes == [] then ["no_explicit_fact_extracted"] else codes)];
      CodesListed(items);
    }
    r := Returned(sections);
  }

  lemma {:induction false} ContentOfNothing(sources: map<string, Source>, keys: seq<SectionKey>)
    ensures ContentSections(sources, [], keys) == []
  {
    if keys != [] { ContentOfNothing(sources, keys[..|keys| - 1]); }
  }

  lemma CodesListed(items: seq<ReportItem>)
    ensures SortedStrings(Codes(items)) == [] <==> Codes(items) == {}
  {
    var codes := SortedStrings(Codes(items));
    if codes != [] { assert codes[0] in codes; }
  }

  // ----- what the report guarantees -----

  /** The fact ids of the content sections, one section after the other. */
  function ContentIds(sections: seq<Section>): seq<FactId> {
    if sections == [] then []
    else
      var last := sections[|sections| - 1];
      ContentIds(sections[..|sections| - 1]) + if last.key in CONTENT then last.factIds else []
  }

  lemma ContentIdsMore(sections: seq<Section>, section: Section)
    ensures ContentIds(sections + [section])
         == ContentIds(sections) + if section.key in CONTENT then section.factIds else []
  {
    assert (sections + [section])[..|sections|] == sections;
  }

  lemma {:induction false} ContentSectionsMeaning(sources: map<string, Source>, facts: seq<Fact>, keys: seq<SectionKey>)
    requires Known(sources, facts) && forall key | key in keys :: key in CONTENT
    requires forall i, j :: 0 <= i < j < |keys| ==> keys[i] != keys[j]
    ensures var sections := ContentSections(sources, facts, keys);
      && (forall i | 0 <= i < |sections| ::
            && sections[i].key in keys && sections[i].factIds == IdsOf(InSection(facts, sections[i].key))
            && sections[i].factIds != [] && |sections[i].lines| == |sections[i].factIds|)
      && (forall key | key in keys && InSection(facts, key) != [] :: exists s :: s in sections && s.key == key)
      && (forall i, j | 0 <= i < j < |sections| :: sections[i].key != sections[j].key)
  {
    hide InSection, IdsOf;
    if keys != [] {
      var n := |keys| - 1;
      ContentSectionsMeaning(sources, facts, keys[..n]);
      var before := ContentSections(sources, facts, keys[..n]);
      var sections := ContentSections(sources, facts, keys);
      if InSection(facts, keys[n]) != [] {
        assert sections[|before|] in sections;
      }
      forall key | key in keys && InSection(facts, key) != [] ensures exists s :: s in sections && s.key == key {
        if key in keys[..n] {
          var s :| s in before && s.key == key;
          assert s in sections;
        }
      }
      assert forall i | 0 <= i < |before| :: before[i].key in keys[..n];
    }
  }

  lemma {:induction false} ContentIdsOf(sources: map<string, Source>, facts: seq<Fact>, keys: seq<SectionKey>)
    requires Known(sources, facts) && forall key | key in keys :: key in CONTENT
    ensures ContentIds(ContentSections(sources, facts, keys)) == FiledInOrder(facts, keys)
  {
    hide InSection, IdsOf;
    if keys != [] {
      var n := |keys| - 1;
      var key := keys[n];
      ContentIdsOf(sources, facts, keys[..n]);
      InSectionMembers(facts, key);
      var before := ContentSections(sources, facts, keys[..n]);
      if InSection(facts, key) == [] {
        EmptySections();
        assert ContentSections(sources, facts, keys) == before;
        assert FiledInOrder(facts, keys) == FiledInOrder(facts, keys[..n]);
      } else {
        ContentIdsMore(before, ContentSection(sources, key, InSection(facts, key)));
      }
    }
  }

  function FiledInOrder(facts: seq<Fact>, keys: seq<SectionKey>): seq<FactId> {
    if keys == [] then [] else FiledInOrder(facts, keys[..|keys| - 1]) + IdsOf(InSection(facts, keys[|keys| - 1]))
  }

  lemma FiledInContentOrder(facts: seq<Fact>)
    ensures FiledInOrder(facts, CONTENT)
         == IdsOf(InSection(facts, Situation)) + IdsOf(InSection(facts, ObservedActivity))
            + IdsOf(InSection(facts, EngagedResources)) + IdsOf(InSection(facts, Impacts))
  {
    hide InSection, IdsOf;
    var one, two, three := [Situation], [Situation, ObservedActivity], [Situation, ObservedActivity, EngagedResources];
    assert one[..0] == [] && two[..1] == one && three[..2] == two && CONTENT[..3] == three;
    assert FiledInOrder(facts, one) == IdsOf(InSection(facts, Situation));
    assert FiledInOrder(facts, two) == FiledInOrder(facts, one) + IdsOf(InSection(facts, ObservedActivity));
    assert FiledInOrder(facts, three) == FiledInOrder(facts, two) + IdsOf(InSection(facts, EngagedResources));
  }

  /** Conservation: the content sections' fact ids together are a rearrangement of all fact ids; the report is
      never empty; its last section lists all facts, or stands alone and says there are none. */
  lemma ReportConservesFacts(sources: map<string, Source>, items: seq<ReportItem>)
    requires Known(sources, AllFacts(items))
    ensures var sections, facts := ReportOf(sources, items), AllFacts(items);
      && sections != []
      && multiset(ContentIds(sections)) == multiset(IdsOf(facts))
      && var last := sections[|sections| - 1];
         if facts == [] then |sections| == 1 && last == LimitationsSection(items) && last.basisCodes != []
         else last == SourcesSection(sources, facts) && last.factIds == IdsOf(facts)
  {
    hide InSection, IdsOf, ContentSections, FiledInOrder, LimitationsSection, SourcesSection, AllFacts, Known;
    var facts := AllFacts(items);
    var content := ContentSections(sources, facts, CONTENT);
    ContentIdsOf(sources, facts, CONTENT);
    FiledInContentOrder(facts);
    SectionsConserveFacts(facts);
    LastSection(sources, items);
    ContentIdsMore(content, if facts == [] then LimitationsSection(items) else SourcesSection(sources, facts));
    if facts == [] { ContentOfNothing(sources, CONTENT); }
  }

  lemma {:induction false} OccursOnce(ids: seq<FactId>, p: nat)
    requires p < |ids| && forall i, j | 0 <= i < j < |ids| :: ids[i] != ids[j]
    ensures multiset(ids)[ids[p]] == 1
  {
    assert ids == ids[..p] + [ids[p]] + ids[p + 1..];
    assert ids[p] !in ids[..p] && ids[p] !in ids[p + 1..];
    assert multiset(ids) == multiset(ids[..p]) + multiset{ids[p]} + multiset(ids[p + 1..]);
  }

  /** Facts with distinct ids are each in the content sections exactly once. */
  lemma EachOnce(sources: map<string, Source>, items: seq<ReportItem>, p: nat)
    requires Known(sources, AllFacts(items)) && p < |AllFacts(items)|
    requires forall i, j | 0 <= i < j < |AllFacts(items)| :: AllFacts(items)[i].factId != AllFacts(items)[j].factId
    ensures multiset(ContentIds(ReportOf(sources, items)))[AllFacts(items)[p].factId] == 1
  {
    hide ReportOf, ContentIds, AllFacts;
    ReportConservesFacts(sources, items);
    OccursOnce(IdsOf(AllFacts(items)), p);
  }

  /** Each content section holds the facts of its categories in input order, a line for each, and appears once and
      only if it has facts; every other section than the last is one of these. */
  lemma ReportFilesFacts(sources: map<string, Source>, items: seq<ReportItem>, i: nat)
    requires Known(sources, AllFacts(items)) && i < |ReportOf(sources, items)|
    ensures var sections, facts := ReportOf(sources, items), AllFacts(items);
      && (sections[i].key in CONTENT <==> i < |sections| - 1)
      && (sections[i].key in CONTENT ==>
            && sections[i].factIds == IdsOf(InSection(facts, sections[i].key)) && sections[i].factIds != []
            && |sections[i].lines| == |sections[i].factIds|)
      && (forall j | 0 <= j < |sections| && j != i :: sections[i].key != sections[j].key)
    ensures forall key | key in CONTENT && InSection(AllFacts(items), key) != [] ::
      exists s :: s in ReportOf(sources, items) && s.key == key
  {
    hide InSection, IdsOf, ContentSections, LimitationsSection, SourcesSection, AllFacts, Known;
    var facts := AllFacts(items);
    var content, sections := ContentSections(sources, facts, CONTENT), ReportOf(sources, items);
    ContentSectionsMeaning(sources, facts, CONTENT);
    LastSection(sources, items);
    assert forall j | 0 <= j < |content| :: sections[j] == content[j];
    forall key | key in CONTENT && InSection(facts, key) != [] ensures exists s :: s in sections && s.key == key {
      var s :| s in content && s.key == key;
      assert s in sections;
    }
  }

  lemma LastSection(sources: map<string, Source>, items: seq<ReportItem>)
    requires Known(sources, AllFacts(items))
    ensures LimitationsSection(items).key == Limitations && LimitationsSection(items).basisCodes != []
    ensures SourcesSection(sources, AllFacts(items)).key == Sources
    ensures SourcesSection(sources, AllFacts(items)).factIds == IdsOf(AllFacts(items))
    ensures Limitations !in CONTENT && Sources !in CONTENT
  {
    hide AllFacts, SortedStrings;
    CodesListed(items);
  }

  /** The sources section has one line per distinct source key, in the order in which the keys first occur, and
      each line shows the source of the last fact with its key. */
  lemma SourcesAreDistinct(sources: map<string, Source>, facts: seq<Fact>)
    requires Known(sources, facts)
    ensures var keys := KeysOf(sources, facts);
      var order, lines := FirstOccurrences(keys), SourcesSection(sources, facts).lines;
      && |lines| == |order|
      && (forall k :: k in order <==> k in keys)
      && (forall i, j | 0 <= i < j < |order| :: FirstIndex(keys, order[i]) < FirstIndex(keys, order[j]))
      && (forall i | 0 <= i < |order| :: ShowsLast(sources, facts, order[i], lines[i]))
  {
    hide FirstOccurrences, SourceLineOf, LastSource, ShowsLast, KeysOf;
    FirstOccurrencesMeaning(KeysOf(sources, facts));
    var order := FirstOccurrences(KeysOf(sources, facts));
    forall i | 0 <= i < |order| ensures ShowsLast(sources, facts, order[i], SourcesSection(sources, facts).lines[i]) {
      assert order[i] in order;
      LastSourceShown(sources, facts, order[i]);
    }
  }

  /** The line shows the source of the last fact with this key. */
  ghost predicate ShowsLast(sources: map<string, Source>, facts: seq<Fact>, key: string, line: Line)
    requires Known(sources, facts)
  {
    exists p :: LastWith(KeysOf(sources, facts), p, key) && line == SourceLineOf(sources[facts[p].inputId])
  }

  lemma LastSourceShown(sources: map<string, Source>, facts: seq<Fact>, key: string)
    requires Known(sources, facts) && key in KeysOf(sources, facts)
    ensures ShowsLast(sources, facts, key, SourceLineOf(LastSource(sources, facts, key)))
  {
    hide LastSource, SourceLineOf;
    var p := LastSourceAt(sources, facts, key);
  }

  ghost predicate LastWith(keys: seq<string>, p: int, key: string) {
    0 <= p < |keys| && keys[p] == key && key !in keys[p + 1..]
  }

  lemma {:induction false} LastSourceAt(sources: map<string, Source>, facts: seq<Fact>, key: string) returns (p: nat)
    requires Known(sources, facts) && key in KeysOf(sources, facts)
    ensures LastWith(KeysOf(sources, facts), p, key) && LastSource(sources, facts, key) == sources[facts[p].inputId]
  {
    var n := |facts| - 1;
    assert facts == facts[..n] + [facts[n]];
    LastSourceMore(sources, facts[..n], facts[n], key);
    if sources[facts[n].inputId].key == key {
      p := n;
    } else {
      KeysMore(sources, facts[..n], facts[n]);
      p := LastSourceAt(sources, facts[..n], key);
      assert KeysOf(sources, facts)[p + 1..] == KeysOf(sources, facts[..n])[p + 1..] + [sources[facts[n].inputId].key];
    }
  }
}
