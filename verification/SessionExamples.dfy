/** Facts about particular sessions: what an initial item flags, and a session that ends as `failed`. */
module SessionExamples {
  import opened Prelude
  import opened SessionModel
  import opened StageGates
  import opened CandidateProtocol
  import opened SessionSpec
  import opened Session
  import opened StageShapes
  import opened SessionTheorems
  import TemporalSampling

  function Flagged(selection: seq<Selection>): nat {
    if selection == [] then 0
    else Flagged(selection[..|selection| - 1]) + if selection[|selection| - 1].selected then 1 else 0
  }

  ghost predicate Marks(ids: seq<string>, chosen: set<string>, selection: seq<Selection>) {
    && |selection| == |ids|
    && (forall i | 0 <= i < |ids| :: selection[i].selected <==> ids[i] in chosen)
    && (forall c | c in chosen :: c in ids)
  }

  lemma MarksRest(ids: seq<string>, chosen: set<string>, selection: seq<Selection>)
    requires Marks(ids, chosen, selection) && TemporalSampling.Distinct(ids) && ids != []
    ensures var n := |ids| - 1;
      && Marks(ids[..n], chosen - {ids[n]}, selection[..n])
      && TemporalSampling.Distinct(ids[..n])
      && |selection| == |ids| && (selection[n].selected <==> ids[n] in chosen)
  {
    var n := |ids| - 1;
    forall c | c in chosen - {ids[n]} ensures c in ids[..n] {
      var i :| 0 <= i < |ids| && ids[i] == c;
      assert ids[..n][i] == c;
    }
    assert ids[n] !in ids[..n];
    assert forall i | 0 <= i < n :: ids[..n][i] == ids[i] && ids[i] in ids[..n];
  }

  lemma {:induction false} FlaggedCount(ids: seq<string>, chosen: set<string>, selection: seq<Selection>)
    requires TemporalSampling.Distinct(ids) && Marks(ids, chosen, selection)
    ensures Flagged(selection) == |chosen|
  {
    if ids == [] {
      assert chosen == {};
    } else {
      var n := |ids| - 1;
      MarksRest(ids, chosen, selection);
      hide Marks, TemporalSampling.Distinct;
      FlaggedCount(ids[..n], chosen - {ids[n]}, selection[..n]);
      RemoveOne(chosen, ids[n]);
    }
  }

  lemma RemoveOne(s: set<string>, x: string)
    ensures |s| == |s - {x}| + if x in s then 1 else 0
  {
    if x !in s { assert s - {x} == s; }
  }

  lemma {:induction false} DistinctSetSize(s: seq<string>)
    requires TemporalSampling.Distinct(s)
    ensures |set x | x in s| == |s|
  {
    if s == [] {
      assert (set x | x in s) == {};
    } else {
      var n := |s| - 1;
      DistinctSetSize(s[..n]);
      assert s[n] !in s[..n];
      assert (set x | x in s) == (set x | x in s[..n]) + {s[n]};
    }
  }

  /** An item whose visual sources are distinct starts with exactly min(n, 8) of them selected. */
  lemma InitialSelectionSize(item: BatchItem)
    requires TemporalSampling.Distinct(VisualSources(item))
    ensures var n := |VisualSources(item)|;
      && |InitialResult(item).selection| == n
      && Flagged(InitialResult(item).selection) == if n <= FALLBACK_LIMIT then n else FALLBACK_LIMIT
  {
    var sources := VisualSources(item);
    hide TemporalSampling.Sample;
    TemporalSampling.SampleSize(sources, FALLBACK_LIMIT);
    var sample := TemporalSampling.Sample(sources, FALLBACK_LIMIT);
    DistinctSetSize(sample);
    FlaggedCount(sources, (set x | x in sample), InitialSelection(sources));
  }

  // ----- a session reported as failed -----

  const ARTICLE: BatchItem := BatchItem("a", "", false, false, true, [])

  const EXTRACTOR: Group :=
    Group([Candidate("m", 1, "model", "rev")], OtherStrategy("single"), 1, 1, false, None, "human_review")

  function PlainContract(role: Role): Contract {
    var needed := match role
      case Asr => AudioInput
      case FireDetection => VisualInput
      case VisualGrounding => VisualInput
      case MultimodalExtraction => TextInput;
    Contract(role, {needed}, {}, {}, 10, 10, 60.0, 0, true, OtherPolicy("degrade"))
  }

  const PATCH: ItemPatch := ItemPatch(None, None, None, None, None, Some(["noon"]))

  const PATCHED: Results := map["a" := ItemResult("a", "", [], [], [], [], [], ["noon"])]

  /** An answer with one patch, which validates, and after which the output payload cannot be built. */
  const UNPUBLISHABLE: CandidateAnswers :=
    CandidateAnswers(Returned(()), Returned(0), Inference(Returned(map["a" := PATCH]), 0),
                     Inference(Returned(map["a" := PATCH]), 0), Some(OtherException))

  /** A consensus that names a candidate it was never shown, because it did not succeed. */
  const SELECTS_IT: Evaluation := Evaluation(false, "pass", Some("m"), ["selected"], true)

  function PlainAnswers(role: Role): StageAnswers {
    StageAnswers(
      (i: nat) => UNPUBLISHABLE, Returned(false), Returned(SELECTS_IT),
      JudgeAnswers(Returned(()), Returned(0), Ruling(Raised(OtherException), 0), Ruling(Raised(OtherException), 0),
                   None),
      Returned(SELECTS_IT), 1.0)
  }

  function AcceptAny(item: BatchItem, result: ItemResult): bool { true }

  function ArticleSession(): Context {
    Context([ARTICLE], AcceptAny, map[MultimodalExtraction := EXTRACTOR], PlainContract, PlainAnswers)
  }

  lemma ArticleCapabilities()
    ensures Ids([ARTICLE]) == {"a"}
    ensures InitialResults([ARTICLE]) == map["a" := ItemResult("a", "", [], [], [], [], [], [])]
    ensures Capabilities([ARTICLE], InitialResults([ARTICLE])) == {TextInput}
  {
    hide TemporalSampling.Sample;
    assert [ARTICLE] == [ARTICLE][..0] + [ARTICLE];
    assert Ids([ARTICLE]) == {"a"} by { assert ARTICLE in [ARTICLE]; }
    assert InitialSelection([]) == [];
    var results := InitialResults([ARTICLE]);
    assert results == map["a" := ItemResult("a", "", [], [], [], [], [], [])];
    assert forall item | item in [ARTICLE] :: item == ARTICLE;
    assert Brings(ARTICLE, TextInput);
    assert forall c, id | id in results :: !Yields(results[id], c);
  }

  lemma QuietStage(role: Role)
    requires role != MultimodalExtraction
    ensures var ctx := ArticleSession();
      var base := InitialResults([ARTICLE]);
      && Ids(ctx.batch) <= base.Keys
      && RunStage(ctx, role, base)
         == Completed(SkippedStage(role, None, base, PreflightOf(ctx, role, base)), [])
      && PreflightOf(ctx, role, base).decision == NotApplicable
  {
    hide Capabilities, InitialResults;
    ArticleCapabilities();
    var ctx := ArticleSession();
    var needed := if role == Asr then AudioInput else VisualInput;
    assert needed in Missing(ctx.contracts(role), {TextInput});
    assert PreflightOf(ctx, role, InitialResults([ARTICLE])).decision == NotApplicable;
  }

  lemma UnpublishableCandidate()
    ensures var ctx := ArticleSession();
      var base := InitialResults([ARTICLE]);
      && Ids(ctx.batch) <= base.Keys
      && var one := ExecuteOne(ctx, MultimodalExtraction, EXTRACTOR, base, 0);
         && one.Returned?
         && one.value.results == Some(PATCHED)
         && one.value.run.status == Failed
         && one.value.run.errorCode.Some?
         && one.value.candidate.candidateId == "m"
  {
    hide Capabilities, InitialResults;
    ArticleCapabilities();
    var base := InitialResults([ARTICLE]);
    assert Patched(base, map["a" := PATCH]) == PATCHED;
  }

  lemma ExtractionStage()
    ensures var ctx := ArticleSession();
      var base := InitialResults([ARTICLE]);
      && Ids(ctx.batch) <= base.Keys
      && var step := RunStage(ctx, MultimodalExtraction, base);
         step.Completed? && step.record.run.status == Failed && Taken(step.record) && Clean(step.record)
  {
    hide Capabilities, InitialResults, ExecuteOne, MaximumOutput, CandidateErrors, Successful;
    ArticleCapabilities();
    UnpublishableCandidate();
    var ctx := ArticleSession();
    var base := InitialResults([ARTICLE]);
    var one := ExecuteOne(ctx, MultimodalExtraction, EXTRACTOR, base, 0).value;
    var g := ExecuteFrom(ctx, MultimodalExtraction, EXTRACTOR, base, 0);
    assert ExecuteFrom(ctx, MultimodalExtraction, EXTRACTOR, base, 1).done == [];
    assert g.done == [one] && g.raised == None;
    assert FirstMatch([one], Some("m")) == Some(0);
    ExecutedKeys(ctx, MultimodalExtraction, EXTRACTOR, base, 0);
    SmallOutput();
  }

  lemma SmallOutput()
    ensures Ids([ARTICLE]) <= PATCHED.Keys
    ensures MaximumOutput(MultimodalExtraction, [ARTICLE], PATCHED) == 1
  {
    hide InitialResults;
    ArticleCapabilities();
    assert [ARTICLE][1..] == [];
  }

  /** The records of that session: three stages that do not apply and the extraction. */
  lemma ArticleRecords()
    ensures var p := Finished(ArticleSession());
      && p.raised == None && |p.records| == 4
      && (forall i | 0 <= i < 4 :: Clean(p.records[i]))
      && p.records[3].run.status == Failed
      && (forall i | 0 <= i < 3 :: p.records[i].run.status == Skipped)
  {
    hide RunStage, SkippedStage, PreflightOf, InitialResults, Clean, Taken;
    var ctx := ArticleSession();
    var base := InitialResults([ARTICLE]);
    QuietStage(Asr);
    QuietStage(FireDetection);
    QuietStage(VisualGrounding);
    ExtractionStage();
    QuietRecord(Asr);
    QuietRecord(FireDetection);
    QuietRecord(VisualGrounding);
    assert After(ctx, 0).results == base;
    assert After(ctx, 1).results == base && After(ctx, 1).raised == None;
    assert After(ctx, 2).results == base && After(ctx, 2).raised == None;
    assert After(ctx, 3).results == base && After(ctx, 3).raised == None;
    assert Finished(ctx) == After(ctx, 4);
  }

  /** With a consensus that names a candidate it was never shown the `failed` status is given after all: the stage is
      accepted and its postflight abstains, but the run it reports has failed and no other run succeeded. */
  lemma FailedIsReachable()
    ensures Outputs(ArticleSession()).Returned? && Outputs(ArticleSession()).value.status == BatchFailed
    ensures !ChoosesAmongShown(ArticleSession())
  {
    hide After, Finished, Clean, OutputOf, ChoosesAmongShown;
    ArticleRecords();
    var ctx := ArticleSession();
    StatusMeaning(ctx, Outputs(ctx).value);
    if ChoosesAmongShown(ctx) { SucceededMeansClean(ctx, Outputs(ctx).value); }
  }

  lemma QuietRecord(role: Role)
    requires role != MultimodalExtraction
    ensures var ctx := ArticleSession();
      var base := InitialResults([ARTICLE]);
      && Ids(ctx.batch) <= base.Keys
      && var r := SkippedStage(role, None, base, PreflightOf(ctx, role, base));
         r.next == base && r.run.status == Skipped && Clean(r)
  {
    hide Capabilities, InitialResults, PreflightOf;
    QuietStage(role);
  }
}
