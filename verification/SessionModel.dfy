/** The values a session works on: batch items, the running result of each item, the patches models
    return, and the data a stage is configured with. */
module SessionModel {
  import opened Prelude

  datatype Role = Asr | FireDetection | VisualGrounding | MultimodalExtraction

  const ROLE_ORDER: seq<Role> := [Asr, FireDetection, VisualGrounding, MultimodalExtraction]

  datatype Task = FireDetectionTask | PhraseGrounding | Ocr | OtherTask(name: string)

  datatype Region = Region(regionId: string, task: Task)

  datatype SelectionReason = SingleImage | DetectorFallback | CapacityLimit | OtherReason(code: string)

  datatype Selection = Selection(evidenceId: string, selected: bool, reason: SelectionReason)

  /** `location` stands for the metadata and location fields, which no patch touches. */
  datatype BatchItem = BatchItem(
    inputId: string,
    location: string,
    hasAudio: bool,
    hasWorkingFile: bool,
    hasText: bool,
    frames: seq<string>)

  type Batch = seq<BatchItem>

  datatype ItemResult = ItemResult(
    inputId: string,
    location: string,
    segments: seq<string>,
    regions: seq<Region>,
    selection: seq<Selection>,
    facts: seq<string>,
    places: seq<string>,
    times: seq<string>)

  type Results = map<string, ItemResult>

  /** A field that is None leaves the running result's field alone. */
  datatype ItemPatch = ItemPatch(
    segments: Option<seq<string>>,
    regions: Option<seq<Region>>,
    selection: Option<seq<Selection>>,
    facts: Option<seq<string>>,
    places: Option<seq<string>>,
    times: Option<seq<string>>)

  type Patches = map<string, ItemPatch>

  function OrElse<T>(patched: Option<T>, current: T): T {
    if patched.Some? then patched.value else current
  }

  /** Each present field of the patch replaces the whole field of the result. */
  function Merge(result: ItemResult, patch: ItemPatch): ItemResult {
    result.(
      segments := OrElse(patch.segments, result.segments),
      regions := OrElse(patch.regions, result.regions),
      selection := OrElse(patch.selection, result.selection),
      facts := OrElse(patch.facts, result.facts),
      places := OrElse(patch.places, result.places),
      times := OrElse(patch.times, result.times))
  }

  /** What the next model is shown of a running result. */
  function AsPatch(result: ItemResult): ItemPatch {
    ItemPatch(Some(result.segments), Some(result.regions), Some(result.selection),
              Some(result.facts), Some(result.places), Some(result.times))
  }

  /** Handing a model's own view back changes nothing, and of two patches to one item the later one
      wins field by field. */
  lemma MergeLaws(result: ItemResult, first: ItemPatch, second: ItemPatch)
    ensures Merge(result, AsPatch(result)) == result
    ensures Merge(Merge(result, first), AsPatch(result)) == result
    ensures Merge(Merge(result, first), second) == ItemResult(
      result.inputId, result.location,
      OrElse(second.segments, OrElse(first.segments, result.segments)),
      OrElse(second.regions, OrElse(first.regions, result.regions)),
      OrElse(second.selection, OrElse(first.selection, result.selection)),
      OrElse(second.facts, OrElse(first.facts, result.facts)),
      OrElse(second.places, OrElse(first.places, result.places)),
      OrElse(second.times, OrElse(first.times, result.times)))
  {}

  function Ids(batch: Batch): set<string> {
    set item | item in batch :: item.inputId
  }

  /** The judgement of `validate_item_result`, which the model leaves arbitrary. */
  type ItemCheck = (BatchItem, ItemResult) -> bool

  predicate AllValid(batch: Batch, check: ItemCheck, results: Results)
    requires Ids(batch) <= results.Keys
  {
    forall item | item in batch :: (assert item.inputId in Ids(batch); check(item, results[item.inputId]))
  }

  /** Every patched item merged, every other item as it was. */
  function Patched(results: Results, patches: Patches): Results {
    map id | id in results :: if id in patches then Merge(results[id], patches[id]) else results[id]
  }

  /** An answer of a model against a base map: the patched map when it names only known items and every
      item passes its check, an output-validation error otherwise. */
  function Validated(batch: Batch, check: ItemCheck, results: Results, patches: Patches): Outcome<Results>
    requires Ids(batch) <= results.Keys
  {
    if patches.Keys <= results.Keys && AllValid(batch, check, Patched(results, patches)) then
      Returned(Patched(results, patches))
    else
      Raised(OutputValidationError)
  }

  /** The answer is accepted exactly when it names only known items and every item of the batch passes its check as
      patched; then each item has its patch merged or is as it was, and otherwise the one error is raised. */
  lemma ValidatedMeaning(batch: Batch, check: ItemCheck, results: Results, patches: Patches)
    requires Ids(batch) <= results.Keys
    ensures var r := Validated(batch, check, results, patches);
      && (r.Returned? <==>
            && (forall id | id in patches :: id in results)
            && (forall i | 0 <= i < |batch| ::
                  && batch[i].inputId in results
                  && check(batch[i], if batch[i].inputId in patches
                                     then Merge(results[batch[i].inputId], patches[batch[i].inputId])
                                     else results[batch[i].inputId])))
      && (r.Returned? ==> r.value.Keys == results.Keys)
      && (r.Returned? ==> forall id | id in results ::
            id in r.value && r.value[id] == if id in patches then Merge(results[id], patches[id]) else results[id])
      && (r.Raised? ==> r.error == OutputValidationError)
  {
    hide Merge;
    forall i | 0 <= i < |batch| ensures batch[i].inputId in results { assert batch[i].inputId in Ids(batch); }
    var after := Patched(results, patches);
    assert AllValid(batch, check, after) <==>
      forall i | 0 <= i < |batch| :: check(batch[i], after[batch[i].inputId]);
  }

  /** `_validated_candidates`: merges the patches one at a time, in whatever order the mapping yields
      them, then checks the items in batch order. */
  method ValidatedCandidates(batch: Batch, check: ItemCheck, results: Results, patches: Patches)
    returns (r: Outcome<Results>)
    requires Ids(batch) <= results.Keys
    ensures r == Validated(batch, check, results, patches)
  {
    var candidate := results;
    var left := patches.Keys;
    while left != {}
      invariant left <= patches.Keys
      invariant patches.Keys - left <= results.Keys
      invariant candidate.Keys == results.Keys
      invariant forall id | id in results ::
        candidate[id] == if id in patches && id !in left then Merge(results[id], patches[id]) else results[id]
    {
      var id :| id in left;
      if id !in candidate {
        return Raised(OutputValidationError);
      }
      candidate := candidate[id := Merge(candidate[id], patches[id])];
      left := left - {id};
    }
    assert candidate == Patched(results, patches);
    for i := 0 to |batch|
      invariant forall item | item in batch[..i] ::
        item.inputId in candidate && check(item, candidate[item.inputId])
    {
      assert batch[i].inputId in Ids(batch);
      if !check(batch[i], candidate[batch[i].inputId]) {
        return Raised(OutputValidationError);
      }
      assert batch[..i + 1] == batch[..i] + [batch[i]];
    }
    assert batch[..|batch|] == batch;
    r := Returned(candidate);
  }

  datatype Capability =
    | AudioInput
    | VisualInput
    | TextInput
    | Transcript
    | SelectedVisual
    | DetectionRegions
    | GroundedRegions
    | FactualObservations
    | OtherCapability(name: string)

  datatype FailurePolicy = HumanReviewPolicy | BlockPolicy | OtherPolicy(name: string)

  datatype Contract = Contract(
    role: Role,
    requiredAll: set<Capability>,
    requiredAny: set<Capability>,
    minimumOutputAny: set<Capability>,
    maxInputItems: int,
    maxOutputItems: int,
    maxWallTimeSeconds: real,
    maxRepairAttempts: int,
    skipWhenNotApplicable: bool,
    failurePolicy: FailurePolicy)

  datatype Candidate = Candidate(candidateId: string, rank: int, modelId: string, revision: string)

  datatype Strategy = Cascade | OtherStrategy(name: string)

  datatype Group = Group(
    candidates: seq<Candidate>,
    strategy: Strategy,
    minimumSuccessful: int,
    minimumAgreeing: int,
    alwaysChallenge: bool,
    adjudicator: Option<Candidate>,
    disagreementDecision: string)

  datatype RunStatus = Succeeded | Failed | Skipped
}
