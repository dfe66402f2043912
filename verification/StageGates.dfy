/** The gates around a stage: what a result map makes available, and the decisions before and after
    the stage's model calls. */
module StageGates {
  import opened Prelude
  import opened SessionModel

  datatype GatePhase = PreflightPhase | PostflightPhase

  datatype GateDecision = Proceed | NotApplicable | Abstain | HumanReview | FailedRetryable | FailedTerminal

  datatype GateRecord = GateRecord(
    role: Role,
    phase: GatePhase,
    decision: GateDecision,
    reason: string,
    available: set<Capability>,
    missing: set<Capability>,
    downstreamPossible: bool)

  predicate Yields(result: ItemResult, capability: Capability) {
    match capability
    case Transcript => result.segments != []
    case SelectedVisual => exists s | s in result.selection :: s.selected
    case DetectionRegions => exists region | region in result.regions :: region.task.FireDetectionTask?
    case GroundedRegions =>
      exists region | region in result.regions :: region.task.PhraseGrounding? || region.task.Ocr?
    case FactualObservations => result.facts != []
    case _ => false
  }

  predicate Brings(item: BatchItem, capability: Capability) {
    match capability
    case AudioInput => item.hasAudio
    case VisualInput => item.hasWorkingFile || item.frames != []
    case TextInput => item.hasText
    case _ => false
  }

  const DERIVABLE: set<Capability> :=
    {AudioInput, VisualInput, TextInput, Transcript, SelectedVisual, DetectionRegions, GroundedRegions,
     FactualObservations}

  /** A capability is available when some item brings it or some running result yields it. */
  function Capabilities(batch: Batch, results: Results): set<Capability> {
    set c | c in DERIVABLE
            && ((exists item | item in batch :: Brings(item, c))
                || (exists id | id in results :: Yields(results[id], c)))
  }

  /** The capabilities found once the results outside `left` have been visited. */
  ghost predicate Found(c: Capability, batch: Batch, results: Results, left: set<string>) {
    || (exists item | item in batch :: Brings(item, c))
    || (exists id | id in results && id !in left :: Yields(results[id], c))
  }

  lemma FoundAfter(batch: Batch, results: Results, left: set<string>, id: string)
    requires id in left && id in results
    ensures forall c ::
      (Found(c, batch, results, left - {id}) <==> Found(c, batch, results, left) || Yields(results[id], c))
  {}

  /** Adds what one running result yields, in the order the source asks. */
  method AddYields(found: set<Capability>, result: ItemResult) returns (grown: set<Capability>)
    ensures forall c :: c in grown <==> c in found || Yields(result, c)
  {
    grown := found;
    if result.segments != [] { grown := grown + {Transcript}; }
    if exists s | s in result.selection :: s.selected { grown := grown + {SelectedVisual}; }
    if exists region | region in result.regions :: region.task.FireDetectionTask? {
      grown := grown + {DetectionRegions};
    }
    if exists region | region in result.regions :: region.task.PhraseGrounding? || region.task.Ocr? {
      grown := grown + {GroundedRegions};
    }
    if result.facts != [] { grown := grown + {FactualObservations}; }
  }

  /** Adds what the batch items bring. */
  method AddInputs(batch: Batch) returns (found: set<Capability>)
    ensures forall c :: c in found <==> exists item | item in batch :: Brings(item, c)
  {
    found := {};
    if exists item | item in batch :: item.hasAudio { found := found + {AudioInput}; }
    if exists item | item in batch :: item.hasWorkingFile || item.frames != [] {
      found := found + {VisualInput};
    }
    if exists item | item in batch :: item.hasText { found := found + {TextInput}; }
    forall c ensures c in found <==> exists item | item in batch :: Brings(item, c) {
      match c
      case AudioInput => assert forall item :: Brings(item, c) <==> item.hasAudio;
      case VisualInput => assert forall item :: Brings(item, c) <==> item.hasWorkingFile || item.frames != [];
      case TextInput => assert forall item :: Brings(item, c) <==> item.hasText;
      case _ => assert forall item :: !Brings(item, c);
    }
  }

  /** `derive_capabilities`: grows a local set over the batch and then over the results. */
  method DeriveCapabilities(batch: Batch, results: Results) returns (found: set<Capability>)
    ensures found == Capabilities(batch, results)
  {
    found := AddInputs(batch);
    var left := results.Keys;
    while left != {}
      invariant left <= results.Keys
      invariant forall c :: c in found <==> Found(c, batch, results, left)
    {
      var id :| id in left;
      found := AddYields(found, results[id]);
      FoundAfter(batch, results, left, id);
      left := left - {id};
    }
    assert forall c :: c in found ==> c in DERIVABLE;
  }

  /** Capabilities are not monotone: patches replace whole fields, so an answer can take one away. The exact condition
      for the transcript: there is one, every item that has one gets it emptied, and no other gets one. */
  lemma PatchDropsTranscriptIff(batch: Batch, results: Results, patches: Patches)
    ensures Transcript in Capabilities(batch, results) && Transcript !in Capabilities(batch, Patched(results, patches))
       <==> && (exists id :: id in results && results[id].segments != [])
            && (forall id | id in results ::
                  if results[id].segments != [] then id in patches && patches[id].segments == Some([])
                  else id in patches && patches[id].segments.Some? ==> patches[id].segments.value == [])
  {
    var after := Patched(results, patches);
    TranscriptIff(batch, results);
    TranscriptIff(batch, after);
    forall id | id in results
      ensures after[id].segments
           == if id in patches then OrElse(patches[id].segments, results[id].segments) else results[id].segments
    {}
    if exists id :: id in after && after[id].segments != [] {
      var id :| id in after && after[id].segments != [];
      assert id in results;
    }
    hide Capabilities, Patched;
  }

  lemma TranscriptIff(batch: Batch, results: Results)
    ensures Transcript in Capabilities(batch, results) <==> exists id :: id in results && results[id].segments != []
  {
    assert forall item | item in batch :: !Brings(item, Transcript);
    assert forall id | id in results :: Yields(results[id], Transcript) <==> results[id].segments != [];
  }

  function Missing(contract: Contract, capabilities: set<Capability>): set<Capability> {
    (contract.requiredAll - capabilities)
    + (if contract.requiredAny != {} && capabilities * contract.requiredAny == {}
       then contract.requiredAny else {})
  }

  predicate IsNotApplicable(role: Role, capabilities: set<Capability>) {
    match role
    case Asr => AudioInput !in capabilities
    case FireDetection | VisualGrounding => VisualInput !in capabilities
    case MultimodalExtraction => false
  }

  function Preflight(contract: Contract, capabilities: set<Capability>, inputItems: nat): GateRecord {
    if inputItems > contract.maxInputItems then
      GateRecord(contract.role, PreflightPhase, FailedTerminal, "stage_input_limit_exceeded",
                 capabilities, {}, false)
    else
      var missing := Missing(contract, capabilities);
      if missing == {} then
        GateRecord(contract.role, PreflightPhase, Proceed, "requirements_satisfied", capabilities, {}, true)
      else if contract.skipWhenNotApplicable && IsNotApplicable(contract.role, capabilities) then
        GateRecord(contract.role, PreflightPhase, NotApplicable, "no_applicable_input",
                   capabilities, missing, true)
      else
        GateRecord(contract.role, PreflightPhase,
                   if contract.failurePolicy.HumanReviewPolicy? then HumanReview
                   else if contract.failurePolicy.BlockPolicy? then FailedTerminal
                   else Abstain,
                   "required_capability_missing", capabilities, missing,
                   !contract.failurePolicy.BlockPolicy?)
  }

  function Postflight(contract: Contract, before: set<Capability>, after: set<Capability>,
                      status: RunStatus, errorCode: Option<string>, elapsedSeconds: real,
                      maximumOutputItems: nat): GateRecord
  {
    match status
    case Failed =>
      GateRecord(contract.role, PostflightPhase,
                 if errorCode == Some("model_runtime_error") then FailedRetryable else FailedTerminal,
                 if errorCode.Some? && errorCode.value != "" then errorCode.value else "stage_failed",
                 after, {}, !contract.failurePolicy.BlockPolicy?)
    case Skipped =>
      var named := errorCode.Some? && errorCode.value != "";
      GateRecord(contract.role, PostflightPhase, if named then Abstain else NotApplicable,
                 if named then errorCode.value else "stage_skipped", after, {}, true)
    case Succeeded =>
      if elapsedSeconds > contract.maxWallTimeSeconds then
        GateRecord(contract.role, PostflightPhase, FailedRetryable, "stage_wall_time_exceeded", after, {}, false)
      else if maximumOutputItems > contract.maxOutputItems then
        GateRecord(contract.role, PostflightPhase, FailedTerminal, "stage_output_limit_exceeded",
                   after, {}, false)
      else if (after - before) * contract.minimumOutputAny != {} then
        GateRecord(contract.role, PostflightPhase, Proceed, "minimum_output_satisfied", after, {}, true)
      else
        GateRecord(contract.role, PostflightPhase,
                   if contract.failurePolicy.HumanReviewPolicy? then HumanReview else Abstain,
                   "minimum_output_missing", after, contract.minimumOutputAny,
                   !contract.failurePolicy.BlockPolicy?)
  }

  /** Decisions that stop a batch from counting as succeeded. */
  predicate Blocking(decision: GateDecision) {
    decision.HumanReview? || decision.FailedRetryable? || decision.FailedTerminal?
  }

  /** Every requirement of the stage is met. */
  ghost predicate RequirementsMet(contract: Contract, capabilities: set<Capability>) {
    && (forall c | c in contract.requiredAll :: c in capabilities)
    && (contract.requiredAny == {} || exists c :: c in capabilities && c in contract.requiredAny)
  }

  /** The input a stage works on directly is absent from the batch; the extraction works on anything. */
  predicate LacksDirectInput(role: Role, capabilities: set<Capability>) {
    || (role == Asr && AudioInput !in capabilities)
    || ((role == FireDetection || role == VisualGrounding) && VisualInput !in capabilities)
  }

  lemma MissingMeaning(contract: Contract, capabilities: set<Capability>)
    ensures Missing(contract, capabilities) == {} <==> RequirementsMet(contract, capabilities)
    ensures forall c :: c in Missing(contract, capabilities) <==>
      || (c in contract.requiredAll && c !in capabilities)
      || (c in contract.requiredAny && forall d | d in contract.requiredAny :: d !in capabilities)
  {
    var missing := Missing(contract, capabilities);
    if RequirementsMet(contract, capabilities) && contract.requiredAny != {} {
      var c :| c in capabilities && c in contract.requiredAny;
      assert c in capabilities * contract.requiredAny;
    }
    if missing == {} {
      forall c | c in contract.requiredAll ensures c in capabilities { assert c !in missing; }
      if contract.requiredAny != {} {
        var c :| c in capabilities * contract.requiredAny;
        assert c in capabilities && c in contract.requiredAny;
      }
    }
    if capabilities * contract.requiredAny != {} {
      var d :| d in capabilities * contract.requiredAny;
      assert d in contract.requiredAny && d in capabilities;
    } else {
      forall d | d in contract.requiredAny ensures d !in capabilities {
        assert d !in capabilities * contract.requiredAny;
      }
    }
  }

  /** A preflight lets a stage run exactly when the batch fits and every requirement is met; it never asks for a retry.
      Which refusal is given: terminal for a batch that does not fit; not applicable for a skippable stage whose
      direct input is absent; and otherwise what the failure policy says. */
  lemma PreflightMeaning(contract: Contract, capabilities: set<Capability>, inputItems: nat)
    ensures var r := Preflight(contract, capabilities, inputItems);
      var fits, met := inputItems <= contract.maxInputItems, RequirementsMet(contract, capabilities);
      var skipped := contract.skipWhenNotApplicable && LacksDirectInput(contract.role, capabilities);
      && (r.decision == Proceed <==> fits && met)
      && (r.decision == NotApplicable <==> fits && !met && skipped)
      && (r.decision == HumanReview <==> fits && !met && !skipped && contract.failurePolicy.HumanReviewPolicy?)
      && (r.decision == FailedTerminal <==> !fits || (!met && !skipped && contract.failurePolicy.BlockPolicy?))
      && (r.decision == Abstain <==> fits && !met && !skipped && contract.failurePolicy.OtherPolicy?)
      && r.decision != FailedRetryable
  {
    MissingMeaning(contract, capabilities);
    hide RequirementsMet, Missing;
  }

  /** The rest of a preflight record: reason, capabilities, what is missing and whether later stages may go on. */
  lemma PreflightRecord(contract: Contract, capabilities: set<Capability>, inputItems: nat)
    ensures var r := Preflight(contract, capabilities, inputItems);
      var fits := inputItems <= contract.maxInputItems;
      && r.role == contract.role && r.phase == PreflightPhase && r.available == capabilities
      && (!fits ==> r.reason == "stage_input_limit_exceeded" && r.missing == {})
      && (r.decision == Proceed ==> r.reason == "requirements_satisfied")
      && (r.decision == NotApplicable ==> r.reason == "no_applicable_input")
      && (fits && r.decision != Proceed && r.decision != NotApplicable ==> r.reason == "required_capability_missing")
      && (fits ==> forall c :: c in r.missing <==>
            || (c in contract.requiredAll && c !in capabilities)
            || (c in contract.requiredAny && forall d | d in contract.requiredAny :: d !in capabilities))
      && (r.downstreamPossible <==> r.decision != FailedTerminal)
  {
    MissingMeaning(contract, capabilities);
    hide Missing, RequirementsMet;
  }

  /** A postflight blocks a failed stage always, an unexecuted one never, and an accepted one exactly for
      time, size, or a missing minimum output under the human-review policy. */
  lemma PostflightMeaning(contract: Contract, before: set<Capability>, after: set<Capability>,
                          status: RunStatus, errorCode: Option<string>, elapsed: real, items: nat)
    ensures var r := Postflight(contract, before, after, status, errorCode, elapsed, items);
      && (Blocking(r.decision) <==>
            || status == Failed
            || (status == Succeeded
                && (|| elapsed > contract.maxWallTimeSeconds
                    || items > contract.maxOutputItems
                    || (contract.failurePolicy.HumanReviewPolicy?
                        && !(exists c :: c in after && c !in before && c in contract.minimumOutputAny)))))
      && (r.decision == FailedRetryable <==>
            || (status == Failed && errorCode == Some("model_runtime_error"))
            || (status == Succeeded && elapsed > contract.maxWallTimeSeconds))
      && r.reason != ""
  {
    var produced := (after - before) * contract.minimumOutputAny;
    if c :| c in after && c !in before && c in contract.minimumOutputAny {
      assert c in produced;
    }
    if produced != {} {
      var c :| c in produced;
      assert c in after && c !in before && c in contract.minimumOutputAny;
    }
  }

  /** The decision of a postflight, case by case, its reason, and what later stages may count on. */
  lemma PostflightRecord(contract: Contract, before: set<Capability>, after: set<Capability>,
                         status: RunStatus, errorCode: Option<string>, elapsed: real, items: nat)
    ensures var r := Postflight(contract, before, after, status, errorCode, elapsed, items);
      var named := errorCode.Some? && errorCode.value != "";
      var late, large := elapsed > contract.maxWallTimeSeconds, items > contract.maxOutputItems;
      var produced := exists c :: c in after && c !in before && c in contract.minimumOutputAny;
      && r.role == contract.role && r.phase == PostflightPhase && r.available == after
      && (status == Failed ==>
            && r.decision == (if errorCode == Some("model_runtime_error") then FailedRetryable else FailedTerminal)
            && r.reason == (if named then errorCode.value else "stage_failed")
            && r.missing == {} && (r.downstreamPossible <==> !contract.failurePolicy.BlockPolicy?))
      && (status == Skipped ==>
            && r.decision == (if named then Abstain else NotApplicable)
            && r.reason == (if named then errorCode.value else "stage_skipped")
            && r.missing == {} && r.downstreamPossible)
      && (status == Succeeded && late ==>
            && r.decision == FailedRetryable && r.reason == "stage_wall_time_exceeded"
            && r.missing == {} && !r.downstreamPossible)
      && (status == Succeeded && !late && large ==>
            && r.decision == FailedTerminal && r.reason == "stage_output_limit_exceeded"
            && r.missing == {} && !r.downstreamPossible)
      && (status == Succeeded && !late && !large && produced ==>
            && r.decision == Proceed && r.reason == "minimum_output_satisfied"
            && r.missing == {} && r.downstreamPossible)
      && (status == Succeeded && !late && !large && !produced ==>
            && r.decision == (if contract.failurePolicy.HumanReviewPolicy? then HumanReview else Abstain)
            && r.reason == "minimum_output_missing" && r.missing == contract.minimumOutputAny
            && (r.downstreamPossible <==> !contract.failurePolicy.BlockPolicy?))
  {
    var produced := (after - before) * contract.minimumOutputAny;
    if c :| c in after && c !in before && c in contract.minimumOutputAny { assert c in produced; }
    if produced != {} {
      var c :| c in produced;
      assert c in after && c !in before && c in contract.minimumOutputAny;
    }
  }

  /** Where each capability comes from: the three inputs from the items of the batch, the five products from the
      running results, and no other is ever derived. */
  lemma CapabilitySources(batch: Batch, results: Results)
    ensures var found := Capabilities(batch, results);
      && (AudioInput in found <==> exists item :: item in batch && item.hasAudio)
      && (VisualInput in found <==> exists item :: item in batch && (item.hasWorkingFile || item.frames != []))
      && (TextInput in found <==> exists item :: item in batch && item.hasText)
      && (Transcript in found <==> exists id :: id in results && results[id].segments != [])
      && (FactualObservations in found <==> exists id :: id in results && results[id].facts != [])
      && (SelectedVisual in found <==>
            exists id, s :: id in results && s in results[id].selection && s.selected)
      && (DetectionRegions in found <==>
            exists id, region :: id in results && region in results[id].regions && region.task == FireDetectionTask)
      && (GroundedRegions in found <==>
            exists id, region :: id in results && region in results[id].regions
                                 && (region.task == PhraseGrounding || region.task == Ocr))
      && (forall name :: OtherCapability(name) !in found)
  {
    InputSources(batch, results);
    ProductSources(batch, results);
    hide Capabilities;
  }

  lemma Derived(batch: Batch, results: Results, c: Capability)
    ensures c in Capabilities(batch, results) <==>
      (exists item :: item in batch && Brings(item, c)) || (exists id :: id in results && Yields(results[id], c))
  {}

  lemma InputSources(batch: Batch, results: Results)
    ensures var found := Capabilities(batch, results);
      && (AudioInput in found <==> exists item :: item in batch && item.hasAudio)
      && (VisualInput in found <==> exists item :: item in batch && (item.hasWorkingFile || item.frames != []))
      && (TextInput in found <==> exists item :: item in batch && item.hasText)
      && (forall name :: OtherCapability(name) !in found)
  {
    forall c ensures c in Capabilities(batch, results) <==>
      (exists item :: item in batch && Brings(item, c)) || (exists id :: id in results && Yields(results[id], c))
    {
      Derived(batch, results, c);
    }
    hide Capabilities;
    InputsOnly(batch, results);
  }

  lemma InputsOnly(batch: Batch, results: Results)
    ensures forall id | id in results ::
      && !Yields(results[id], AudioInput) && !Yields(results[id], VisualInput) && !Yields(results[id], TextInput)
    ensures (exists item :: item in batch && Brings(item, AudioInput))
       <==> exists item :: item in batch && item.hasAudio
    ensures (exists item :: item in batch && Brings(item, VisualInput))
       <==> exists item :: item in batch && (item.hasWorkingFile || item.frames != [])
    ensures (exists item :: item in batch && Brings(item, TextInput)) <==> exists item :: item in batch && item.hasText
  {}

  lemma ProductSources(batch: Batch, results: Results)
    ensures var found := Capabilities(batch, results);
      && (Transcript in found <==> exists id :: id in results && results[id].segments != [])
      && (FactualObservations in found <==> exists id :: id in results && results[id].facts != [])
      && (SelectedVisual in found <==>
            exists id, s :: id in results && s in results[id].selection && s.selected)
      && (DetectionRegions in found <==>
            exists id, region :: id in results && region in results[id].regions && region.task == FireDetectionTask)
      && (GroundedRegions in found <==>
            exists id, region :: id in results && region in results[id].regions
                                 && (region.task == PhraseGrounding || region.task == Ocr))
  {
    Derived(batch, results, Transcript);
    Derived(batch, results, FactualObservations);
    Derived(batch, results, SelectedVisual);
    Derived(batch, results, DetectionRegions);
    Derived(batch, results, GroundedRegions);
    ProductsOnly(batch, results);
    assert forall item | item in batch ::
      && !Brings(item, Transcript) && !Brings(item, FactualObservations) && !Brings(item, SelectedVisual)
      && !Brings(item, DetectionRegions) && !Brings(item, GroundedRegions);
    hide Capabilities, Yields, Brings;
  }

  lemma ProductsOnly(batch: Batch, results: Results)
    ensures (exists id :: id in results && Yields(results[id], Transcript))
       <==> exists id :: id in results && results[id].segments != []
    ensures (exists id :: id in results && Yields(results[id], FactualObservations))
       <==> exists id :: id in results && results[id].facts != []
    ensures (exists id :: id in results && Yields(results[id], SelectedVisual))
       <==> exists id, s :: id in results && s in results[id].selection && s.selected
    ensures (exists id :: id in results && Yields(results[id], DetectionRegions))
       <==> exists id, region :: id in results && region in results[id].regions && region.task == FireDetectionTask
    ensures (exists id :: id in results && Yields(results[id], GroundedRegions))
       <==> exists id, region :: id in results && region in results[id].regions
                                 && (region.task == PhraseGrounding || region.task == Ocr)
  {}
}
