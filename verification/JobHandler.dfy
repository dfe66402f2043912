/** `handle_job` as far as the GPU lock goes: which calls ask for the GPU, what they answer when it is taken, and
    that the lock is given back at whichever step something is raised. One uninterrupted call is one run of
    `GpuLock`. */
module JobHandler {
  import opened Prelude
  import opened GpuLock

  /** The exception classes the handler tells apart; `Interruption` is outside `Exception`. */
  datatype Failure = Configuration | OutputValidation | Registry | Validation | ResearchService | Unexpected
                   | Interruption

  datatype Tried<+T> = Ok(value: T) | Threw(failure: Failure)

  /** The steps after the session that a v2 batch takes inside the section. */
  datatype Dedicated = Dedicated(
    pointing: Tried<string>,
    burnedAreas: Tried<string>,
    spatialPipeline: Tried<string>,
    projection: Tried<string>)

  /** A request with the outcome of every step the handler calls out to. What is before the lock: the settings, the
      preparation of an event (which says whether inference is required and an adapter is there), the checks of
      a research and of a batch. */
  datatype Request =
    | NotAnObject
    | LabProbe(settings: Tried<()>, runtime: Tried<string>, probe: Tried<string>)
    | EventRequest(enabled: bool, prepared: Tried<bool>, scope: Tried<string>, perception: Tried<string>,
                   withoutGpu: Tried<string>, pipeline: Tried<string>)
    | ResearchRequest(validated: Tried<()>, research: Tried<string>)
    | BatchRequest(checked: Tried<()>, scope: Tried<string>, session: Tried<string>, dedicated: Option<Dedicated>,
                   dump: Tried<string>)

  datatype Reply = InvalidInput | Disabled | Answered(body: string) | Busy | Failed(failure: Failure, retryable: bool)

  function KindOf(request: Request): Kind {
    match request
    case NotAnObject => Plain
    case LabProbe(_, _, _) => Probe
    case EventRequest(enabled, prepared, _, _, _, _) =>
      if enabled && prepared == Ok(true) then InferringEvent else Plain
    case ResearchRequest(_, _) => Research
    case BatchRequest(_, _, _, _, _) => Batch
  }

  /** The call gets as far as the lock. */
  predicate AsksForGpu(request: Request) {
    match request
    case NotAnObject => false
    case LabProbe(settings, _, _) => settings.Ok?
    case EventRequest(enabled, prepared, _, _, _, _) => enabled && prepared == Ok(true)
    case ResearchRequest(validated, _) => validated.Ok?
    case BatchRequest(checked, _, _, _, _) => checked.Ok?
  }

  /** The steps inside the section, in order. */
  function Section(request: Request): (steps: seq<Tried<string>>)
    requires AsksForGpu(request)
    ensures steps != []
  {
    match request
    case LabProbe(_, runtime, probe) => [runtime, probe]
    case EventRequest(_, _, scope, perception, _, _) => [scope, perception]
    case ResearchRequest(_, research) => [research]
    case BatchRequest(_, scope, session, Some(d), dump) =>
      [scope, session, d.pointing, d.burnedAreas, d.spatialPipeline, d.projection, dump]
    case BatchRequest(_, scope, session, None, dump) => [scope, session, dump]
  }

  // ----- steps one after the other -----

  /** The first exception, or what the last step returned. */
  function Result(steps: seq<Tried<string>>): Tried<string>
    requires steps != []
  {
    var last := steps[|steps| - 1];
    if |steps| == 1 then last
    else
      var before := Result(steps[..|steps| - 1]);
      if before.Threw? then before else last
  }

  /** How many steps are begun: those up to the first exception. */
  function Begun(steps: seq<Tried<string>>): (n: nat)
    ensures n <= |steps|
    ensures forall i | 0 <= i < n - 1 :: steps[i].Ok?
    ensures n < |steps| ==> n > 0 && steps[n - 1].Threw?
  {
    if steps == [] then 0
    else
      var before := Begun(steps[..|steps| - 1]);
      if before < |steps| - 1 || (before > 0 && steps[before - 1].Threw?) then before else |steps|
  }

  lemma {:induction false} StopsAt(steps: seq<Tried<string>>, k: nat)
    requires k < |steps| && steps[k].Threw? && forall i | 0 <= i < k :: steps[i].Ok?
    ensures Result(steps) == steps[k] && Begun(steps) == k + 1
  {
    if k < |steps| - 1 {
      StopsAt(steps[..|steps| - 1], k);
    } else {
      RunsThrough(steps);
    }
  }

  lemma {:induction false} RunsThrough(steps: seq<Tried<string>>)
    requires steps != [] && forall i | 0 <= i < |steps| - 1 :: steps[i].Ok?
    ensures Result(steps) == steps[|steps| - 1] && Begun(steps) == |steps|
  {
    if |steps| > 1 { RunsThrough(steps[..|steps| - 1]); }
  }

  function Then<S, T>(first: Tried<S>, second: Tried<T>): Tried<T> {
    if first.Threw? then Threw(first.failure) else second
  }

  /** What a request comes to when the GPU is free or taken: the body, or the first exception. */
  function Course(request: Request, free: bool): Tried<string>
    requires !request.NotAnObject?
  {
    var section := if AsksForGpu(request) then Result(Section(request)) else Ok("");
    match request
    case LabProbe(settings, _, _) => Then(settings, section)
    case EventRequest(_, prepared, _, _, withoutGpu, pipeline) =>
      Then(prepared, Then(if AsksForGpu(request) && free then section else withoutGpu, pipeline))
    case ResearchRequest(validated, _) => Then(validated, section)
    case BatchRequest(checked, _, _, _, _) => Then(checked, section)
  }

  /** The exceptions each branch turns into a failed result. */
  predicate Catches(request: Request, f: Failure) {
    match request
    case EventRequest(_, _, _, _, _, _) => f.Validation?
    case ResearchRequest(_, _) => !f.Interruption?
    case BatchRequest(_, _, _, _, _) => f.Configuration? || f.OutputValidation? || f.Registry? || f.Validation?
    case _ => false
  }

  function Settle(request: Request, course: Tried<string>): Tried<Reply> {
    match course
    case Ok(body) => Ok(Answered(body))
    case Threw(f) =>
      if Catches(request, f) then Ok(Failed(f, request.ResearchRequest? && !f.Registry? && !f.Validation?))
      else Threw(f)
  }

  /** One whole session of a call at the GPU, with n steps begun. */
  function SessionLog(id: nat, n: nat): seq<Event> {
    [Took(id)] + seq(n, _ => Worked(id)) + [Released(id)]
  }

  class GpuSession {
    var locked: bool
    ghost var view: Gpu

    ghost predicate Valid()
      reads this
    {
      Inv(view) && view.locked == locked
    }

    constructor ()
      ensures Valid() && view == IDLE
    {
      locked := false;
      view := IDLE;
      IdleInv();
    }

    ghost method Perform(a: Action)
      requires Inv(view) && Enabled(view, a)
      modifies this`view
      ensures Inv(view) && view == Step(old(view), a)
    {
      StepKeepsInv(view, a);
      view := Step(view, a);
    }

    /** The call is in the section and has begun the first k steps, `start` being the state before. */
    ghost predicate Working(start: Gpu, id: nat, k: nat)
      reads this
    {
      && Valid() && locked
      && id in start.calls
      && view.log == start.log + [Took(id)] + seq(k, _ => Worked(id))
      && view.calls == start.calls[id := start.calls[id].(phase := view.calls[id].phase)]
    }

    method Acquire(id: nat)
      requires Valid() && !locked && InPhase(view, id, Preparing) && !view.calls[id].kind.Plain?
      modifies this
      ensures Working(old(view), id, 0) && InPhase(view, id, InGpu)
    {
      hide Inv;
      locked := true;
      Perform(Try(id));
    }

    /** One step inside the section; an exception starts to unwind it. */
    method Attempt(id: nat, step: Tried<string>, ghost start: Gpu, ghost steps: seq<Tried<string>>, ghost k: nat)
      returns (r: Tried<string>)
      requires Working(start, id, k) && InPhase(view, id, InGpu)
      requires k < |steps| && steps[k] == step && forall i | 0 <= i < k :: steps[i].Ok?
      modifies this`view
      ensures r == step && Working(start, id, k + 1)
      ensures r.Ok? ==> InPhase(view, id, InGpu) && forall i | 0 <= i < k + 1 :: steps[i].Ok?
      ensures r.Threw? ==> InPhase(view, id, Unwinding) && r == Result(steps) && k + 1 == Begun(steps)
    {
      hide Inv;
      Perform(Use(id));
      assert seq(k + 1, _ => Worked(id)) == seq(k, _ => Worked(id)) + [Worked(id)];
      if step.Threw? {
        StopsAt(steps, k);
        Perform(Throw(id));
      }
      r := step;
    }

    /** The `finally`, however the section was left. */
    method Release(id: nat, ghost start: Gpu, ghost k: nat)
      requires Working(start, id, k) && InSection(view, id)
      modifies this
      ensures Valid() && !locked
      ensures view.log == start.log + SessionLog(id, k)
      ensures view.calls == start.calls[id := start.calls[id].(phase := Ended(false))]
    {
      hide Inv;
      locked := false;
      Perform(Leave(id));
      Perform(Finish(id));
    }

    /** The laboratory probe inside the lock. */
    method HoldForProbe(id: nat, request: Request) returns (r: Tried<string>)
      requires Valid() && !locked && InPhase(view, id, Preparing) && view.calls[id].kind == Probe
      requires request.LabProbe? && AsksForGpu(request)
      modifies this
      ensures Valid() && !locked && r == Result(Section(request))
      ensures view.log == old(view.log) + SessionLog(id, Begun(Section(request)))
      ensures view.calls == old(view.calls)[id := old(view.calls)[id].(phase := Ended(false))]
    {
      hide Inv, Result, Begun;
      ghost var start, steps := view, Section(request);
      Acquire(id);
      label section: {
        r := Attempt(id, request.runtime, start, steps, 0);
        if r.Threw? { break section; }
        r := Attempt(id, request.probe, start, steps, 1);
        RunsThrough(steps);
      }
      Release(id, start, Begun(steps));
    }

    /** The perception of an event inside the lock. */
    method HoldForEvent(id: nat, request: Request) returns (r: Tried<string>)
      requires Valid() && !locked && InPhase(view, id, Preparing) && view.calls[id].kind == InferringEvent
      requires request.EventRequest? && AsksForGpu(request)
      modifies this
      ensures Valid() && !locked && r == Result(Section(request))
      ensures view.log == old(view.log) + SessionLog(id, Begun(Section(request)))
      ensures view.calls == old(view.calls)[id := old(view.calls)[id].(phase := Ended(false))]
    {
      hide Inv, Result, Begun;
      ghost var start, steps := view, Section(request);
      Acquire(id);
      label section: {
        r := Attempt(id, request.scope, start, steps, 0);
        if r.Threw? { break section; }
        r := Attempt(id, request.perception, start, steps, 1);
        RunsThrough(steps);
      }
      Release(id, start, Begun(steps));
    }

    /** The isolated research inside the lock. */
    method HoldForResearch(id: nat, request: Request) returns (r: Tried<string>)
      requires Valid() && !locked && InPhase(view, id, Preparing) && view.calls[id].kind == Research
      requires request.ResearchRequest? && AsksForGpu(request)
      modifies this
      ensures Valid() && !locked && r == Result(Section(request))
      ensures view.log == old(view.log) + SessionLog(id, Begun(Section(request)))
      ensures view.calls == old(view.calls)[id := old(view.calls)[id].(phase := Ended(false))]
    {
      hide Inv, Result, Begun;
      ghost var start, steps := view, Section(request);
      Acquire(id);
      r := Attempt(id, request.research, start, steps, 0);
      RunsThrough(steps);
      Release(id, start, Begun(steps));
    }

    /** A batch inside the lock: the session, for a v2 batch the dedicated stages and the projection, the dump. */
    method HoldForBatch(id: nat, request: Request) returns (r: Tried<string>)
      requires Valid() && !locked && InPhase(view, id, Preparing) && view.calls[id].kind == Batch
      requires request.BatchRequest? && AsksForGpu(request)
      modifies this
      ensures Valid() && !locked && r == Result(Section(request))
      ensures view.log == old(view.log) + SessionLog(id, Begun(Section(request)))
      ensures view.calls == old(view.calls)[id := old(view.calls)[id].(phase := Ended(false))]
    {
      hide Inv, Result, Begun;
      ghost var start, steps := view, Section(request);
      Acquire(id);
      label section: {
        r := Attempt(id, request.scope, start, steps, 0);
        if r.Threw? { break section; }
        r := Attempt(id, request.session, start, steps, 1);
        if r.Threw? { break section; }
        if request.dedicated.Some? {
          r := AttemptDedicated(id, request.dedicated.value, start, steps);
          if r.Threw? { break section; }
        }
        r := Attempt(id, request.dump, start, steps, |steps| - 1);
        RunsThrough(steps);
      }
      Release(id, start, Begun(steps));
    }

    method AttemptDedicated(id: nat, d: Dedicated, ghost start: Gpu, ghost steps: seq<Tried<string>>)
      returns (r: Tried<string>)
      requires Working(start, id, 2) && InPhase(view, id, InGpu)
      requires |steps| == 7 && steps[0].Ok? && steps[1].Ok?
      requires steps[2..6] == [d.pointing, d.burnedAreas, d.spatialPipeline, d.projection]
      modifies this`view
      ensures r.Ok? ==> Working(start, id, 6) && InPhase(view, id, InGpu) && forall i | 0 <= i < 6 :: steps[i].Ok?
      ensures r.Threw? ==>
        Working(start, id, Begun(steps)) && InPhase(view, id, Unwinding) && r == Result(steps)
    {
      hide Inv, Result, Begun;
      assert steps[2] == d.pointing && steps[3] == d.burnedAreas && steps[4] == d.spatialPipeline
        && steps[5] == d.projection by
      {
        assert forall i | 0 <= i < 4 :: steps[2 + i] == steps[2..6][i];
      }
      r := Attempt(id, d.pointing, start, steps, 2);
      if r.Threw? { return; }
      r := Attempt(id, d.burnedAreas, start, steps, 3);
      if r.Threw? { return; }
      r := Attempt(id, d.spatialPipeline, start, steps, 4);
      if r.Threw? { return; }
      r := Attempt(id, d.projection, start, steps, 5);
    }

    /** A call that loses the non-blocking acquire. */
    method Lose(id: nat)
      requires Valid() && locked && InPhase(view, id, Preparing)
      requires !view.calls[id].kind.Plain? && !view.calls[id].kind.Probe?
      modifies this`view
      ensures Valid() && view.log == old(view.log)
      ensures var call := old(view.calls)[id];
        view.calls == old(view.calls)[id := call.(phase := Ended(!call.kind.InferringEvent?))]
    {
      hide Inv;
      Perform(Try(id));
      Perform(Finish(id));
    }

    /** Every request leaves the lock as it found it. It adds one whole session to the log, with the steps up to the
        first exception, exactly when it asked for a free GPU; a probe asks only when the GPU is free. */
    method HandleJob(id: nat, request: Request) returns (r: Tried<Reply>)
      requires Valid() && id !in view.calls
      requires request.LabProbe? && AsksForGpu(request) ==> !locked
      modifies this
      ensures Valid() && locked == old(locked)
      ensures view.log ==
        old(view.log)
        + if AsksForGpu(request) && !old(locked) then SessionLog(id, Begun(Section(request))) else []
      ensures view.calls == old(view.calls)[id := Call(KindOf(request), Ended(r == Ok(Busy)))]
      ensures r == Ok(Busy) <==>
        old(locked) && AsksForGpu(request) && (request.ResearchRequest? || request.BatchRequest?)
      ensures r == Ok(Disabled) <==> request.EventRequest? && !request.enabled
      ensures r == Ok(InvalidInput) <==> request.NotAnObject?
      ensures r !in {Ok(Busy), Ok(Disabled), Ok(InvalidInput)} ==> r == Settle(request, Course(request, !old(locked)))
    {
      hide Inv, Result, Begun, SessionLog;
      Perform(Arrive(id, KindOf(request)));
      match request {
        case NotAnObject =>
          Perform(EndEarly(id));
          return Ok(InvalidInput);
        case LabProbe(settings, _, _) =>
          if settings.Threw? {
            Perform(EndEarly(id));
            return Threw(settings.failure);
          }
          var body := HoldForProbe(id, request);
          return Settle(request, body);
        case EventRequest(_, _, _, _, _, _) =>
          r := HandleEvent(id, request);
        case ResearchRequest(_, _) =>
          r := HandleResearch(id, request);
        case BatchRequest(_, _, _, _, _) =>
          r := HandleBatch(id, request);
      }
    }

    /** The event branch: a call that loses the GPU goes on without it. */
    method HandleEvent(id: nat, request: Request) returns (r: Tried<Reply>)
      requires Valid() && request.EventRequest? && InPhase(view, id, Preparing)
      requires view.calls[id].kind == KindOf(request)
      modifies this
      ensures Valid() && locked == old(locked)
      ensures view.log ==
        old(view.log)
        + if AsksForGpu(request) && !old(locked) then SessionLog(id, Begun(Section(request))) else []
      ensures view.calls == old(view.calls)[id := Call(KindOf(request), Ended(false))]
      ensures r == if request.enabled then Settle(request, Course(request, !old(locked))) else Ok(Disabled)
    {
      hide Inv, Result, Begun, SessionLog;
      if !request.enabled {
        Perform(EndEarly(id));
        return Ok(Disabled);
      }
      if request.prepared.Threw? {
        Perform(EndEarly(id));
        return Settle(request, Threw(request.prepared.failure));
      }
      var perception := request.withoutGpu;
      if request.prepared.value {
        if locked {
          Lose(id);
        } else {
          perception := HoldForEvent(id, request);
        }
      } else {
        Perform(EndEarly(id));
      }
      if perception.Threw? {
        return Settle(request, perception);
      }
      r := Settle(request, request.pipeline);
    }

    /** The research branch: a call that loses the GPU answers that it is busy. */
    method HandleResearch(id: nat, request: Request) returns (r: Tried<Reply>)
      requires Valid() && request.ResearchRequest? && InPhase(view, id, Preparing)
      requires view.calls[id].kind == KindOf(request)
      modifies this
      ensures Valid() && locked == old(locked)
      ensures view.log ==
        old(view.log)
        + if AsksForGpu(request) && !old(locked) then SessionLog(id, Begun(Section(request))) else []
      ensures view.calls == old(view.calls)[id := Call(KindOf(request), Ended(AsksForGpu(request) && old(locked)))]
      ensures r == if AsksForGpu(request) && old(locked) then Ok(Busy) else Settle(request, Course(request, true))
    {
      hide Inv, Result, Begun, SessionLog;
      if request.validated.Threw? {
        Perform(EndEarly(id));
        return Settle(request, Threw(request.validated.failure));
      }
      if locked {
        Lose(id);
        return Ok(Busy);
      }
      var body := HoldForResearch(id, request);
      r := Settle(request, body);
    }

    /** The batch branch: likewise. */
    method HandleBatch(id: nat, request: Request) returns (r: Tried<Reply>)
      requires Valid() && request.BatchRequest? && InPhase(view, id, Preparing)
      requires view.calls[id].kind == KindOf(request)
      modifies this
      ensures Valid() && locked == old(locked)
      ensures view.log ==
        old(view.log)
        + if AsksForGpu(request) && !old(locked) then SessionLog(id, Begun(Section(request))) else []
      ensures view.calls == old(view.calls)[id := Call(KindOf(request), Ended(AsksForGpu(request) && old(locked)))]
      ensures r == if AsksForGpu(request) && old(locked) then Ok(Busy) else Settle(request, Course(request, true))
    {
      hide Inv, Result, Begun, SessionLog;
      if request.checked.Threw? {
        Perform(EndEarly(id));
        return Settle(request, Threw(request.checked.failure));
      }
      if locked {
        Lose(id);
        return Ok(Busy);
      }
      var body := HoldForBatch(id, request);
      r := Settle(request, body);
    }
  }
}
