/** What `handle_job` answers, in plain terms: the steps of each kind of request in order, which of them need the GPU,
    and what each exception becomes. */
module JobLaws {
  import opened Prelude
  import opened GpuLock
  import opened JobHandler

  // ----- which requests need the GPU -----

  /** A call gets as far as the lock exactly when everything before the lock went well: the settings of a probe, the
      checks of a research or a batch, and for an event that the pipeline is enabled and that its preparation says it
      needs inference and has an adapter. */
  lemma WhoAsks(request: Request)
    ensures AsksForGpu(request) <==>
      || (request.LabProbe? && request.settings.Ok?)
      || (request.EventRequest? && request.enabled && request.prepared == Ok(true))
      || (request.ResearchRequest? && request.validated.Ok?)
      || (request.BatchRequest? && request.checked.Ok?)
    ensures KindOf(request) == Probe <==> request.LabProbe?
    ensures KindOf(request) == Research <==> request.ResearchRequest?
    ensures KindOf(request) == Batch <==> request.BatchRequest?
    ensures KindOf(request) == InferringEvent <==> request.EventRequest? && AsksForGpu(request)
  {}

  /** The steps under the lock: those of a probe and of an event; the research alone; and for a batch the scope, the
      session, the four dedicated steps of a v2 batch, and the dump. */
  lemma StepsUnderTheLock(request: Request)
    requires AsksForGpu(request)
    ensures var steps := Section(request);
      && (request.LabProbe? ==> |steps| == 2 && steps[0] == request.runtime && steps[1] == request.probe)
      && (request.EventRequest? ==> |steps| == 2 && steps[0] == request.scope && steps[1] == request.perception)
      && (request.ResearchRequest? ==> |steps| == 1 && steps[0] == request.research)
      && (request.BatchRequest? ==>
            && |steps| == (if request.dedicated.Some? then 7 else 3)
            && steps[0] == request.scope && steps[1] == request.session && steps[|steps| - 1] == request.dump
            && (request.dedicated.Some? ==>
                  && steps[2] == request.dedicated.value.pointing && steps[3] == request.dedicated.value.burnedAreas
                  && steps[4] == request.dedicated.value.spatialPipeline
                  && steps[5] == request.dedicated.value.projection))
  {}

  // ----- the outcome of a call -----

  function Bare<T>(t: Tried<T>): Tried<string> {
    if t.Threw? then Threw(t.failure) else Ok("")
  }

  /** Every step of a request in order, with what happens before and after the lock; an event that has no use of the
      GPU, or finds it taken, works without it. */
  function AllSteps(request: Request, free: bool): seq<Tried<string>> {
    match request
    case NotAnObject => []
    case LabProbe(settings, runtime, probe) => [Bare(settings), runtime, probe]
    case EventRequest(enabled, prepared, scope, perception, withoutGpu, pipeline) =>
      [Bare(prepared)]
      + (if enabled && prepared == Ok(true) && free then [scope, perception] else [withoutGpu])
      + [pipeline]
    case ResearchRequest(validated, research) => [Bare(validated), research]
    case BatchRequest(checked, scope, session, dedicated, dump) =>
      [Bare(checked), scope, session]
      + (if dedicated.None? then []
         else [dedicated.value.pointing, dedicated.value.burnedAreas, dedicated.value.spatialPipeline,
               dedicated.value.projection])
      + [dump]
  }

  /** The outcome of steps one after the other: the first exception, or what the last one returned. */
  ghost predicate IsOutcome(steps: seq<Tried<string>>, r: Tried<string>) {
    && steps != []
    && (r.Ok? ==> (forall i | 0 <= i < |steps| :: steps[i].Ok?) && r == steps[|steps| - 1])
    && (r.Threw? ==> exists i :: FirstThrow(steps, i) && r == steps[i])
  }

  predicate FirstThrow(steps: seq<Tried<string>>, i: int) {
    0 <= i < |steps| && steps[i].Threw? && forall j | 0 <= j < i :: steps[j].Ok?
  }

  lemma {:induction false} ResultIsOutcome(steps: seq<Tried<string>>)
    requires steps != []
    ensures IsOutcome(steps, Result(steps))
  {
    var n := |steps| - 1;
    if n == 0 {
      if steps[0].Threw? { assert FirstThrow(steps, 0); }
    } else {
      ResultIsOutcome(steps[..n]);
      if Result(steps[..n]).Threw? {
        var i :| FirstThrow(steps[..n], i) && Result(steps[..n]) == steps[..n][i];
        assert FirstThrow(steps, i);
      } else if steps[n].Threw? {
        assert forall j | 0 <= j < n :: steps[..n][j] == steps[j];
        assert FirstThrow(steps, n);
      }
    }
  }

  lemma PutBefore(first: Tried<string>, steps: seq<Tried<string>>, r: Tried<string>)
    requires IsOutcome(steps, r)
    ensures IsOutcome([first] + steps, if first.Threw? then first else r)
  {
    var all := [first] + steps;
    assert forall i | 1 <= i < |all| :: all[i] == steps[i - 1];
    if first.Threw? {
      assert FirstThrow(all, 0);
    } else if r.Threw? {
      var i :| FirstThrow(steps, i) && r == steps[i];
      assert FirstThrow(all, i + 1);
    }
  }

  lemma PutAfter(steps: seq<Tried<string>>, r: Tried<string>, last: Tried<string>)
    requires IsOutcome(steps, r)
    ensures IsOutcome(steps + [last], if r.Threw? then r else last)
  {
    var all := steps + [last];
    if r.Threw? {
      var i :| FirstThrow(steps, i) && r == steps[i];
      assert FirstThrow(all, i);
    } else if last.Threw? {
      assert FirstThrow(all, |steps|);
    }
  }

  /** A call comes to the outcome of all its steps in order. */
  lemma CourseIsOutcome(request: Request, free: bool)
    requires !request.NotAnObject?
    ensures IsOutcome(AllSteps(request, free), Course(request, free))
  {
    hide IsOutcome, Result;
    match request
    case LabProbe(settings, runtime, probe) =>
      ResultIsOutcome([runtime, probe]);
      PutBefore(Bare(settings), [runtime, probe], Result([runtime, probe]));
      assert AllSteps(request, free) == [Bare(settings)] + [runtime, probe];
    case EventRequest(_, prepared, scope, perception, withoutGpu, pipeline) =>
      var middle := if AsksForGpu(request) && free then [scope, perception] else [withoutGpu];
      ResultIsOutcome(middle);
      PutAfter(middle, Result(middle), pipeline);
      OneStep(withoutGpu);
      PutBefore(Bare(prepared), middle + [pipeline], if Result(middle).Threw? then Result(middle) else pipeline);
      assert AllSteps(request, free) == [Bare(prepared)] + (middle + [pipeline]);
    case ResearchRequest(validated, research) =>
      ResultIsOutcome([research]);
      PutBefore(Bare(validated), [research], Result([research]));
      assert AllSteps(request, free) == [Bare(validated)] + [research];
    case BatchRequest(checked, _, _, _, _) =>
      var rest := AllSteps(request, free)[1..];
      ResultIsOutcome(rest);
      PutBefore(Bare(checked), rest, Result(rest));
      assert AllSteps(request, free) == [Bare(checked)] + rest;
      if checked.Ok? { assert Section(request) == rest; }
  }

  lemma OneStep(step: Tried<string>)
    ensures Result([step]) == step
  {}

  // ----- what an exception becomes -----

  /** A body is answered as it is. An exception is a final failure where it means bad input or bad configuration: for a
      batch also an invalid output, for an event only a validation error. A research turns every other exception into a
      failure worth a retry. All else escapes: anything from a probe, and an interruption from anywhere. */
  lemma WhatAnExceptionBecomes(request: Request, course: Tried<string>)
    ensures course.Ok? ==> Settle(request, course) == Ok(Answered(course.value))
    ensures course.Threw? ==>
      var f, r := course.failure, Settle(request, course);
      && (r == Ok(Failed(f, true)) <==> request.ResearchRequest? && f !in {Registry, Validation, Interruption})
      && (r == Ok(Failed(f, false)) <==>
            || (request.ResearchRequest? && f in {Registry, Validation})
            || (request.EventRequest? && f == Validation)
            || (request.BatchRequest? && f in {Configuration, OutputValidation, Registry, Validation}))
      && (r == Ok(Failed(f, true)) || r == Ok(Failed(f, false)) || r == Threw(f))
  {}

  /** What one session of a call leaves in the log: the lock taken, a mark for each step begun, the lock released. */
  lemma LogOfASession(id: nat, n: nat)
    ensures var log := SessionLog(id, n);
      |log| == n + 2 && log[0] == Took(id) && log[n + 1] == Released(id)
      && forall i | 1 <= i <= n :: log[i] == Worked(id)
  {}
}
