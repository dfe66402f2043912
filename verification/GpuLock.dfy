/** The process-wide GPU lock as a machine: any number of `handle_job` calls, interleaved step by step, with
    exceptions at any point. `locked` is all the lock itself knows; `log` is what happened around the GPU. */
module GpuLock {
  import opened Prelude

  /** How a call goes about the GPU: the laboratory probe waits for it, an event needing inference, a research
      and a batch try once, an event without inference, or input that is no request, does not ask. */
  datatype Kind = Probe | InferringEvent | Plain | Research | Batch

  /** `InGpu` is the body of the `try` (or `with`), `Unwinding` the same with an exception on its way out, and
      `Leaving` what comes after the lock was given back. */
  datatype Phase = Preparing | InGpu | Unwinding | Leaving | Lost | Ended(busy: bool)

  datatype Call = Call(kind: Kind, phase: Phase)

  datatype Event = Took(id: nat) | Worked(id: nat) | Released(id: nat)

  datatype Gpu = Gpu(locked: bool, calls: map<nat, Call>, log: seq<Event>, badReleases: nat)

  const IDLE: Gpu := Gpu(false, map[], [], 0)

  datatype Action =
    | Arrive(id: nat, kind: Kind)
    | EndEarly(id: nat)
    | Try(id: nat)
    | Use(id: nat)
    | Throw(id: nat)
    | Leave(id: nat)
    | Finish(id: nat)

  predicate InPhase(g: Gpu, id: nat, phase: Phase) {
    id in g.calls && g.calls[id].phase == phase
  }

  predicate InSection(g: Gpu, id: nat) {
    InPhase(g, id, InGpu) || InPhase(g, id, Unwinding)
  }

  /** A call can end at any point: invalid input before the lock, an exception or a result inside, both after. A
      probe's acquire blocks while the lock is taken. */
  predicate Enabled(g: Gpu, a: Action) {
    match a
    case Arrive(id, _) => id !in g.calls
    case EndEarly(id) => InPhase(g, id, Preparing)
    case Try(id) => InPhase(g, id, Preparing) && !g.calls[id].kind.Plain? && (g.calls[id].kind.Probe? ==> !g.locked)
    case Use(id) => InPhase(g, id, InGpu)
    case Throw(id) => InPhase(g, id, InGpu)
    case Leave(id) => InSection(g, id)
    case Finish(id) => InPhase(g, id, Leaving) || InPhase(g, id, Lost)
  }

  function Move(g: Gpu, id: nat, phase: Phase): Gpu
    requires id in g.calls
  {
    g.(calls := g.calls[id := g.calls[id].(phase := phase)])
  }

  function Step(g: Gpu, a: Action): Gpu
    requires Enabled(g, a)
  {
    match a
    case Arrive(id, kind) => g.(calls := g.calls[id := Call(kind, Preparing)])
    case EndEarly(id) => Move(g, id, Ended(false))
    case Try(id) =>
      if g.locked then Move(g, id, Lost)
      else Move(g, id, InGpu).(locked := true, log := g.log + [Took(id)])
    case Use(id) => g.(log := g.log + [Worked(id)])
    case Throw(id) => Move(g, id, Unwinding)
    case Leave(id) =>
      Move(g, id, Leaving).(locked := false, log := g.log + [Released(id)],
                            badReleases := if g.locked then g.badReleases else g.badReleases + 1)
    case Finish(id) =>
      Move(g, id, Ended(g.calls[id].phase.Lost? && (g.calls[id].kind.Research? || g.calls[id].kind.Batch?)))
  }

  /** Who holds the GPU after a log; nothing if the log is not a sequence of sessions of one call each. */
  function Holder(log: seq<Event>): Option<Option<nat>> {
    if log == [] then Some(None)
    else
      var before := Holder(log[..|log| - 1]);
      match (before, log[|log| - 1])
      case (Some(None), Took(id)) => Some(Some(id))
      case (Some(Some(h)), Worked(id)) => if h == id then before else None
      case (Some(Some(h)), Released(id)) => if h == id then Some(None) else None
      case _ => None
  }

  /** One call's part of a log. */
  function Part(log: seq<Event>, id: nat): seq<Event> {
    if log == [] then []
    else
      var last := log[|log| - 1];
      var before := Part(log[..|log| - 1], id);
      if last.id == id then before + [last] else before
  }

  ghost predicate Open(part: seq<Event>, id: nat) {
    part != [] && part[0] == Took(id) && forall e | e in part[1..] :: e == Worked(id)
  }

  /** Taken once, worked with, released once. */
  ghost predicate Session(part: seq<Event>, id: nat) {
    part != [] && part[|part| - 1] == Released(id) && Open(part[..|part| - 1], id)
  }

  /** What a call did with the GPU, as its phase tells. */
  ghost predicate CallFits(g: Gpu, id: nat)
    requires id in g.calls
  {
    var part := Part(g.log, id);
    match g.calls[id].phase
    case Preparing => part == []
    case InGpu => Open(part, id) && !g.calls[id].kind.Plain?
    case Unwinding => Open(part, id) && !g.calls[id].kind.Plain?
    case Leaving => Session(part, id) && !g.calls[id].kind.Plain?
    case Lost => part == [] && !g.calls[id].kind.Probe? && !g.calls[id].kind.Plain?
    case Ended(busy) =>
      && (part == [] || Session(part, id))
      && (busy ==> part == [] && (g.calls[id].kind.Research? || g.calls[id].kind.Batch?))
      && (g.calls[id].kind.Plain? ==> part == [])
  }

  /** The log says who holds the GPU, and that is the call in the section. */
  ghost predicate HolderInv(g: Gpu) {
    && Holder(g.log).Some?
    && (g.locked <==> Holder(g.log).value.Some?)
    && (forall id: nat :: InSection(g, id) <==> Holder(g.log).value == Some(id))
    && g.badReleases == 0
  }

  ghost predicate PartsInv(g: Gpu) {
    && (forall id | id in g.calls :: CallFits(g, id))
    && (forall id: nat | id !in g.calls :: Part(g.log, id) == [])
  }

  ghost predicate Inv(g: Gpu) {
    HolderInv(g) && PartsInv(g)
  }

  lemma LogMore(log: seq<Event>, e: Event)
    ensures Holder(log + [e]) ==
      match (Holder(log), e)
      case (Some(None), Took(id)) => Some(Some(id))
      case (Some(Some(h)), Worked(id)) => if h == id then Holder(log) else None
      case (Some(Some(h)), Released(id)) => if h == id then Some(None) else None
      case _ => None
    ensures forall id :: Part(log + [e], id) == if e.id == id then Part(log, id) + [e] else Part(log, id)
  {
    assert (log + [e])[..|log|] == log;
  }

  function EventOf(a: Action): Option<Event> {
    match a
    case Try(id) => Some(Took(id))
    case Use(id) => Some(Worked(id))
    case Leave(id) => Some(Released(id))
    case _ => None
  }

  lemma StepKeepsHolder(g: Gpu, a: Action)
    requires HolderInv(g) && Enabled(g, a)
    ensures HolderInv(Step(g, a))
  {
    hide Holder, Part;
    if EventOf(a).Some? { LogMore(g.log, EventOf(a).value); }
    assert InSection(g, a.id) <==> Holder(g.log).value == Some(a.id);
    var t := Step(g, a);
    forall id: nat ensures InSection(t, id) <==> Holder(t.log).value == Some(id) {
      assert InSection(g, id) <==> Holder(g.log).value == Some(id);
    }
  }

  /** A step leaves every other call's part alone. */
  lemma OthersParts(g: Gpu, a: Action, id: nat)
    requires Enabled(g, a) && id != a.id
    ensures Part(Step(g, a).log, id) == Part(g.log, id)
    ensures (id in Step(g, a).calls <==> id in g.calls) && (id in g.calls ==> Step(g, a).calls[id] == g.calls[id])
  {
    hide Part;
    if EventOf(a).Some? { LogMore(g.log, EventOf(a).value); }
  }

  lemma OwnPart(g: Gpu, a: Action)
    requires Enabled(g, a) && PartsInv(g)
    ensures a.id in Step(g, a).calls && CallFits(Step(g, a), a.id)
  {
    hide Part;
    if EventOf(a).Some? { LogMore(g.log, EventOf(a).value); }
    if !a.Arrive? { assert CallFits(g, a.id); }
    PartMore(Part(g.log, a.id), a.id);
    hide Open, Session;
  }

  lemma StepKeepsParts(g: Gpu, a: Action)
    requires PartsInv(g) && Enabled(g, a)
    ensures PartsInv(Step(g, a))
  {
    hide Part, Step, Open, Session;
    OwnPart(g, a);
    forall id: nat | id != a.id
      ensures id in Step(g, a).calls ==> CallFits(Step(g, a), id)
      ensures id !in Step(g, a).calls ==> Part(Step(g, a).log, id) == []
    {
      OthersParts(g, a, id);
      if id in g.calls { assert CallFits(g, id); }
    }
  }

  lemma StepKeepsInv(g: Gpu, a: Action)
    requires Inv(g) && Enabled(g, a)
    ensures Inv(Step(g, a))
  {
    hide Step, Enabled, HolderInv, PartsInv;
    StepKeepsHolder(g, a);
    StepKeepsParts(g, a);
  }

  lemma PartMore(part: seq<Event>, id: nat)
    ensures part == [] ==> Open(part + [Took(id)], id)
    ensures Open(part, id) ==> Open(part + [Worked(id)], id) && Session(part + [Released(id)], id)
  {
    if part != [] {
      assert (part + [Worked(id)])[1..] == part[1..] + [Worked(id)];
    }
    assert (part + [Released(id)])[..|part|] == part;
  }

  // ----- whole runs -----

  function Execute(g: Gpu, actions: seq<Action>): Option<Gpu>
    decreases |actions|
  {
    if actions == [] then Some(g)
    else if Enabled(g, actions[0]) then Execute(Step(g, actions[0]), actions[1..])
    else None
  }

  lemma {:induction false} RunKeepsInv(g: Gpu, actions: seq<Action>)
    requires Inv(g) && Execute(g, actions).Some?
    ensures Inv(Execute(g, actions).value)
    decreases |actions|
  {
    hide Inv, Enabled;
    if actions != [] {
      StepKeepsInv(g, actions[0]);
      RunKeepsInv(Step(g, actions[0]), actions[1..]);
    }
  }

  lemma IdleInv()
    ensures Inv(IDLE)
  {}

  /** For any interleaving and any exceptions: at most one call is in a GPU section and it is the one the log says
      holds the lock; a call that has left took the lock once and released it once; a call that lost the
      race, or answered that the GPU is busy, never touched it; and the lock is never released unlocked. */
  lemma GpuIsExclusive(actions: seq<Action>)
    requires Execute(IDLE, actions).Some?
    ensures var g := Execute(IDLE, actions).value;
      && Holder(g.log).Some?
      && (g.locked <==> exists id :: InSection(g, id))
      && (forall a, b | InSection(g, a) && InSection(g, b) :: a == b)
      && (forall id | InPhase(g, id, Leaving) :: Session(Part(g.log, id), id))
      && (forall id | id in g.calls && g.calls[id].phase.Ended? ::
            Part(g.log, id) == [] || Session(Part(g.log, id), id))
      && (forall id | InPhase(g, id, Lost) || InPhase(g, id, Ended(true)) :: Part(g.log, id) == [])
      && g.badReleases == 0
  {
    hide Execute, Holder, Part, Session, Open;
    IdleInv();
    RunKeepsInv(IDLE, actions);
    var g := Execute(IDLE, actions).value;
    assert forall id | id in g.calls :: CallFits(g, id);
  }

  /** No call waits for ever on an abandoned lock: when every call has ended the lock is free, and while some call
      has not ended, some call can move. */
  lemma LockIsNeverAbandoned(actions: seq<Action>)
    requires Execute(IDLE, actions).Some?
    ensures var g := Execute(IDLE, actions).value;
      if forall id | id in g.calls :: g.calls[id].phase.Ended? then !g.locked
      else exists id, a :: id in g.calls && a in {Try(id), EndEarly(id), Leave(id), Finish(id)} && Enabled(g, a)
                           && (g.locked ==> a == Leave(id))
  {
    hide Execute, Holder, Part, CallFits;
    IdleInv();
    RunKeepsInv(IDLE, actions);
    var g := Execute(IDLE, actions).value;
    if g.locked {
      var id := Holder(g.log).value.value;
      assert InSection(g, id);
      assert Enabled(g, Leave(id));
    } else if id :| id in g.calls && !g.calls[id].phase.Ended? {
      assert !InSection(g, id);
      var a := if g.calls[id].phase.Preparing? then EndEarly(id) else Finish(id);
      assert Enabled(g, a);
    }
  }
}
