/** `ValidationState` and `ValidationHTTPServer` over real objects. A method that runs through without being
    interrupted is one run of the machine in `ValidationProtocol`, whose theorems cover every interleaving. */
module ValidationServer {
  import opened Prelude
  import opened ValidationProtocol

  class ValidationState {
    var status: Status
    var report: Option<string>
    var error: Option<string>

    constructor (initial: Status)
      ensures status == initial && report == None && error == None
    {
      status, report, error := initial, None, None;
    }

    method Update(status: Status, report: Option<string>, error: Option<string>)
      modifies this
      ensures this.status == status && this.report == report && this.error == error
    {
      this.status, this.report, this.error := status, report, error;
    }
  }

  datatype Reply = Conflict(consumed: bool) | BadRequest | UploadAccepted(count: nat)

  /** The steps of `start_validation`, from taking the lock to releasing it. */
  function CriticalSection(id: nat, started: bool, threadStarts: bool): seq<Action> {
    if started then [Enter(id), Claim(id), Leave(id)]
    else [Enter(id), Claim(id), Announce(id), Launch(id, threadStarts), Leave(id)]
  }

  /** The state after an uninterrupted `start_validation`. */
  function AfterStart(s: Server, id: nat, threadStarts: bool): Server
    requires Enabled(s, Enter(id))
  {
    var assets := s.callers[id].assets;
    if s.started then Move(s, id, AlreadyConsumed)
    else
      Update(Move(s, id, if threadStarts then Accepted(assets) else Crashed), Pending, None, None)
        .(started := true, winner := Some(id),
          worker := if threadStarts then Ready(assets) else s.worker,
          launches := s.launches + if threadStarts then 1 else 0)
  }

  lemma CriticalSectionRuns(s: Server, id: nat, threadStarts: bool)
    requires Enabled(s, Enter(id))
    ensures Execute(s, CriticalSection(id, s.started, threadStarts)) == Some(AfterStart(s, id, threadStarts))
  {
    if s.started { LosingRuns(s, id); } else { WinningRuns(s, id, threadStarts); }
  }

  lemma LosingRuns(s: Server, id: nat)
    requires Enabled(s, Enter(id)) && s.started
    ensures Execute(s, [Enter(id), Claim(id), Leave(id)]) == Some(AfterStart(s, id, true))
  {
    var s1 := Step(s, Enter(id));
    var s2 := Step(s1, Claim(id));
    assert Step(s2, Leave(id)) == AfterStart(s, id, true);
    hide Step, AfterStart;
    RunOf(s2, [Leave(id)]);
    RunOf(s1, [Claim(id), Leave(id)]);
    RunOf(s, [Enter(id), Claim(id), Leave(id)]);
  }

  lemma WinningRuns(s: Server, id: nat, threadStarts: bool)
    requires Enabled(s, Enter(id)) && !s.started
    ensures Execute(s, CriticalSection(id, false, threadStarts)) == Some(AfterStart(s, id, threadStarts))
  {
    hide Step, AfterStart, Enabled;
    var s2, s3, s4 := WinningSteps(s, id, threadStarts);
    RunOf(s4, [Leave(id)]);
    RunOf(s3, [Launch(id, threadStarts), Leave(id)]);
    RunOf(s2, [Announce(id), Launch(id, threadStarts), Leave(id)]);
    RunOf(Step(s, Enter(id)), CriticalSection(id, false, threadStarts)[1..]);
    RunOf(s, CriticalSection(id, false, threadStarts));
  }

  lemma WinningSteps(s: Server, id: nat, threadStarts: bool) returns (s2: Server, s3: Server, s4: Server)
    requires Enabled(s, Enter(id)) && !s.started
    ensures Enabled(Step(s, Enter(id)), Claim(id)) && s2 == Step(Step(s, Enter(id)), Claim(id))
    ensures Enabled(s2, Announce(id)) && s3 == Step(s2, Announce(id))
    ensures Enabled(s3, Launch(id, threadStarts)) && s4 == Step(s3, Launch(id, threadStarts))
    ensures Enabled(s4, Leave(id)) && Step(s4, Leave(id)) == AfterStart(s, id, threadStarts)
  {
    s2 := Step(Step(s, Enter(id)), Claim(id));
    s3 := Step(s2, Announce(id));
    s4 := Step(s3, Launch(id, threadStarts));
  }

  lemma RunOf(s: Server, actions: seq<Action>)
    requires actions != [] && Enabled(s, actions[0])
    ensures Execute(s, actions) == Execute(Step(s, actions[0]), actions[1..])
    ensures |actions| == 1 ==> Execute(s, actions) == Some(Step(s, actions[0]))
  {}

  /** Where an upload stands when its body has been looked at. */
  function Screened(s: Server, decoded: Option<Assets>): Stage {
    if !s.status.AwaitingAssets? then Unavailable
    else if decoded.Some? && decoded.value.Keys == s.required then Armed(decoded.value)
    else Rejected
  }

  lemma ScreeningReaches(s: Server, id: nat, decoded: Option<Assets>)
    requires Reachable(s) && id !in s.callers
    ensures Reachable(Move(s, id, Screened(s, decoded)))
  {
    hide Reachable;
    ReachableStep(s, Arrive(id));
    var s1 := Step(s, Arrive(id));
    ReachableStep(s1, Look(id));
    var s2 := Step(s1, Look(id));
    if s2.callers[id].Admitted? {
      ReachableStep(s2, Screen(id, decoded));
      assert Step(s2, Screen(id, decoded)) == Move(s, id, Screened(s, decoded));
    } else {
      assert s2 == Move(s, id, Screened(s, decoded));
    }
  }

  class ValidationHttpServer {
    const required: set<string>
    const state: ValidationState
    var workerStarted: bool
    ghost var view: Server

    /** The machine's state is reachable, and its shared part is what the real fields hold. */
    ghost predicate Valid()
      reads this, state
    {
      && Reachable(view)
      && view.required == required
      && view.started == workerStarted
      && view.status == state.status && view.report == state.report && view.error == state.error
    }

    /** `main`, up to the point where the server exists: validation is not yet started. */
    constructor (required: set<string>, given: Assets)
      requires Boot(required, given).Returned?
      ensures Valid() && fresh(state) && view == Boot(required, given).value
    {
      this.required := required;
      state := new ValidationState(if required != {} && given == map[] then AwaitingAssets else Pending);
      workerStarted := false;
      view := Boot(required, given).value;
      new;
      assert Execute(view, []) == Some(view);
    }

    /** True: this caller's worker was started. False: another caller came first. It raises when the thread
        cannot be started, and then the flag stays set. */
    method StartValidation(id: nat, assets: Assets, threadStarts: bool) returns (r: Outcome<bool>)
      requires Valid() && view.lock.None? && id in view.callers && view.callers[id] == Armed(assets)
      modifies this, state
      ensures Valid()
      ensures Execute(old(view), CriticalSection(id, old(workerStarted), threadStarts)) == Some(view)
      ensures view.lock.None? && workerStarted
      ensures view.callers == old(view.callers)[id :=
        if old(workerStarted) then AlreadyConsumed else if threadStarts then Accepted(assets) else Crashed]
      ensures r == if old(workerStarted) then Returned(false)
                   else if threadStarts then Returned(true) else Raised(OtherException)
      ensures r == Returned(true) ==> view.worker == Ready(assets) && state.status == Pending
      ensures r == Returned(false) ==> view.worker == old(view.worker) && state.status == old(state.status)
    {
      hide Reachable, Execute;
      CriticalSectionRuns(view, id, threadStarts);
      ReachableRun(view, CriticalSection(id, view.started, threadStarts));
      view := AfterStart(view, id, threadStarts);
      if workerStarted {
        return Returned(false);
      }
      workerStarted := true;
      state.Update(Pending, None, None);
      r := if threadStarts then Returned(true) else Raised(OtherException);
    }

    /** `do_POST` past the token and path checks; `decoded` is the bundle in the body, if there is a valid one. */
    method Post(id: nat, decoded: Option<Assets>, threadStarts: bool) returns (r: Outcome<Reply>)
      requires Valid() && view.lock.None? && id !in view.callers
      modifies this, state
      ensures Valid() && view.lock.None?
      ensures r == if old(state.status) != AwaitingAssets then Returned(Conflict(false))
                   else if decoded.None? || decoded.value.Keys != required then Returned(BadRequest)
                   else if old(workerStarted) then Returned(Conflict(true))
                   else if threadStarts then Returned(UploadAccepted(|decoded.value|)) else Raised(OtherException)
      ensures view.callers == old(view.callers)[id :=
        match r
        case Raised(_) => Crashed
        case Returned(UploadAccepted(_)) => if decoded.Some? then Accepted(decoded.value) else Rejected
        case Returned(BadRequest) => Rejected
        case Returned(Conflict(consumed)) => if consumed then AlreadyConsumed else Unavailable]
      ensures r.Returned? && r.value.UploadAccepted? ==> view.worker == Ready(decoded.value) && state.status == Pending
      ensures r.Returned? && !r.value.UploadAccepted? ==>
        view.worker == old(view.worker) && state.status == old(state.status) && workerStarted == old(workerStarted)
    {
      hide Reachable;
      ScreeningReaches(view, id, decoded);
      view := Move(view, id, Screened(view, decoded));
      if state.status != AwaitingAssets {
        return Returned(Conflict(false));
      }
      if decoded.None? || decoded.value.Keys != required {
        return Returned(BadRequest);
      }
      var started := StartValidation(id, decoded.value, threadStarts);
      match started
      case Raised(e) => r := Raised(e);
      case Returned(ok) => r := Returned(if ok then UploadAccepted(|decoded.value|) else Conflict(true));
    }

    /** `_validation_worker`: whatever the validation does, a report is published exactly when it returned, an
        error when it raised an `Exception`, and the status stays at running when the thread died. */
    method Work(outcome: Outcome<string>, message: string)
      requires Valid() && view.worker.Ready?
      modifies this`view, state
      ensures Valid() && view.lock == old(view.lock)
      ensures Execute(old(view), [Begin, Ending(outcome, message)]) == Some(view)
      ensures match outcome
              case Returned(report) => state.status == Completed && state.report == Some(report) && state.error == None
              case Raised(Interrupt) => state.status == Running && state.report == None && state.error == None
              case Raised(_) => state.status == Failed && state.report == None && state.error == Some(message)
    {
      hide Reachable;
      RunOf(view, [Begin, Ending(outcome, message)]);
      RunOf(Step(view, Begin), [Ending(outcome, message)]);
      ReachableRun(view, [Begin, Ending(outcome, message)]);
      hide Execute;
      view := Step(Step(view, Begin), Ending(outcome, message));
      state.Update(Running, None, None);
      match outcome {
        case Returned(report) => state.Update(Completed, Some(report), None);
        case Raised(Interrupt) =>
        case Raised(_) => state.Update(Failed, None, Some(message));
      }
    }
  }

  function Ending(outcome: Outcome<string>, message: string): Action {
    match outcome
    case Returned(report) => Return(report)
    case Raised(Interrupt) => Die
    case Raised(_) => Action.Raise(message)
  }
}
