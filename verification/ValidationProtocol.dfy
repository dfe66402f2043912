/** The one-shot validation server as a machine: any number of uploads, the call made at boot and the worker
    thread, interleaved step by step. A step is one locked or otherwise indivisible action. */
module ValidationProtocol {
  import opened Prelude

  datatype Status = AwaitingAssets | Pending | Running | Completed | Failed

  type Assets = map<string, string>

  /** Where a caller of the server stands. The stages from `Inside` to `Leaving` hold the worker lock. */
  datatype Stage =
    | Arrived
    | Admitted
    | Armed(assets: Assets)
    | Inside(assets: Assets)
    | Claimed(assets: Assets)
    | Announced(assets: Assets)
    | Launched(assets: Assets)
    | Beaten
    | Stuck
    | Accepted(assets: Assets)
    | Unavailable
    | Rejected
    | AlreadyConsumed
    | Crashed

  predicate HoldsLock(stage: Stage) {
    stage.Inside? || stage.Claimed? || stage.Announced? || stage.Launched? || stage.Beaten? || stage.Stuck?
  }

  predicate Over(stage: Stage) {
    stage.Accepted? || stage.Unavailable? || stage.Rejected? || stage.AlreadyConsumed? || stage.Crashed?
  }

  /** The stages only the caller that set the flag can reach. */
  predicate Won(stage: Stage) {
    stage.Claimed? || stage.Announced? || stage.Launched? || stage.Stuck? || stage.Accepted? || stage.Crashed?
  }

  predicate CarriesAssets(stage: Stage) {
    stage.Armed? || stage.Inside? || stage.Claimed? || stage.Announced? || stage.Launched? || stage.Accepted?
  }

  datatype Worker = Absent | Ready(assets: Assets) | Busy(assets: Assets) | Done(assets: Assets) | Dead(assets: Assets)

  /** `published` remembers every status the state object held, `launches` the threads started, `winner` the
      caller that set the started flag. */
  datatype Server = Server(
    required: set<string>,
    status: Status,
    report: Option<string>,
    error: Option<string>,
    started: bool,
    lock: Option<nat>,
    callers: map<nat, Stage>,
    worker: Worker,
    published: seq<Status>,
    launches: nat,
    winner: Option<nat>)

  datatype Action =
    | Arrive(id: nat)
    | Look(id: nat)
    | Screen(id: nat, decoded: Option<Assets>)
    | Enter(id: nat)
    | Claim(id: nat)
    | Announce(id: nat)
    | Launch(id: nat, threadStarts: bool)
    | Leave(id: nat)
    | Begin
    | Return(report: string)
    | Raise(error: string)
    | Die

  /** The caller that stands for the program's own start. */
  const BOOT: nat := 0

  /** `main`: assets given at boot must carry exactly the required names. The program starts validation itself
      when it was given assets or none are required; otherwise it waits for an upload. */
  function Boot(required: set<string>, given: Assets): (r: Outcome<Server>)
    ensures r.Raised? <==> given != map[] && given.Keys != required
  {
    if given != map[] && given.Keys != required then Raised(OtherException)
    else
      var initial := if required != {} && given == map[] then AwaitingAssets else Pending;
      Returned(Server(
        required, initial, None, None, false, None,
        if given != map[] || required == {} then map[BOOT := Armed(given)] else map[BOOT := Unavailable],
        Absent, [initial], 0, None))
  }

  predicate Enabled(s: Server, a: Action) {
    match a
    case Arrive(id) => id !in s.callers
    case Look(id) => id in s.callers && s.callers[id].Arrived?
    case Screen(id, _) => id in s.callers && s.callers[id].Admitted?
    case Enter(id) => id in s.callers && s.callers[id].Armed? && s.lock.None?
    case Claim(id) => id in s.callers && s.callers[id].Inside?
    case Announce(id) => id in s.callers && s.callers[id].Claimed?
    case Launch(id, _) => id in s.callers && s.callers[id].Announced?
    case Leave(id) =>
      id in s.callers && (s.callers[id].Launched? || s.callers[id].Beaten? || s.callers[id].Stuck?)
    case Begin => s.worker.Ready?
    case Return(_) => s.worker.Busy?
    case Raise(_) => s.worker.Busy?
    case Die => s.worker.Busy?
  }

  /** `ValidationState.update`. */
  function Update(s: Server, status: Status, report: Option<string>, error: Option<string>): Server {
    s.(status := status, report := report, error := error, published := s.published + [status])
  }

  function Move(s: Server, id: nat, stage: Stage): Server {
    s.(callers := s.callers[id := stage])
  }

  function Step(s: Server, a: Action): Server
    requires Enabled(s, a)
  {
    match a
    case Arrive(id) => Move(s, id, Arrived)
    case Look(id) => Move(s, id, if s.status.AwaitingAssets? then Admitted else Unavailable)
    case Screen(id, decoded) =>
      Move(s, id, if decoded.Some? && decoded.value.Keys == s.required then Armed(decoded.value) else Rejected)
    case Enter(id) => Move(s, id, Inside(s.callers[id].assets)).(lock := Some(id))
    case Claim(id) =>
      if s.started then Move(s, id, Beaten)
      else Move(s, id, Claimed(s.callers[id].assets)).(started := true, winner := Some(id))
    case Announce(id) => Update(Move(s, id, Announced(s.callers[id].assets)), Pending, None, None)
    case Launch(id, threadStarts) =>
      if threadStarts then
        Move(s, id, Launched(s.callers[id].assets)).(worker := Ready(s.callers[id].assets), launches := s.launches + 1)
      else Move(s, id, Stuck)
    case Leave(id) =>
      var stage := s.callers[id];
      var final :=
        if stage.Launched? then Accepted(stage.assets) else if stage.Beaten? then AlreadyConsumed else Crashed;
      Move(s, id, final).(lock := None)
    case Begin => Update(s.(worker := Busy(s.worker.assets)), Running, None, None)
    case Return(report) => Update(s.(worker := Done(s.worker.assets)), Completed, Some(report), None)
    case Raise(error) => Update(s.(worker := Done(s.worker.assets)), Failed, None, Some(error))
    case Die => s.(worker := Dead(s.worker.assets))
  }

  // ----- the invariant -----

  /** The lock is held by the one caller inside the critical section. */
  ghost predicate LockInv(s: Server) {
    && (s.lock.Some? ==> s.lock.value in s.callers && HoldsLock(s.callers[s.lock.value]))
    && (forall id | id in s.callers && HoldsLock(s.callers[id]) :: s.lock == Some(id))
  }

  /** At most one caller ever gets past the flag, and nobody is beaten before somebody won. */
  ghost predicate WinnerInv(s: Server) {
    && (s.started <==> s.winner.Some?)
    && (s.winner.Some? ==> s.winner.value in s.callers && Won(s.callers[s.winner.value]))
    && (forall id | id in s.callers && Won(s.callers[id]) :: s.winner == Some(id))
    && (forall id | id in s.callers && (s.callers[id].Beaten? || s.callers[id].AlreadyConsumed?) :: s.started)
  }

  ghost predicate AssetsInv(s: Server) {
    forall id | id in s.callers && CarriesAssets(s.callers[id]) :: s.callers[id].assets.Keys == s.required
  }

  /** What was published, as a function of the winner's stage and the worker. */
  ghost predicate HistoryInv(s: Server) {
    && |s.published| >= 1
    && (s.published[0].AwaitingAssets? || s.published[0].Pending?)
    && s.status == s.published[|s.published| - 1]
    && (s.report.Some? <==> s.status.Completed?)
    && (s.error.Some? <==> s.status.Failed?)
    && var first := [s.published[0]];
    if !s.started then s.published == first && s.worker.Absent? && s.launches == 0
    else
      s.winner.Some? && s.winner.value in s.callers
      && var stage := s.callers[s.winner.value];
         match s.worker
         case Absent =>
           && s.launches == 0 && !stage.Launched? && !stage.Accepted?
           && s.published == first + if stage.Claimed? then [] else [Pending]
         case Ready(assets) => LaunchedBy(stage, assets) && s.launches == 1 && s.published == first + [Pending]
         case Busy(assets) => LaunchedBy(stage, assets) && s.launches == 1 && s.published == first + [Pending, Running]
         case Dead(assets) => LaunchedBy(stage, assets) && s.launches == 1 && s.published == first + [Pending, Running]
         case Done(assets) =>
           && LaunchedBy(stage, assets) && s.launches == 1
           && (|| s.published == first + [Pending, Running, Completed]
               || s.published == first + [Pending, Running, Failed])
  }

  predicate LaunchedBy(stage: Stage, assets: Assets) {
    stage == Launched(assets) || stage == Accepted(assets)
  }

  ghost predicate Inv(s: Server) {
    LockInv(s) && WinnerInv(s) && AssetsInv(s) && HistoryInv(s)
  }

  /** A server that starts at all starts sound: nothing is running, it waits for an upload exactly when assets are
      required and none were given, and otherwise the boot call stands at the lock with exactly the required
      assets. */
  lemma BootInv(required: set<string>, given: Assets)
    requires Boot(required, given).Returned?
    ensures var s := Boot(required, given).value;
      && Inv(s) && !s.started && s.worker.Absent?
      && (s.status.AwaitingAssets? <==> required != {} && given == map[])
      && (s.status.AwaitingAssets? <==> forall id | id in s.callers :: Over(s.callers[id]))
      && (!s.status.AwaitingAssets? ==> s.callers[BOOT] == Armed(given) && given.Keys == required)
  {
    assert BOOT in Boot(required, given).value.callers;
  }

  lemma StepKeepsLock(s: Server, a: Action)
    requires LockInv(s) && Enabled(s, a)
    ensures LockInv(Step(s, a))
  {}

  lemma StepKeepsWinner(s: Server, a: Action)
    requires WinnerInv(s) && Enabled(s, a)
    ensures WinnerInv(Step(s, a))
  {}

  lemma StepKeepsAssets(s: Server, a: Action)
    requires AssetsInv(s) && Enabled(s, a)
    ensures AssetsInv(Step(s, a))
  {}

  lemma StepKeepsHistory(s: Server, a: Action)
    requires WinnerInv(s) && HistoryInv(s) && Enabled(s, a)
    ensures HistoryInv(Step(s, a))
  {
    hide Step, Enabled, WinnerInv, HistoryInv;
    if a.Claim? || a.Announce? || a.Launch? {
      CallerKeepsHistory(s, a);
    } else if a.Begin? || a.Return? || a.Raise? || a.Die? {
      WorkerKeepsHistory(s, a);
    } else {
      SilentKeepsHistory(s, a);
    }
  }

  lemma SilentKeepsHistory(s: Server, a: Action)
    requires WinnerInv(s) && HistoryInv(s) && Enabled(s, a)
    requires a.Arrive? || a.Look? || a.Screen? || a.Enter? || a.Leave?
    ensures HistoryInv(Step(s, a))
  {}

  lemma CallerKeepsHistory(s: Server, a: Action)
    requires WinnerInv(s) && HistoryInv(s) && Enabled(s, a) && (a.Claim? || a.Announce? || a.Launch?)
    ensures HistoryInv(Step(s, a))
  {
    assert [s.published[0]] + [] == [s.published[0]];
  }

  lemma WorkerKeepsHistory(s: Server, a: Action)
    requires HistoryInv(s) && Enabled(s, a) && (a.Begin? || a.Return? || a.Raise? || a.Die?)
    ensures HistoryInv(Step(s, a))
  {
    var first := [s.published[0]];
    assert (first + [Pending]) + [Running] == first + [Pending, Running];
    assert (first + [Pending, Running]) + [Completed] == first + [Pending, Running, Completed];
    assert (first + [Pending, Running]) + [Failed] == first + [Pending, Running, Failed];
  }

  lemma StepKeepsInv(s: Server, a: Action)
    requires Inv(s) && Enabled(s, a)
    ensures Inv(Step(s, a))
  {
    hide Step, LockInv, WinnerInv, AssetsInv, HistoryInv;
    StepKeepsLock(s, a);
    StepKeepsWinner(s, a);
    StepKeepsAssets(s, a);
    StepKeepsHistory(s, a);
  }

  // ----- whole runs -----

  /** The state after a run, if every action was enabled in turn. */
  function Execute(s: Server, actions: seq<Action>): Option<Server>
    decreases |actions|
  {
    if actions == [] then Some(s)
    else if Enabled(s, actions[0]) then Execute(Step(s, actions[0]), actions[1..])
    else None
  }

  lemma {:induction false} RunKeepsInv(s: Server, actions: seq<Action>)
    requires Inv(s) && Execute(s, actions).Some?
    ensures Inv(Execute(s, actions).value)
    ensures Execute(s, actions).value.required == s.required
    decreases |actions|
  {
    hide Inv, Enabled;
    if actions != [] {
      StepKeepsInv(s, actions[0]);
      RunKeepsInv(Step(s, actions[0]), actions[1..]);
    }
  }

  lemma {:induction false} ExecuteAppend(s: Server, first: seq<Action>, more: seq<Action>)
    requires Execute(s, first).Some?
    ensures Execute(s, first + more) == Execute(Execute(s, first).value, more)
    decreases |first|
  {
    hide Enabled, Step;
    if first == [] {
      assert first + more == more;
    } else {
      ExecuteAppend(Step(s, first[0]), first[1..], more);
      assert (first + more)[1..] == first[1..] + more;
    }
  }

  ghost predicate Reachable(s: Server) {
    exists given, actions ::
      && Boot(s.required, given).Returned?
      && Execute(Boot(s.required, given).value, actions) == Some(s)
  }

  lemma ReachableRun(s: Server, actions: seq<Action>)
    requires Reachable(s) && Execute(s, actions).Some?
    ensures Reachable(Execute(s, actions).value)
  {
    hide Execute, Boot, Enabled;
    var given, before :|
      && Boot(s.required, given).Returned?
      && Execute(Boot(s.required, given).value, before) == Some(s);
    ExecuteAppend(Boot(s.required, given).value, before, actions);
    ReachableInv(s);
    RunKeepsInv(s, actions);
  }

  lemma ReachableStep(s: Server, a: Action)
    requires Reachable(s) && Enabled(s, a)
    ensures Reachable(Step(s, a))
  {
    hide Reachable, Enabled, Step;
    assert Execute(s, [a]) == Some(Step(s, a));
    ReachableRun(s, [a]);
  }

  lemma ReachableInv(s: Server)
    requires Reachable(s)
    ensures Inv(s)
  {
    hide Inv, Execute, Boot;
    var given, actions :|
      && Boot(s.required, given).Returned?
      && Execute(Boot(s.required, given).value, actions) == Some(s);
    BootInv(s.required, given);
    RunKeepsInv(Boot(s.required, given).value, actions);
  }

  /** Under any race: at most one worker is started and at most one caller accepted; the two go together, and the
      worker has the accepted caller's assets, named exactly as the payload requires. A caller is told the
      upload was consumed only when another caller set the flag. */
  lemma OneWorker(s: Server)
    requires Reachable(s)
    ensures s.launches == (if s.worker.Absent? then 0 else 1)
    ensures forall a, b | a in s.callers && b in s.callers && s.callers[a].Accepted? && s.callers[b].Accepted? :: a == b
    ensures forall a | a in s.callers && s.callers[a].Accepted? ::
      !s.worker.Absent? && s.worker.assets == s.callers[a].assets
    ensures !s.worker.Absent? ==>
      && s.worker.assets.Keys == s.required
      && exists a :: a in s.callers && LaunchedBy(s.callers[a], s.worker.assets)
    ensures forall a | a in s.callers && s.callers[a].AlreadyConsumed? ::
      exists b :: b in s.callers && b != a && Won(s.callers[b])
  {
    ReachableInv(s);
  }

  /** What was ever published is the first status followed by a prefix of pending, running, and one outcome; a
      report is shown exactly when the status is completed and an error exactly when it is failed. */
  lemma PublishedOrder(s: Server)
    requires Reachable(s)
    ensures s.published != [] && s.status == s.published[|s.published| - 1]
    ensures s.published[0].AwaitingAssets? || s.published[0].Pending?
    ensures s.published[1..] <= [Pending, Running, Completed] || s.published[1..] <= [Pending, Running, Failed]
    ensures s.report.Some? <==> s.status.Completed?
    ensures s.error.Some? <==> s.status.Failed?
  {
    ReachableInv(s);
    var first := [s.published[0]];
    assert s.published == first + s.published[1..];
  }

  function Rank(status: Status): nat {
    match status
    case AwaitingAssets => 0
    case Pending => 1
    case Running => 2
    case Completed => 3
    case Failed => 3
  }

  lemma {:induction false} PublishedGrows(s: Server, actions: seq<Action>)
    requires Execute(s, actions).Some?
    ensures s.published <= Execute(s, actions).value.published
    decreases |actions|
  {
    if actions != [] {
      PublishedGrows(Step(s, actions[0]), actions[1..]);
    }
  }

  /** From any reachable state on, the status only moves forward, and a final one stays with its report or error. */
  lemma OnlyForward(s: Server, actions: seq<Action>)
    requires Reachable(s) && Execute(s, actions).Some?
    ensures var t := Execute(s, actions).value;
      && Rank(s.status) <= Rank(t.status)
      && (s.status.Completed? || s.status.Failed? ==> t.status == s.status)
  {
    hide Execute, Reachable;
    ReachableRun(s, actions);
    PublishedGrows(s, actions);
    var t := Execute(s, actions).value;
    PublishedOrder(s);
    PublishedOrder(t);
    assert t.published[|s.published| - 1] == s.status;
    assert t.published[|t.published| - 1] == t.status;
    assert forall k | 1 <= k < |t.published| :: t.published[k] == t.published[1..][k - 1];
  }

  // ----- progress -----

  /** How far a caller has come; every action of its own takes it further. */
  function Distance(stage: Stage): nat {
    match stage
    case Arrived => 0
    case Admitted => 1
    case Armed(_) => 2
    case Inside(_) => 3
    case Claimed(_) => 4
    case Announced(_) => 5
    case Launched(_) => 6
    case Beaten => 6
    case Stuck => 6
    case _ => 7
  }

  function Actor(a: Action): Option<nat> {
    match a
    case Begin => None
    case Return(_) => None
    case Raise(_) => None
    case Die => None
    case _ => Some(a.id)
  }

  function NextOf(stage: Stage, id: nat): Action
    requires !Over(stage)
  {
    match stage
    case Arrived => Look(id)
    case Admitted => Screen(id, None)
    case Armed(_) => Enter(id)
    case Inside(_) => Claim(id)
    case Claimed(_) => Announce(id)
    case Announced(_) => Launch(id, true)
    case Launched(_) => Leave(id)
    case Beaten => Leave(id)
    case Stuck => Leave(id)
  }

  /** No caller is left hanging: while one is not over, some caller can move. */
  lemma SomeoneMoves(s: Server, id: nat)
    requires Reachable(s) && id in s.callers && !Over(s.callers[id])
    ensures exists a :: Enabled(s, a) && Actor(a).Some? && Actor(a).value in s.callers
  {
    hide Reachable, WinnerInv, AssetsInv, HistoryInv;
    ReachableInv(s);
    var mover := if s.lock.Some? then s.lock.value else id;
    var stage := s.callers[mover];
    assert s.lock.Some? ==> HoldsLock(stage);
    var a := NextOf(stage, mover);
    assert Actor(a) == Some(mover);
    assert Enabled(s, a);
  }

  /** A caller that moves comes further, and nobody else's step takes it anywhere: with `SomeoneMoves`, every
      caller is over after at most seven steps of its own. */
  lemma OwnStepsOnly(s: Server, a: Action, id: nat)
    requires Enabled(s, a) && id in s.callers
    ensures id in Step(s, a).callers
    ensures if Actor(a) == Some(id) then Distance(s.callers[id]) < Distance(Step(s, a).callers[id]) <= 7
            else Step(s, a).callers[id] == s.callers[id]
  {}

  /** Once every caller is over: an upload or the boot was accepted, or the thread could not be started, or
      no caller with matching assets ever came to the lock and the flag is still unset. */
  lemma Settled(s: Server)
    requires Reachable(s) && forall id | id in s.callers :: Over(s.callers[id])
    ensures s.lock.None?
    ensures s.started <==> exists id :: id in s.callers && (s.callers[id].Accepted? || s.callers[id].Crashed?)
    ensures (exists id :: id in s.callers && s.callers[id].Crashed?) ==> s.status.Pending? && s.worker.Absent?
    ensures s.status.AwaitingAssets? ==>
      forall id | id in s.callers :: s.callers[id].Unavailable? || s.callers[id].Rejected?
  {
    ReachableInv(s);
  }

  // ----- what is shown -----

  datatype Verdict = Reported(report: string) | Excepted(error: string)

  /** What an inquiry after the state is told. */
  predicate Shows(s: Server, v: Verdict) {
    match v
    case Reported(report) => s.status == Completed && s.report == Some(report) && s.error == None
    case Excepted(error) => s.status == Failed && s.error == Some(error) && s.report == None
  }

  /** The validation returned this report, or raised this error. */
  predicate Gives(a: Action, v: Verdict) {
    match v
    case Reported(report) => a == Return(report)
    case Excepted(error) => a == Raise(error)
  }

  lemma StepShows(s: Server, a: Action, v: Verdict)
    requires Inv(s) && Enabled(s, a)
    ensures Shows(Step(s, a), v) <==> Shows(s, v) || Gives(a, v)
  {
    hide LockInv, AssetsInv;
    if a.Begin? || a.Return? || a.Raise? || a.Die? {
      assert s.worker.Ready? || s.worker.Busy?;
      assert !s.status.Completed? && !s.status.Failed?;
      hide WinnerInv, HistoryInv;
    } else if a.Announce? {
      assert s.winner == Some(a.id) && s.worker.Absent?;
      assert !s.status.Completed? && !s.status.Failed?;
      hide WinnerInv, HistoryInv;
    } else {
      hide WinnerInv, HistoryInv;
    }
  }

  /** The server shows a report exactly when the validation has returned it, and an error exactly when it has raised it,
      in whatever order uploads, inquiries and the worker take their steps. */
  lemma {:induction false} VerdictHistory(required: set<string>, given: Assets, actions: seq<Action>, v: Verdict)
    requires Boot(required, given).Returned? && Execute(Boot(required, given).value, actions).Some?
    ensures Shows(Execute(Boot(required, given).value, actions).value, v)
       <==> exists k :: 0 <= k < |actions| && Gives(actions[k], v)
    decreases |actions|
  {
    hide Inv, Shows, Gives, Enabled, Step, Execute;
    var start := Boot(required, given).value;
    BootInv(required, given);
    if actions == [] {
      NothingShown(required, given, v);
    } else {
      var n := |actions| - 1;
      var before := actions[..n];
      assert actions == before + [actions[n]];
      PrefixRuns(start, before, actions[n]);
      RunKeepsInv(start, before);
      StepShows(Execute(start, before).value, actions[n], v);
      VerdictHistory(required, given, before, v);
      assert forall k | 0 <= k < n :: before[k] == actions[k];
    }
  }

  lemma NothingShown(required: set<string>, given: Assets, v: Verdict)
    requires Boot(required, given).Returned?
    ensures Execute(Boot(required, given).value, []) == Some(Boot(required, given).value)
    ensures !Shows(Boot(required, given).value, v)
  {}

  lemma {:induction false} PrefixRuns(s: Server, before: seq<Action>, a: Action)
    requires Execute(s, before + [a]).Some?
    ensures Execute(s, before).Some? && Enabled(Execute(s, before).value, a)
    ensures Execute(s, before + [a]) == Some(Step(Execute(s, before).value, a))
    decreases |before|
  {
    hide Enabled, Step;
    if before == [] {
      assert [a][1..] == [];
    } else {
      assert (before + [a])[1..] == before[1..] + [a];
      PrefixRuns(Step(s, before[0]), before[1..], a);
    }
  }
}
