/** The pod's job queue as a machine: every step is one indivisible action of a submitter, a canceller or
    the single consumer, and a run is any interleaving of them. */
module PodQueue {
  import opened Prelude

  datatype JobStatus = InQueue | InProgress | JobCompleted | JobFailed | Cancelled

  predicate Terminal(status: JobStatus) {
    status.JobCompleted? || status.JobFailed? || status.Cancelled?
  }

  datatype Job = Job(
    request: string,
    status: JobStatus,
    output: Option<string>,
    executionMs: Option<nat>,
    delayMs: Option<nat>)

  /** Where the consumer thread stands, and the id in its hand. */
  datatype Consumer = Waiting | Holding(id: string) | Running(id: string) | Finishing(id: string)

  /** `submitting` are the jobs registered but not yet put. `puts` and `starts` remember the order of the
      puts and of the calls of the job handler; `keyErrors` counts failed look-ups of a popped id. */
  datatype Queue = Queue(
    jobs: map<string, Job>,
    submitting: set<string>,
    pending: seq<string>,
    consumer: Consumer,
    unfinished: int,
    puts: seq<string>,
    starts: seq<string>,
    keyErrors: nat)

  const EMPTY: Queue := Queue(map[], {}, [], Waiting, 0, [], [], 0)

  datatype Action =
    | Register(id: string, request: string)
    | Put(id: string)
    | Cancel(id: string)
    | Take
    | Start(delayMs: nat)
    | Finish(output: string, executionMs: nat)
    | Crash(output: string)
    | TaskDone

  /** A fresh id is registered, each registered job is put once, and the consumer is one thread. */
  predicate Enabled(q: Queue, a: Action) {
    match a
    case Register(id, _) => id !in q.jobs
    case Put(id) => id in q.submitting
    case Cancel(_) => true
    case Take => q.consumer.Waiting? && q.pending != []
    case Start(_) => q.consumer.Holding?
    case Finish(_, _) => q.consumer.Running? && q.consumer.id in q.jobs
    case Crash(_) => q.consumer.Running? && q.consumer.id in q.jobs
    case TaskDone => q.consumer.Finishing?
  }

  function Step(q: Queue, a: Action): Queue
    requires Enabled(q, a)
  {
    match a
    case Register(id, request) =>
      q.(jobs := q.jobs[id := Job(request, InQueue, None, None, None)], submitting := q.submitting + {id})
    case Put(id) =>
      q.(submitting := q.submitting - {id}, pending := q.pending + [id], unfinished := q.unfinished + 1,
         puts := q.puts + [id])
    case Cancel(id) =>
      if id in q.jobs && q.jobs[id].status.InQueue? then
        q.(jobs := q.jobs[id := q.jobs[id].(status := Cancelled)])
      else q
    case Take => q.(consumer := Holding(q.pending[0]), pending := q.pending[1..])
    case Start(delayMs) =>
      var id := q.consumer.id;
      if id !in q.jobs then
        q.(consumer := Finishing(id), keyErrors := q.keyErrors + 1)
      else if q.jobs[id].status.Cancelled? then
        q.(consumer := Finishing(id))
      else
        q.(jobs := q.jobs[id := q.jobs[id].(status := InProgress, delayMs := Some(delayMs))],
           consumer := Running(id), starts := q.starts + [id])
    case Finish(output, executionMs) =>
      var id := q.consumer.id;
      q.(jobs := q.jobs[id := q.jobs[id].(status := JobCompleted, output := Some(output),
                                          executionMs := Some(executionMs))],
         consumer := Finishing(id))
    case Crash(output) =>
      var id := q.consumer.id;
      q.(jobs := q.jobs[id := q.jobs[id].(status := JobFailed, output := Some(output))],
         consumer := Finishing(id))
    case TaskDone => q.(consumer := Waiting, unfinished := q.unfinished - 1)
  }

  // ----- the invariant -----

  ghost predicate NoDuplicates(s: seq<string>) {
    forall i, j :: 0 <= i < j < |s| ==> s[i] != s[j]
  }

  /** The ids popped so far, in order. */
  function Taken(q: Queue): seq<string>
    requires |q.pending| <= |q.puts|
  {
    q.puts[..|q.puts| - |q.pending|]
  }

  /** The ids whose start has been decided. */
  function Decided(q: Queue): seq<string>
    requires |q.pending| <= |q.puts| && (q.consumer.Holding? ==> Taken(q) != [])
  {
    if q.consumer.Holding? then Taken(q)[..|Taken(q)| - 1] else Taken(q)
  }

  function WithoutCancelled(ids: seq<string>, jobs: map<string, Job>): seq<string> {
    if ids == [] then []
    else
      var id := ids[|ids| - 1];
      WithoutCancelled(ids[..|ids| - 1], jobs)
      + if id in jobs && jobs[id].status.Cancelled? then [] else [id]
  }

  /** Every id ever put was registered and is put once. */
  ghost predicate KeysInv(q: Queue) {
    && NoDuplicates(q.puts)
    && q.jobs.Keys == q.submitting + (set id | id in q.puts)
    && (forall id | id in q.submitting :: id !in q.puts)
  }

  /** The pending ids are the tail of the puts, and the consumer's id is the last one taken. */
  ghost predicate TailInv(q: Queue) {
    && |q.pending| <= |q.puts|
    && q.puts == Taken(q) + q.pending
    && (!q.consumer.Waiting? ==> Taken(q) != [] && Taken(q)[|Taken(q)| - 1] == q.consumer.id)
    && q.unfinished == |q.pending| + (if q.consumer.Waiting? then 0 else 1)
    && q.keyErrors == 0
  }

  ghost predicate IdsInv(q: Queue) {
    KeysInv(q) && TailInv(q)
  }

  datatype Place = Submitting | Pending | Held | InHandler | Settled

  /** The one place a job is at. */
  function PlaceOf(q: Queue, id: string): Place {
    if id in q.submitting then Submitting
    else if id in q.pending then Pending
    else if q.consumer == Holding(id) then Held
    else if q.consumer == Running(id) then InHandler
    else Settled
  }

  predicate Waits(place: Place) {
    place.Submitting? || place.Pending? || place.Held?
  }

  ghost predicate JobFits(q: Queue, id: string)
    requires id in q.jobs
  {
    var job, place := q.jobs[id], PlaceOf(q, id);
    && (job.status.InQueue? ==> Waits(place))
    && (job.status.InProgress? <==> place.InHandler?)
    && (Waits(place) ==> job.status.InQueue? || job.status.Cancelled?)
    && (job.output.Some? <==> job.status.JobCompleted? || job.status.JobFailed?)
    && (job.executionMs.Some? <==> job.status.JobCompleted?)
    && (job.delayMs.Some? <==> job.status.InProgress? || job.status.JobCompleted? || job.status.JobFailed?)
  }

  ghost predicate JobsInv(q: Queue) {
    forall id | id in q.jobs :: JobFits(q, id)
  }

  /** Order: the handler was called for the popped ids, in put order, leaving out the cancelled ones. */
  ghost predicate StartsInv(q: Queue) {
    && IdsInv(q)
    && q.starts == WithoutCancelled(Decided(q), q.jobs)
  }

  ghost predicate Inv(q: Queue) {
    && IdsInv(q)
    && JobsInv(q)
    && StartsInv(q)
  }

  // ----- one step keeps the invariant -----

  lemma {:induction false} SameCancelled(ids: seq<string>, before: map<string, Job>, after: map<string, Job>)
    requires forall id | id in ids ::
      (id in before && before[id].status.Cancelled?) == (id in after && after[id].status.Cancelled?)
    ensures WithoutCancelled(ids, before) == WithoutCancelled(ids, after)
  {
    if ids != [] {
      assert ids == ids[..|ids| - 1] + [ids[|ids| - 1]];
      SameCancelled(ids[..|ids| - 1], before, after);
    }
  }

  lemma WithoutCancelledAppend(ids: seq<string>, id: string, jobs: map<string, Job>)
    ensures WithoutCancelled(ids + [id], jobs)
         == WithoutCancelled(ids, jobs) + if id in jobs && jobs[id].status.Cancelled? then [] else [id]
  {
    assert (ids + [id])[..|ids|] == ids;
  }

  lemma TakenApart(q: Queue)
    requires IdsInv(q)
    ensures forall id :: id in q.puts <==> id in Taken(q) || id in q.pending
    ensures forall id | id in Taken(q) :: id !in q.pending && id !in q.submitting
    ensures q.pending != [] ==> q.pending[0] !in q.pending[1..]
    ensures NoDuplicates(Taken(q))
  {
    var n := |Taken(q)|;
    forall id | id in Taken(q) ensures id !in q.pending {
      var i :| 0 <= i < n && Taken(q)[i] == id;
      forall j | 0 <= j < |q.pending| ensures q.pending[j] != id {
        assert q.pending[j] == q.puts[n + j] && id == q.puts[i];
      }
    }
    if q.pending != [] {
      forall j | 1 <= j < |q.pending| ensures q.pending[j] != q.pending[0] {
        assert q.pending[j] == q.puts[n + j] && q.pending[0] == q.puts[n];
      }
    }
  }

  /** The consumer's id was popped: it is registered and waits neither to be put nor to be popped. */
  lemma ConsumerFacts(q: Queue)
    requires IdsInv(q) && !q.consumer.Waiting?
    ensures var id := q.consumer.id;
      id in q.jobs && id in q.puts && id !in q.submitting && id !in q.pending
  {
    TakenApart(q);
    assert q.consumer.id in Taken(q);
  }

  lemma PendingFacts(q: Queue)
    requires IdsInv(q) && q.pending != []
    ensures var id := q.pending[0];
      && id in q.jobs && id in q.puts && id !in q.submitting && id !in q.pending[1..]
      && (q.consumer.Waiting? || q.consumer.id != id)
      && (forall x :: x in q.pending <==> x == id || x in q.pending[1..])
  {
    TakenApart(q);
    assert q.pending[0] in q.pending;
    assert q.pending == [q.pending[0]] + q.pending[1..];
    if !q.consumer.Waiting? { assert q.consumer.id in Taken(q); }
  }

  lemma NoDuplicatesAppend(s: seq<string>, id: string)
    requires NoDuplicates(s) && id !in s
    ensures NoDuplicates(s + [id])
  {}

  lemma PutTail(q: Queue, id: string)
    requires TailInv(q) && id in q.submitting
    ensures TailInv(Step(q, Put(id))) && Taken(Step(q, Put(id))) == Taken(q)
  {
    var n := |Taken(q)|;
    assert (q.puts + [id])[..n] == q.puts[..n];
    assert Taken(q) + (q.pending + [id]) == (Taken(q) + q.pending) + [id];
  }

  lemma PutKeys(q: Queue, id: string)
    requires KeysInv(q) && id in q.submitting
    ensures KeysInv(Step(q, Put(id)))
  {
    hide NoDuplicates;
    NoDuplicatesAppend(q.puts, id);
  }

  lemma PutIds(q: Queue, id: string)
    requires IdsInv(q) && id in q.submitting
    ensures IdsInv(Step(q, Put(id))) && Taken(Step(q, Put(id))) == Taken(q)
  {
    PutTail(q, id);
    PutKeys(q, id);
    hide KeysInv, Taken, Step;
  }

  lemma TakeIds(q: Queue)
    requires IdsInv(q) && Enabled(q, Take)
    ensures var t := Step(q, Take);
      IdsInv(t) && Taken(t) == Taken(q) + [q.pending[0]] && Decided(t) == Decided(q)
  {
    var t := Step(q, Take);
    assert q.puts == (Taken(q) + [q.pending[0]]) + q.pending[1..];
    assert Taken(t) == Taken(q) + [q.pending[0]];
  }

  /** Only a registration and a put concern the ids registered or put. */
  lemma SameKeys(q: Queue, t: Queue)
    requires KeysInv(q) && t.puts == q.puts && t.submitting == q.submitting && t.jobs.Keys == q.jobs.Keys
    ensures KeysInv(t)
  {
    hide NoDuplicates;
  }

  lemma SameTaken(q: Queue, t: Queue)
    requires |q.pending| <= |q.puts| && t.pending == q.pending && t.puts == q.puts
    ensures Taken(t) == Taken(q)
  {}

  /** What the consumer and a canceller leave alone. */
  lemma ConsumerFrame(q: Queue, a: Action)
    requires Enabled(q, a) && (a.Start? || a.Finish? || a.Crash? || a.TaskDone? || a.Cancel?)
    requires !q.consumer.Waiting? ==> q.consumer.id in q.jobs
    ensures var t := Step(q, a);
      && t.jobs.Keys == q.jobs.Keys
      && t.submitting == q.submitting && t.pending == q.pending && t.puts == q.puts && t.keyErrors == q.keyErrors
      && (a.TaskDone? ==> t.consumer.Waiting? && !q.consumer.Waiting? && t.unfinished == q.unfinished - 1)
      && (!a.TaskDone? ==> t.consumer.Waiting? == q.consumer.Waiting? && t.unfinished == q.unfinished)
      && (!t.consumer.Waiting? ==> !q.consumer.Waiting? && t.consumer.id == q.consumer.id)
  {}

  lemma ConsumerIds(q: Queue, a: Action)
    requires IdsInv(q) && Enabled(q, a) && (a.Start? || a.Finish? || a.Crash? || a.TaskDone? || a.Cancel?)
    ensures IdsInv(Step(q, a))
  {
    if !q.consumer.Waiting? { ConsumerFacts(q); }
    hide KeysInv, Taken, Step, Enabled;
    ConsumerFrame(q, a);
    SameTaken(q, Step(q, a));
    SameKeys(q, Step(q, a));
  }

  lemma StepIds(q: Queue, a: Action)
    requires IdsInv(q) && Enabled(q, a)
    ensures IdsInv(Step(q, a))
  {
    hide IdsInv, Step;
    match a
    case Register(id, _) => RegisterIds(q, a);
    case Put(id) => PutIds(q, id);
    case Take => TakeIds(q);
    case _ => ConsumerIds(q, a);
  }

  lemma RegisterIds(q: Queue, a: Action)
    requires IdsInv(q) && Enabled(q, a) && a.Register?
    ensures IdsInv(Step(q, a))
  {
    assert a.id !in q.puts;
  }

  /** The places an action needs to know before it moves a job. */
  lemma ActorsPlace(q: Queue, a: Action)
    requires IdsInv(q) && Enabled(q, a)
    ensures !q.consumer.Waiting? ==>
      && q.consumer.id in q.jobs
      && PlaceOf(q, q.consumer.id) ==
         match q.consumer
         case Holding(_) => Held
         case Running(_) => InHandler
         case _ => Settled
    ensures a.Put? ==> PlaceOf(q, a.id) == Submitting
    ensures a.Take? ==> PlaceOf(q, q.pending[0]) == Pending
  {
    if !q.consumer.Waiting? { ConsumerFacts(q); }
    if a.Take? { PendingFacts(q); }
    hide IdsInv;
  }

  /** The new record and the new place of a job fit, as far as the old ones did. */
  lemma MovedFits(q: Queue, a: Action, id: string)
    requires Enabled(q, a) && id in Step(q, a).jobs && PlaceOf(Step(q, a), id) == Moved(q, a, id)
    requires id in q.jobs ==> JobFits(q, id)
    requires a.Put? && a.id == id ==> PlaceOf(q, id) == Submitting
    requires a.Take? && q.pending[0] == id ==> PlaceOf(q, id) == Pending
    requires !q.consumer.Waiting? && q.consumer.id == id ==>
      id in q.jobs && PlaceOf(q, id) == match q.consumer
                                        case Holding(_) => Held
                                        case Running(_) => InHandler
                                        case _ => Settled
    ensures JobFits(Step(q, a), id)
  {
    hide PlaceOf;
  }

  lemma StepJob(q: Queue, a: Action, id: string)
    requires IdsInv(q) && JobsInv(q) && Enabled(q, a) && id in Step(q, a).jobs
    ensures JobFits(Step(q, a), id)
  {
    if id in q.jobs { assert JobFits(q, id); }
    hide IdsInv, JobsInv, PlaceOf, JobFits, Moved;
    ActorsPlace(q, a);
    StepPlace(q, a, id);
    MovedFits(q, a, id);
  }

  lemma StepJobs(q: Queue, a: Action)
    requires Inv(q) && Enabled(q, a)
    ensures JobsInv(Step(q, a))
  {
    hide Step, JobFits, WithoutCancelled, IdsInv;
    forall id | id in Step(q, a).jobs ensures JobFits(Step(q, a), id) {
      StepJob(q, a, id);
    }
  }

  /** Where a step takes a job. */
  function Moved(q: Queue, a: Action, id: string): Place
    requires Enabled(q, a) && id in Step(q, a).jobs
  {
    match a
    case Register(x, _) => if x == id then Submitting else PlaceOf(q, id)
    case Put(x) => if x == id then Pending else PlaceOf(q, id)
    case Cancel(_) => PlaceOf(q, id)
    case Take => if q.pending[0] == id then Held else PlaceOf(q, id)
    case Start(_) =>
      if q.consumer.id != id then PlaceOf(q, id)
      else if id in q.jobs && q.jobs[id].status.Cancelled? then Settled
      else InHandler
    case Finish(_, _) => if q.consumer.id == id then Settled else PlaceOf(q, id)
    case Crash(_) => if q.consumer.id == id then Settled else PlaceOf(q, id)
    case TaskDone => PlaceOf(q, id)
  }

  lemma StepPlace(q: Queue, a: Action, id: string)
    requires IdsInv(q) && Enabled(q, a) && id in Step(q, a).jobs
    ensures PlaceOf(Step(q, a), id) == Moved(q, a, id)
  {
    hide IdsInv;
    if a.Put? {
      assert id in (q.pending + [a.id]) <==> id in q.pending || id == a.id;
    } else if a.Take? {
      PendingFacts(q);
    } else if !q.consumer.Waiting? && !a.Register? && !a.Cancel? {
      ConsumerPlace(q, a, id);
    }
  }

  lemma ConsumerPlace(q: Queue, a: Action, id: string)
    requires IdsInv(q) && Enabled(q, a) && id in Step(q, a).jobs
    requires a.Start? || a.Finish? || a.Crash? || a.TaskDone?
    ensures PlaceOf(Step(q, a), id) == Moved(q, a, id)
  {
    hide IdsInv;
    ConsumerFacts(q);
  }

  lemma RegisterKeepsStarts(q: Queue, a: Action)
    requires Inv(q) && Enabled(q, a) && a.Register?
    ensures StartsInv(Step(q, a))
  {
    hide WithoutCancelled;
    StepIds(q, a);
    TakenApart(q);
    HeldNotDecided(q);
    SameCancelled(Decided(q), q.jobs, Step(q, a).jobs);
  }

  lemma MoveKeepsStarts(q: Queue, a: Action)
    requires Inv(q) && Enabled(q, a) && (a.Put? || a.Take? || a.TaskDone?)
    ensures StartsInv(Step(q, a))
  {
    hide WithoutCancelled, JobsInv, KeysInv;
    StepIds(q, a);
    match a
    case Put(id) => PutIds(q, id);
    case Take => TakeIds(q);
    case TaskDone => SameTaken(q, Step(q, a));
  }

  lemma StepStarts(q: Queue, a: Action)
    requires Inv(q) && Enabled(q, a)
    ensures StartsInv(Step(q, a))
  {
    hide WithoutCancelled, JobsInv, NoDuplicates, Taken, Decided;
    StepIds(q, a);
    if a.Put? || a.Take? || a.TaskDone? {
      MoveKeepsStarts(q, a);
    } else if a.Register? {
      RegisterKeepsStarts(q, a);
    } else if a.Start? {
      StartKeepsStarts(q, a);
    } else if a.Cancel? {
      CancelKeepsStarts(q, a.id);
    } else {
      FinishKeepsStarts(q, a);
    }
  }

  lemma CancelKeepsStarts(q: Queue, id: string)
    requires Inv(q)
    ensures StartsInv(Step(q, Cancel(id)))
  {
    hide WithoutCancelled, NoDuplicates;
    StepIds(q, Cancel(id));
    if id in q.jobs && q.jobs[id].status.InQueue? {
      assert JobFits(q, id);
      WaitingNotDecided(q, id);
      hide IdsInv, JobsInv, JobFits;
      SameCancelled(Decided(q), q.jobs, Step(q, Cancel(id)).jobs);
    }
  }

  lemma WaitingNotDecided(q: Queue, id: string)
    requires IdsInv(q) && Waits(PlaceOf(q, id))
    ensures id !in Decided(q)
  {
    TakenApart(q);
    HeldNotDecided(q);
  }

  lemma HeldNotDecided(q: Queue)
    requires IdsInv(q)
    ensures q.consumer.Holding? ==> q.consumer.id !in Decided(q)
    ensures forall x | x in Decided(q) :: x in Taken(q)
  {
    TakenApart(q);
  }

  lemma StartDecides(q: Queue, a: Action)
    requires IdsInv(q) && Enabled(q, a) && a.Start?
    ensures Taken(q) == Decided(q) + [q.consumer.id] && Decided(Step(q, a)) == Taken(q)
    ensures q.consumer.id in q.jobs && q.consumer.id !in Decided(q)
  {
    ConsumerFacts(q);
    HeldNotDecided(q);
  }

  lemma StartKeepsStarts(q: Queue, a: Action)
    requires Inv(q) && Enabled(q, a) && a.Start?
    ensures StartsInv(Step(q, a))
  {
    hide WithoutCancelled, JobsInv, Decided, Taken;
    StepIds(q, a);
    StartDecides(q, a);
    hide IdsInv;
    var t := Step(q, a);
    SameCancelled(Decided(q), q.jobs, t.jobs);
    WithoutCancelledAppend(Decided(q), q.consumer.id, t.jobs);
  }

  lemma FinishKeepsStarts(q: Queue, a: Action)
    requires Inv(q) && Enabled(q, a) && (a.Finish? || a.Crash?)
    ensures StartsInv(Step(q, a))
  {
    hide WithoutCancelled, KeysInv, Taken;
    StepIds(q, a);
    ActorsPlace(q, a);
    assert JobFits(q, q.consumer.id);
    hide JobsInv, JobFits, IdsInv, PlaceOf;
    SameCancelled(Taken(q), q.jobs, Step(q, a).jobs);
    assert Taken(Step(q, a)) == Taken(q) by { SameTaken(q, Step(q, a)); }
  }

  lemma StepKeepsInv(q: Queue, a: Action)
    requires Inv(q) && Enabled(q, a)
    ensures Inv(Step(q, a))
  {
    hide Step, IdsInv, JobsInv, StartsInv;
    StepIds(q, a);
    StepJobs(q, a);
    StepStarts(q, a);
  }

  // ----- whole runs -----

  /** The state after a run, if every action was enabled in turn. */
  function Execute(q: Queue, actions: seq<Action>): Option<Queue>
    decreases |actions|
  {
    if actions == [] then Some(q)
    else if Enabled(q, actions[0]) then Execute(Step(q, actions[0]), actions[1..])
    else None
  }

  lemma {:induction false} RunKeepsInv(q: Queue, actions: seq<Action>)
    requires Inv(q) && Execute(q, actions).Some?
    ensures Inv(Execute(q, actions).value)
    decreases |actions|
  {
    hide Step, Inv, Enabled;
    if actions != [] {
      StepKeepsInv(q, actions[0]);
      RunKeepsInv(Step(q, actions[0]), actions[1..]);
    }
  }

  lemma EmptyInv()
    ensures Inv(EMPTY)
  {}

  lemma {:induction false} WithoutCancelledMember(ids: seq<string>, jobs: map<string, Job>, id: string)
    ensures id in WithoutCancelled(ids, jobs) <==> id in ids && !(id in jobs && jobs[id].status.Cancelled?)
  {
    if ids != [] {
      WithoutCancelledMember(ids[..|ids| - 1], jobs, id);
      assert ids == ids[..|ids| - 1] + [ids[|ids| - 1]];
    }
  }

  lemma {:induction false} WithoutCancelledDistinct(ids: seq<string>, jobs: map<string, Job>)
    requires NoDuplicates(ids)
    ensures NoDuplicates(WithoutCancelled(ids, jobs))
  {
    if ids != [] {
      var n := |ids| - 1;
      WithoutCancelledDistinct(ids[..n], jobs);
      WithoutCancelledMember(ids[..n], jobs, ids[n]);
      assert ids[n] !in ids[..n];
    }
  }

  /** Under every interleaving: each job reaches the handler at most once and in put order, a cancelled job
      never does, at most one job is in progress and it is the consumer's, and no popped id is ever unknown. */
  lemma EveryRun(actions: seq<Action>)
    requires Execute(EMPTY, actions).Some?
    ensures var q := Execute(EMPTY, actions).value;
      && |q.pending| <= |q.puts|
      && (q.consumer.Holding? ==> Taken(q) != [])
      && q.starts == WithoutCancelled(Decided(q), q.jobs)
      && (q.pending == [] && !q.consumer.Holding? ==> q.starts == WithoutCancelled(q.puts, q.jobs))
      && NoDuplicates(q.starts)
      && (forall id | id in q.jobs && q.jobs[id].status.Cancelled? :: id !in q.starts)
      && (forall id | id in q.jobs && q.jobs[id].status.InProgress? :: q.consumer == Running(id))
      && q.keyErrors == 0
  {
    hide Execute, WithoutCancelled;
    EmptyInv();
    RunKeepsInv(EMPTY, actions);
    var q := Execute(EMPTY, actions).value;
    assert q.pending == [] ==> Taken(q) == q.puts;
    TakenApart(q);
    DecidedDistinct(q);
    WithoutCancelledDistinct(Decided(q), q.jobs);
    forall id | id in q.jobs && q.jobs[id].status.Cancelled? ensures id !in q.starts {
      WithoutCancelledMember(Decided(q), q.jobs, id);
    }
    forall id | id in q.jobs && q.jobs[id].status.InProgress? ensures q.consumer == Running(id) {
      assert JobFits(q, id);
    }
  }

  lemma DecidedDistinct(q: Queue)
    requires IdsInv(q)
    ensures NoDuplicates(Decided(q))
  {
    TakenApart(q);
  }

  /** A waiting job is registered-but-not-put, pending or held: in exactly one of the three. */
  lemma WaitingPlaces(actions: seq<Action>, id: string)
    requires Execute(EMPTY, actions).Some?
    requires id in Execute(EMPTY, actions).value.jobs
    requires Execute(EMPTY, actions).value.jobs[id].status.InQueue?
    ensures var q := Execute(EMPTY, actions).value;
      var registered, pending, held := id in q.submitting, id in q.pending, q.consumer == Holding(id);
      && (registered || pending || held)
      && !(registered && pending) && !(registered && held) && !(pending && held)
  {
    hide Execute, WithoutCancelled;
    EmptyInv();
    RunKeepsInv(EMPTY, actions);
    var q := Execute(EMPTY, actions).value;
    assert JobFits(q, id);
    TakenApart(q);
    if !q.consumer.Waiting? { ConsumerFacts(q); }
    if id in q.pending { assert id in q.puts; }
  }

  /** `task_done` is owed for the pending jobs and the one in hand, and an output is there exactly for the jobs
      that completed or failed. */
  lemma Accounting(actions: seq<Action>)
    requires Execute(EMPTY, actions).Some?
    ensures var q := Execute(EMPTY, actions).value;
      && q.unfinished == |q.pending| + (if q.consumer.Waiting? then 0 else 1)
      && forall id | id in q.jobs ::
           (q.jobs[id].output.Some? <==> q.jobs[id].status.JobCompleted? || q.jobs[id].status.JobFailed?)
  {
    hide Execute, WithoutCancelled;
    EmptyInv();
    RunKeepsInv(EMPTY, actions);
    var q := Execute(EMPTY, actions).value;
    forall id | id in q.jobs
      ensures q.jobs[id].output.Some? <==> q.jobs[id].status.JobCompleted? || q.jobs[id].status.JobFailed?
    {
      assert JobFits(q, id);
    }
  }

  lemma StepKeepsTerminal(q: Queue, a: Action, id: string)
    requires Inv(q) && Enabled(q, a) && id in q.jobs && Terminal(q.jobs[id].status)
    ensures id in Step(q, a).jobs && Step(q, a).jobs[id] == q.jobs[id]
  {
    FieldsFit(q, id);
    if !q.consumer.Waiting? { FieldsFit(q, q.consumer.id); }
    hide Inv, WithoutCancelled;
    if a.Start? || a.Finish? || a.Crash? {
      assert q.consumer.id == id ==> a.Start? && q.jobs[id].status == Cancelled;
    }
  }

  /** A job that has completed, failed or been cancelled never changes again, in any continuation. */
  lemma {:induction false} TerminalForever(q: Queue, actions: seq<Action>, id: string)
    requires Inv(q) && Execute(q, actions).Some? && id in q.jobs && Terminal(q.jobs[id].status)
    ensures id in Execute(q, actions).value.jobs && Execute(q, actions).value.jobs[id] == q.jobs[id]
    decreases |actions|
  {
    hide Step, Inv, Enabled;
    if actions != [] {
      StepKeepsInv(q, actions[0]);
      StepKeepsTerminal(q, actions[0], id);
      TerminalForever(Step(q, actions[0]), actions[1..], id);
    }
  }

  /** A cancel takes effect exactly on a waiting job; from then on no continuation ever hands the job to the
      handler. */
  lemma CancelIsFinal(q: Queue, id: string, actions: seq<Action>)
    requires Inv(q) && id in q.jobs && q.jobs[id].status.InQueue?
    requires Execute(Step(q, Cancel(id)), actions).Some?
    ensures var t := Execute(Step(q, Cancel(id)), actions).value;
      id in t.jobs && t.jobs[id].status.Cancelled? && id !in t.starts
  {
    hide Execute, WithoutCancelled, Decided;
    var cancelled := Step(q, Cancel(id));
    StepKeepsInv(q, Cancel(id));
    TerminalForever(cancelled, actions, id);
    RunKeepsInv(cancelled, actions);
    var t := Execute(cancelled, actions).value;
    WithoutCancelledMember(Decided(t), t.jobs, id);
  }

  // ----- the history of a job -----

  /** What can happen to a job, and what it then shows. */
  datatype Event =
    | Accepts(request: string)
    | Starts(delayMs: nat)
    | Completes(output: string, executionMs: nat)
    | Fails(output: string)
    | IsCancelled

  predicate Shows(q: Queue, id: string, e: Event) {
    && id in q.jobs
    && var job := q.jobs[id];
       match e
       case Accepts(request) => job.request == request
       case Starts(delayMs) => job.delayMs == Some(delayMs)
       case Completes(output, ms) =>
         job.status == JobCompleted && job.output == Some(output) && job.executionMs == Some(ms)
       case Fails(output) => job.status == JobFailed && job.output == Some(output) && job.executionMs == None
       case IsCancelled => job.status == Cancelled && job.output == None && job.executionMs == None
  }

  /** The action brings it about: the handler is called for a job that was not cancelled, it returns or raises for the
      job it was called for, or a cancel meets a job that is still queued. */
  predicate Causes(q: Queue, a: Action, id: string, e: Event) {
    match e
    case Accepts(request) => a == Register(id, request)
    case Starts(delayMs) =>
      a == Start(delayMs) && q.consumer == Holding(id) && id in q.jobs && q.jobs[id].status != Cancelled
    case Completes(output, ms) => a == Finish(output, ms) && q.consumer == Running(id)
    case Fails(output) => a == Crash(output) && q.consumer == Running(id)
    case IsCancelled => a == Cancel(id) && id in q.jobs && q.jobs[id].status == InQueue
  }

  /** The fields of a job by its status, and the status of the consumer's job. */
  lemma FieldsFit(q: Queue, id: string)
    requires Inv(q) && (id in q.jobs || (!q.consumer.Waiting? && q.consumer.id == id))
    ensures Fields(q, id)
  {
    hide StartsInv;
    if id !in q.jobs { ConsumerFacts(q); }
    assert JobFits(q, id);
    ActorsPlace(q, Cancel(id));
    hide IdsInv, JobsInv;
  }

  predicate Fields(q: Queue, id: string) {
    && id in q.jobs
    && var job := q.jobs[id];
      && (job.status == InProgress <==> q.consumer == Running(id))
      && (q.consumer == Holding(id) ==> job.status == InQueue || job.status == Cancelled)
      && (job.output == None <==> !(job.status == JobCompleted || job.status == JobFailed))
      && (job.executionMs == None <==> job.status != JobCompleted)
      && (job.delayMs == None <==> job.status == InQueue || job.status == Cancelled)
  }

  /** A step makes a job show just what it brings about, besides what the job showed before. */
  lemma StepShows(q: Queue, a: Action, id: string, e: Event)
    requires Inv(q) && Enabled(q, a)
    ensures Shows(Step(q, a), id, e) <==> Shows(q, id, e) || Causes(q, a, id, e)
  {
    if id in q.jobs { FieldsFit(q, id); }
    if !q.consumer.Waiting? { FieldsFit(q, q.consumer.id); }
    hide Inv, Shows, Causes, Fields, Step;
    if a.Start? || a.Finish? || a.Crash? { ConsumerShows(q, a, id, e); } else { OtherShows(q, a, id, e); }
  }

  lemma ConsumerShows(q: Queue, a: Action, id: string, e: Event)
    requires Enabled(q, a) && (a.Start? || a.Finish? || a.Crash?) && Fields(q, q.consumer.id)
    requires id in q.jobs ==> Fields(q, id)
    ensures Shows(Step(q, a), id, e) <==> Shows(q, id, e) || Causes(q, a, id, e)
  {
    if id != q.consumer.id {
      assert id in Step(q, a).jobs <==> id in q.jobs;
      assert id in q.jobs ==> Step(q, a).jobs[id] == q.jobs[id];
      hide Step;
    }
  }

  lemma OtherShows(q: Queue, a: Action, id: string, e: Event)
    requires Enabled(q, a) && !(a.Start? || a.Finish? || a.Crash?)
    requires id in q.jobs ==> Fields(q, id)
    ensures Shows(Step(q, a), id, e) <==> Shows(q, id, e) || Causes(q, a, id, e)
  {}

  ghost predicate HappensAt(actions: seq<Action>, k: nat, id: string, e: Event)
    requires k < |actions|
  {
    Execute(EMPTY, actions[..k]).Some? && Causes(Execute(EMPTY, actions[..k]).value, actions[k], id, e)
  }

  lemma {:induction false} ExecuteAppend(q: Queue, actions: seq<Action>, a: Action)
    ensures Execute(q, actions + [a])
         == if Execute(q, actions).Some? && Enabled(Execute(q, actions).value, a)
            then Some(Step(Execute(q, actions).value, a)) else None
    decreases |actions|
  {
    hide Enabled, Step;
    if actions == [] {
      assert [a][1..] == [];
    } else {
      assert (actions + [a])[1..] == actions[1..] + [a];
      if Enabled(q, actions[0]) { ExecuteAppend(Step(q, actions[0]), actions[1..], a); }
    }
  }

  /** What a job shows after a run is what has happened to it: it is completed with an output and a time exactly when
      the handler returned them for this job, failed with an output and no time exactly when the handler raised,
      cancelled exactly when a cancel met it in the queue, and its request and its delay are those it was registered
      and started with. */
  lemma {:induction false} JobHistory(actions: seq<Action>, id: string, e: Event)
    requires Execute(EMPTY, actions).Some?
    ensures Shows(Execute(EMPTY, actions).value, id, e)
       <==> exists k: nat :: k < |actions| && HappensAt(actions, k, id, e)
    decreases |actions|
  {
    hide Inv, Shows, Causes, Enabled, Step, Execute;
    if actions == [] {
      NothingShown(id, e);
    } else {
      var n := |actions| - 1;
      var before := actions[..n];
      assert actions == before + [actions[n]];
      ExecuteAppend(EMPTY, before, actions[n]);
      var q := Execute(EMPTY, before).value;
      EmptyInv();
      RunKeepsInv(EMPTY, before);
      StepShows(q, actions[n], id, e);
      JobHistory(before, id, e);
      assert actions[..n] == before;
      assert HappensAt(actions, n, id, e) <==> Causes(q, actions[n], id, e);
      forall k: nat | k < n ensures HappensAt(actions, k, id, e) <==> HappensAt(before, k, id, e) {
        assert actions[..k] == before[..k];
      }
    }
  }

  lemma NothingShown(id: string, e: Event)
    ensures Execute(EMPTY, []) == Some(EMPTY) && !Shows(EMPTY, id, e)
  {}

  /** Which of these a job shows is settled by its status. */
  lemma StatusShows(actions: seq<Action>, id: string)
    requires Execute(EMPTY, actions).Some?
    ensures var q := Execute(EMPTY, actions).value;
      id in q.jobs ==>
        && Shows(q, id, Accepts(q.jobs[id].request))
        && (match q.jobs[id].status
            case InQueue => q.jobs[id].output == None && q.jobs[id].executionMs == None && q.jobs[id].delayMs == None
            case InProgress =>
              q.consumer == Running(id) && q.jobs[id].output == None && q.jobs[id].executionMs == None
            case JobCompleted => exists o, ms :: Shows(q, id, Completes(o, ms))
            case JobFailed => exists o :: Shows(q, id, Fails(o))
            case Cancelled => Shows(q, id, IsCancelled) && q.jobs[id].delayMs == None)
  {
    hide Execute, WithoutCancelled;
    EmptyInv();
    RunKeepsInv(EMPTY, actions);
    var q := Execute(EMPTY, actions).value;
    if id in q.jobs {
      FieldsFit(q, id);
      hide Inv;
      var job := q.jobs[id];
      if job.status.JobCompleted? { assert Shows(q, id, Completes(job.output.value, job.executionMs.value)); }
      if job.status.JobFailed? { assert Shows(q, id, Fails(job.output.value)); }
    }
  }

  // ----- progress -----

  /** Steps still owed to the jobs already registered. */
  function Owed(q: Queue): nat {
    5 * |q.submitting| + 4 * |q.pending|
    + match q.consumer
      case Waiting => 0
      case Holding(_) => 3
      case Running(_) => 2
      case Finishing(_) => 1
  }

  predicate Serves(a: Action) {
    !a.Register? && !a.Cancel?
  }

  lemma ServeShrinks(q: Queue, a: Action)
    requires Enabled(q, a) && Serves(a)
    ensures Owed(Step(q, a)) < Owed(q)
  {}

  lemma SomethingServes(q: Queue) returns (a: Action)
    requires Inv(q) && Owed(q) > 0
    ensures Enabled(q, a) && Serves(a)
  {
    hide JobsInv, IdsInv, StartsInv;
    match q.consumer
    case Waiting =>
      if q.pending != [] {
        a := Take;
      } else {
        var id :| id in q.submitting;
        a := Put(id);
      }
    case Holding(_) => a := Start(0);
    case Running(_) => ConsumerFacts(q); a := Crash("");
    case Finishing(_) => a := TaskDone;
  }

  lemma NothingOwed(q: Queue)
    requires Inv(q) && Owed(q) == 0
    ensures forall id | id in q.jobs :: Terminal(q.jobs[id].status)
  {
    hide IdsInv, StartsInv;
    assert q.submitting == {} && q.pending == [] && q.consumer.Waiting?;
    forall id | id in q.jobs ensures Terminal(q.jobs[id].status) { assert JobFits(q, id); }
  }

  /** Every action but a submission or a cancel brings the end nearer and a cancel never puts it off; as long
      as anything is owed some such action is enabled; and when nothing is owed every job is terminal. */
  lemma Progress(q: Queue)
    requires Inv(q)
    ensures forall a | Enabled(q, a) && Serves(a) :: Owed(Step(q, a)) < Owed(q)
    ensures forall id :: Owed(Step(q, Cancel(id))) == Owed(q)
    ensures Owed(q) > 0 ==> exists a :: Enabled(q, a) && Serves(a)
    ensures Owed(q) == 0 ==> forall id | id in q.jobs :: Terminal(q.jobs[id].status)
  {
    hide Inv, Owed, Step;
    forall a | Enabled(q, a) && Serves(a) ensures Owed(Step(q, a)) < Owed(q) { ServeShrinks(q, a); }
    forall id ensures Owed(Step(q, Cancel(id))) == Owed(q) { CancelOwes(q, id); }
    if Owed(q) > 0 {
      var a := SomethingServes(q);
    } else {
      NothingOwed(q);
    }
  }

  lemma CancelOwes(q: Queue, id: string)
    ensures Enabled(q, Cancel(id)) && Owed(Step(q, Cancel(id))) == Owed(q)
  {}

  /** Without new submissions a run makes at most `Owed` serving steps, and one after which no serving step is possible
      has driven every job to a terminal status. */
  lemma {:induction false} ServedOut(q: Queue, actions: seq<Action>)
    requires Inv(q) && Execute(q, actions).Some?
    requires forall a | a in actions :: !a.Register?
    ensures |Serving(actions)| + Owed(Execute(q, actions).value) <= Owed(q)
    ensures (forall a | Enabled(Execute(q, actions).value, a) :: !Serves(a)) ==>
      forall id | id in Execute(q, actions).value.jobs :: Terminal(Execute(q, actions).value.jobs[id].status)
    decreases |actions|
  {
    hide Inv, Owed, Enabled, Step;
    if actions != [] {
      var a := actions[0];
      StepKeepsInv(q, a);
      ServedOut(Step(q, a), actions[1..]);
      if Serves(a) { ServeShrinks(q, a); } else { CancelOwes(q, a.id); }
    }
    RunKeepsInv(q, actions);
    Progress(Execute(q, actions).value);
  }

  function Serving(actions: seq<Action>): seq<Action> {
    if actions == [] then []
    else (if Serves(actions[0]) then [actions[0]] else []) + Serving(actions[1..])
  }
}
