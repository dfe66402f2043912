/** `PodJobQueue` over real job objects. Each method is one indivisible step of the machine in `PodQueue`;
    since `Valid` holds the machine's invariant, the consumer's look-up of a popped id is proved safe. */
module PodServer {
  import opened Prelude
  import opened PodQueue

  class PodJob {
    const jobId: string
    const request: string
    var status: JobStatus
    var output: Option<string>
    var executionMs: Option<nat>
    var delayMs: Option<nat>

    constructor (jobId: string, request: string)
      ensures this.jobId == jobId && this.request == request
      ensures Value() == Job(request, InQueue, None, None, None)
    {
      this.jobId, this.request, status := jobId, request, InQueue;
      output, executionMs, delayMs := None, None, None;
    }

    ghost function Value(): Job
      reads this
    {
      Job(request, status, output, executionMs, delayMs)
    }
  }

  class PodJobQueue {
    var jobs: map<string, PodJob>
    var pending: seq<string>
    var unfinished: int
    var consumer: Consumer
    ghost var submitting: set<string>
    ghost var puts: seq<string>
    ghost var starts: seq<string>

    ghost function View(): Queue
      reads this, jobs.Values
    {
      Queue(map id | id in jobs :: jobs[id].Value(), submitting, pending, consumer, unfinished, puts, starts, 0)
    }

    /** Every job but this one shows what it showed before. */
    ghost predicate OthersAsIn(before: map<string, Job>, id: string)
      reads this, jobs.Values
    {
      jobs.Keys == before.Keys && forall x | x in jobs && x != id :: jobs[x].Value() == before[x]
    }

    /** The queue is where the machine's step leads from `before`. */
    ghost predicate Reached(before: Queue, a: Action)
      reads this, jobs.Values
    {
      Enabled(before, a) && View() == Step(before, a)
    }

    ghost predicate Valid()
      reads this, jobs.Values
    {
      && (forall a, b | a in jobs && b in jobs && a != b :: jobs[a] != jobs[b])
      && Inv(View())
    }

    constructor ()
      ensures Valid() && View() == EMPTY && jobs == map[]
    {
      jobs, pending, unfinished, consumer := map[], [], 0, Waiting;
      submitting, puts, starts := {}, [], [];
      new;
      assert View() == EMPTY;
      EmptyInv();
    }

    /** The locked half of `submit`: a job under a fresh id. */
    method Register(id: string, request: string) returns (job: PodJob)
      requires Valid() && id !in jobs
      modifies this
      ensures Valid() && fresh(job) && jobs == old(jobs)[id := job]
      ensures Reached(old(View()), Action.Register(id, request))
      ensures job.jobId == id && job.Value() == Job(request, InQueue, None, None, None)
      ensures forall x | x in old(jobs) :: jobs[x].Value() == old(jobs[x].Value())
    {
      hide Inv;
      ghost var before := View();
      job := new PodJob(id, request);
      jobs := jobs[id := job];
      submitting := submitting + {id};
      assert Reached(before, Action.Register(id, request));
      StepKeepsInv(before, Action.Register(id, request));
    }

    /** The other half: handing the id to the consumer. */
    method Put(id: string)
      requires Valid() && id in submitting
      modifies this
      ensures Valid() && jobs == old(jobs)
      ensures Reached(old(View()), Action.Put(id))
    {
      hide Inv;
      ghost var before := View();
      StepKeepsInv(before, Action.Put(id));
      pending := pending + [id];
      unfinished := unfinished + 1;
      submitting := submitting - {id};
      puts := puts + [id];
      assert Reached(before, Action.Put(id));
    }

    /** The job the machine has under an id: the very object a submission returned and the consumer works on, so what
        it shows is the machine's status, output and times. */
    method Get(id: string) returns (job: PodJob?)
      requires Valid()
      ensures job != null <==> id in View().jobs
      ensures job != null ==> job in jobs.Values && jobs[id] == job && job.Value() == View().jobs[id]
    {
      job := if id in jobs then jobs[id] else null;
    }

    method Cancel(id: string) returns (job: PodJob?)
      requires Valid()
      modifies jobs.Values
      ensures Valid() && job == if id in jobs then jobs[id] else null
      ensures Reached(old(View()), Action.Cancel(id))
      ensures OthersAsIn(old(View().jobs), id)
      ensures job != null ==>
        && job.status == (if old(id in jobs && jobs[id].status == InQueue) then Cancelled else old(jobs[id].status))
        && job.output == old(jobs[id].output) && job.executionMs == old(jobs[id].executionMs)
        && job.delayMs == old(jobs[id].delayMs)
    {
      hide Inv;
      ghost var before := View();
      StepKeepsInv(before, Action.Cancel(id));
      job := if id in jobs then jobs[id] else null;
      if job != null && job.status == InQueue {
        assert job in jobs.Values;
        job.status := Cancelled;
      }
      assert Reached(before, Action.Cancel(id));
    }

    /** `pending.get()`: the consumer takes the oldest id. */
    method Take()
      requires Valid() && consumer.Waiting? && pending != []
      modifies this
      ensures Valid() && jobs == old(jobs)
      ensures Reached(old(View()), Action.Take)
    {
      hide Inv;
      ghost var before := View();
      StepKeepsInv(before, Action.Take);
      consumer := Holding(pending[0]);
      pending := pending[1..];
      assert Reached(before, Action.Take);
    }

    /** The first locked section of the consumer: true when the handler is to be called with the job's request. */
    method Start(delayMs: nat) returns (run: bool, request: string)
      requires Valid() && consumer.Holding?
      modifies this, jobs.Values
      ensures Valid() && jobs == old(jobs)
      ensures Reached(old(View()), Action.Start(delayMs))
      ensures run ==>
        && starts == old(starts) + [old(consumer.id)] && consumer == Running(old(consumer.id))
        && old(consumer.id) in jobs && request == jobs[old(consumer.id)].request
      ensures OthersAsIn(old(View().jobs), old(consumer.id))
      ensures run ==>
        var job := jobs[old(consumer.id)];
        job.Value() == Job(request, InProgress, None, None, Some(delayMs)) && old(job.status) == InQueue
      ensures !run ==> jobs[old(consumer.id)].Value() == old(jobs[consumer.id].Value())
      ensures !run ==> starts == old(starts) && old(consumer.id) in jobs && jobs[old(consumer.id)].status == Cancelled
    {
      ghost var before := View();
      hide JobsInv, StartsInv;
      FieldsFit(before, consumer.id);
      StepKeepsInv(before, Action.Start(delayMs));
      hide Inv, IdsInv;
      var id := consumer.id;
      var job := jobs[id];
      assert job in jobs.Values;
      request := "";
      if job.status == Cancelled {
        run := false;
        consumer := Finishing(id);
        assert View().jobs == before.jobs;
      } else {
        run := true;
        job.status := InProgress;
        job.delayMs := Some(delayMs);
        request := job.request;
        consumer := Running(id);
        starts := starts + [id];
        assert View().jobs == before.jobs[id := before.jobs[id].(status := InProgress, delayMs := Some(delayMs))];
      }
      assert Reached(before, Action.Start(delayMs));
    }

    /** The second locked section: the handler returned. */
    method Finish(result: string, elapsedMs: nat)
      requires Valid() && consumer.Running?
      modifies this, jobs.Values
      ensures Valid() && jobs == old(jobs)
      ensures Reached(old(View()), Action.Finish(result, elapsedMs))
      ensures consumer == Finishing(old(consumer.id)) && consumer.id in jobs
      ensures var job := jobs[consumer.id];
        job.Value() == Job(job.request, JobCompleted, Some(result), Some(elapsedMs), old(job.delayMs))
      ensures OthersAsIn(old(View().jobs), consumer.id)
    {
      ghost var before := View();
      hide JobsInv, StartsInv;
      FieldsFit(before, consumer.id);
      StepKeepsInv(before, Action.Finish(result, elapsedMs));
      hide Inv, IdsInv;
      var job := jobs[consumer.id];
      assert job in jobs.Values;
      job.output := Some(result);
      job.executionMs := Some(elapsedMs);
      job.status := JobCompleted;
      consumer := Finishing(consumer.id);
      assert Reached(before, Action.Finish(result, elapsedMs));
    }

    /** The last-resort handler: the job handler raised. */
    method Crash(result: string)
      requires Valid() && consumer.Running?
      modifies this, jobs.Values
      ensures Valid() && jobs == old(jobs)
      ensures Reached(old(View()), Action.Crash(result))
      ensures consumer == Finishing(old(consumer.id)) && consumer.id in jobs
      ensures var job := jobs[consumer.id];
        job.Value() == Job(job.request, JobFailed, Some(result), None, old(job.delayMs))
      ensures OthersAsIn(old(View().jobs), consumer.id)
    {
      ghost var before := View();
      hide JobsInv, StartsInv;
      FieldsFit(before, consumer.id);
      StepKeepsInv(before, Action.Crash(result));
      hide Inv, IdsInv;
      var job := jobs[consumer.id];
      assert job in jobs.Values;
      job.output := Some(result);
      job.status := JobFailed;
      consumer := Finishing(consumer.id);
      assert Reached(before, Action.Crash(result));
    }

    /** The `finally` of the consumer's loop. */
    method Finalize()
      requires Valid() && consumer.Finishing?
      modifies this
      ensures Valid() && jobs == old(jobs)
      ensures Reached(old(View()), Action.TaskDone)
    {
      hide Inv;
      ghost var before := View();
      StepKeepsInv(before, Action.TaskDone);
      unfinished := unfinished - 1;
      consumer := Waiting;
      assert Reached(before, Action.TaskDone);
    }
  }
}
