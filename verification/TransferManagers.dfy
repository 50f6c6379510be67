/** The queue as the source writes it: a class whose methods are the regions under the mutex and the emits between
    them, each carrying out one step of the machine in `TransferQueue`. */
module TransferManagers {

  import opened StorageTypes
  import opened StorageErrors
  import opened TransferQueue

  class JobObject {
    const id: nat
    const req: Request
    var cancelled: bool

    constructor (id: nat, req: Request)
      ensures this.id == id && this.req == req && !cancelled
    {
      this.id := id;
      this.req := req;
      cancelled := false;
    }

    function Value(): Job {
      Job(id, req)
    }
  }

  function Index(lane: Lane): nat {
    if lane == ControlLane then 0 else 1
  }

  /** The queue holds these jobs, in this order. */
  ghost predicate Holds(queue: seq<JobObject>, jobs: seq<Job>) {
    |queue| == |jobs| && forall k :: 0 <= k < |queue| ==> queue[k].Value() == jobs[k]
  }

  lemma HoldsMore(queue: seq<JobObject>, jobs: seq<Job>, job: JobObject)
    requires Holds(queue, jobs)
    ensures Holds(queue + [job], jobs + [job.Value()])
  {
  }

  lemma HoldsRest(queue: seq<JobObject>, jobs: seq<Job>)
    requires Holds(queue, jobs) && queue != []
    ensures Holds(queue[1..], jobs[1..]) && queue[0].Value() == jobs[0]
  {
  }

  ghost predicate IsActive(slot: JobObject?, job: Option<Job>) {
    match job
    case None => slot == null
    case Some(j) => slot != null && slot.Value() == j
  }

  class TransferManager {
    const queue: array<seq<JobObject>>
    const active: array<JobObject?>
    var started: bool
    var stopping: bool
    var nextId: nat
    var posted: seq<Event>

    /** Every job made so far, and the machine's state this object stands for. */
    ghost var made: set<JobObject>
    ghost var world: State

    /** The fields stand for the machine's state, and every job object has an id of its own. */
    ghost predicate Structure()
      reads this, queue, active
    {
      && queue.Length == 2 && active.Length == 2
      && started == world.started && stopping == world.stopping && nextId == world.nextId && posted == world.events
      && (forall lane: Lane ::
            && Holds(queue[Index(lane)], At(world, lane).queue)
            && IsActive(active[Index(lane)], Active(At(world, lane).worker))
            && (forall j :: j in queue[Index(lane)] ==> j in made)
            && (active[Index(lane)] != null ==> active[Index(lane)] in made))
      && nextId >= 1
      && (!started ==> world.control.worker.NotStarted? && world.data.worker.NotStarted?)
      && (forall j :: j in made ==> j.id < nextId)
      && (forall i, j :: i in made && j in made && i.id == j.id ==> i == j)
    }

    ghost predicate FlagsAgree()
      reads this, made
    {
      && (forall j :: j in made ==> (j.cancelled <==> j.id in world.cancelled))
      && (forall id :: id in world.cancelled ==> id < nextId)
    }

    ghost predicate Valid()
      reads this, queue, active, made
    {
      Structure() && FlagsAgree()
    }

    constructor ()
      ensures Valid() && world == EMPTY && fresh(queue) && fresh(active) && fresh(made)
    {
      queue := new seq<JobObject>[2](_ => []);
      active := new JobObject?[2](_ => null);
      started, stopping, nextId, posted := false, false, 1, [];
      made, world := {}, EMPTY;
    }

    method Start()
      requires Valid()
      modifies this
      ensures Valid() && made == old(made) && world == StartStep(old(world))
    {
      world := StartStep(world);
      if started || stopping {
        return;
      }
      started := true;
    }

    /** A new job object with the next id at the end of its lane. */
    method PushJob(req: Request)
      requires Valid() && !stopping
      modifies this, queue
      ensures Valid() && made >= old(made) && fresh(made - old(made)) && world == EnqueueStep(old(world), req)
    {
      var job := new JobObject(nextId, req);
      var lane := LaneFor(req.op);
      HoldsMore(queue[Index(lane)], At(world, lane).queue, job);
      nextId := nextId + 1;
      made := made + {job};
      world := EnqueueStep(world, req);
      queue[Index(lane)] := queue[Index(lane)] + [job];
    }

    /** The region of `Enqueue` under the mutex. */
    method Enqueue(req: Request) returns (id: nat)
      requires Valid()
      modifies this, queue
      ensures Valid() && made >= old(made) && fresh(made - old(made))
      ensures id == EnqueueResult(old(world)) && world == EnqueueStep(old(world), req)
    {
      if stopping {
        return 0;
      }
      id := nextId;
      PushJob(req);
    }

    /** The Pending event, after the mutex is released. */
    method AnnounceQueued(job: Job)
      requires Valid() && job in world.unannounced
      modifies this
      ensures Valid() && made == old(made) && world == Apply(old(world), AnnouncePending(job))
    {
      world := Apply(world, AnnouncePending(job));
      posted := posted + [Pending(job)];
    }

    /** Whether the job's flag is among those `Cancel` and `Shutdown` can reach in this lane. */
    lemma ReachableMeansPresent(lane: Lane, j: JobObject)
      requires Structure() && j in made
      ensures j.id in Reachable(At(world, lane)) <==> j in queue[Index(lane)] || active[Index(lane)] == j
    {
      var l, q := At(world, lane), queue[Index(lane)];
      if j.id in Ids(l.queue) {
        var v :| v in l.queue && v.id == j.id;
        var k :| 0 <= k < |l.queue| && l.queue[k] == v;
        assert q[k] in made && q[k].id == j.id;
      }
      if j in q {
        var k :| 0 <= k < |q| && q[k] == j;
        assert l.queue[k] == j.Value();
      }
    }

    /** One turn of the loop over lanes in `Shutdown`: queued jobs and the active one get their flag. */
    method FlagLane(lane: Lane)
      requires Structure()
      modifies made
      ensures forall j :: j in made ==> (j.cancelled <==> old(j.cancelled) || j.id in Reachable(At(world, lane)))
    {
      forall j | j in made ensures j.id in Reachable(At(world, lane)) <==> j in queue[Index(lane)] || active[Index(lane)] == j {
        ReachableMeansPresent(lane, j);
      }
      var q, k := queue[Index(lane)], 0;
      while k < |q|
        invariant 0 <= k <= |q|
        invariant forall j :: j in made ==> (j.cancelled <==> old(j.cancelled) || j in q[..k])
      {
        q[k].cancelled := true;
        k := k + 1;
      }
      if active[Index(lane)] != null {
        active[Index(lane)].cancelled := true;
      }
    }

    /** One turn of the loop over lanes in `Cancel`. */
    method FlagMatching(lane: Lane, id: nat)
      requires Structure()
      modifies made
      ensures forall j :: j in made ==>
                (j.cancelled <==> old(j.cancelled) || (j.id == id && id in Reachable(At(world, lane))))
    {
      forall j | j in made ensures j.id in Reachable(At(world, lane)) <==> j in queue[Index(lane)] || active[Index(lane)] == j {
        ReachableMeansPresent(lane, j);
      }
      var q, k := queue[Index(lane)], 0;
      while k < |q|
        invariant 0 <= k <= |q|
        invariant forall j :: j in made ==> (j.cancelled <==> old(j.cancelled) || (j in q[..k] && j.id == id))
      {
        if q[k].id == id {
          q[k].cancelled := true;
        }
        k := k + 1;
      }
      if active[Index(lane)] != null && active[Index(lane)].id == id {
        active[Index(lane)].cancelled := true;
      }
    }

    lemma ReachableIdsAreIssued(lane: Lane, id: nat)
      requires Structure() && id in Reachable(At(world, lane))
      ensures id < nextId
    {
      var l := At(world, lane);
      if id in Ids(l.queue) {
        var v :| v in l.queue && v.id == id;
        var k :| 0 <= k < |l.queue| && l.queue[k] == v;
        assert queue[Index(lane)][k] in made;
      }
    }

    lemma AllReachableAreIssued()
      requires Structure()
      ensures forall id :: id in Reachable(world.control) + Reachable(world.data) ==> id < nextId
    {
      assert At(world, ControlLane) == world.control && At(world, DataLane) == world.data;
      forall id | id in Reachable(world.control) + Reachable(world.data) ensures id < nextId {
        if id in Reachable(world.control) {
          ReachableIdsAreIssued(ControlLane, id);
        } else {
          ReachableIdsAreIssued(DataLane, id);
        }
      }
    }

    /** The flags of the job objects are those of the machine. */
    ghost method TakeFlags(flags: set<nat>)
      requires Structure() && (forall j :: j in made ==> (j.cancelled <==> j.id in flags))
      requires forall id :: id in flags ==> id < nextId
      modifies `world
      ensures Valid() && world == old(world).(cancelled := flags)
    {
      world := world.(cancelled := flags);
      assert forall lane: Lane :: At(world, lane) == At(old(world), lane);
    }

    /** The region of `Shutdown` under the mutex; the caller then joins the workers unless it returned at once. */
    method RequestShutdown() returns (effective: bool)
      requires Valid()
      modifies this, made
      ensures Valid() && made == old(made) && world == ShutdownStep(old(world))
      ensures effective <==> old(started) && !old(stopping)
    {
      if !started || stopping {
        stopping := true;
        world := ShutdownStep(world);
        return false;
      }
      AllReachableAreIssued();
      FlagLane(ControlLane);
      FlagLane(DataLane);
      TakeFlags(world.cancelled + Reachable(world.control) + Reachable(world.data));
      stopping := true;
      world := world.(stopping := true, joining := true);
      return true;
    }

    method Cancel(id: nat)
      requires Valid()
      modifies this, made
      ensures Valid() && made == old(made) && world == CancelStep(old(world), id)
    {
      ghost var hit := if id in Reachable(world.control) + Reachable(world.data) then {id} else {};
      AllReachableAreIssued();
      FlagMatching(ControlLane, id);
      FlagMatching(DataLane, id);
      TakeFlags(world.cancelled + hit);
    }

    method HasActiveWork() returns (busy: bool)
      requires Valid()
      ensures busy <==> exists lane: Lane :: At(world, lane).queue != [] || Active(At(world, lane).worker) != None
    {
      busy := queue[0] != [] || queue[1] != [] || active[0] != null || active[1] != null;
      assert Index(ControlLane) == 0 && Index(DataLane) == 1;
    }

    // ------------------------------------------------------------ a worker's turn

    /** The lane's first job becomes its active one. */
    method TakeFront(lane: Lane) returns (job: JobObject)
      requires Valid() && At(world, lane).worker.Waiting? && queue[Index(lane)] != []
      modifies this, queue, active
      ensures Valid() && made == old(made) && world == WorkStep(old(world), lane, Take)
      ensures job in made && At(world, lane).worker == Taken(job.Value())
    {
      HoldsRest(queue[Index(lane)], At(world, lane).queue);
      world := WorkStep(world, lane, Take);
      job := queue[Index(lane)][0];
      queue[Index(lane)] := queue[Index(lane)][1..];
      active[Index(lane)] := job;
    }

    /** The first locked region of `WorkerLoop`, entered when stopping or when there is a job: null ends the loop. */
    method TakeNext(lane: Lane) returns (job: JobObject?)
      requires Valid() && At(world, lane).worker.Waiting?
      requires stopping || queue[Index(lane)] != []
      modifies this, queue, active
      ensures Valid() && made == old(made)
      ensures world == WorkStep(old(world), lane, if old(queue[Index(lane)]) == [] then Exit else Take)
      ensures job == null <==> At(world, lane).worker.Exited?
      ensures job != null ==> job in made && At(world, lane).worker == Taken(job.Value())
    {
      if stopping && queue[Index(lane)] == [] {
        world := WorkStep(world, lane, Exit);
        return null;
      }
      job := TakeFront(lane);
    }

    /** `Execute` up to its first emit: whether the storage call is made at all. */
    method PassesStartCheck(lane: Lane, job: JobObject) returns (go: bool)
      requires Valid() && job in made && At(world, lane).worker == Taken(job.Value())
      modifies this
      ensures Valid() && made == old(made) && world == WorkStep(old(world), lane, Check)
      ensures go <==> At(world, lane).worker == Starting(job.Value())
      ensures !go <==> At(world, lane).worker == Reporting(job.Value(), Cancelled)
    {
      world := WorkStep(world, lane, Check);
      go := !job.cancelled;
    }

    method AnnounceRunning(lane: Lane, job: JobObject)
      requires Valid() && At(world, lane).worker == Starting(job.Value())
      modifies this
      ensures Valid() && made == old(made) && world == WorkStep(old(world), lane, Announce)
    {
      world := WorkStep(world, lane, Announce);
      posted := posted + [Running(job.Value())];
    }

    /** The state of the Finished event, from the reply and the flag as it is now. */
    method Decide(lane: Lane, job: JobObject, reply: Reply) returns (outcome: Outcome)
      requires Valid() && job in made && At(world, lane).worker == Calling(job.Value())
      modifies this
      ensures Valid() && made == old(made) && world == WorkStep(old(world), lane, Respond(reply))
      ensures At(world, lane).worker == Reporting(job.Value(), outcome)
    {
      world := WorkStep(world, lane, Respond(reply));
      if reply.Ok? {
        outcome := Completed(reply.etag);
      } else if reply.kind == CancelledByUser || job.cancelled {
        outcome := Cancelled;
      } else {
        outcome := Failed(reply.kind);
      }
    }

    method EmitFinished(lane: Lane, job: JobObject, outcome: Outcome)
      requires Valid() && At(world, lane).worker == Reporting(job.Value(), outcome)
      modifies this
      ensures Valid() && made == old(made) && world == WorkStep(old(world), lane, Report)
    {
      world := WorkStep(world, lane, Report);
      posted := posted + [Finished(job.Value(), outcome)];
    }

    /** The second locked region of `WorkerLoop`. */
    method ClearActive(lane: Lane)
      requires Valid() && At(world, lane).worker.Reported?
      modifies this, active
      ensures Valid() && made == old(made) && world == WorkStep(old(world), lane, Clear)
    {
      world := WorkStep(world, lane, Clear);
      active[Index(lane)] := null;
    }
  }
}
