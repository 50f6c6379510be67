/** The two-lane transfer queue as a state machine: one step for each region under the mutex, each event emitted and
    each reply of a storage call, in any interleaving of callers and the two workers. */
module TransferQueue {

  import opened StorageTypes
  import opened StorageErrors

  datatype Op =
    | ListBuckets | List | Head | Download | Upload | UploadBytes | Delete | Copy
    | TestConnection | ListMultipartUploads | AbortMultipartUpload

  datatype Lane = ControlLane | DataLane

  function LaneFor(op: Op): Lane {
    if op == Download || op == Upload then DataLane else ControlLane
  }

  datatype Request = Request(op: Op, bucket: string, key: string, localPath: string, uploadId: string)

  datatype Job = Job(id: nat, req: Request)

  datatype Outcome = Completed(etag: string) | Failed(error: ErrorKind) | Cancelled

  /** `Pending` and `Running` are the two events that the source types as Started. */
  datatype Event = Pending(job: Job) | Running(job: Job) | Finished(job: Job, outcome: Outcome)

  /** Where a lane's worker is. It holds its job from `Taken` to `Reporting`; the lane stays active up to `Reported`. */
  datatype Worker =
    | NotStarted
    | Waiting
    | Taken(job: Job)
    | Starting(job: Job)
    | Calling(job: Job)
    | Reporting(job: Job, outcome: Outcome)
    | Reported(job: Job)
    | Exited

  datatype LaneState = LaneState(queue: seq<Job>, worker: Worker)

  /** `issued` and `events` are history; `unannounced` holds jobs whose Pending event is still to be emitted. */
  datatype State = State(
    control: LaneState,
    data: LaneState,
    started: bool,
    stopping: bool,
    joining: bool,
    returned: bool,
    nextId: nat,
    cancelled: set<nat>,
    unannounced: set<Job>,
    issued: seq<Job>,
    events: seq<Event>)

  /** What a storage call came back with. */
  datatype Reply = Ok(etag: string) | Error(kind: ErrorKind)

  datatype WorkerStep = Take | Check | Announce | Respond(reply: Reply) | Report | Clear | Exit

  datatype Step =
    | Start
    | Enqueue(req: Request)
    | AnnouncePending(job: Job)
    | Cancel(id: nat)
    | ShutdownBegin
    | ShutdownReturn
    | Work(lane: Lane, step: WorkerStep)

  const EMPTY := State(LaneState([], NotStarted), LaneState([], NotStarted), false, false, false, false, 1, {}, {}, [], [])

  function At(s: State, lane: Lane): LaneState {
    if lane == ControlLane then s.control else s.data
  }

  function With(s: State, lane: Lane, l: LaneState): (t: State)
    ensures At(t, lane) == l && forall other :: other != lane ==> At(t, other) == At(s, other)
  {
    if lane == ControlLane then s.(control := l) else s.(data := l)
  }

  /** The job a worker has taken and not yet reported. */
  function Held(w: Worker): seq<Job> {
    if w.Taken? || w.Starting? || w.Calling? || w.Reporting? then [w.job] else []
  }

  /** `m_active` of the lane. */
  function Active(w: Worker): Option<Job> {
    if w.Reported? then Some(w.job) else if Held(w) != [] then Some(w.job) else None
  }

  function Ids(jobs: seq<Job>): set<nat> {
    set j | j in jobs :: j.id
  }

  /** Ids whose flag `Cancel` and `Shutdown` can reach: queued and active jobs. */
  function Reachable(l: LaneState): set<nat> {
    Ids(l.queue) + (match Active(l.worker) case Some(j) => {j.id} case None => {})
  }

  function StartStep(s: State): State {
    if s.started || s.stopping then s
    else s.(started := true, control := s.control.(worker := Waiting), data := s.data.(worker := Waiting))
  }

  /** What the caller gets: 0 once stopping. */
  function EnqueueResult(s: State): nat {
    if s.stopping then 0 else s.nextId
  }

  function EnqueueStep(s: State, req: Request): State {
    if s.stopping then s
    else
      var job := Job(s.nextId, req);
      var l := At(s, LaneFor(req.op));
      With(s, LaneFor(req.op), l.(queue := l.queue + [job]))
      .(nextId := s.nextId + 1, issued := s.issued + [job], unannounced := s.unannounced + {job})
  }

  function CancelStep(s: State, id: nat): State {
    if id in Reachable(s.control) + Reachable(s.data) then s.(cancelled := s.cancelled + {id}) else s
  }

  /** Without a running worker, or when already stopping, the call returns at once. */
  function ShutdownStep(s: State): State {
    if !s.started || s.stopping then s.(stopping := true)
    else s.(stopping := true, joining := true, cancelled := s.cancelled + Reachable(s.control) + Reachable(s.data))
  }

  function ShutdownReturnStep(s: State): State {
    if s.joining && s.control.worker.Exited? && s.data.worker.Exited?
    then s.(joining := false, returned := true) else s
  }

  /** How `Execute` classifies a reply, given the flag at that moment. */
  function Classified(reply: Reply, flagged: bool): Outcome {
    match reply
    case Ok(etag) => Completed(etag)
    case Error(kind) => if kind == CancelledByUser || flagged then Cancelled else Failed(kind)
  }

  function WorkStep(s: State, lane: Lane, step: WorkerStep): (t: State)
    ensures t.(control := s.control, data := s.data, events := s.events) == s
    ensures forall other: Lane :: other != lane ==> At(t, other) == At(s, other)
  {
    var l := At(s, lane);
    match step
    case Take =>
      if l.worker.Waiting? && l.queue != []
      then With(s, lane, LaneState(l.queue[1..], Taken(l.queue[0]))) else s
    case Check =>
      if !l.worker.Taken? then s
      else With(s, lane, l.(worker := if l.worker.job.id in s.cancelled then Reporting(l.worker.job, Cancelled)
                                      else Starting(l.worker.job)))
    case Announce =>
      if !l.worker.Starting? then s
      else With(s, lane, l.(worker := Calling(l.worker.job))).(events := s.events + [Running(l.worker.job)])
    case Respond(reply) =>
      if !l.worker.Calling? then s
      else With(s, lane, l.(worker := Reporting(l.worker.job, Classified(reply, l.worker.job.id in s.cancelled))))
    case Report =>
      if !l.worker.Reporting? then s
      else With(s, lane, l.(worker := Reported(l.worker.job)))
           .(events := s.events + [Finished(l.worker.job, l.worker.outcome)])
    case Clear =>
      if l.worker.Reported? then With(s, lane, l.(worker := Waiting)) else s
    case Exit =>
      if l.worker.Waiting? && s.stopping && l.queue == [] then With(s, lane, l.(worker := Exited)) else s
  }

  /** A step that is not possible changes nothing. */
  function Apply(s: State, step: Step): State {
    match step
    case Start => StartStep(s)
    case Enqueue(req) => EnqueueStep(s, req)
    case AnnouncePending(job) =>
      if job in s.unannounced
      then s.(unannounced := s.unannounced - {job}, events := s.events + [Pending(job)]) else s
    case Cancel(id) => CancelStep(s, id)
    case ShutdownBegin => ShutdownStep(s)
    case ShutdownReturn => ShutdownReturnStep(s)
    case Work(lane, step) => WorkStep(s, lane, step)
  }

  function Run(s: State, steps: seq<Step>): State {
    if steps == [] then s else Apply(Run(s, steps[..|steps| - 1]), steps[|steps| - 1])
  }

  lemma {:induction false} RunAppend(s: State, a: seq<Step>, b: seq<Step>)
    ensures Run(s, a + b) == Run(Run(s, a), b)
  {
    if b == [] {
      assert a + b == a;
    } else {
      assert (a + b)[..|a + b| - 1] == a + b[..|b| - 1];
      RunAppend(s, a, b[..|b| - 1]);
    }
  }

  // ------------------------------------------------- what a run is measured by

  /** Jobs issued to a lane, in enqueue order. */
  function IssuedTo(jobs: seq<Job>, lane: Lane): seq<Job> {
    if jobs == [] then []
    else IssuedTo(jobs[..|jobs| - 1], lane) + (if LaneFor(jobs[|jobs| - 1].req.op) == lane then [jobs[|jobs| - 1]] else [])
  }

  /** Jobs of a lane in the order of their Finished events. */
  function FinishedOn(events: seq<Event>, lane: Lane): seq<Job> {
    if events == [] then []
    else
      var e := events[|events| - 1];
      FinishedOn(events[..|events| - 1], lane) + (if e.Finished? && LaneFor(e.job.req.op) == lane then [e.job] else [])
  }

  /** Jobs of a lane with a Running event and no Finished event after it. */
  function OpenOn(events: seq<Event>, lane: Lane): set<Job> {
    if events == [] then {}
    else
      var e, before := events[|events| - 1], OpenOn(events[..|events| - 1], lane);
      if LaneFor(e.job.req.op) != lane then before
      else if e.Running? then before + {e.job}
      else if e.Finished? then before - {e.job}
      else before
  }

  function CountJobs(jobs: seq<Job>, id: nat): nat {
    if jobs == [] then 0
    else CountJobs(jobs[..|jobs| - 1], id) + if jobs[|jobs| - 1].id == id then 1 else 0
  }

  function CountFinished(events: seq<Event>, id: nat): nat {
    if events == [] then 0
    else
      var e := events[|events| - 1];
      CountFinished(events[..|events| - 1], id) + if e.Finished? && e.job.id == id then 1 else 0
  }

  lemma OneMoreEvent(events: seq<Event>, e: Event, lane: Lane)
    ensures FinishedOn(events + [e], lane)
         == FinishedOn(events, lane) + (if e.Finished? && LaneFor(e.job.req.op) == lane then [e.job] else [])
    ensures OpenOn(events + [e], lane)
         == (if LaneFor(e.job.req.op) != lane then OpenOn(events, lane)
             else if e.Running? then OpenOn(events, lane) + {e.job}
             else if e.Finished? then OpenOn(events, lane) - {e.job}
             else OpenOn(events, lane))
  {
    assert (events + [e])[..|events|] == events;
  }

  lemma OneMoreJob(jobs: seq<Job>, j: Job, lane: Lane)
    ensures IssuedTo(jobs + [j], lane) == IssuedTo(jobs, lane) + (if LaneFor(j.req.op) == lane then [j] else [])
  {
    assert (jobs + [j])[..|jobs|] == jobs;
  }

  // ------------------------------------------------------------- the invariant

  /** A lane's jobs, from the first finished to the last queued, are the jobs issued to it in enqueue order. */
  ghost predicate InLine(l: LaneState, finished: seq<Job>, issued: seq<Job>) {
    finished + Held(l.worker) + l.queue == issued
  }

  /** Only the held job can be running, and a lane is empty once its worker has left. */
  ghost predicate WorkerOk(w: Worker, queue: seq<Job>, open: set<Job>, started: bool, stopping: bool) {
    && (forall j :: j in open ==> Held(w) == [j])
    && (w.NotStarted? <==> !started)
    && (w.Exited? ==> stopping && queue == [])
  }

  ghost predicate LaneOk(s: State, lane: Lane) {
    && InLine(At(s, lane), FinishedOn(s.events, lane), IssuedTo(s.issued, lane))
    && WorkerOk(At(s, lane).worker, At(s, lane).queue, OpenOn(s.events, lane), s.started, s.stopping)
  }

  ghost predicate Numbered(s: State) {
    s.nextId == |s.issued| + 1 && forall k :: 0 <= k < |s.issued| ==> s.issued[k].id == k + 1
  }

  ghost predicate Inv(s: State) {
    && LaneOk(s, ControlLane) && LaneOk(s, DataLane) && Numbered(s)
    && (s.joining || s.returned ==> s.started && s.stopping)
    && (s.returned ==> s.control.worker.Exited? && s.data.worker.Exited?)
  }

  lemma EmptyInv()
    ensures Inv(EMPTY)
  {
  }

  lemma MembersOfLane(jobs: seq<Job>, lane: Lane, j: Job)
    requires j in IssuedTo(jobs, lane)
    ensures j in jobs && LaneFor(j.req.op) == lane
  {
  }

  /** A held job was issued, and to this lane. */
  lemma HeldOnLane(s: State, lane: Lane)
    requires LaneOk(s, lane) && Held(At(s, lane).worker) != []
    ensures At(s, lane).worker.job in s.issued && LaneFor(At(s, lane).worker.job.req.op) == lane
  {
    var l := At(s, lane);
    assert l.worker.job in FinishedOn(s.events, lane) + Held(l.worker) + l.queue by {
      assert (FinishedOn(s.events, lane) + Held(l.worker) + l.queue)[|FinishedOn(s.events, lane)|] == l.worker.job;
    }
    MembersOfLane(s.issued, lane, l.worker.job);
  }

  lemma TakeKeepsLine(l: LaneState, finished: seq<Job>, issued: seq<Job>)
    requires InLine(l, finished, issued) && l.worker.Waiting? && l.queue != []
    ensures InLine(LaneState(l.queue[1..], Taken(l.queue[0])), finished, issued)
  {
    assert finished + [] + l.queue == finished + [l.queue[0]] + l.queue[1..];
  }

  lemma ReportKeepsLine(l: LaneState, finished: seq<Job>, issued: seq<Job>)
    requires InLine(l, finished, issued) && l.worker.Reporting?
    ensures InLine(LaneState(l.queue, Reported(l.worker.job)), finished + [l.worker.job], issued)
  {
    assert finished + [l.worker.job] + [] + l.queue == finished + [l.worker.job] + l.queue;
  }

  lemma EnqueueKeepsLine(l: LaneState, finished: seq<Job>, issued: seq<Job>, j: Job)
    requires InLine(l, finished, issued)
    ensures InLine(l.(queue := l.queue + [j]), finished, issued + [j])
  {
    assert finished + Held(l.worker) + (l.queue + [j]) == finished + Held(l.worker) + l.queue + [j];
  }

  lemma TakeKeepsLane(s: State, lane: Lane)
    requires LaneOk(s, lane)
    ensures LaneOk(WorkStep(s, lane, Take), lane)
  {
    var l := At(s, lane);
    if l.worker.Waiting? && l.queue != [] {
      TakeKeepsLine(l, FinishedOn(s.events, lane), IssuedTo(s.issued, lane));
    }
  }

  lemma AnnounceKeepsLane(s: State, lane: Lane)
    requires LaneOk(s, lane)
    ensures LaneOk(WorkStep(s, lane, Announce), lane)
  {
    var l := At(s, lane);
    if l.worker.Starting? {
      HeldOnLane(s, lane);
      OneMoreEvent(s.events, Running(l.worker.job), lane);
    }
  }

  lemma ReportKeepsLane(s: State, lane: Lane)
    requires LaneOk(s, lane)
    ensures LaneOk(WorkStep(s, lane, Report), lane)
  {
    var l := At(s, lane);
    if l.worker.Reporting? {
      HeldOnLane(s, lane);
      OneMoreEvent(s.events, Finished(l.worker.job, l.worker.outcome), lane);
      ReportKeepsLine(l, FinishedOn(s.events, lane), IssuedTo(s.issued, lane));
    }
  }

  lemma WorkKeepsLane(s: State, lane: Lane, step: WorkerStep)
    requires LaneOk(s, lane)
    ensures LaneOk(WorkStep(s, lane, step), lane)
  {
    match step
    case Take => TakeKeepsLane(s, lane);
    case Announce => AnnounceKeepsLane(s, lane);
    case Report => ReportKeepsLane(s, lane);
    case _ => assert InLine(At(WorkStep(s, lane, step), lane), FinishedOn(s.events, lane), IssuedTo(s.issued, lane));
  }

  /** What a worker can change outside its lane: an event about its own job. */
  lemma WorkFrame(s: State, lane: Lane, step: WorkerStep)
    ensures var t, w := WorkStep(s, lane, step), At(s, lane).worker;
            && t.(control := s.control, data := s.data, events := s.events) == s
            && (forall other: Lane :: other != lane ==> At(t, other) == At(s, other))
            && (t.events == s.events
                || (w.Starting? && t.events == s.events + [Running(w.job)])
                || (w.Reporting? && t.events == s.events + [Finished(w.job, w.outcome)]))
  {
  }

  /** How a worker moves on with its job. */
  lemma WorkMoves(s: State, lane: Lane, step: WorkerStep)
    ensures var w, v := At(s, lane).worker, At(WorkStep(s, lane, step), lane).worker;
            && (v == w || v.Taken? || v.Reported? || v.Waiting? || v.Exited?
                || (w.Taken? && w.job.id !in s.cancelled && v == Starting(w.job))
                || (w.Taken? && v == Reporting(w.job, Cancelled))
                || (w.Starting? && v == Calling(w.job))
                || (w.Calling? && v.Reporting? && v.job == w.job && (w.job.id in s.cancelled ==> !v.outcome.Failed?)))
  {
    match step
    case Take =>
    case Check =>
    case Announce =>
    case Respond(_) =>
    case Report =>
    case Clear =>
    case Exit =>
  }

  /** A worker's event is about its own lane, so the other lane sees nothing. */
  lemma WorkKeepsOther(s: State, lane: Lane, step: WorkerStep, other: Lane)
    requires LaneOk(s, lane) && LaneOk(s, other) && lane != other
    ensures LaneOk(WorkStep(s, lane, step), other)
  {
    var t := WorkStep(s, lane, step);
    WorkFrame(s, lane, step);
    if t.events != s.events {
      HeldOnLane(s, lane);
      OneMoreEvent(s.events, t.events[|s.events|], other);
    }
    assert FinishedOn(t.events, other) == FinishedOn(s.events, other) && OpenOn(t.events, other) == OpenOn(s.events, other);
  }

  lemma WorkKeepsInv(s: State, lane: Lane, step: WorkerStep)
    requires Inv(s)
    ensures Inv(WorkStep(s, lane, step))
  {
    WorkKeepsLane(s, lane, step);
    WorkKeepsOther(s, lane, step, if lane == ControlLane then DataLane else ControlLane);
    WorkFrame(s, lane, step);
  }

  lemma EnqueueKeepsLane(s: State, req: Request, lane: Lane)
    requires LaneOk(s, lane) && !s.stopping
    ensures LaneOk(EnqueueStep(s, req), lane)
  {
    var j := Job(s.nextId, req);
    OneMoreJob(s.issued, j, lane);
    EnqueueKeepsLine(At(s, lane), FinishedOn(s.events, lane), IssuedTo(s.issued, lane), j);
  }

  lemma EnqueueKeepsInv(s: State, req: Request)
    requires Inv(s)
    ensures Inv(EnqueueStep(s, req))
  {
    if !s.stopping {
      EnqueueKeepsLane(s, req, ControlLane);
      EnqueueKeepsLane(s, req, DataLane);
    }
  }

  lemma PendingKeepsLane(s: State, job: Job, lane: Lane)
    requires LaneOk(s, lane)
    ensures LaneOk(s.(unannounced := s.unannounced - {job}, events := s.events + [Pending(job)]), lane)
  {
    OneMoreEvent(s.events, Pending(job), lane);
  }

  lemma AnnounceKeepsInv(s: State, job: Job)
    requires Inv(s)
    ensures Inv(Apply(s, AnnouncePending(job)))
  {
    PendingKeepsLane(s, job, ControlLane);
    PendingKeepsLane(s, job, DataLane);
  }

  lemma StartKeepsInv(s: State)
    requires Inv(s)
    ensures Inv(StartStep(s))
  {
  }

  lemma ShutdownKeepsInv(s: State)
    requires Inv(s)
    ensures Inv(ShutdownStep(s))
  {
  }

  lemma ShutdownReturnKeepsInv(s: State)
    requires Inv(s)
    ensures Inv(ShutdownReturnStep(s))
  {
  }

  lemma CancelKeepsInv(s: State, id: nat)
    requires Inv(s)
    ensures Inv(CancelStep(s, id))
  {
  }

  lemma StepKeepsInv(s: State, step: Step)
    requires Inv(s)
    ensures Inv(Apply(s, step))
  {
    match step
    case Enqueue(req) => EnqueueKeepsInv(s, req);
    case Work(lane, w) => WorkKeepsInv(s, lane, w);
    case AnnouncePending(job) => AnnounceKeepsInv(s, job);
    case Start => StartKeepsInv(s);
    case ShutdownBegin => ShutdownKeepsInv(s);
    case ShutdownReturn => ShutdownReturnKeepsInv(s);
    case Cancel(id) => CancelKeepsInv(s, id);
  }

  lemma {:induction false} RunKeepsInv(steps: seq<Step>)
    ensures Inv(Run(EMPTY, steps))
  {
    if steps != [] {
      RunKeepsInv(steps[..|steps| - 1]);
      StepKeepsInv(Run(EMPTY, steps[..|steps| - 1]), steps[|steps| - 1]);
    }
  }

  // ------------------------------------------------------------ order, exclusion

  /** Jobs of a lane finish in enqueue order: whatever has finished is a prefix of what was issued to the lane. */
  lemma LaneOrder(steps: seq<Step>, lane: Lane)
    ensures var s := Run(EMPTY, steps);
            && FinishedOn(s.events, lane) <= IssuedTo(s.issued, lane)
            && FinishedOn(s.events, lane) + Held(At(s, lane).worker) + At(s, lane).queue == IssuedTo(s.issued, lane)
  {
    RunKeepsInv(steps);
  }

  lemma {:induction false} OpenMembers(events: seq<Event>, lane: Lane, j: Job)
    requires j in OpenOn(events, lane)
    ensures LaneFor(j.req.op) == lane
  {
    if events != [] && j in OpenOn(events[..|events| - 1], lane) {
      OpenMembers(events[..|events| - 1], lane, j);
    }
  }

  /** At most one job of a lane is between its Running and its Finished event, so two uploads never overlap: this is
      what makes the uploader the journal's only writer. */
  lemma UploadsNeverOverlap(steps: seq<Step>, lane: Lane, a: Job, b: Job)
    ensures var s := Run(EMPTY, steps);
            && (a in OpenOn(s.events, lane) && b in OpenOn(s.events, lane) ==> a == b)
            && (a.req.op == b.req.op == Upload && {a, b} <= OpenOn(s.events, ControlLane) + OpenOn(s.events, DataLane)
                ==> a == b)
  {
    RunKeepsInv(steps);
    var s := Run(EMPTY, steps);
    if a in OpenOn(s.events, ControlLane) { OpenMembers(s.events, ControlLane, a); }
    if b in OpenOn(s.events, ControlLane) { OpenMembers(s.events, ControlLane, b); }
    assert Held(At(s, lane).worker) == [a] == [b] ==> a == [a][0] == [b][0] == b;
    assert Held(At(s, DataLane).worker) == [a] == [b] ==> a == [a][0] == [b][0] == b;
  }

  // --------------------------------------------------------------- exactly once

  lemma {:induction false} CountAppend(a: seq<Job>, b: seq<Job>, id: nat)
    ensures CountJobs(a + b, id) == CountJobs(a, id) + CountJobs(b, id)
  {
    if b == [] {
      assert a + b == a;
    } else {
      assert (a + b)[..|a + b| - 1] == a + b[..|b| - 1];
      CountAppend(a, b[..|b| - 1], id);
    }
  }

  lemma CountOneMore(jobs: seq<Job>, j: Job, more: bool, id: nat)
    ensures CountJobs(jobs + (if more then [j] else []), id) == CountJobs(jobs, id) + if more && j.id == id then 1 else 0
  {
    assert (jobs + [j])[..|jobs|] == jobs;
    assert jobs + [] == jobs;
  }

  lemma {:induction false} IssuedSplit(jobs: seq<Job>, id: nat)
    ensures CountJobs(IssuedTo(jobs, ControlLane), id) + CountJobs(IssuedTo(jobs, DataLane), id) == CountJobs(jobs, id)
  {
    if jobs != [] {
      var before, j := jobs[..|jobs| - 1], jobs[|jobs| - 1];
      IssuedSplit(before, id);
      CountOneMore(IssuedTo(before, ControlLane), j, LaneFor(j.req.op) == ControlLane, id);
      CountOneMore(IssuedTo(before, DataLane), j, LaneFor(j.req.op) == DataLane, id);
    }
  }

  lemma {:induction false} FinishedSplit(events: seq<Event>, id: nat)
    ensures CountJobs(FinishedOn(events, ControlLane), id) + CountJobs(FinishedOn(events, DataLane), id)
         == CountFinished(events, id)
  {
    if events != [] {
      var before, e := events[..|events| - 1], events[|events| - 1];
      FinishedSplit(before, id);
      CountOneMore(FinishedOn(before, ControlLane), e.job, e.Finished? && LaneFor(e.job.req.op) == ControlLane, id);
      CountOneMore(FinishedOn(before, DataLane), e.job, e.Finished? && LaneFor(e.job.req.op) == DataLane, id);
    }
  }

  lemma {:induction false} CountNumbered(jobs: seq<Job>, id: nat)
    requires forall k :: 0 <= k < |jobs| ==> jobs[k].id == k + 1
    ensures CountJobs(jobs, id) == if 1 <= id <= |jobs| then 1 else 0
  {
    if jobs != [] {
      CountNumbered(jobs[..|jobs| - 1], id);
    }
  }

  /** How often a job id is queued, held by a worker or reported as finished, over both lanes. */
  function Whereabouts(s: State, id: nat): nat {
    CountJobs(s.control.queue, id) + CountJobs(s.data.queue, id)
    + CountJobs(Held(s.control.worker), id) + CountJobs(Held(s.data.worker), id)
    + CountFinished(s.events, id)
  }

  lemma EveryIdOnce(s: State, id: nat)
    requires Inv(s)
    ensures Whereabouts(s, id) == if 1 <= id < s.nextId then 1 else 0
  {
    forall lane: Lane ensures CountJobs(IssuedTo(s.issued, lane), id)
        == CountJobs(FinishedOn(s.events, lane), id) + CountJobs(Held(At(s, lane).worker), id) + CountJobs(At(s, lane).queue, id) {
      var f, h, q := FinishedOn(s.events, lane), Held(At(s, lane).worker), At(s, lane).queue;
      CountAppend(f, h, id);
      CountAppend(f + h, q, id);
    }
    assert CountJobs(IssuedTo(s.issued, ControlLane), id) >= 0 && CountJobs(IssuedTo(s.issued, DataLane), id) >= 0;
    IssuedSplit(s.issued, id);
    FinishedSplit(s.events, id);
    CountNumbered(s.issued, id);
  }

  /** Every id ever returned is in exactly one of queued, active and finished, so it gets at most one Finished event
      and, once it is nowhere else, exactly one; no other id shows up anywhere. */
  lemma ExactlyOnce(steps: seq<Step>, id: nat)
    ensures var s := Run(EMPTY, steps); Whereabouts(s, id) == if 1 <= id < s.nextId then 1 else 0
  {
    RunKeepsInv(steps);
    EveryIdOnce(Run(EMPTY, steps), id);
  }

  /** 0 says no; any other result is an id nobody had before, and it is queued. */
  lemma EnqueueIssuesFreshId(steps: seq<Step>, req: Request)
    ensures var s := Run(EMPTY, steps);
            var id, t := EnqueueResult(s), Run(EMPTY, steps + [Enqueue(req)]);
            && (id == 0 <==> s.stopping)
            && (id == 0 ==> t == s)
            && (id != 0 ==> Whereabouts(s, id) == 0 && Whereabouts(t, id) == 1
                            && Job(id, req) in At(t, LaneFor(req.op)).queue)
  {
    var s := Run(EMPTY, steps);
    assert (steps + [Enqueue(req)])[..|steps|] == steps;
    var t := Run(EMPTY, steps + [Enqueue(req)]);
    ExactlyOnce(steps, EnqueueResult(s));
    ExactlyOnce(steps + [Enqueue(req)], EnqueueResult(s));
    RunKeepsInv(steps);
    if !s.stopping {
      var q := At(t, LaneFor(req.op)).queue;
      assert q[|q| - 1] == Job(s.nextId, req);
    }
  }

  // -------------------------------------------------------------------- draining

  function Rank(w: Worker): nat {
    match w
    case Waiting => 1
    case Taken(_) => 6
    case Starting(_) => 5
    case Calling(_) => 4
    case Reporting(_, _) => 3
    case Reported(_) => 2
    case _ => 0
  }

  /** Worker steps a lane can still make without new jobs; queued and active jobs weigh most. */
  function LaneLoad(l: LaneState): nat {
    7 * |l.queue| + Rank(l.worker)
  }

  function Load(s: State): nat {
    LaneLoad(s.control) + LaneLoad(s.data)
  }

  lemma WorkLowersLoad(s: State, lane: Lane, step: WorkerStep)
    ensures WorkStep(s, lane, step) == s || Load(WorkStep(s, lane, step)) < Load(s)
    ensures WorkStep(s, lane, step).stopping == s.stopping
  {
  }

  /** Steps of the run in which a worker really does something. */
  function WorkDone(s: State, steps: seq<Step>): nat {
    if steps == [] then 0
    else
      var before := Run(s, steps[..|steps| - 1]);
      var step := steps[|steps| - 1];
      WorkDone(s, steps[..|steps| - 1]) + if step.Work? && Apply(before, step) != before then 1 else 0
  }

  lemma StoppingStep(s: State, step: Step)
    requires s.stopping
    ensures Apply(s, step).stopping
    ensures Load(Apply(s, step)) + (if step.Work? && Apply(s, step) != s then 1 else 0) <= Load(s)
  {
    match step
    case Work(lane, w) => WorkLowersLoad(s, lane, w);
    case _ =>
  }

  /** Once stopping, nothing adds work: the workers can make at most `Load` more steps, whatever else happens. */
  lemma {:induction false} DrainBounded(s: State, steps: seq<Step>)
    requires s.stopping
    ensures Run(s, steps).stopping && Load(Run(s, steps)) + WorkDone(s, steps) <= Load(s)
  {
    if steps != [] {
      DrainBounded(s, steps[..|steps| - 1]);
      StoppingStep(Run(s, steps[..|steps| - 1]), steps[|steps| - 1]);
    }
  }

  /** The next step of a worker that has not left yet. */
  function NextStep(l: LaneState): WorkerStep {
    match l.worker
    case Waiting => if l.queue == [] then Exit else Take
    case Taken(_) => Check
    case Starting(_) => Announce
    case Calling(_) => Respond(Error(CancelledByUser))
    case Reporting(_, _) => Report
    case _ => Clear
  }

  /** A lane whose worker runs can always move while stopping, so together with `DrainBounded` both workers leave. */
  lemma DrainNeverBlocks(s: State, lane: Lane)
    requires Inv(s) && s.stopping && s.started && !At(s, lane).worker.Exited?
    ensures Load(WorkStep(s, lane, NextStep(At(s, lane)))) < Load(s)
  {
  }

  /** When the effective `Shutdown` has returned, both queues are empty, no job is active, and every id ever returned
      has exactly one Finished event. */
  lemma ShutdownDrains(steps: seq<Step>, id: nat)
    ensures var s := Run(EMPTY, steps);
            s.returned ==>
              && s.control == LaneState([], Exited) && s.data == LaneState([], Exited)
              && CountFinished(s.events, id) == (if 1 <= id < s.nextId then 1 else 0)
              && EnqueueResult(s) == 0
  {
    RunKeepsInv(steps);
    ExactlyOnce(steps, id);
  }

  // ----------------------------------------------------------------- cancelling

  /** A worker is past the start check of this job and has not reported it. */
  predicate Past(w: Worker, id: nat) {
    (w.Starting? || w.Calling? || w.Reporting?) && w.job.id == id
  }

  predicate Concerns(e: Event, id: nat) {
    e.job.id == id && !e.Pending?
  }

  /** What everybody else can change. */
  lemma CallerFrame(s: State, step: Step)
    requires !step.Work?
    ensures var t := Apply(s, step);
            && s.cancelled <= t.cancelled
            && (t.events == s.events || exists j :: t.events == s.events + [Pending(j)])
            && (forall lane: Lane :: At(t, lane).worker == At(s, lane).worker || At(t, lane).worker == Waiting)
  {
    var t := Apply(s, step);
    assert forall lane: Lane :: At(t, lane).worker == At(s, lane).worker || At(t, lane).worker == Waiting;
    if step.AnnouncePending? && step.job in s.unannounced {
      assert t.events == s.events + [Pending(step.job)];
    }
  }

  /** From event `n` on, the only news of this job is that it was cancelled. */
  ghost predicate OnlyCancelled(s: State, id: nat, n: nat) {
    && id in s.cancelled
    && n <= |s.events|
    && (forall k :: n <= k < |s.events| && Concerns(s.events[k], id) ==> s.events[k] == Finished(s.events[k].job, Cancelled))
    && (forall lane: Lane :: Past(At(s, lane).worker, id)
                             ==> At(s, lane).worker == Reporting(At(s, lane).worker.job, Cancelled))
  }

  lemma StepKeepsOnlyCancelled(s: State, step: Step, id: nat, n: nat)
    requires OnlyCancelled(s, id, n)
    ensures OnlyCancelled(Apply(s, step), id, n)
  {
    match step
    case Work(lane, w) =>
      WorkFrame(s, lane, w);
      WorkMoves(s, lane, w);
    case _ => CallerFrame(s, step);
  }

  lemma {:induction false} RunKeepsOnlyCancelled(s: State, steps: seq<Step>, id: nat, n: nat)
    requires OnlyCancelled(s, id, n)
    ensures OnlyCancelled(Run(s, steps), id, n)
  {
    if steps != [] {
      RunKeepsOnlyCancelled(s, steps[..|steps| - 1], id, n);
      StepKeepsOnlyCancelled(Run(s, steps[..|steps| - 1]), steps[|steps| - 1], id, n);
    }
  }

  /** A job cancelled before its start check never makes its storage call, which follows its Running event, and can
      only finish as Cancelled. */
  lemma CancelledBeforeStart(s: State, steps: seq<Step>, id: nat)
    requires id in s.cancelled && forall lane: Lane :: !Past(At(s, lane).worker, id)
    ensures var t := Run(s, steps);
            && |s.events| <= |t.events|
            && forall k :: |s.events| <= k < |t.events| && Concerns(t.events[k], id)
                           ==> t.events[k] == Finished(t.events[k].job, Cancelled)
  {
    RunKeepsOnlyCancelled(s, steps, id, |s.events|);
  }

  ghost predicate NeverFailed(s: State, id: nat, n: nat) {
    && id in s.cancelled
    && n <= |s.events|
    && (forall k :: n <= k < |s.events| && s.events[k].Finished? && s.events[k].job.id == id ==> !s.events[k].outcome.Failed?)
    && (forall lane: Lane :: At(s, lane).worker.Reporting? && At(s, lane).worker.job.id == id
                             ==> !At(s, lane).worker.outcome.Failed?)
  }

  lemma StepKeepsNeverFailed(s: State, step: Step, id: nat, n: nat)
    requires NeverFailed(s, id, n)
    ensures NeverFailed(Apply(s, step), id, n)
  {
    match step
    case Work(lane, w) =>
      WorkFrame(s, lane, w);
      WorkMoves(s, lane, w);
    case _ => CallerFrame(s, step);
  }

  /** A job whose flag is set before its outcome is decided never ends Failed: it completes or is cancelled. */
  lemma {:induction false} FlaggedNeverFails(s: State, steps: seq<Step>, id: nat)
    requires id in s.cancelled && forall lane: Lane :: !(At(s, lane).worker.Reporting? && At(s, lane).worker.job.id == id)
    ensures NeverFailed(Run(s, steps), id, |s.events|)
  {
    if steps != [] {
      FlaggedNeverFails(s, steps[..|steps| - 1], id);
      StepKeepsNeverFailed(Run(s, steps[..|steps| - 1]), steps[|steps| - 1], id, |s.events|);
    }
  }

  lemma {:induction false} CountsMember(jobs: seq<Job>, j: Job)
    requires j in jobs
    ensures CountJobs(jobs, j.id) >= 1
  {
    if jobs[|jobs| - 1] != j {
      CountsMember(jobs[..|jobs| - 1], j);
    }
  }

  /** Shutdown reaches every job still queued: none of them makes a storage call afterwards. */
  lemma ShutdownCancelsQueued(before: seq<Step>, after: seq<Step>, lane: Lane, j: Job)
    requires var s := Run(EMPTY, before); s.started && !s.stopping && j in At(s, lane).queue
    ensures var s := Run(EMPTY, before);
            var t := Run(ShutdownStep(s), after);
            && |s.events| <= |t.events|
            && forall k :: |s.events| <= k < |t.events| && Concerns(t.events[k], j.id)
                           ==> t.events[k] == Finished(t.events[k].job, Cancelled)
  {
    var s := Run(EMPTY, before);
    ExactlyOnce(before, j.id);
    CountsMember(At(s, lane).queue, j);
    forall other: Lane ensures !Past(At(s, other).worker, j.id) {
      if Past(At(s, other).worker, j.id) {
        CountsMember(Held(At(s, other).worker), At(s, other).worker.job);
      }
    }
    var u := ShutdownStep(s);
    assert forall other: Lane :: At(u, other) == At(s, other);
    assert j.id in Ids(At(s, lane).queue);
    CancelledBeforeStart(u, after, j.id);
  }

  // ------------------------------------------------------- when Pending is emitted

  /** A job is either still to be announced or was announced once. */
  ghost predicate PendingOk(s: State) {
    && (forall j :: j in s.unannounced ==> j in s.issued)
    && (forall j :: Pending(j) in s.events <==> j in s.issued && j !in s.unannounced)
    && (forall i, k :: 0 <= i < k < |s.events| && s.events[i].Pending? ==> s.events[i] != s.events[k])
  }

  lemma EnqueueKeepsPendingOk(s: State, req: Request)
    requires PendingOk(s) && Numbered(s)
    ensures PendingOk(EnqueueStep(s, req))
  {
    if !s.stopping {
      var t, job := EnqueueStep(s, req), Job(s.nextId, req);
      assert job !in s.issued;
      assert t.issued == s.issued + [job] && t.events == s.events;
      assert forall j :: j in t.issued <==> j in s.issued || j == job;
    }
  }

  lemma EventKeepsPendingOk(s: State, t: State, e: Event)
    requires PendingOk(s) && t.issued == s.issued && t.events == s.events + [e]
    requires if e.Pending? then e.job in s.unannounced && t.unannounced == s.unannounced - {e.job}
             else t.unannounced == s.unannounced
    ensures PendingOk(t)
  {
    assert forall x :: x in t.events <==> x in s.events || x == e;
  }

  lemma StepKeepsPendingOk(s: State, step: Step)
    requires PendingOk(s) && Numbered(s)
    ensures PendingOk(Apply(s, step))
  {
    match step
    case Enqueue(req) => EnqueueKeepsPendingOk(s, req);
    case AnnouncePending(job) =>
      if job in s.unannounced {
        EventKeepsPendingOk(s, Apply(s, step), Pending(job));
      }
    case Work(lane, w) =>
      WorkFrame(s, lane, w);
      var t := WorkStep(s, lane, w);
      if t.events != s.events {
        EventKeepsPendingOk(s, t, t.events[|s.events|]);
      }
    case _ =>
  }

  lemma {:induction false} RunKeepsPendingOk(steps: seq<Step>)
    ensures PendingOk(Run(EMPTY, steps))
  {
    if steps != [] {
      RunKeepsPendingOk(steps[..|steps| - 1]);
      RunKeepsInv(steps[..|steps| - 1]);
      StepKeepsPendingOk(Run(EMPTY, steps[..|steps| - 1]), steps[|steps| - 1]);
    }
  }

  lemma {:induction false} EventsStay(s: State, steps: seq<Step>)
    ensures s.events <= Run(s, steps).events
  {
    if steps != [] {
      EventsStay(s, steps[..|steps| - 1]);
      match steps[|steps| - 1]
      case Work(lane, w) => WorkFrame(Run(s, steps[..|steps| - 1]), lane, w);
      case _ =>
    }
  }

  /** Exactly when the Pending event of a job comes before its Finished event: if the call that queued it, which emits
      it without the mutex, got to that before the worker reports. Otherwise it can only come later; it never comes
      twice. */
  lemma PendingFirstIff(steps: seq<Step>, after: seq<Step>, lane: Lane)
    requires At(Run(EMPTY, steps), lane).worker.Reporting?
    ensures var s := Run(EMPTY, steps);
            var t := Run(WorkStep(s, lane, Report), after);
            var w, n := At(s, lane).worker, |s.events|;
            && n < |t.events| && t.events[n] == Finished(w.job, w.outcome)
            && (w.job !in s.unannounced <==> exists k :: 0 <= k < n && t.events[k] == Pending(w.job))
            && (forall i, k :: 0 <= i < k < |t.events| && t.events[i] == Pending(w.job) ==> t.events[k] != Pending(w.job))
  {
    var s := Run(EMPTY, steps);
    var u := WorkStep(s, lane, Report);
    var t := Run(u, after);
    RunKeepsInv(steps);
    RunKeepsPendingOk(steps);
    HeldOnLane(s, lane);
    EventsStay(u, after);
    assert t.events[..|s.events|] == s.events;
    var all := steps + [Work(lane, Report)];
    assert all[..|steps|] == steps;
    assert Run(EMPTY, all) == u;
    RunAppend(EMPTY, all, after);
    RunKeepsPendingOk(all + after);
  }

  const LATE_REQUEST := Request(Head, "bucket", "key", "", "")
  const LATE_JOB := Job(1, LATE_REQUEST)

  const LATE_START: seq<Step> := [Start, Enqueue(LATE_REQUEST)] + [Work(ControlLane, Take), Work(ControlLane, Check)]
  const LATE_REST: seq<Step> := [Work(ControlLane, Announce), Work(ControlLane, Respond(Ok("")))]
                                + [Work(ControlLane, Report), AnnouncePending(LATE_JOB)]

  lemma LateJobStarts()
    ensures var s := Run(EMPTY, LATE_START);
            s.control.worker == Starting(LATE_JOB) && s.unannounced == {LATE_JOB} && s.events == []
  {
    var a, b := [Start, Enqueue(LATE_REQUEST)], [Work(ControlLane, Take), Work(ControlLane, Check)];
    RunAppend(EMPTY, a, b);
    RunTwo(EMPTY, a[0], a[1]);
    RunTwo(Run(EMPTY, a), b[0], b[1]);
  }

  lemma LateJobEnds(s: State)
    requires s.control.worker == Starting(LATE_JOB) && s.unannounced == {LATE_JOB} && s.events == []
    ensures Run(s, LATE_REST).events == [Running(LATE_JOB), Finished(LATE_JOB, Completed("")), Pending(LATE_JOB)]
  {
    var c, d := [Work(ControlLane, Announce), Work(ControlLane, Respond(Ok("")))],
                [Work(ControlLane, Report), AnnouncePending(LATE_JOB)];
    RunAppend(s, c, d);
    RunTwo(s, c[0], c[1]);
    RunTwo(Run(s, c), d[0], d[1]);
  }

  /** Pending is emitted after the mutex is released, so it can even follow Finished. */
  lemma PendingMayComeLast()
    ensures Run(EMPTY, LATE_START + LATE_REST).events
         == [Running(LATE_JOB), Finished(LATE_JOB, Completed("")), Pending(LATE_JOB)]
  {
    RunAppend(EMPTY, LATE_START, LATE_REST);
    LateJobStarts();
    LateJobEnds(Run(EMPTY, LATE_START));
  }

  lemma RunTwo(s: State, a: Step, b: Step)
    ensures Run(s, [a, b]) == Apply(Apply(s, a), b)
  {
    assert [a, b][..1] == [a] && [a][..0] == [];
    assert Run(s, [a]) == Apply(s, a);
  }
}
