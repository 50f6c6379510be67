/** The last save wins: once a path has no round in flight and its latest round uploaded, the remote object holds the
    file as it was last saved. */
module LastSaveWins {

  import opened StorageTypes
  import opened StorageErrors
  import opened TransferQueue
  import opened SaveRounds
  import opened SaveSafety

  type Plugin = SaveRounds.State

  /** Nobody but saves of this path has written the object. */
  ghost predicate OnlyWriter(s: Plugin, p: Path, r: Remote) {
    forall w :: w in s.writes && w.0 == r ==> w.1 == Some(p)
  }

  /** The object holds the file, unless somebody else wrote it. */
  ghost predicate Stored(s: Plugin, p: Path, r: Remote) {
    OnlyWriter(s, p, r) ==> p in s.files && r in s.remotes && s.remotes[r] == s.files[p]
  }

  /** The file has not changed since the last save that a round was started for. */
  predicate Fresh(s: Plugin, p: Path) {
    p !in s.unnotified && !SaveOf(s, p).again
  }

  predicate Uploads(s: Plugin, id: nat, p: Path, r: Remote) {
    ActionOf(s, id) == Some(Action(UploadSave, p, r))
  }

  predicate Idle(s: Plugin, p: Path, r: Remote) {
    !SaveOf(s, p).inFlight && BookOf(s, p).last == Uploaded(r)
  }

  /** The upload call being tracked is the data worker's. */
  ghost predicate CallTracked(s: Plugin) {
    && (s.call.Some? ==> s.q.data.worker == Calling(s.call.value.job) && s.call.value.job.req.op == Upload)
    && (s.q.data.worker.Calling? && s.q.data.worker.job.req.op == Upload ==> s.call.Some?)
  }

  /** Every action still to be handled fits its job. */
  ghost predicate ActionsFit(s: Plugin) {
    forall id: nat :: ActionOf(s, id).Some? && ActionOf(s, id).value.kind == UploadSave ==>
      1 <= id <= |s.q.issued| && Fits(s.q.issued[id - 1].req, ActionOf(s, id).value)
  }

  ghost predicate CallOk(s: Plugin) {
    CallTracked(s) && ActionsFit(s)
  }

  ghost predicate CallFresh(s: Plugin, p: Path) {
    forall r: Remote :: s.call.Some? && Uploads(s, s.call.value.job.id, p, r) ==>
      if s.call.value.landed then Stored(s, p, r) else !s.call.value.dirty
  }

  ghost predicate ReportFresh(s: Plugin, p: Path) {
    forall r: Remote, lane: Lane | At(s.q, lane).worker.Reporting? && At(s.q, lane).worker.outcome.Completed? ::
      Uploads(s, At(s.q, lane).worker.job.id, p, r) ==> Stored(s, p, r)
  }

  ghost predicate EventFresh(s: Plugin, p: Path) {
    forall r: Remote, k | 0 <= k < |s.q.events| && s.q.events[k].Finished? && s.q.events[k].outcome.Completed? ::
      Uploads(s, s.q.events[k].job.id, p, r) ==> Stored(s, p, r)
  }

  ghost predicate IdleFresh(s: Plugin, p: Path) {
    forall r: Remote :: Idle(s, p, r) ==> Stored(s, p, r)
  }

  ghost predicate Kept(s: Plugin, p: Path) {
    Fresh(s, p) ==> CallFresh(s, p) && ReportFresh(s, p) && EventFresh(s, p) && IdleFresh(s, p)
  }

  // ------------------------------------------------------------ steps in the world

  lemma LandKeeps(s: Plugin, content: Content, p: Path)
    requires CallOk(s) && Kept(s, p) && Inv(s.q)
    ensures Kept(LandStep(s, content), p)
  {
    var t := LandStep(s, content);
    if t != s && Fresh(s, p) {
      var c := s.call.value;
      HeldOnLane(s.q, DataLane);
      assert c.job == s.q.issued[c.job.id - 1];
      forall r: Remote ensures Stored(s, p, r) ==> Stored(t, p, r) {
        LandStored(s, content, p, r);
      }
      forall r: Remote | Uploads(s, c.job.id, p, r) ensures Stored(t, p, r) {
        LandStored(s, content, p, r);
      }
    }
  }

  /** Landing keeps what is stored for a fresh path, and stores the file its own upload sends. */
  lemma LandStored(s: Plugin, content: Content, p: Path, r: Remote)
    requires CallOk(s) && CallFresh(s, p) && s.call.Some? && LandStep(s, content) != s
    requires 1 <= s.call.value.job.id <= |s.q.issued| && s.call.value.job == s.q.issued[s.call.value.job.id - 1]
    ensures Stored(s, p, r) || Uploads(s, s.call.value.job.id, p, r) ==> Stored(LandStep(s, content), p, r)
  {
    var t, c := LandStep(s, content), s.call.value;
    assert (RemoteOf(c.job.req), Writer(s, c.job.id)) in t.writes;
    if OnlyWriter(t, p, r) {
      assert OnlyWriter(s, p, r);
      if RemoteOf(c.job.req) == r {
        assert Writer(s, c.job.id) == Some(p);
        var a := ActionOf(s, c.job.id).value;
        assert Fits(c.job.req, a) && a == Action(UploadSave, p, r);
        assert Uploads(s, c.job.id, p, r);
      }
    }
  }

  lemma WorldKeeps(s: Plugin, change: WorldStep, p: Path)
    requires CallOk(s) && Kept(s, p) && Inv(s.q)
    ensures Kept(WorldApply(s, change), p)
  {
    var t := WorldApply(s, change);
    match change
    case Land(content) => LandKeeps(s, content, p);
    case ChangeFile(x, now) => ChangeFileKeeps(s, x, now, p);
    case ChangeRemote(r, now) => ChangeRemoteKeeps(s, r, now, p);
    case CancelJob(_) => NothingStored(s, t, p);
    case Register(_, _) => NothingStored(s, t, p);
    case Unregister(_) => NothingStored(s, t, p);
  }

  /** The step leaves the thread, the queue and the path's books alone, and keeps what is stored. */
  ghost predicate SameRounds(s: Plugin, t: Plugin, p: Path) {
    && t.q.(cancelled := s.q.cancelled) == s.q && t.ui == s.ui && t.pending == s.pending
    && t.saves == s.saves && t.books == s.books
    && (forall r: Remote :: Stored(s, p, r) ==> Stored(t, p, r))
  }

  lemma SameKeeps(s: Plugin, t: Plugin, p: Path)
    requires Kept(s, p) && SameRounds(s, t, p) && (Fresh(t, p) ==> Fresh(s, p) && CallFresh(t, p))
    ensures Kept(t, p)
  {
    assert forall lane: Lane :: At(t.q, lane) == At(s.q, lane);
    assert forall id: nat, r: Remote :: Uploads(t, id, p, r) ==> Uploads(s, id, p, r);
    if Fresh(t, p) {
      assert ReportFresh(t, p);
      assert EventFresh(t, p);
      assert IdleFresh(t, p);
    }
  }

  lemma NothingStored(s: Plugin, t: Plugin, p: Path)
    requires Kept(s, p) && t.(q := s.q, docs := s.docs) == s && t.q.(cancelled := s.q.cancelled) == s.q
    ensures Kept(t, p)
  {
    forall r: Remote | Stored(s, p, r) ensures Stored(t, p, r) {
    }
    assert forall id: nat, r: Remote :: Uploads(t, id, p, r) ==> Uploads(s, id, p, r);
    SameKeeps(s, t, p);
  }

  lemma ChangeFileKeeps(s: Plugin, x: Path, now: Option<Content>, p: Path)
    requires CallOk(s) && Kept(s, p) && Inv(s.q)
    ensures Kept(ChangeFileStep(s, x, now), p)
  {
    var t := ChangeFileStep(s, x, now);
    if x != p {
      forall r: Remote | Stored(s, p, r) ensures Stored(t, p, r) {
      }
      if Fresh(t, p) && s.call.Some? {
        var c := s.call.value;
        HeldOnLane(s.q, DataLane);
        assert c.job == s.q.issued[c.job.id - 1];
        forall r: Remote | Uploads(t, c.job.id, p, r)
          ensures if t.call.value.landed then Stored(t, p, r) else !t.call.value.dirty {
          assert Uploads(s, c.job.id, p, r) && c.job.req.localPath == p;
        }
      }
      SameKeeps(s, t, p);
    }
  }

  lemma ChangeRemoteKeeps(s: Plugin, x: Remote, now: Option<Content>, p: Path)
    requires Kept(s, p)
    ensures Kept(ChangeRemoteStep(s, x, now), p)
  {
    var t := ChangeRemoteStep(s, x, now);
    assert (x, None) in t.writes;
    forall r: Remote | Stored(s, p, r) ensures Stored(t, p, r) {
      if OnlyWriter(t, p, r) {
        assert OnlyWriter(s, p, r);
      }
    }
    forall r: Remote | s.call.Some? && Uploads(t, s.call.value.job.id, p, r) ensures Uploads(s, s.call.value.job.id, p, r) {
    }
    SameKeeps(s, t, p);
  }

  // ------------------------------------------------------------------ the workers

  /** A job whose action is an upload of this path is an upload, so only the data lane's worker can hold it. */
  lemma UploadsAreUploads(s: Plugin, lane: Lane, p: Path, r: Remote)
    requires CallOk(s) && Inv(s.q) && Held(At(s.q, lane).worker) != [] && Uploads(s, At(s.q, lane).worker.job.id, p, r)
    ensures lane == DataLane && At(s.q, lane).worker.job.req.op == Upload
  {
    var j := At(s.q, lane).worker.job;
    HeldOnLane(s.q, lane);
    assert j == s.q.issued[j.id - 1];
  }

  lemma UploadsOnDataLane(q: TransferQueue.State, lane: Lane)
    requires Inv(q) && Held(At(q, lane).worker) != [] && At(q, lane).worker.job.req.op == Upload
    ensures lane == DataLane
  {
    HeldOnLane(q, lane);
  }

  lemma AnnounceTracksCall(s: Plugin, lane: Lane)
    requires CallTracked(s) && (At(s.q, lane).worker.Starting? && At(s.q, lane).worker.job.req.op == Upload ==> lane == DataLane)
    ensures CallTracked(WorkerStepOf(s, lane, WorkerStep.Announce))
  {
  }

  lemma RespondTracksCall(s: Plugin, lane: Lane, reply: Reply)
    requires CallTracked(s) && (At(s.q, lane).worker.Calling? && At(s.q, lane).worker.job.req.op == Upload ==> lane == DataLane)
    ensures CallTracked(WorkerStepOf(s, lane, Respond(reply)))
  {
  }

  lemma OtherWorkTracksCall(s: Plugin, lane: Lane, w: WorkerStep)
    requires CallTracked(s) && !w.Announce? && !w.Respond?
    ensures CallTracked(WorkerStepOf(s, lane, w))
  {
  }

  lemma WorkKeepsCallTracked(s: Plugin, lane: Lane, w: WorkerStep)
    requires CallTracked(s) && Inv(s.q)
    ensures CallTracked(WorkerStepOf(s, lane, w))
  {
    if Held(At(s.q, lane).worker) != [] && At(s.q, lane).worker.job.req.op == Upload {
      UploadsOnDataLane(s.q, lane);
    }
    match w
    case Announce => AnnounceTracksCall(s, lane);
    case Respond(reply) => RespondTracksCall(s, lane, reply);
    case _ => OtherWorkTracksCall(s, lane, w);
  }

  /** Workers store nothing and give no job another action. */
  lemma WorkChangesNoStore(s: Plugin, lane: Lane, w: WorkerStep, p: Path)
    ensures var t := WorkerStepOf(s, lane, w);
            && (forall id: nat, r: Remote :: Uploads(t, id, p, r) == Uploads(s, id, p, r))
            && (forall r: Remote :: Stored(t, p, r) == Stored(s, p, r))
  {
  }

  lemma WorkKeepsCallOk(s: Plugin, lane: Lane, w: WorkerStep)
    requires CallOk(s) && Inv(s.q)
    ensures CallOk(WorkerStepOf(s, lane, w))
  {
    WorkKeepsCallTracked(s, lane, w);
    WorkFrame(s.q, lane, w);
    assert forall id: nat :: ActionOf(WorkerStepOf(s, lane, w), id) == ActionOf(s, id);
  }

  /** A call begins clean, and ends with the reply. */
  lemma WorkMovesCall(s: Plugin, lane: Lane, w: WorkerStep)
    ensures var t := WorkerStepOf(s, lane, w);
            t.call == s.call || t.call == None || (t.call.Some? && !t.call.value.dirty && !t.call.value.landed)
  {
  }

  lemma WorkKeepsCallFresh(s: Plugin, lane: Lane, w: WorkerStep, p: Path)
    requires CallOk(s) && Inv(s.q) && CallFresh(s, p)
    ensures CallFresh(WorkerStepOf(s, lane, w), p)
  {
    WorkMovesCall(s, lane, w);
    WorkChangesNoStore(s, lane, w, p);
  }

  /** A reply that completes the path's upload is only possible once its bytes are there. */
  lemma RespondStored(s: Plugin, lane: Lane, reply: Reply, p: Path, r: Remote)
    requires CallOk(s) && Inv(s.q) && CallFresh(s, p) && At(s.q, lane).worker.Calling?
    requires Uploads(s, At(s.q, lane).worker.job.id, p, r)
    requires var v := At(WorkerStepOf(s, lane, Respond(reply)).q, lane).worker; v.Reporting? && v.outcome.Completed?
    ensures Stored(s, p, r)
  {
    UploadsAreUploads(s, lane, p, r);
  }

  /** A worker that reports a success of the path's upload had it before, or just got the reply. */
  lemma ReportIsKnown(s: Plugin, lane: Lane, w: WorkerStep, p: Path, r: Remote, l: Lane)
    requires CallOk(s) && Inv(s.q) && CallFresh(s, p) && ReportFresh(s, p)
    requires var v := At(WorkerStepOf(s, lane, w).q, l).worker;
             v.Reporting? && v.outcome.Completed? && Uploads(s, v.job.id, p, r)
    ensures Stored(s, p, r)
  {
    var t := WorkerStepOf(s, lane, w);
    WorkMoves(s.q, lane, w);
    if At(t.q, l).worker != At(s.q, l).worker {
      assert l == lane && At(s.q, l).worker.Calling? && At(s.q, l).worker.job.id == At(t.q, l).worker.job.id;
      RespondStored(s, lane, w.reply, p, r);
    }
  }

  lemma WorkKeepsReportFresh(s: Plugin, lane: Lane, w: WorkerStep, p: Path)
    requires CallOk(s) && Inv(s.q) && CallFresh(s, p) && ReportFresh(s, p)
    ensures ReportFresh(WorkerStepOf(s, lane, w), p)
  {
    var t := WorkerStepOf(s, lane, w);
    WorkChangesNoStore(s, lane, w, p);
    forall r: Remote, l: Lane | At(t.q, l).worker.Reporting? && At(t.q, l).worker.outcome.Completed?
                                && Uploads(t, At(t.q, l).worker.job.id, p, r)
      ensures Stored(s, p, r)
    {
      ReportIsKnown(s, lane, w, p, r, l);
    }
  }

  lemma WorkKeepsEventFresh(s: Plugin, lane: Lane, w: WorkerStep, p: Path)
    requires CallOk(s) && Inv(s.q) && ReportFresh(s, p) && EventFresh(s, p)
    ensures EventFresh(WorkerStepOf(s, lane, w), p)
  {
    var t := WorkerStepOf(s, lane, w);
    WorkChangesNoStore(s, lane, w, p);
    forall r: Remote, k | 0 <= k < |t.q.events| && t.q.events[k].Finished? && t.q.events[k].outcome.Completed?
                          && Uploads(t, t.q.events[k].job.id, p, r)
      ensures Stored(s, p, r)
    {
      assert Uploads(s, t.q.events[k].job.id, p, r);
      WorkEventIsKnown(s, lane, w, k);
    }
  }

  /** A Finished event is an old one, or what the worker was about to report. */
  lemma WorkEventIsKnown(s: Plugin, lane: Lane, w: WorkerStep, k: nat)
    requires var t := WorkerStepOf(s, lane, w); k < |t.q.events| && t.q.events[k].Finished?
    ensures var e := WorkerStepOf(s, lane, w).q.events[k];
            (k < |s.q.events| && s.q.events[k] == e) || At(s.q, lane).worker == Reporting(e.job, e.outcome)
  {
    WorkFrame(s.q, lane, w);
  }

  lemma WorkKeeps(s: Plugin, lane: Lane, w: WorkerStep, p: Path)
    requires CallOk(s) && Inv(s.q) && Kept(s, p)
    ensures Kept(WorkerStepOf(s, lane, w), p)
  {
    var t := WorkerStepOf(s, lane, w);
    if Fresh(t, p) {
      WorkKeepsCallFresh(s, lane, w, p);
      WorkKeepsReportFresh(s, lane, w, p);
      WorkKeepsEventFresh(s, lane, w, p);
      assert forall r: Remote :: Stored(t, p, r) == Stored(s, p, r);
      assert IdleFresh(t, p);
    }
  }

  // ------------------------------------------------------- the user-interface thread

  /** What a handler can do to a path's rounds: an idle path whose last round uploaded is as before or has just
      finished as `end`; one that becomes fresh has no upload of an earlier round any more. */
  ghost predicate Rounds(s: Plugin, t: Plugin, p: Path, end: RoundEnd) {
    && (forall r: Remote :: Fresh(t, p) && Idle(t, p, r) ==> Fresh(s, p) && (Idle(s, p, r) || end == Uploaded(r)))
    && (Fresh(t, p) && !Fresh(s, p) ==> !SaveOf(t, p).inFlight || (t.ui.Announcing? && IsSave(t.ui.action, p)))
  }

  lemma KeptRounds(s: Plugin, t: Plugin, p: Path, end: RoundEnd)
    requires PathKept(s, t, p) && t.unnotified == s.unnotified
    ensures Rounds(s, t, p, end)
  {
  }

  lemma DropRounds(s: Plugin, t: Plugin, x: Path, p: Path, end: RoundEnd)
    requires KeepsOrDrops(s, t, x) && t.unnotified == s.unnotified
    ensures Rounds(s, t, p, end)
  {
  }

  /** A round that is started is under way, or has been dropped at once. */
  lemma StartedGoes(s: Plugin, p: Path, configured: bool)
    requires EnqueueResult(s.q) != 0
    ensures var t := Started(s, p, configured);
            if SaveOf(t, p).inFlight then t.ui.Announcing? && IsSave(t.ui.action, p)
            else BookOf(t, p).last == NotUploaded
  {
  }

  lemma StartedRounds(s: Plugin, u: Plugin, x: Path, configured: bool, p: Path, end: RoundEnd)
    requires EnqueueResult(u.q) != 0 && (x != p ==> PathKept(s, u, p) && (p in s.unnotified <==> p in u.unnotified))
    ensures Rounds(s, Started(u, x, configured), p, end)
  {
    if x == p {
      StartedGoes(u, x, configured);
    } else {
      StartedKeeps(u, x, configured, p);
    }
  }

  lemma FinishRounds(s: Plugin, x: Path, end: RoundEnd, configured: bool, p: Path)
    requires EnqueueResult(s.q) != 0
    ensures Rounds(s, FinishRound(s, x, end, configured), p, if x == p then end else NoRound)
  {
    if x != p {
      FinishRoundKeeps(s, x, end, configured, p);
      KeptRounds(s, FinishRound(s, x, end, configured), p, NoRound);
    } else if x in s.saves && s.saves[x].again {
      StartedRounds(s, s.(saves := s.saves[p := SaveState(false, false)], books := s.books[p := BookOf(s, p).(last := end)]),
                    p, configured, p, end);
    }
  }

  /** How the round of a handled completion ended, if it uploaded. */
  function EndInHand(s: Plugin, p: Path): RoundEnd
    requires Handles(s)
  {
    if ActionInHand(s).kind == UploadSave && ActionInHand(s).path == p && s.q.events[s.seen].outcome.Completed?
    then Uploaded(ActionInHand(s).remote) else NoRound
  }

  lemma UploadDoneRounds(s: Plugin, a: Action, outcome: Outcome, configured: bool, p: Path)
    requires EnqueueResult(s.q) != 0
    ensures Rounds(s, UploadDone(s, a, outcome, configured), p,
                   if a.path == p && outcome.Completed? then Uploaded(a.remote) else NoRound)
  {
    if outcome.Completed? {
      var u := if a.path in s.docs then s.(docs := s.docs[a.path := s.docs[a.path].(etag := outcome.etag)]) else s;
      FinishRounds(u, a.path, Uploaded(a.remote), configured, p);
    } else {
      FinishRounds(s, a.path, NotUploaded, configured, p);
    }
  }

  lemma ActionRounds(s: Plugin, a: Action, outcome: Outcome, configured: bool, p: Path)
    requires EnqueueResult(s.q) != 0
    ensures Rounds(s, ActionDone(s, a, outcome, configured), p,
                   if a.kind == UploadSave && a.path == p && outcome.Completed? then Uploaded(a.remote) else NoRound)
  {
    match a.kind
    case HeadForSave => DropRounds(s, HeadDone(s, a.path, outcome, configured), a.path, p, NoRound);
    case UploadSave => UploadDoneRounds(s, a, outcome, configured, p);
    case OtherAction =>
  }

  /** Taking a message off changes nothing that rounds are about. */
  lemma RoundsFrom(s: Plugin, u: Plugin, t: Plugin, p: Path, end: RoundEnd)
    requires u == s.(seen := u.seen, pending := u.pending) && Rounds(u, t, p, end)
    ensures Rounds(s, t, p, end)
  {
  }

  lemma HandleRounds(s: Plugin, configured: bool, p: Path)
    requires EnqueueResult(s.q) != 0
    ensures Rounds(s, HandleStep(s, configured), p, if Handles(s) then EndInHand(s, p) else NoRound)
  {
    if Handles(s) {
      var a, u, outcome := ActionInHand(s), TakenOut(s), s.q.events[s.seen].outcome;
      ActionRounds(u, a, outcome, configured, p);
      RoundsFrom(s, u, ActionDone(u, a, outcome, configured), p, EndInHand(s, p));
    } else {
      KeptRounds(s, HandleStep(s, configured), p, NoRound);
    }
  }

  lemma AnsweredRounds(s: Plugin, d: Dialog, choice: Choice, configured: bool, p: Path)
    requires EnqueueResult(s.q) != 0
    ensures Rounds(s, Answered(s, d, choice, configured), p, NoRound)
  {
    if d.RemoteConflict? || !d.restart {
      DropRounds(s, Answered(s, d, choice, configured), d.path, p, NoRound);
    } else {
      FinishRounds(s, d.path, NotUploaded, configured, p);
    }
  }

  lemma AnswerRounds(s: Plugin, choice: Choice, configured: bool, p: Path)
    requires EnqueueResult(s.q) != 0
    ensures Rounds(s, AnswerStep(s, choice, configured), p, NoRound)
  {
    if s.ui.Free? && s.dialogs != [] {
      AnsweredRounds(s.(dialogs := s.dialogs[..|s.dialogs| - 1]), s.dialogs[|s.dialogs| - 1], choice, configured, p);
    }
  }

  lemma NotifyRounds(s: Plugin, x: Path, configured: bool, p: Path)
    requires EnqueueResult(s.q) != 0
    ensures Rounds(s, NotifyStep(s, x, configured), p, NoRound)
  {
    if x in s.docs && s.docs[x].autoUpload && !SaveOf(s, x).inFlight {
      StartedRounds(s, Noted(s, x), x, configured, p, NoRound);
    }
  }

  lemma StoreRounds(s: Plugin, p: Path)
    ensures Rounds(s, StoreStep(s), p, NoRound)
  {
    if s.ui.Storing? && s.ui.ending.Some? {
      var u := s.(pending := s.pending[s.ui.job.id := s.ui.action], ui := Free);
      DropRounds(u, StoreStep(s), s.ui.ending.value, p, NoRound);
    }
  }

  lemma AnnouncingKeepsFresh(s: Plugin, step: UiStep, p: Path)
    requires s.ui.Announcing?
    ensures Fresh(UiApply(s, step), p) ==> Fresh(s, p)
  {
  }

  lemma UiRounds(s: Plugin, step: UiStep, p: Path)
    requires EnqueueResult(s.q) != 0
    ensures Rounds(s, UiApply(s, step), p, if step.HandleMessage? && Handles(s) then EndInHand(s, p) else NoRound)
    ensures s.ui.Announcing? && Fresh(UiApply(s, step), p) ==> Fresh(s, p)
  {
    if s.ui.Announcing? {
      AnnouncingKeepsFresh(s, step, p);
    }
    match step
    case Notify(x, configured) => if s.ui.Free? { NotifyRounds(s, x, configured, p); }
    case HandleMessage(configured) => HandleRounds(s, configured, p);
    case Answer(choice, configured) => AnswerRounds(s, choice, configured, p);
    case Announce =>
    case Store => StoreRounds(s, p);
    case OtherJob(req) =>
  }

  /** The thread queues jobs and announces them, no more. */
  lemma UiLeavesWorkers(s: Plugin, t: Plugin)
    requires UiQueueMoves(s, t)
    ensures t.q.control.worker == s.q.control.worker && t.q.data.worker == s.q.data.worker
    ensures s.q.events <= t.q.events && s.q.issued <= t.q.issued
    ensures forall k :: |s.q.events| <= k < |t.q.events| ==> t.q.events[k].Pending?
  {
  }

  lemma UiKeepsCallOk(s: Plugin, t: Plugin)
    requires Paired(s) && CallOk(s) && WorldKept(s, t) && UiQueueMoves(s, t) && PendingMoves(s, t) && UiMoves(s, t)
    ensures CallOk(t)
  {
    UiLeavesWorkers(s, t);
    forall id: nat | ActionOf(t, id).Some? && ActionOf(t, id).value.kind == UploadSave
      ensures 1 <= id <= |t.q.issued| && Fits(t.q.issued[id - 1].req, ActionOf(t, id).value)
    {
      if ActionOf(s, id) == ActionOf(t, id) {
        assert t.q.issued[id - 1] == s.q.issued[id - 1];
      } else {
        assert s.ui.Free? && t.ui.Announcing? && t.ui.job.id == id == s.q.nextId;
        assert t.q.issued == s.q.issued + [t.ui.job];
      }
    }
  }

  /** An upload still to be handled was so before, or its job is the one just queued. */
  lemma UploadsBefore(s: Plugin, t: Plugin, id: nat, p: Path, r: Remote)
    requires Paired(s) && PendingMoves(s, t) && UiMoves(s, t) && Uploads(t, id, p, r)
    ensures Uploads(s, id, p, r) || id == s.q.nextId
  {
  }

  /** A path that has just become fresh has no earlier upload left. */
  lemma FreshMeansNew(s: Plugin, t: Plugin, id: nat, p: Path, r: Remote)
    requires Paired(s) && UiMoves(s, t) && OneRound(t, p) && Uploads(t, id, p, r)
    requires !SaveOf(t, p).inFlight || (t.ui.Announcing? && IsSave(t.ui.action, p))
    ensures t.ui.Announcing? && t.ui.job.id == id
  {
    assert id in SaveIds(t.pending, p) || (!t.ui.Free? && t.ui.job.id == id);
    assert SaveIds(t.pending, p) != {} ==> |SaveIds(t.pending, p)| >= 1;
  }

  /** Jobs the workers hold and jobs that finished have ids below the next one. */
  lemma NextIdIsNew(q: TransferQueue.State)
    requires Inv(q)
    ensures forall lane: Lane :: Held(At(q, lane).worker) != [] ==> At(q, lane).worker.job.id < q.nextId
    ensures forall k :: 0 <= k < |q.events| && q.events[k].Finished? ==> q.events[k].job.id < q.nextId
  {
    forall lane: Lane | Held(At(q, lane).worker) != [] ensures At(q, lane).worker.job.id < q.nextId {
      HeldOnLane(q, lane);
    }
    forall k | 0 <= k < |q.events| && q.events[k].Finished? ensures q.events[k].job.id < q.nextId {
      FinishedIsIssuedOnce(q, k);
    }
  }

  /** What `Kept` says of a fresh path, upload by upload. */
  ghost predicate UploadKept(s: Plugin, id: nat, p: Path, r: Remote) {
    && (s.call.Some? && s.call.value.job.id == id ==> if s.call.value.landed then Stored(s, p, r) else !s.call.value.dirty)
    && (forall lane: Lane | At(s.q, lane).worker.Reporting? && At(s.q, lane).worker.outcome.Completed? ::
          At(s.q, lane).worker.job.id == id ==> Stored(s, p, r))
    && (forall k | 0 <= k < |s.q.events| && s.q.events[k].Finished? && s.q.events[k].outcome.Completed? ::
          s.q.events[k].job.id == id ==> Stored(s, p, r))
  }

  lemma UiKeepsUpload(s: Plugin, t: Plugin, id: nat, p: Path, r: Remote)
    requires Paired(s) && CallOk(s) && WorldKept(s, t) && UiQueueMoves(s, t)
    requires UploadKept(s, id, p, r) || id == s.q.nextId
    ensures UploadKept(t, id, p, r)
  {
    UiLeavesWorkers(s, t);
    NextIdIsNew(s.q);
    assert Stored(t, p, r) == Stored(s, p, r);
  }

  lemma KeptUpload(s: Plugin, id: nat, p: Path, r: Remote)
    requires Kept(s, p) && Fresh(s, p) && Uploads(s, id, p, r)
    ensures UploadKept(s, id, p, r)
  {
  }

  lemma UiKeepsUploads(s: Plugin, t: Plugin, p: Path, end: RoundEnd)
    requires Paired(s) && CallOk(s) && Kept(s, p) && OneRound(t, p) && Rounds(s, t, p, end) && Fresh(t, p)
    requires WorldKept(s, t) && UiQueueMoves(s, t) && PendingMoves(s, t) && UiMoves(s, t)
    requires s.ui.Announcing? ==> Fresh(s, p)
    ensures forall id: nat, r: Remote :: Uploads(t, id, p, r) ==> UploadKept(t, id, p, r)
  {
    forall id: nat, r: Remote | Uploads(t, id, p, r) ensures UploadKept(t, id, p, r) {
      UploadsBefore(s, t, id, p, r);
      if !Fresh(s, p) {
        FreshMeansNew(s, t, id, p, r);
      } else if Uploads(s, id, p, r) {
        KeptUpload(s, id, p, r);
      }
      UiKeepsUpload(s, t, id, p, r);
    }
  }

  /** A path that is idle after the step was so before, or its upload has just been handled. */
  lemma UiKeepsIdle(s: Plugin, t: Plugin, p: Path, r: Remote)
    requires Paired(s) && CallOk(s) && Kept(s, p) && Fresh(t, p) && Idle(t, p, r) && WorldKept(s, t)
    requires Rounds(s, t, p, if Handles(s) then EndInHand(s, p) else NoRound)
    ensures Stored(t, p, r)
  {
    assert Stored(t, p, r) == Stored(s, p, r);
    if !Idle(s, p, r) {
      assert Uploads(s, s.q.events[s.seen].job.id, p, r);
    }
  }

  lemma UiKeeps(s: Plugin, step: UiStep, p: Path)
    requires Paired(s) && CallOk(s) && Kept(s, p) && OneRound(UiApply(s, step), p)
    ensures Kept(UiApply(s, step), p)
  {
    var t := UiApply(s, step);
    var end := if step.HandleMessage? && Handles(s) then EndInHand(s, p) else NoRound;
    UiRounds(s, step, p);
    if Fresh(t, p) {
      UiKeepsUploads(s, t, p, end);
      forall r: Remote | Idle(t, p, r) ensures Stored(t, p, r) {
        UiKeepsIdle(s, t, p, r);
      }
      UploadsKept(t, p);
    }
  }

  lemma UploadsKept(s: Plugin, p: Path)
    requires forall id: nat, r: Remote :: Uploads(s, id, p, r) ==> UploadKept(s, id, p, r)
    ensures CallFresh(s, p) && ReportFresh(s, p) && EventFresh(s, p)
  {
  }

  // ----------------------------------------------------------------- over all runs

  ghost predicate SavesWin(s: Plugin) {
    Safe(s) && CallOk(s) && forall p :: Kept(s, p)
  }

  lemma StepKeepsCallOk(s: Plugin, step: SaveRounds.Step)
    requires Paired(s) && CallOk(s)
    ensures CallOk(SaveRounds.Apply(s, step))
  {
    match step
    case OnUi(u) => UiKeepsCallOk(s, UiApply(s, u));
    case Work(lane, w) => WorkKeepsCallOk(s, lane, w);
    case InWorld(change) => WorldKeepsCallOk(s, change);
  }

  lemma StepKeepsKept(s: Plugin, step: SaveRounds.Step, p: Path)
    requires Paired(s) && CallOk(s) && Kept(s, p) && OneRound(SaveRounds.Apply(s, step), p)
    ensures Kept(SaveRounds.Apply(s, step), p)
  {
    match step
    case OnUi(u) => UiKeeps(s, u, p);
    case Work(lane, w) => WorkKeeps(s, lane, w, p);
    case InWorld(change) => WorldKeeps(s, change, p);
  }

  lemma StepKeepsSavesWin(s: Plugin, step: SaveRounds.Step)
    requires SavesWin(s)
    ensures SavesWin(SaveRounds.Apply(s, step))
  {
    StepKeepsSafe(s, step);
    StepKeepsCallOk(s, step);
    forall p ensures Kept(SaveRounds.Apply(s, step), p) {
      assert Kept(s, p) && OneRound(SaveRounds.Apply(s, step), p);
      StepKeepsKept(s, step, p);
    }
  }

  lemma WorldKeepsCallOk(s: Plugin, change: WorldStep)
    requires CallOk(s)
    ensures CallOk(WorldApply(s, change))
  {
    assert forall id: nat :: ActionOf(WorldApply(s, change), id) == ActionOf(s, id);
  }

  lemma {:induction false} RunKeepsSavesWin(s: Plugin, steps: seq<SaveRounds.Step>)
    requires SaveRounds.Initial(s)
    ensures SavesWin(SaveRounds.Run(s, steps))
  {
    if steps == [] {
      InitialIsSafe(s);
    } else {
      RunKeepsSavesWin(s, steps[..|steps| - 1]);
      StepKeepsSavesWin(SaveRounds.Run(s, steps[..|steps| - 1]), steps[|steps| - 1]);
    }
  }

  /** In every interleaving of saves, worker steps and messages: if no round of the path is in flight, its latest round
      ended in a successful upload, every save has been notified since the file last changed, and nobody else wrote the
      object, then the object holds the file. An upload lands here in one step that stores the file if nobody touched it;
      `SaveRefinement` shows that the uploader does that, and what it needs. A request that takes effect after its call
      has returned counts as another writer. */
  lemma LastSaveWins(s: Plugin, steps: seq<SaveRounds.Step>, p: Path, r: Remote)
    requires SaveRounds.Initial(s)
    ensures var t := SaveRounds.Run(s, steps);
            && !SaveOf(t, p).inFlight && BookOf(t, p).last == Uploaded(r)
            && p !in t.unnotified
            && (forall w :: w in t.writes && w.0 == r ==> w.1 == Some(p))
            ==> p in t.files && r in t.remotes && t.remotes[r] == t.files[p]
  {
    RunKeepsSavesWin(s, steps);
    var t := SaveRounds.Run(s, steps);
    assert Kept(t, p) && OneRound(t, p);
    assert Idle(t, p, r) ==> Stored(t, p, r) || !Fresh(t, p);
  }
}
