/** The whole system is both of its parts: seen from the uploader each of its runs is a run of the upload machine, and seen
    from the plugin it is a run of the save rounds, in which an upload lands as those say. So what holds of all runs of
    either holds here, and the last save wins over the uploader as it is. */
module SaveRefinement {

  import opened StorageTypes
  import opened PartPlan
  import J = UploadJournal
  import U = UploadProtocol
  import Q = TransferQueue
  import S = SaveRounds
  import opened UploadSafety
  import opened UploadCalls
  import opened UploadGuard
  import opened FreshStamps
  import opened SentRequests
  import Safe = SaveSafety
  import Wins = LastSaveWins
  import opened SaveSystem

  /** The object a call is made for. */
  function Target(pc: U.Pc): Option<J.Key> {
    match pc
    case Idle => None
    case Hashing(target, _, _) => Some(target)
    case Putting(target, _, _, _, _) => Some(target)
    case PutDone(target, _, _, _, _) => Some(target)
    case Finding(a) => Some(a.target)
    case Aborting(a, _) => Some(a.target)
    case Listing(a, _) => Some(a.target)
    case Dropping(a, _, _) => Some(a.target)
    case Creating(a, _) => Some(a.target)
    case Beginning(a, _) => Some(a.target)
    case Looping(l) => Some(l.a.target)
    case Sending(l, _) => Some(l.a.target)
    case Recording(l, _) => Some(l.a.target)
    case Completing(l) => Some(l.a.target)
    case Finishing(l) => Some(l.a.target)
  }

  predicate SameFiles(y: System) {
    && y.uploads.files.Keys == y.saves.files.Keys
    && (forall p :: p in y.uploads.files ==> y.uploads.files[p].bytes == y.saves.files[p])
  }

  /** What the uploader is doing is the call that the save rounds see: of its file, for its object, and over the file it
      found as long as that is not marked as touched. */
  ghost predicate SameCall(y: System, c: S.UploadCall) {
    var u, pc := y.uploads, y.uploads.pc;
    && Work(pc).Some? && Work(pc).value.0 == c.job.req.localPath
    && Target(pc).Some? && ObjectOf(Target(pc).value) == S.RemoteOf(c.job.req)
    && (!c.landed && !c.dirty ==> HasStamp(u, Work(pc).value.0, Work(pc).value.1))
    && (!c.landed && !c.dirty && pc.Putting? ==> pc.asPlanned)
  }

  /** The call has landed exactly if what it works on has reached its object. */
  ghost predicate LandsOnce(y: System, landed: bool) {
    var u, pc := y.uploads, y.uploads.pc;
    && (InLoop(pc) && pc.l.uploadId in u.server.completed ==> landed)
    && (pc.Putting? ==> pc.put.target == pc.target && (pc.put in u.server.landedPuts ==> landed))
    && (pc.PutDone? ==> landed)
  }

  ghost predicate Linked(y: System) {
    && SameFiles(y)
    && (y.saves.call.None? ==> y.uploads.pc.Idle?)
    && (!y.uploads.pc.Idle? ==> SameCall(y, y.saves.call.value) && LandsOnce(y, y.saves.call.value.landed))
  }

  /** The call has touched, or already landed, what it would resume from an upload that is stale. */
  predicate Sound(y: System) {
    InLoop(y.uploads.pc) && y.uploads.pc.l.uploadId in y.uploads.stale && y.saves.call.Some? ==>
      y.saves.call.value.dirty || y.saves.call.value.landed
  }

  // ------------------------------------------------------------- steps of the plugin

  lemma PluginLeavesCall(s: S.State, step: S.Step)
    requires Q.Inv(s.q) && IsPlugins(s, step)
    ensures var t := S.Apply(s, step); t.call == s.call && t.files == s.files
  {
    match step
    case OnUi(_) =>
    case Work(lane, w) => WorkLeavesCall(s, lane, w);
    case InWorld(_) =>
  }

  lemma WorkLeavesCall(s: S.State, lane: Q.Lane, w: Q.WorkerStep)
    requires Q.Inv(s.q) && IsPlugins(s, S.Work(lane, w))
    ensures var t := S.WorkerStepOf(s, lane, w); t.call == s.call && t.files == s.files
  {
    if Q.Held(Q.At(s.q, lane).worker) != [] && Q.At(s.q, lane).worker.job.req.op == Q.Upload {
      Wins.UploadsOnDataLane(s.q, lane);
    }
  }

  lemma PluginStaysLinked(y: System, step: S.Step)
    requires Q.Inv(y.saves.q) && Linked(y)
    ensures Linked(Apply(y, Plugin(step)))
  {
    if IsPlugins(y.saves, step) {
      PluginLeavesCall(y.saves, step);
    }
  }

  // ------------------------------------------------------------------ begin and end

  lemma StartWorks(u: U.State, k: J.Key, path: U.Path, threshold: u64, partSize: u64)
    requires u.pc.Idle?
    ensures var t := U.StartStep(u, k, path, threshold, partSize);
            && t.files == u.files
            && (t.pc.Idle?
                || ((t.pc.Hashing? || t.pc.Finding?) && Target(t.pc) == Some(k) && path in u.files
                    && Work(t.pc) == Some((path, u.files[path].stamp))))
  {
  }

  lemma CallBegins(s: S.State)
    requires StartsUpload(s)
    ensures var t := S.WorkerStepOf(s, Q.DataLane, Q.Announce);
            t.call == Some(S.UploadCall(s.q.data.worker.job, false, false)) && t.files == s.files
  {
  }

  lemma BeginStaysLinked(y: System, scope: string, threshold: u64, partSize: u64)
    requires Linked(y)
    ensures Linked(BeginStep(y, scope, threshold, partSize))
  {
    if StartsUpload(y.saves) && y.uploads.pc.Idle? {
      var req := y.saves.q.data.worker.job.req;
      StartWorks(y.uploads, TargetOf(scope, S.RemoteOf(req)), req.localPath, threshold, partSize);
      CallBegins(y.saves);
    }
  }

  lemma EndStaysLinked(y: System, reply: Q.Reply, flushed: bool)
    requires Linked(y)
    ensures Linked(EndStep(y, reply, flushed))
  {
  }

  /** A call whose uploader is through has landed, so its success is a step of the queue. */
  lemma SuccessHasLanded(y: System)
    requires Linked(y) && PcOk(y.uploads) && (y.uploads.pc.Finishing? || y.uploads.pc.PutDone?)
    ensures y.saves.call.Some? && y.saves.call.value.landed
  {
  }

  // ------------------------------------------------------------------------ files

  lemma FileStaysLinked(y: System, u: U.State, p: U.Path, now: Option<Bytes>)
    requires Linked(y) && u == y.uploads.(files := u.files, contents := u.contents)
    requires if now.Some? then p in u.files && u.files == y.uploads.files[p := u.files[p]] && u.files[p].bytes == now.value
             else u.files == y.uploads.files - {p}
    ensures Linked(System(u, S.ChangeFileStep(y.saves, p, now)))
  {
    var t := System(u, S.ChangeFileStep(y.saves, p, now));
    assert SameFiles(t);
    if !u.pc.Idle? {
      var c := y.saves.call.value;
      assert t.saves.call.Some? && t.saves.call.value.landed == c.landed;
    }
  }

  // -------------------------------------------------------------- inside the call

  predicate SameTarget(u: U.State, t: U.State) {
    Target(t.pc) == None || Target(t.pc) == Target(u.pc)
  }

  lemma AdvanceKeepsTarget(u: U.State)
    ensures SameTarget(u, U.AdvanceStep(u))
  {
  }

  lemma ResolveKeepsTarget(u: U.State, move: U.Move)
    requires move.Look? || move.AbortReplied? || move.ListReplied? || move.ListFailed?
    ensures SameTarget(u, U.Moved(u, move))
  {
  }

  lemma ReplyKeepsTarget(u: U.State, move: U.Move)
    requires move.CreateReplied? || move.CreateRefused? || move.PartReplied? || move.CompleteReplied? || move.GiveUp?
    ensures SameTarget(u, U.Moved(u, move))
  {
  }

  lemma MoveKeepsTarget(u: U.State, move: U.Move)
    ensures SameTarget(u, U.Moved(u, move))
  {
    match move
    case HashPut =>
    case PutReplied =>
    case Advance => AdvanceKeepsTarget(u);
    case Look => ResolveKeepsTarget(u, move);
    case AbortReplied => ResolveKeepsTarget(u, move);
    case ListReplied(_) => ResolveKeepsTarget(u, move);
    case ListFailed => ResolveKeepsTarget(u, move);
    case _ => ReplyKeepsTarget(u, move);
  }

  lemma JournalKeepsTarget(u: U.State, change: U.JournalStep)
    ensures var k := Target(U.JournalChanged(u, change).pc); k == None || k == Target(u.pc)
  {
  }

  lemma ServerKeepsTarget(u: U.State, effect: U.ServerStep)
    ensures Target(U.ServerChanged(u, effect).pc) == Target(u.pc)
  {
  }

  lemma InsideKeepsTarget(u: U.State, step: U.Step)
    requires IsInside(step)
    ensures var pc := U.Apply(u, step).pc;
            pc.Idle? || (Target(pc) == Target(u.pc) && Work(pc) == Work(u.pc) && !u.pc.Idle?)
    ensures U.Apply(u, step).files == u.files
  {
    StepKeepsWork(u, step);
    match step
    case Client(move) => MoveKeepsTarget(u, move);
    case Journal(change) => JournalKeepsTarget(u, change);
    case Remote(effect) => ServerKeepsTarget(u, effect);
    case _ =>
  }

  /** A file with its stamp is hashed as planned. */
  lemma MoveHashesAsPlanned(u: U.State, move: U.Move)
    requires Work(u.pc).Some? && HasStamp(u, Work(u.pc).value.0, Work(u.pc).value.1)
    requires u.pc.Putting? ==> u.pc.asPlanned
    ensures var pc := U.Moved(u, move).pc; pc.Putting? ==> pc.asPlanned
  {
    match move
    case HashPut =>
    case Advance =>
    case _ => OtherMovesHashNothing(u, move);
  }

  lemma InsideHashesAsPlanned(u: U.State, step: U.Step)
    requires IsInside(step) && Work(u.pc).Some? && HasStamp(u, Work(u.pc).value.0, Work(u.pc).value.1)
    requires u.pc.Putting? ==> u.pc.asPlanned
    ensures var pc := U.Apply(u, step).pc; pc.Putting? ==> pc.asPlanned
  {
    match step
    case Client(move) => MoveHashesAsPlanned(u, move);
    case _ =>
  }

  lemma InsideStaysSameCall(y: System, step: U.Step, c: S.UploadCall)
    requires IsInside(step) && !y.uploads.pc.Idle? && SameCall(y, c) && !U.Apply(y.uploads, step).pc.Idle?
    ensures SameCall(System(U.Apply(y.uploads, step), y.saves), c)
  {
    InsideKeepsTarget(y.uploads, step);
    if !c.landed && !c.dirty {
      InsideHashesAsPlanned(y.uploads, step);
    }
  }

  /** A loop is only entered with an upload that is not finished. */
  predicate EntersLoop(u: U.State, t: U.State) {
    InLoop(t.pc) ==> (InLoop(u.pc) && t.pc.l.uploadId == u.pc.l.uploadId) || t.pc.l.uploadId !in t.server.completed
  }

  /** A single request is new when it is made, and answered once it has landed. */
  predicate EntersPut(u: U.State, t: U.State) {
    && (t.pc.Putting? ==>
          (u.pc.Putting? && t.pc == u.pc) || (t.pc.put.target == t.pc.target && t.pc.put !in t.server.landedPuts))
    && (t.pc.PutDone? ==> u.pc.PutDone? || (u.pc.Putting? && u.pc.put in u.server.landedPuts))
  }

  lemma ListEntersLoop(u: U.State, remote: set<Part>)
    requires ServerOk(u)
    ensures EntersLoop(u, U.ListStep(u, remote))
  {
  }

  lemma AdvanceEntersLoop(u: U.State)
    ensures EntersLoop(u, U.AdvanceStep(u))
  {
  }

  lemma RepliesStayInLoop(u: U.State, move: U.Move)
    requires move.PartReplied? || move.CompleteReplied? || move.GiveUp?
    ensures EntersLoop(u, U.Moved(u, move))
  {
  }

  lemma OthersStayOutOfLoop(u: U.State, move: U.Move)
    requires move.HashPut? || move.PutReplied? || move.Look? || move.AbortReplied? || move.ListFailed?
             || move.CreateReplied? || move.CreateRefused?
    ensures EntersLoop(u, U.Moved(u, move))
  {
  }

  lemma MoveEntersLoop(u: U.State, move: U.Move)
    requires ServerOk(u)
    ensures EntersLoop(u, U.Moved(u, move))
  {
    match move
    case ListReplied(remote) => ListEntersLoop(u, remote);
    case Advance => AdvanceEntersLoop(u);
    case PartReplied(_) => RepliesStayInLoop(u, move);
    case CompleteReplied => RepliesStayInLoop(u, move);
    case GiveUp => RepliesStayInLoop(u, move);
    case _ => OthersStayOutOfLoop(u, move);
  }

  lemma HashEntersPut(u: U.State)
    requires PutsOk(u)
    ensures EntersPut(u, U.HashPutStep(u))
  {
    HashPutsOk(u);
  }

  lemma ReplyEntersPut(u: U.State)
    ensures EntersPut(u, U.Moved(u, U.PutReplied))
  {
  }

  lemma MoveEntersPut(u: U.State, move: U.Move)
    requires PutsOk(u)
    ensures EntersPut(u, U.Moved(u, move))
  {
    match move
    case HashPut => HashEntersPut(u);
    case PutReplied => ReplyEntersPut(u);
    case Advance =>
    case _ => OtherMovesHashNothing(u, move);
  }

  lemma JournalEnters(u: U.State, change: U.JournalStep)
    requires CompletesOk(u) && NewIsUnsent(u)
    ensures EntersLoop(u, U.JournalChanged(u, change)) && EntersPut(u, U.JournalChanged(u, change))
  {
  }

  lemma ServerKeepsPlace(u: U.State, effect: U.ServerStep)
    ensures var t := U.ServerChanged(u, effect); t.pc == u.pc || t.pc.Creating?
  {
  }

  /** Entering and leaving as it should, the client keeps in step with what has landed. */
  lemma EnteringLandsOnce(u: U.State, t: U.State, s: S.State, landed: bool)
    requires EntersLoop(u, t) && EntersPut(u, t) && t.server == u.server && LandsOnce(System(u, s), landed)
    ensures LandsOnce(System(t, s), landed)
  {
  }

  /** The client's own steps inside the call leave what has landed alone. */
  lemma ClientLandsOnce(y: System, step: U.Step, landed: bool)
    requires Inv(y.uploads) && SentOk(y.uploads) && LandsOnce(y, landed)
    requires step.Client? || step.Journal?
    ensures LandsOnce(System(U.Apply(y.uploads, step), y.saves), landed)
  {
    match step
    case Client(move) =>
      MoveEntersLoop(y.uploads, move);
      MoveEntersPut(y.uploads, move);
      EnteringLandsOnce(y.uploads, U.Moved(y.uploads, move), y.saves, landed);
    case Journal(change) =>
      JournalEnters(y.uploads, change);
      EnteringLandsOnce(y.uploads, U.JournalChanged(y.uploads, change), y.saves, landed);
  }

  lemma ClientStaysLinked(y: System, step: U.Step)
    requires Inv(y.uploads) && SentOk(y.uploads) && Linked(y) && IsInside(step) && !step.Remote?
    ensures Linked(InsideStep(y, step))
  {
    InsideKeepsTarget(y.uploads, step);
    if !U.Apply(y.uploads, step).pc.Idle? {
      InsideStaysSameCall(y, step, y.saves.call.value);
      if !step.CreateLost? {
        ClientLandsOnce(y, step, y.saves.call.value.landed);
      }
    }
  }

  // ----------------------------------------------------------------- landing

  /** What the server finishes or stores in this step. */
  lemma ServerLands(u: U.State, effect: U.ServerStep)
    requires ServerOk(u)
    ensures var t := U.ServerChanged(u, effect);
            && (forall id :: id in t.server.completed ==> id in u.server.completed || Assembles(u, U.Remote(effect), id))
            && (forall p :: p in t.server.landedPuts ==>
                  p in u.server.landedPuts || (effect == U.Put(p) && p in u.putRequests))
  {
  }

  /** The call the save rounds see after this step, which lands it or leaves it alone. */
  lemma ReachedCall(s: S.State, k: J.Key, bytes: Bytes, ofCall: bool)
    requires ofCall ==> s.call.Some?
    ensures var t := Reached(s, k, bytes, ofCall);
            && t.files == s.files
            && t.call == if ofCall then Some(s.call.value.(landed := true)) else s.call
  {
  }

  lemma CompleteLandsOnce(y: System, r: U.CompleteRequest)
    requires ServerOk(y.uploads) && y.saves.call.Some? && LandsOnce(y, y.saves.call.value.landed)
    ensures var t := InsideStep(y, U.Remote(U.Complete(r)));
            t.saves.call.Some? && LandsOnce(t, t.saves.call.value.landed)
  {
    var step := U.Remote(U.Complete(r));
    var u := U.Apply(y.uploads, step);
    ServerLands(y.uploads, U.Complete(r));
    assert u.pc == y.uploads.pc;
    if Assembles(y.uploads, step, r.uploadId) {
      ReachedCall(y.saves, u.births[r.uploadId].target, u.server.completed[r.uploadId].1, CallsUpload(y, r.uploadId));
    }
  }

  lemma PutReaches(y: System, r: U.PutRequest)
    requires r in y.uploads.putRequests
    ensures var step := U.Remote(U.Put(r));
            && InsideStep(y, step) == System(U.ServerPutStep(y.uploads, r), Reached(y.saves, r.target, r.bytes, CallsPut(y, r)))
            && InsideAsSave(y, step) == Some(ReachesAs(r.target, r.bytes, CallsPut(y, r)))
  {
  }

  lemma PutIsUnknown(y: System, r: U.PutRequest)
    requires r !in y.uploads.putRequests
    ensures var step := U.Remote(U.Put(r)); InsideStep(y, step) == y && InsideAsSave(y, step) == None
  {
  }

  lemma PutLandsOnce(y: System, r: U.PutRequest)
    requires y.saves.call.Some? && LandsOnce(y, y.saves.call.value.landed)
    ensures var t := InsideStep(y, U.Remote(U.Put(r)));
            t.saves.call.Some? && LandsOnce(t, t.saves.call.value.landed)
  {
    if r in y.uploads.putRequests {
      PutReaches(y, r);
      ReachedCall(y.saves, r.target, r.bytes, CallsPut(y, r));
    } else {
      PutIsUnknown(y, r);
    }
  }

  lemma OtherLandsNothing(y: System, effect: U.ServerStep)
    requires ServerOk(y.uploads) && y.saves.call.Some? && LandsOnce(y, y.saves.call.value.landed)
    requires !effect.Complete? && !effect.Put?
    ensures var t := InsideStep(y, U.Remote(effect));
            t.saves == y.saves && LandsOnce(t, t.saves.call.value.landed)
  {
    ServerLands(y.uploads, effect);
    ServerKeepsPlace(y.uploads, effect);
  }

  lemma RemoteLandsOnce(y: System, effect: U.ServerStep)
    requires ServerOk(y.uploads) && y.saves.call.Some? && LandsOnce(y, y.saves.call.value.landed)
    ensures var t := InsideStep(y, U.Remote(effect));
            t.saves.call.Some? && LandsOnce(t, t.saves.call.value.landed)
  {
    match effect
    case Complete(r) => CompleteLandsOnce(y, r);
    case Put(r) => PutLandsOnce(y, r);
    case _ => OtherLandsNothing(y, effect);
  }

  /** Landing tells the save rounds no more than that. */
  ghost predicate TellsLittle(y: System, t: System) {
    && SameFiles(t) && t.saves.call.Some? == y.saves.call.Some?
    && (t.saves.call.Some? ==>
          t.saves.call == y.saves.call || t.saves.call.value == y.saves.call.value.(landed := true))
  }

  lemma ReachedTellsLittle(y: System, u: U.State, k: J.Key, bytes: Bytes, ofCall: bool)
    requires SameFiles(y) && u.files == y.uploads.files && (ofCall ==> y.saves.call.Some?)
    ensures TellsLittle(y, System(u, Reached(y.saves, k, bytes, ofCall)))
  {
  }

  lemma RemoteTellsLittle(y: System, effect: U.ServerStep)
    requires SameFiles(y)
    ensures var t := InsideStep(y, U.Remote(effect));
            TellsLittle(y, t) && t.uploads == U.ServerChanged(y.uploads, effect)
  {
    var u := U.ServerChanged(y.uploads, effect);
    match effect
    case Complete(r) =>
      if Assembles(y.uploads, U.Remote(effect), r.uploadId) {
        ReachedTellsLittle(y, u, u.births[r.uploadId].target, u.server.completed[r.uploadId].1, CallsUpload(y, r.uploadId));
      }
    case Put(r) => ReachedTellsLittle(y, u, r.target, r.bytes, CallsPut(y, r));
    case _ =>
  }

  lemma RemoteStaysLinked(y: System, effect: U.ServerStep)
    requires Inv(y.uploads) && Linked(y)
    ensures Linked(InsideStep(y, U.Remote(effect)))
  {
    var t := InsideStep(y, U.Remote(effect));
    RemoteTellsLittle(y, effect);
    ServerKeepsPlace(y.uploads, effect);
    if !t.uploads.pc.Idle? {
      InsideStaysSameCall(y, U.Remote(effect), y.saves.call.value);
      RemoteLandsOnce(y, effect);
    }
  }

  lemma InsideStaysLinked(y: System, step: U.Step)
    requires Inv(y.uploads) && SentOk(y.uploads) && Linked(y)
    ensures Linked(InsideStep(y, step))
  {
    if IsInside(step) {
      if step.Remote? { RemoteStaysLinked(y, step.effect); } else { ClientStaysLinked(y, step); }
    }
  }

  lemma WriteStaysLinked(y: System, p: U.Path, stamp: U.Stamp, bytes: Bytes)
    requires Linked(y)
    ensures Linked(Apply(y, WriteFile(p, stamp, bytes)))
  {
    if Writable(y.uploads, stamp, bytes) {
      FileStaysLinked(y, U.WriteStep(y.uploads, p, stamp, bytes), p, Some(bytes));
    }
  }

  lemma StepStaysLinked(y: System, step: Step)
    requires Inv(y.uploads) && SentOk(y.uploads) && Q.Inv(y.saves.q) && Linked(y)
    ensures Linked(Apply(y, step))
  {
    match step
    case Plugin(p) => PluginStaysLinked(y, p);
    case Begin(scope, threshold, partSize) => BeginStaysLinked(y, scope, threshold, partSize);
    case Inside(u) => InsideStaysLinked(y, u);
    case End(reply, flushed) => EndStaysLinked(y, reply, flushed);
    case WriteFile(p, stamp, bytes) => WriteStaysLinked(y, p, stamp, bytes);
    case DeleteFile(p) => FileStaysLinked(y, U.Apply(y.uploads, U.DeleteFile(p)), p, None);
    case ChangeObject(r, now) =>
  }

  // -------------------------------------------------------------------- refinement

  /** What an upload leaves in its object is what the save rounds let it leave: the file as it is, or anything once that
      was touched. */
  lemma UploadLandsAsSave(y: System, u: U.State, id: U.UploadId)
    requires Linked(y) && Sound(y) && PcOk(y.uploads) && FilesOk(y.uploads) && CallsUpload(y, id)
    requires Inv(u) && SentOk(u) && id in u.server.completed && u.births == y.uploads.births
    requires u.contents == y.uploads.contents && u.stale == y.uploads.stale
    ensures var k, bytes := u.births[id].target, u.server.completed[id].1;
            Landed(y.saves, k, bytes) == S.LandStep(y.saves, bytes)
  {
    FinishedIsFile(u, id);
    var c := y.saves.call.value;
    if !c.dirty {
      var path := c.job.req.localPath;
      assert HasStamp(y.uploads, path, y.uploads.pc.l.a.stamp);
      assert u.server.completed[id].1 == y.saves.files[path];
    }
  }

  lemma PutLandsAsSave(y: System, r: U.PutRequest)
    requires Linked(y) && PcOk(y.uploads) && FilesOk(y.uploads) && CallsPut(y, r)
    ensures Landed(y.saves, r.target, r.bytes) == S.LandStep(y.saves, r.bytes)
  {
    var c := y.saves.call.value;
    if !c.dirty {
      assert HasStamp(y.uploads, c.job.req.localPath, y.uploads.pc.stamp);
      assert r.bytes == y.saves.files[c.job.req.localPath];
    }
  }

  function SavesApply(s: S.State, step: Option<S.Step>): S.State {
    match step
    case Some(p) => S.Apply(s, p)
    case None => s
  }

  function UploadsApply(u: U.State, step: Option<U.Step>): U.State {
    match step
    case Some(p) => U.Apply(u, p)
    case None => u
  }

  lemma ReachedAsSave(s: S.State, k: J.Key, bytes: Bytes, ofCall: bool)
    requires ofCall ==> s.call.Some? && Landed(s, k, bytes) == S.LandStep(s, bytes)
    ensures Reached(s, k, bytes, ofCall) == S.Apply(s, ReachesAs(k, bytes, ofCall))
  {
  }

  lemma AssembledReaches(y: System, r: U.CompleteRequest)
    requires Assembles(y.uploads, U.Remote(U.Complete(r)), r.uploadId)
    ensures var step, id := U.Remote(U.Complete(r)), r.uploadId;
            var u := U.ServerCompleteStep(y.uploads, r);
            && InsideStep(y, step).saves
               == Reached(y.saves, u.births[id].target, u.server.completed[id].1, CallsUpload(y, id))
            && InsideAsSave(y, step)
               == Some(ReachesAs(u.births[id].target, u.server.completed[id].1, CallsUpload(y, id)))
  {
  }

  lemma ServerCompleteStaysOk(u: U.State, r: U.CompleteRequest)
    requires Inv(u) && SentOk(u)
    ensures var t := U.ServerCompleteStep(u, r);
            Inv(t) && SentOk(t) && t.births == u.births && t.contents == u.contents && t.stale == u.stale
  {
    CompleteIsItsStep(u, r);
    StepKeepsInv(u, U.Remote(U.Complete(r)));
    StepKeepsSentOk(u, U.Remote(U.Complete(r)));
  }

  lemma CompleteIsItsStep(u: U.State, r: U.CompleteRequest)
    ensures var t := U.ServerCompleteStep(u, r);
            U.Apply(u, U.Remote(U.Complete(r))) == t && t.births == u.births && t.contents == u.contents && t.stale == u.stale
  {
  }

  lemma AssembledAsSave(y: System, id: U.UploadId, u: U.State)
    requires PcOk(y.uploads) && FilesOk(y.uploads) && Linked(y) && Sound(y)
    requires Inv(u) && SentOk(u) && id in u.server.completed && id in u.births && u.births == y.uploads.births
    requires u.contents == y.uploads.contents && u.stale == y.uploads.stale
    ensures var k, bytes, ofCall := u.births[id].target, u.server.completed[id].1, CallsUpload(y, id);
            Reached(y.saves, k, bytes, ofCall) == S.Apply(y.saves, ReachesAs(k, bytes, ofCall))
  {
    if CallsUpload(y, id) {
      UploadLandsAsSave(y, u, id);
    }
    ReachedAsSave(y.saves, u.births[id].target, u.server.completed[id].1, CallsUpload(y, id));
  }

  lemma NotAssembled(y: System, r: U.CompleteRequest)
    requires !Assembles(y.uploads, U.Remote(U.Complete(r)), r.uploadId)
    ensures var step := U.Remote(U.Complete(r));
            InsideStep(y, step).saves == y.saves && InsideAsSave(y, step) == None
  {
  }

  lemma CompleteRefinesSaves(y: System, r: U.CompleteRequest)
    requires Inv(y.uploads) && SentOk(y.uploads) && Linked(y) && Sound(y)
    ensures var step := U.Remote(U.Complete(r));
            InsideStep(y, step).saves == SavesApply(y.saves, InsideAsSave(y, step))
  {
    if Assembles(y.uploads, U.Remote(U.Complete(r)), r.uploadId) {
      AssembledReaches(y, r);
      ServerCompleteStaysOk(y.uploads, r);
      AssembledAsSave(y, r.uploadId, U.ServerCompleteStep(y.uploads, r));
    } else {
      NotAssembled(y, r);
    }
  }

  lemma PutRefinesSaves(y: System, r: U.PutRequest)
    requires PcOk(y.uploads) && FilesOk(y.uploads) && Linked(y)
    ensures var step := U.Remote(U.Put(r));
            InsideStep(y, step).saves == SavesApply(y.saves, InsideAsSave(y, step))
  {
    if r in y.uploads.putRequests {
      PutReaches(y, r);
      if CallsPut(y, r) {
        PutLandsAsSave(y, r);
      }
      ReachedAsSave(y.saves, r.target, r.bytes, CallsPut(y, r));
    } else {
      PutIsUnknown(y, r);
    }
  }

  lemma InsideRefinesSaves(y: System, step: U.Step)
    requires Inv(y.uploads) && SentOk(y.uploads) && Linked(y) && Sound(y)
    ensures InsideStep(y, step).saves == SavesApply(y.saves, InsideAsSave(y, step))
  {
    if step.Remote? {
      match step.effect
      case Complete(r) => CompleteRefinesSaves(y, r);
      case Put(r) => PutRefinesSaves(y, r);
      case _ =>
    }
  }

  lemma StepRefinesSaves(y: System, step: Step)
    requires Inv(y.uploads) && SentOk(y.uploads) && Linked(y) && Sound(y)
    ensures Apply(y, step).saves == SavesApply(y.saves, SavesStep(y, step))
  {
    if step.Inside? {
      InsideRefinesSaves(y, step.upload);
    } else {
      OtherRefinesSaves(y, step);
    }
  }

  lemma OtherRefinesSaves(y: System, step: Step)
    requires !step.Inside?
    ensures Apply(y, step).saves == SavesApply(y.saves, SavesStep(y, step))
  {
  }

  lemma StepRefinesUploads(y: System, step: Step)
    ensures Apply(y, step).uploads == UploadsApply(y.uploads, UploadsStep(y, step))
  {
  }

  // ------------------------------------------------------------------ whole runs

  /** A session of the plugin over the journal, files and uploads that earlier sessions left. */
  ghost predicate Starts(first: U.State, earlier: seq<U.Step>, y: System) {
    && Initial(first) && y.uploads == U.Run(first, earlier) && y.uploads.pc.Idle?
    && S.Initial(y.saves) && SameFiles(y)
  }

  predicate SoundRun(y: System, steps: seq<Step>) {
    steps == [] || (SoundRun(y, steps[..|steps| - 1]) && Sound(Run(y, steps[..|steps| - 1])))
  }

  lemma OneMoreSave(s: S.State, steps: seq<S.Step>, step: Option<S.Step>)
    ensures S.Run(s, steps + match step case Some(p) => [p] case None => []) == SavesApply(S.Run(s, steps), step)
  {
    match step
    case Some(p) => assert (steps + [p])[..|steps|] == steps;
    case None => assert steps + [] == steps;
  }

  lemma OneMoreUpload(first: U.State, earlier: seq<U.Step>, steps: seq<U.Step>, step: Option<U.Step>)
    ensures U.Run(first, earlier + (steps + match step case Some(p) => [p] case None => []))
         == UploadsApply(U.Run(first, earlier + steps), step)
  {
    match step
    case Some(p) =>
      assert earlier + (steps + [p]) == (earlier + steps) + [p];
      assert ((earlier + steps) + [p])[..|earlier + steps|] == earlier + steps;
    case None => assert steps + [] == steps;
  }

  /** In each part the system's run is a run of its own. */
  ghost predicate Refines(first: U.State, earlier: seq<U.Step>, y: System, steps: seq<Step>) {
    var t := Run(y, steps);
    && t.saves == S.Run(y.saves, SavesRun(y, steps))
    && t.uploads == U.Run(first, earlier + UploadsRun(y, steps))
    && Linked(t)
  }

  lemma {:induction false} SystemRefines(first: U.State, earlier: seq<U.Step>, y: System, steps: seq<Step>)
    requires Starts(first, earlier, y) && SoundRun(y, steps)
    ensures Refines(first, earlier, y, steps)
  {
    if steps == [] {
      assert earlier + [] == earlier;
    } else {
      var front, last := steps[..|steps| - 1], steps[|steps| - 1];
      SystemRefines(first, earlier, y, front);
      var t := Run(y, front);
      RunKeepsInv(first, earlier + UploadsRun(y, front));
      RunKeepsSentOk(first, earlier + UploadsRun(y, front));
      Wins.RunKeepsSavesWin(y.saves, SavesRun(y, front));
      StepStaysLinked(t, last);
      StepRefinesSaves(t, last);
      StepRefinesUploads(t, last);
      OneMoreSave(y.saves, SavesRun(y, front), SavesStep(t, last));
      OneMoreUpload(first, earlier, UploadsRun(y, front), UploadsStep(t, last));
    }
  }

  // ------------------------------------------------------ runs without stale uploads

  /** Every hash sees the stamp its call found, or no stamp is ever used twice. */
  ghost predicate SafeRun(first: U.State, steps: seq<U.Step>) {
    Guarded(first, steps) || (Distinct(first) && FreshRun(first, steps))
  }

  lemma SafeBefore(first: U.State, earlier: seq<U.Step>, steps: seq<U.Step>, step: Option<U.Step>)
    requires SafeRun(first, earlier + (steps + match step case Some(p) => [p] case None => []))
    ensures SafeRun(first, earlier + steps)
  {
    match step
    case Some(p) =>
      assert earlier + (steps + [p]) == (earlier + steps) + [p];
      assert ((earlier + steps) + [p])[..|earlier + steps|] == earlier + steps;
    case None => assert steps + [] == steps;
  }

  /** What is stale belongs to a stamp that is gone, so the call's file has been touched. */
  lemma GoneStampIsSound(y: System)
    requires PcOk(y.uploads) && FreshOk(y.uploads) && Linked(y)
    ensures Sound(y)
  {
  }

  lemma SafeIsSound(first: U.State, steps: seq<U.Step>, y: System)
    requires Initial(first) && SafeRun(first, steps) && y.uploads == U.Run(first, steps) && Linked(y)
    ensures Sound(y)
  {
    if Guarded(first, steps) {
      GuardedGetsNothingStale(first, steps);
    } else {
      RunKeepsInv(first, steps);
      RunKeepsFreshOk(first, steps);
      GoneStampIsSound(y);
    }
  }

  lemma {:induction false} SafeRunIsSound(first: U.State, earlier: seq<U.Step>, y: System, steps: seq<Step>)
    requires Starts(first, earlier, y) && SafeRun(first, earlier + UploadsRun(y, steps))
    ensures SoundRun(y, steps)
  {
    if steps != [] {
      var front := steps[..|steps| - 1];
      SafeBefore(first, earlier, UploadsRun(y, front), UploadsStep(Run(y, front), steps[|steps| - 1]));
      SafeRunIsSound(first, earlier, y, front);
      SystemRefines(first, earlier, y, front);
      SafeIsSound(first, earlier + UploadsRun(y, front), Run(y, front));
    }
  }

  // --------------------------------------------------------------------- theorem

  /** From the save to the object. A session of the plugin starts over whatever journal, files and uploads earlier
      sessions left, and then saves, handlers, dialogs, queue, hashes, requests, replies, late effects, edits and other
      writers interleave in any way, as long as a file is hashed only with the stamp its call found, or stamps are never
      used twice. If then no round of the path is in flight, its latest round ended in a successful upload, every save has
      been notified since the file last changed, and nobody else wrote the object, the object holds the file. */
  lemma SavedFileIsStored(first: U.State, earlier: seq<U.Step>, y: System, steps: seq<Step>, p: S.Path, r: S.Remote)
    requires Starts(first, earlier, y) && SafeRun(first, earlier + UploadsRun(y, steps))
    ensures var t := Run(y, steps);
            && !S.SaveOf(t.saves, p).inFlight && S.BookOf(t.saves, p).last == S.Uploaded(r)
            && p !in t.saves.unnotified
            && (forall w :: w in t.saves.writes && w.0 == r ==> w.1 == Some(p))
            ==> p in t.uploads.files && r in t.saves.remotes && t.saves.remotes[r] == t.uploads.files[p].bytes
  {
    SafeRunIsSound(first, earlier, y, steps);
    SystemRefines(first, earlier, y, steps);
    Wins.LastSaveWins(y.saves, SavesRun(y, steps), p, r);
  }

  lemma StartFindsIdle(y: System)
    requires Linked(y) && Wins.CallTracked(y.saves) && StartsUpload(y.saves)
    ensures y.uploads.pc.Idle?
  {
  }

  lemma SuccessIsReported(y: System, etag: string)
    requires Linked(y) && Wins.CallTracked(y.saves) && PcOk(y.uploads) && (y.uploads.pc.Finishing? || y.uploads.pc.PutDone?)
    ensures InUpload(y.saves) && S.WorkerStepOf(y.saves, Q.DataLane, Q.Respond(Q.Ok(etag))).q.data.worker.Reporting?
  {
    SuccessHasLanded(y);
  }

  /** Putting the parts together blocks nothing: a worker that is about to make an upload call finds the uploader idle,
      and one whose uploader is through can report success. */
  lemma CallsAreNotBlocked(first: U.State, earlier: seq<U.Step>, y: System, steps: seq<Step>, etag: string)
    requires Starts(first, earlier, y) && SafeRun(first, earlier + UploadsRun(y, steps))
    ensures var t := Run(y, steps);
            && (StartsUpload(t.saves) ==> t.uploads.pc.Idle?)
            && (t.uploads.pc.Finishing? || t.uploads.pc.PutDone? ==>
                  InUpload(t.saves)
                  && S.WorkerStepOf(t.saves, Q.DataLane, Q.Respond(Q.Ok(etag))).q.data.worker.Reporting?)
  {
    SafeRunIsSound(first, earlier, y, steps);
    SystemRefines(first, earlier, y, steps);
    var t := Run(y, steps);
    Wins.RunKeepsSavesWin(y.saves, SavesRun(y, steps));
    RunKeepsInv(first, earlier + UploadsRun(y, steps));
    if StartsUpload(t.saves) {
      StartFindsIdle(t);
    }
    if t.uploads.pc.Finishing? || t.uploads.pc.PutDone? {
      SuccessIsReported(t, etag);
    }
  }
}
