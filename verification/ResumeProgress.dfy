/** What resuming is for: after an attempt that failed, the next one for the same target does not send again what was
    recorded, as long as nobody aborts the upload, cleans its entry up, changes the file or loses a flush. */
module ResumeProgress {

  import opened PartPlan
  import opened StorageTypes
  import opened UploadJournal
  import opened UploadProtocol
  import opened UploadSafety
  import opened UploadGuard

  /** What the service lists for a live upload: the current parts, with the sizes it holds. */
  function Listed(s: State, id: UploadId): set<Part>
    requires id in s.server.live
  {
    set n | n in s.server.live[id] && (id, n, s.server.live[id][n]) in s.server.stored
            && |s.server.stored[(id, n, s.server.live[id][n])]| < U64
         :: Part(n, |s.server.stored[(id, n, s.server.live[id][n])]|, s.server.live[id][n])
  }

  /** The part recorded under this number is the one the service holds now. */
  predicate Current(s: State, e: View, n: int) {
    && n in e.parts && e.uploadId in s.server.live
    && n in s.server.live[e.uploadId] && s.server.live[e.uploadId][n] == e.parts[n].etag
  }

  lemma CurrentIsListed(s: State, k: Key, e: View, n: int)
    requires Inv(s) && EntryOk(s, k, e) && n in e.parts && e.uploadId in s.server.live
    ensures e.parts[n] in Listed(s, e.uploadId) <==> Current(s, e, n)
  {
    var id := e.uploadId;
    assert PartOk(s, id, n, e.parts[n]);
    if Current(s, e, n) {
      assert PartRequest(id, n, s.server.stored[(id, n, e.parts[n].etag)]) in s.partRequests;
    }
  }

  function NextAttempt(k: Key, path: Path, threshold: u64, partSize: u64, remote: set<Part>): seq<Step> {
    [Start(k, path, threshold, partSize), Client(Look), Client(ListReplied(remote))]
  }

  lemma StartsAttempt(s: State, a: Attempt, threshold: u64, partSize: u64)
    requires s.pc.Idle? && HasStamp(s, a.path, a.stamp) && threshold <= a.stamp.size
    requires PlanMultipartUpload(a.stamp.size, partSize, MAX_PARTS) == Planned.Success(a.plan)
    ensures var t := StartStep(s, a.target, a.path, threshold, partSize);
            t.pc == Finding(a) && t.journal == s.journal && t.server == s.server
  {
  }

  /** The entry describes this very file and plan. */
  predicate Matches(e: View, a: Attempt) {
    a.stamp == Stamp(e.fileSize, e.fileTime) && a.plan.partSize == e.partSize
  }

  lemma FindsEntry(s: State, a: Attempt, remote: set<Part>)
    requires s.pc == Finding(a) && a.target in s.journal && Matches(s.journal[a.target], a)
    requires var id := s.journal[a.target].uploadId;
             id in s.server.live && forall p :: p in remote ==> (id, p.partNumber, p.etag) in s.server.stored
    ensures var e := s.journal[a.target];
            ListStep(LookStep(s), remote).pc == Looping(Loop(a, e.uploadId, Trusted(a, e, remote), 1, [], {}))
  {
    assert LookStep(s) == s.(pc := Listing(a, s.journal[a.target]));
  }

  /** An attempt over an unchanged file with the same plan goes on with the journalled upload if that is alive. */
  lemma AttemptResumes(s: State, a: Attempt, threshold: u64, partSize: u64, remote: set<Part>)
    requires s.pc.Idle? && HasStamp(s, a.path, a.stamp) && threshold <= a.stamp.size
    requires PlanMultipartUpload(a.stamp.size, partSize, MAX_PARTS) == Planned.Success(a.plan)
    requires a.target in s.journal && Matches(s.journal[a.target], a)
    requires var id := s.journal[a.target].uploadId;
             id in s.server.live && forall p :: p in remote ==> (id, p.partNumber, p.etag) in s.server.stored
    ensures var e := s.journal[a.target];
            Run(s, NextAttempt(a.target, a.path, threshold, partSize, remote)).pc
            == Looping(Loop(a, e.uploadId, Trusted(a, e, remote), 1, [], {}))
  {
    Three(s, Start(a.target, a.path, threshold, partSize), Client(Look), Client(ListReplied(remote)));
    StartsAttempt(s, a, threshold, partSize);
    FindsEntry(StartStep(s, a.target, a.path, threshold, partSize), a, remote);
  }

  function CurrentParts(s: State, e: View): map<int, Part> {
    map n | n in e.parts && Current(s, e, n) :: e.parts[n]
  }

  lemma TrustedIsCurrent(s: State, a: Attempt, e: View)
    requires Inv(s) && EntryOk(s, a.target, e) && e.uploadId in s.server.live && s.births[e.uploadId] == BirthOf(a)
    ensures Trusted(a, e, Listed(s, e.uploadId)) == CurrentParts(s, e)
  {
    forall n | n in e.parts
      ensures n in Trusted(a, e, Listed(s, e.uploadId)) <==> Current(s, e, n)
    {
      assert PartOk(s, e.uploadId, n, e.parts[n]);
      CurrentIsListed(s, a.target, e, n);
    }
  }

  /** Given the whole listing, the next attempt takes over exactly the recorded parts that the service still holds. */
  lemma TakesOverCurrentParts(s: State, a: Attempt, threshold: u64, partSize: u64)
    requires Inv(s) && s.pc.Idle? && HasStamp(s, a.path, a.stamp) && threshold <= a.stamp.size
    requires PlanMultipartUpload(a.stamp.size, partSize, MAX_PARTS) == Planned.Success(a.plan)
    requires a.target in s.journal && Matches(s.journal[a.target], a)
    requires s.journal[a.target].uploadId in s.server.live
    ensures var e := s.journal[a.target];
            Run(s, NextAttempt(a.target, a.path, threshold, partSize, Listed(s, e.uploadId))).pc
            == Looping(Loop(a, e.uploadId, CurrentParts(s, e), 1, [], {}))
  {
    var e := s.journal[a.target];
    assert EntryOk(s, a.target, e);
    SamePlan(s, a, partSize, e);
    AttemptResumes(s, a, threshold, partSize, Listed(s, e.uploadId));
    TrustedIsCurrent(s, a, e);
  }

  lemma SamePlan(s: State, a: Attempt, partSize: u64, e: View)
    requires FilesOk(s) && ServerOk(s) && EntryOk(s, a.target, e) && HasStamp(s, a.path, a.stamp) && Matches(e, a)
    requires PlanMultipartUpload(a.stamp.size, partSize, MAX_PARTS) == Planned.Success(a.plan)
    ensures s.births[e.uploadId] == BirthOf(a)
  {
    PlanIsValid(a.stamp.size, partSize, MAX_PARTS);
    MatchedEntry(s, a, e);
  }

  // ----------------------------------------------------------- between attempts

  /** A step that leaves this target, its upload and its file alone; a restart must be able to read the journal. */
  predicate Quiet(step: Step, k: Key, id: UploadId, path: Path) {
    match step
    case Start(target, _, _, _) => target != k
    case Journal(change) => !(change.CleanupRemove? && change.key == k)
    case WriteFile(p, _, _) => p != path
    case DeleteFile(p) => p != path
    case Crash(reload) => reload.Read?
    case Remote(effect) => (match effect
                            case Abort(i) => i != id
                            case Store(r, _) => r.uploadId != id
                            case Complete(r) => r.uploadId != id
                            case _ => true)
    case _ => true
  }

  /** The target whose journal entry the client may change. */
  function WorksFor(pc: Pc): Option<Key> {
    match pc
    case Finding(a) => Some(a.target)
    case Aborting(a, _) => Some(a.target)
    case Listing(a, _) => Some(a.target)
    case Dropping(a, _, _) => Some(a.target)
    case Creating(a, _) => Some(a.target)
    case Beginning(a, _) => Some(a.target)
    case Looping(l) => Some(l.a.target)
    case Sending(l, _) => Some(l.a.target)
    case Recording(l, _) => Some(l.a.target)
    case Completing(l) => Some(l.a.target)
    case Finishing(l) => Some(l.a.target)
    case _ => None
  }

  /** Entry, upload and file wait as the failed attempt left them. */
  predicate Waits(s: State, k: Key, e: View, path: Path, stamp: Stamp) {
    && k in s.journal && s.journal[k] == e && k in s.disk && s.disk[k] == e
    && e.uploadId in s.server.live && (forall n :: n in e.parts ==> Current(s, e, n))
    && HasStamp(s, path, stamp) && WorksFor(s.pc) != Some(k)
  }

  /** The entry on record, in memory and on disk. */
  predicate OnRecord(s: State, k: Key, e: View) {
    k in s.journal && s.journal[k] == e && k in s.disk && s.disk[k] == e
  }

  lemma JournalLeavesEntry(s: State, change: JournalStep, k: Key, e: View)
    requires OnRecord(s, k, e) && WorksFor(s.pc) != Some(k) && !(change.CleanupRemove? && change.key == k)
    ensures OnRecord(JournalChanged(s, change), k, e) && WorksFor(JournalChanged(s, change).pc) != Some(k)
  {
  }

  lemma MoveLeavesEntry(s: State, move: Move, k: Key)
    requires WorksFor(s.pc) != Some(k)
    ensures WorksFor(Moved(s, move).pc) != Some(k)
  {
  }

  lemma ServerLeavesUpload(s: State, effect: ServerStep, k: Key, id: UploadId)
    requires ServerOk(s) && id in s.server.live && WorksFor(s.pc) != Some(k) && Quiet(Remote(effect), k, id, "")
    ensures var t := ServerChanged(s, effect);
            id in t.server.live && t.server.live[id] == s.server.live[id] && WorksFor(t.pc) != Some(k)
  {
  }

  lemma StepWaits(s: State, step: Step, k: Key, e: View, path: Path, stamp: Stamp)
    requires ServerOk(s) && Waits(s, k, e, path, stamp) && Quiet(step, k, e.uploadId, path)
    ensures Waits(Apply(s, step), k, e, path, stamp)
  {
    match step
    case Client(move) => MoveLeavesEntry(s, move, k);
    case Journal(change) => JournalLeavesEntry(s, change, k, e);
    case Remote(effect) => ServerLeavesUpload(s, effect, k, e.uploadId);
    case _ =>
  }

  lemma {:induction false} RunWaits(s: State, steps: seq<Step>, k: Key, e: View, path: Path, stamp: Stamp)
    requires Inv(s) && Waits(s, k, e, path, stamp)
    requires forall i :: 0 <= i < |steps| ==> Quiet(steps[i], k, e.uploadId, path)
    ensures Waits(Run(s, steps), k, e, path, stamp)
  {
    if steps != [] {
      RunWaits(s, steps[..|steps| - 1], k, e, path, stamp);
      RunStaysOk(s, steps[..|steps| - 1]);
      StepWaits(Run(s, steps[..|steps| - 1]), steps[|steps| - 1], k, e, path, stamp);
    }
  }

  // ------------------------------------------------------------ the next attempt

  /** An attempt ends without having finished: a call failed, or the program stopped and found its journal again. */
  predicate Fails(pc: Pc, end: Step) {
    InLoop(pc) && (end == Crash(Read) || (end == Client(GiveUp) && (pc.Looping? || pc.Sending? || pc.Completing?)))
  }

  /** Its entry is on record with nothing lost, the service holds every recorded part, the file is unchanged. */
  predicate LeftInOrder(s: State, l: Loop) {
    && l.a.target in s.journal && OnRecord(s, l.a.target, s.journal[l.a.target])
    && s.journal[l.a.target].uploadId in s.server.live
    && (forall n :: n in s.journal[l.a.target].parts ==> Current(s, s.journal[l.a.target], n))
    && HasStamp(s, l.a.path, l.a.stamp)
  }

  lemma FailureWaits(s: State, end: Step)
    requires InLoop(s.pc) && Fails(s.pc, end) && LeftInOrder(s, s.pc.l)
    ensures var l, t := s.pc.l, Apply(s, end);
            Waits(t, l.a.target, s.journal[l.a.target], l.a.path, l.a.stamp)
  {
  }

  /** Everything an attempt has listed so far, taken over or sent, is recorded. */
  lemma ListedIsRecorded(s: State)
    requires Inv(s) && InLoop(s.pc) && s.pc.l.a.target in s.journal
    ensures var l, e := s.pc.l, s.journal[s.pc.l.a.target];
            && e.uploadId == l.uploadId && Matches(e, l.a)
            && (forall p :: p in l.parts ==> p.partNumber in e.parts && e.parts[p.partNumber] == p)
  {
    var l := s.pc.l;
    assert Journalled(s, l.a.target, l.uploadId, l.parts, l.done);
    assert EntryOk(s, l.a.target, s.journal[l.a.target]);
  }

  lemma WaitingIsTakenOver(s: State, a: Attempt, e: View, threshold: u64, partSize: u64)
    requires Inv(s) && s.pc.Idle? && Waits(s, a.target, e, a.path, a.stamp) && Matches(e, a) && threshold <= a.stamp.size
    requires PlanMultipartUpload(a.stamp.size, partSize, MAX_PARTS) == Planned.Success(a.plan)
    ensures Run(s, NextAttempt(a.target, a.path, threshold, partSize, Listed(s, e.uploadId))).pc
         == Looping(Loop(a, e.uploadId, e.parts, 1, [], {}))
  {
    TakesOverCurrentParts(s, a, threshold, partSize);
    assert CurrentParts(s, e) == e.parts;
  }

  lemma StillWaits(s: State, end: Step, quiet: seq<Step>)
    requires Inv(s) && InLoop(s.pc) && Fails(s.pc, end) && LeftInOrder(s, s.pc.l)
    requires forall i :: 0 <= i < |quiet| ==> Quiet(quiet[i], s.pc.l.a.target, s.pc.l.uploadId, s.pc.l.a.path)
    ensures var l, t := s.pc.l, Run(Apply(s, end), quiet);
            Inv(t) && Waits(t, l.a.target, s.journal[l.a.target], l.a.path, l.a.stamp)
  {
    var l := s.pc.l;
    ListedIsRecorded(s);
    FailureWaits(s, end);
    StepKeepsInv(s, end);
    RunWaits(Apply(s, end), quiet, l.a.target, s.journal[l.a.target], l.a.path, l.a.stamp);
    RunStaysOk(Apply(s, end), quiet);
  }

  /** Progress is kept. An attempt fails, by a failed call or a crash, with its entry on record, the service holding
      the recorded parts and the file unchanged. Any number of steps follow that leave target, upload and file alone:
      other uploads, crashes, clean-ups elsewhere. Then the next attempt with the same part size, given the whole
      listing, goes on with the same upload and takes over every recorded part: all that the failed attempt had
      listed, whether it had sent them or taken them over itself. */
  lemma ResumeTakesOverAll(s: State, before: seq<Step>, end: Step, quiet: seq<Step>, threshold: u64, partSize: u64)
    requires Initial(s)
    requires InLoop(Run(s, before).pc) && Fails(Run(s, before).pc, end)
    requires LeftInOrder(Run(s, before), Run(s, before).pc.l)
    requires var l := Run(s, before).pc.l;
             && (forall i :: 0 <= i < |quiet| ==> Quiet(quiet[i], l.a.target, l.uploadId, l.a.path))
             && Run(Apply(Run(s, before), end), quiet).pc.Idle? && threshold <= l.a.stamp.size
             && PlanMultipartUpload(l.a.stamp.size, partSize, MAX_PARTS) == Planned.Success(l.a.plan)
    ensures var l, e := Run(s, before).pc.l, Run(s, before).journal[Run(s, before).pc.l.a.target];
            var t := Run(Apply(Run(s, before), end), quiet);
            && l.uploadId in t.server.live
            && Run(t, NextAttempt(l.a.target, l.a.path, threshold, partSize, Listed(t, l.uploadId))).pc
               == Looping(Loop(l.a, l.uploadId, e.parts, 1, [], {}))
            && (forall p :: p in l.parts ==> p.partNumber in e.parts && e.parts[p.partNumber] == p)
  {
    var u := Run(s, before);
    var l, e := u.pc.l, u.journal[u.pc.l.a.target];
    RunKeepsInv(s, before);
    ListedIsRecorded(u);
    StillWaits(u, end, quiet);
    WaitingIsTakenOver(Run(Apply(u, end), quiet), l.a, e, threshold, partSize);
  }

  /** The client is in the loop with these parts to take over, or done with it. */
  predicate OnlyThisLoop(pc: Pc, l: Loop) {
    pc.Idle? || (InLoop(pc) && pc.l.uploadId == l.uploadId && pc.l.done == l.done)
  }

  lemma MoveStaysInLoop(s: State, move: Move, l: Loop)
    requires OnlyThisLoop(s.pc, l)
    ensures OnlyThisLoop(Moved(s, move).pc, l)
  {
  }

  lemma JournalStaysInLoop(s: State, change: JournalStep, l: Loop)
    requires OnlyThisLoop(s.pc, l)
    ensures OnlyThisLoop(JournalChanged(s, change).pc, l)
  {
  }

  lemma {:induction false} RunStaysInLoop(s: State, steps: seq<Step>, l: Loop)
    requires OnlyThisLoop(s.pc, l) && forall i :: 0 <= i < |steps| ==> !steps[i].Start?
    ensures OnlyThisLoop(Run(s, steps).pc, l)
  {
    if steps != [] {
      RunStaysInLoop(s, steps[..|steps| - 1], l);
      match steps[|steps| - 1]
      case Client(move) => MoveStaysInLoop(Run(s, steps[..|steps| - 1]), move, l);
      case Journal(change) => JournalStaysInLoop(Run(s, steps[..|steps| - 1]), change, l);
      case _ =>
    }
  }

  lemma SendsOnlyOthers(s: State, l: Loop)
    requires PcOk(s) && OnlyThisLoop(s.pc, l) && s.pc.Sending?
    ensures s.pc.request.uploadId == l.uploadId && s.pc.request.partNumber !in l.done
  {
  }

  /** And none of them is sent again: through everything that may happen until another call starts, an attempt only
      sends parts that it did not set out to take over. */
  lemma TakenOverIsNotSent(s: State, before: seq<Step>, steps: seq<Step>)
    requires Initial(s) && InLoop(Run(s, before).pc) && forall i :: 0 <= i < |steps| ==> !steps[i].Start?
    ensures var l, pc := Run(s, before).pc.l, Run(s, before + steps).pc;
            pc.Sending? ==> pc.request.uploadId == l.uploadId && pc.request.partNumber !in l.done
  {
    RunAppend(s, before, steps);
    RunKeepsInv(s, before + steps);
    RunStaysInLoop(Run(s, before), steps, Run(s, before).pc.l);
    if Run(s, before + steps).pc.Sending? {
      SendsOnlyOthers(Run(s, before + steps), Run(s, before).pc.l);
    }
  }
}
