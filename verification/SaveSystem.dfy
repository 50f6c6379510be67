/** The whole path of a save: the plugin's rounds, the transfer queue and the uploader with its journal, its files and
    the server, step by step. An upload job is one call of the uploader, and everything inside the call is a step of its
    own; what a landed request leaves in an object is what the uploader's server put together. */
module SaveSystem {

  import opened StorageTypes
  import opened PartPlan
  import J = UploadJournal
  import U = UploadProtocol
  import Q = TransferQueue
  import S = SaveRounds
  import Safety = UploadSafety

  datatype System = System(uploads: U.State, saves: S.State)

  datatype Step =
    | Plugin(save: S.Step)
    | Begin(scope: string, threshold: u64, partSize: u64)
    | Inside(upload: U.Step)
    | End(reply: Q.Reply, flushed: bool)
    | WriteFile(file: U.Path, stamp: U.Stamp, bytes: Bytes)
    | DeleteFile(file: U.Path)
    | ChangeObject(remote: S.Remote, now: Option<Bytes>)

  function TargetOf(scope: string, r: S.Remote): J.Key {
    J.Key.Key(scope, r.bucket, r.key)
  }

  function ObjectOf(k: J.Key): S.Remote {
    S.Remote(k.bucket, k.key)
  }

  /** The worker is about to make, or is in, an upload call. */
  predicate StartsUpload(s: S.State) {
    s.q.data.worker.Starting? && s.q.data.worker.job.req.op == Q.Upload
  }

  predicate InUpload(s: S.State) {
    s.q.data.worker.Calling? && s.q.data.worker.job.req.op == Q.Upload
  }

  /** Steps of the plugin and the queue that neither begin nor end an upload call, nor touch a file or an object. */
  predicate IsPlugins(s: S.State, step: S.Step) {
    match step
    case OnUi(_) => true
    case Work(lane, w) => lane == Q.ControlLane || !((w.Announce? && StartsUpload(s)) || (w.Respond? && InUpload(s)))
    case InWorld(change) => change.CancelJob? || change.Register? || change.Unregister?
  }

  /** Steps of the uploader within a call, of the server and of the clean-up command. */
  predicate IsInside(step: U.Step) {
    match step
    case Client(_) => true
    case Journal(change) => !change.Finish?
    case CreateLost => true
    case Remote(_) => true
    case _ => false
  }

  // --------------------------------------------------------------------- landing

  /** The upload, or the single request, that the call under way works on and that has not reached its object yet. */
  predicate CallsUpload(y: System, id: U.UploadId) {
    y.saves.call.Some? && !y.saves.call.value.landed && Safety.InLoop(y.uploads.pc) && y.uploads.pc.l.uploadId == id
  }

  predicate CallsPut(y: System, r: U.PutRequest) {
    y.saves.call.Some? && !y.saves.call.value.landed && y.uploads.pc.Putting? && y.uploads.pc.put == r
  }

  /** Bytes reach the object of `k` for the call under way. */
  function Landed(s: S.State, k: J.Key, bytes: Bytes): S.State
    requires s.call.Some?
  {
    var c := s.call.value;
    s.(remotes := s.remotes[ObjectOf(k) := bytes], call := Some(c.(landed := true)),
       writes := s.writes + {(ObjectOf(k), S.Writer(s, c.job.id))})
  }

  /** Bytes reach the object of `k`: for the call under way, or late for an earlier one, which counts as a writer of its
      own. */
  function Reached(s: S.State, k: J.Key, bytes: Bytes, ofCall: bool): S.State
    requires ofCall ==> s.call.Some?
  {
    if ofCall then Landed(s, k, bytes) else S.ChangeRemoteStep(s, ObjectOf(k), Some(bytes))
  }

  /** The upload that this step of the server finishes. */
  predicate Assembles(u: U.State, step: U.Step, id: U.UploadId) {
    step.Remote? && step.effect.Complete? && step.effect.complete.uploadId == id
    && id !in u.server.completed && id in U.Apply(u, step).server.completed && id in u.births
  }

  function InsideStep(y: System, step: U.Step): System {
    if !IsInside(step) then y
    else
      var u := U.Apply(y.uploads, step);
      if step.Remote? && step.effect.Complete? && Assembles(y.uploads, step, step.effect.complete.uploadId) then
        var id := step.effect.complete.uploadId;
        System(u, Reached(y.saves, u.births[id].target, u.server.completed[id].1, CallsUpload(y, id)))
      else if step.Remote? && step.effect.Put? && step.effect.put in y.uploads.putRequests then
        var r := step.effect.put;
        System(u, Reached(y.saves, r.target, r.bytes, CallsPut(y, r)))
      else y.(uploads := u)
  }

  // ------------------------------------------------------------------- the steps

  function BeginStep(y: System, scope: string, threshold: u64, partSize: u64): System {
    if !StartsUpload(y.saves) || !y.uploads.pc.Idle? then y
    else
      var req := y.saves.q.data.worker.job.req;
      System(U.StartStep(y.uploads, TargetOf(scope, S.RemoteOf(req)), req.localPath, threshold, partSize),
             S.WorkerStepOf(y.saves, Q.DataLane, Q.Announce))
  }

  /** A call succeeds when the uploader is through, and fails when it has given up. */
  predicate MayEnd(y: System, reply: Q.Reply) {
    InUpload(y.saves) && if reply.Ok? then y.uploads.pc.Finishing? || y.uploads.pc.PutDone? else y.uploads.pc.Idle?
  }

  function EndStep(y: System, reply: Q.Reply, flushed: bool): System {
    if !MayEnd(y, reply) then y
    else System(if reply.Ok? then U.FinishStep(y.uploads, flushed) else y.uploads,
                S.WorkerStepOf(y.saves, Q.DataLane, Q.Respond(reply)))
  }

  predicate Writable(u: U.State, stamp: U.Stamp, bytes: Bytes) {
    stamp.size == |bytes| < I64 && (stamp in u.contents ==> u.contents[stamp] == bytes)
  }

  function Apply(y: System, step: Step): System {
    match step
    case Plugin(p) => if IsPlugins(y.saves, p) then y.(saves := S.Apply(y.saves, p)) else y
    case Begin(scope, threshold, partSize) => BeginStep(y, scope, threshold, partSize)
    case Inside(u) => InsideStep(y, u)
    case End(reply, flushed) => EndStep(y, reply, flushed)
    case WriteFile(p, stamp, bytes) =>
      if Writable(y.uploads, stamp, bytes)
      then System(U.WriteStep(y.uploads, p, stamp, bytes), S.ChangeFileStep(y.saves, p, Some(bytes))) else y
    case DeleteFile(p) => System(U.Apply(y.uploads, U.DeleteFile(p)), S.ChangeFileStep(y.saves, p, None))
    case ChangeObject(r, now) => y.(saves := S.ChangeRemoteStep(y.saves, r, now))
  }

  function Run(y: System, steps: seq<Step>): System {
    if steps == [] then y else Apply(Run(y, steps[..|steps| - 1]), steps[|steps| - 1])
  }

  // --------------------------------------------------- its steps, seen from each part

  /** What the uploader does in this step, if anything. */
  function UploadsStep(y: System, step: Step): Option<U.Step> {
    match step
    case Plugin(_) => None
    case Begin(scope, threshold, partSize) =>
      if !StartsUpload(y.saves) || !y.uploads.pc.Idle? then None
      else
        var req := y.saves.q.data.worker.job.req;
        Some(U.Start(TargetOf(scope, S.RemoteOf(req)), req.localPath, threshold, partSize))
    case Inside(u) => if IsInside(u) then Some(u) else None
    case End(reply, flushed) => if MayEnd(y, reply) && reply.Ok? then Some(U.Journal(U.Finish(flushed))) else None
    case WriteFile(p, stamp, bytes) => if Writable(y.uploads, stamp, bytes) then Some(U.WriteFile(p, stamp, bytes)) else None
    case DeleteFile(p) => Some(U.DeleteFile(p))
    case ChangeObject(_, _) => None
  }

  function ReachesAs(k: J.Key, bytes: Bytes, ofCall: bool): S.Step {
    S.InWorld(if ofCall then S.Land(bytes) else S.ChangeRemote(ObjectOf(k), Some(bytes)))
  }

  function InsideAsSave(y: System, step: U.Step): Option<S.Step> {
    if !IsInside(step) then None
    else if step.Remote? && step.effect.Complete? && Assembles(y.uploads, step, step.effect.complete.uploadId) then
      var id, u := step.effect.complete.uploadId, U.Apply(y.uploads, step);
      Some(ReachesAs(u.births[id].target, u.server.completed[id].1, CallsUpload(y, id)))
    else if step.Remote? && step.effect.Put? && step.effect.put in y.uploads.putRequests then
      var r := step.effect.put;
      Some(ReachesAs(r.target, r.bytes, CallsPut(y, r)))
    else None
  }

  /** What it is in the save rounds, if anything. */
  function SavesStep(y: System, step: Step): Option<S.Step> {
    match step
    case Plugin(p) => if IsPlugins(y.saves, p) then Some(p) else None
    case Begin(_, _, _) =>
      if !StartsUpload(y.saves) || !y.uploads.pc.Idle? then None else Some(S.Work(Q.DataLane, Q.Announce))
    case Inside(u) => InsideAsSave(y, u)
    case End(reply, _) => if MayEnd(y, reply) then Some(S.Work(Q.DataLane, Q.Respond(reply))) else None
    case WriteFile(p, stamp, bytes) =>
      if Writable(y.uploads, stamp, bytes) then Some(S.InWorld(S.ChangeFile(p, Some(bytes)))) else None
    case DeleteFile(p) => Some(S.InWorld(S.ChangeFile(p, None)))
    case ChangeObject(r, now) => Some(S.InWorld(S.ChangeRemote(r, now)))
  }

  function UploadsRun(y: System, steps: seq<Step>): seq<U.Step> {
    if steps == [] then []
    else
      var front := steps[..|steps| - 1];
      UploadsRun(y, front)
      + match UploadsStep(Run(y, front), steps[|steps| - 1]) case Some(u) => [u] case None => []
  }

  function SavesRun(y: System, steps: seq<Step>): seq<S.Step> {
    if steps == [] then []
    else
      var front := steps[..|steps| - 1];
      SavesRun(y, front)
      + match SavesStep(Run(y, front), steps[|steps| - 1]) case Some(s) => [s] case None => []
  }
}
