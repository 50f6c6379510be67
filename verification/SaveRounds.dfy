/** Uploading a document after each save: the plugin's handlers on the user-interface thread, composed with the
    transfer queue, the local files and the remote objects. Every handler is one step; the call of the queue inside a
    handler is split, because workers run in between. A modal dialog is a state in which other messages are handled. */
module SaveRounds {

  import opened StorageTypes
  import opened StorageErrors
  import opened TransferQueue

  type Path = string
  type Content = Bytes

  datatype Remote = Remote(bucket: string, key: string)

  datatype Doc = Doc(remote: Remote, etag: string, autoUpload: bool)

  datatype SaveState = SaveState(inFlight: bool, again: bool)

  datatype ActionKind = HeadForSave | UploadSave | OtherAction

  datatype Action = Action(kind: ActionKind, path: Path, remote: Remote)

  /** What the handler still does after its call of the queue: end a round, or nothing. */
  datatype Ui =
    | Free
    | Announcing(job: Job, action: Action, ending: Option<Path>)
    | Storing(job: Job, action: Action, ending: Option<Path>)

  /** A modal dialog opened by a handler: the choice about a remote object that changed or vanished, or a message
      about credentials, after which the round ends and may restart. */
  datatype Dialog = RemoteConflict(path: Path, vanished: bool) | CredentialError(path: Path, restart: bool)

  datatype Choice = Overwrite | DownloadRemote | Skip

  /** How a path's latest finished round ended. */
  datatype RoundEnd = NoRound | NotUploaded | Uploaded(remote: Remote)

  /** History of a path: saves notified, rounds started, saves merged into a waiting one, saves dropped. */
  datatype Book = Book(notified: nat, started: nat, merged: nat, dropped: nat, last: RoundEnd)

  /** The upload call a worker is in: whether the file changed before its bytes were taken, and whether they landed. */
  datatype UploadCall = UploadCall(job: Job, dirty: bool, landed: bool)

  /** `writes` is history: which path's save wrote a remote object, or `None` for anyone else. `unnotified` holds the
      paths whose file changed since the last save that was handled for them. */
  datatype State = State(
    q: TransferQueue.State,
    seen: nat,
    pending: map<nat, Action>,
    saves: map<Path, SaveState>,
    docs: map<Path, Doc>,
    dialogs: seq<Dialog>,
    ui: Ui,
    files: map<Path, Content>,
    remotes: map<Remote, Content>,
    unnotified: set<Path>,
    call: Option<UploadCall>,
    writes: set<(Remote, Option<Path>)>,
    books: map<Path, Book>)

  /** The user-interface thread. `configured` says that the document's profile exists and its configuration can be
      built. */
  datatype UiStep =
    | Notify(path: Path, configured: bool)
    | HandleMessage(configured: bool)
    | Answer(choice: Choice, configured: bool)
    | Announce
    | Store
    | OtherJob(req: Request)

  /** Everything else but the workers: cancelling, the upload's effect, files and objects changed by anyone. */
  datatype WorldStep =
    | CancelJob(id: nat)
    | Land(content: Content)
    | ChangeFile(path: Path, now: Option<Content>)
    | ChangeRemote(remote: Remote, now: Option<Content>)
    | Register(path: Path, doc: Doc)
    | Unregister(path: Path)

  datatype Step = OnUi(ui: UiStep) | Work(lane: Lane, step: WorkerStep) | InWorld(change: WorldStep)

  function SaveOf(s: State, p: Path): SaveState {
    if p in s.saves then s.saves[p] else SaveState(false, false)
  }

  function BookOf(s: State, p: Path): Book {
    if p in s.books then s.books[p] else Book(0, 0, 0, 0, NoRound)
  }

  // ------------------------------------------------------------------ handlers

  /** The job of a save's upload sends that path's file to that object. */
  predicate Fits(req: Request, a: Action) {
    a.kind == UploadSave ==> req == Request(Upload, a.remote.bucket, a.remote.key, a.path, "")
  }

  /** A handler calls the queue at most once, and then its next step belongs to that job. */
  ghost predicate Queued(s: State, t: State) {
    || (t.q == s.q && t.ui == s.ui)
    || (t.ui.Announcing? && t.ui.job == Job(s.q.nextId, t.ui.job.req) && !s.q.stopping && t.q == EnqueueStep(s.q, t.ui.job.req)
        && Fits(t.ui.job.req, t.ui.action))
  }

  function FinishedId(e: Event): set<nat> {
    if e.Finished? then {e.job.id} else {}
  }

  /** What a step can do to stored actions: a handled completion takes its own away, the rest of a call of the queue
      adds one. */
  ghost predicate PendingMoves(s: State, t: State) {
    || (t.pending == s.pending && t.seen == s.seen)
    || (s.ui.Free? && s.seen < |s.q.events| && t.seen == s.seen + 1 && t.pending == s.pending - FinishedId(s.q.events[s.seen]))
    || (s.ui.Storing? && t.ui.Free? && t.q == s.q && t.seen == s.seen && t.pending == s.pending[s.ui.job.id := s.ui.action])
  }

  /** What a step can do to the queue and to the messages already handled. */
  ghost predicate QueueMoves(s: State, t: State) {
    && s.seen <= t.seen <= (if s.seen < |s.q.events| then s.seen + 1 else s.seen)
    && (Queued(s, t)
        || t.q == s.q
        || (s.ui.Announcing? && t.q == TransferQueue.Apply(s.q, AnnouncePending(s.ui.job)))
        || (exists lane: Lane, w :: t.q == WorkStep(s.q, lane, w))
        || t.q.(cancelled := s.q.cancelled) == s.q)
  }

  /** What a step can do to the user-interface thread. */
  ghost predicate UiMoves(s: State, t: State) {
    || (t.ui == s.ui && t.q.nextId == s.q.nextId)
    || (s.ui.Free? && t.ui.Announcing? && Queued(s, t))
    || (s.ui.Announcing? && t.ui == Storing(s.ui.job, s.ui.action, s.ui.ending) && t.pending == s.pending && t.q.nextId == s.q.nextId)
    || (s.ui.Storing? && t.ui.Free? && t.q == s.q && t.pending == s.pending[s.ui.job.id := s.ui.action])
  }

  /** What no handler touches. */
  ghost predicate WorldKept(s: State, t: State) {
    && t.files == s.files && t.remotes == s.remotes && t.call == s.call && t.writes == s.writes
  }

  /** What the parts of handlers that start and end rounds leave alone as well. */
  ghost predicate OutsideKept(s: State, t: State) {
    && WorldKept(s, t) && t.seen == s.seen && t.docs == s.docs && t.dialogs == s.dialogs
  }

  predicate IsSave(a: Action, p: Path) {
    a.kind != OtherAction && a.path == p
  }

  /** What ending or starting rounds of one path does: the round is over, or its next job is in the queue. */
  ghost predicate RoundMoves(s: State, t: State, p: Path) {
    && WorldKept(s, t) && t.pending == s.pending && t.dialogs == s.dialogs
    && ((t.ui == s.ui && t.q == s.q && SaveOf(t, p) == SaveState(false, false))
        || (t.ui.Announcing? && IsSave(t.ui.action, p) && t.ui.ending.None? && SaveOf(t, p).inFlight))
  }

  /** What handling a completion does: that, or a dialog opens. */
  ghost predicate DoneMoves(s: State, t: State, p: Path) {
    || RoundMoves(s, t, p)
    || (exists d: Dialog :: d.path == p && t == s.(dialogs := s.dialogs + [d]))
  }

  /** `NppS3Plugin::Enqueue` up to the return from the queue's locked region. */
  function UiEnqueue(s: State, req: Request, action: Action, ending: Option<Path>): (t: State)
    requires Fits(req, action)
    ensures OutsideKept(s, t) && Queued(s, t) && t.saves == s.saves && t.books == s.books && t.pending == s.pending
    ensures t.unnotified == s.unnotified
  {
    if EnqueueResult(s.q) == 0 then s
    else s.(q := EnqueueStep(s.q, req), ui := Announcing(Job(EnqueueResult(s.q), req), action, ending))
  }

  /** `FinishSave` without restart: a save waiting for this round is dropped. */
  function DropRound(s: State, p: Path): (t: State)
    ensures RoundMoves(s, t, p)
    ensures OutsideKept(s, t) && t.q == s.q && t.ui == s.ui && t.pending == s.pending && t.unnotified == s.unnotified
  {
    if p !in s.saves then s
    else
      var b := BookOf(s, p);
      s.(saves := s.saves[p := SaveState(false, false)],
         books := s.books[p := b.(dropped := b.dropped + (if s.saves[p].again then 1 else 0), last := NotUploaded)])
  }

  /** The books stay as they are, or the round is dropped. */
  ghost predicate KeepsOrDrops(s: State, t: State, p: Path) {
    || (t.saves == s.saves && t.books == s.books)
    || (t.saves == DropRound(s, p).saves && t.books == DropRound(s, p).books)
  }

  /** `StartSaveUpload`. */
  function StartRound(s: State, p: Path, configured: bool): (t: State)
    ensures (EnqueueResult(s.q) != 0 && SaveOf(s, p).inFlight ==> RoundMoves(s, t, p))
    ensures OutsideKept(s, t) && Queued(s, t) && t.pending == s.pending && t.unnotified == s.unnotified
  {
    if p !in s.docs || !configured then DropRound(s, p)
    else
      var r := s.docs[p].remote;
      UiEnqueue(s, Request(Head, r.bucket, r.key, "", ""), Action(HeadForSave, p, r), None)
  }

  function Started(s: State, p: Path, configured: bool): (t: State)
    ensures (EnqueueResult(s.q) != 0 ==> RoundMoves(s, t, p))
    ensures OutsideKept(s, t) && Queued(s, t) && t.pending == s.pending && t.unnotified == s.unnotified
  {
    var b := BookOf(s, p);
    StartRound(s.(saves := s.saves[p := SaveState(true, false)], books := s.books[p := b.(started := b.started + 1)]),
               p, configured)
  }

  /** A save of a tracked document, as `NotifyStep` handles it. */
  function Noted(s: State, p: Path): (t: State)
    ensures OutsideKept(s, t) && t.pending == s.pending && t.ui == s.ui && t.q == s.q && t.saves == s.saves
  {
    var b := BookOf(s, p);
    s.(unnotified := s.unnotified - {p}, books := s.books[p := b.(notified := b.notified + 1)])
  }

  /** A round is under way: the save waits for its end. */
  function Waits(s: State, p: Path): (t: State)
    ensures OutsideKept(s, t) && t.pending == s.pending && t.ui == s.ui && t.q == s.q && t.unnotified == s.unnotified
  {
    var b := BookOf(s, p);
    s.(saves := s.saves[p := SaveState(true, true)],
       books := s.books[p := b.(merged := b.merged + if SaveOf(s, p).again then 1 else 0)])
  }

  /** `HandleFileSaved`. */
  function NotifyStep(s: State, p: Path, configured: bool): (t: State)
    ensures OutsideKept(s, t) && Queued(s, t) && t.pending == s.pending
  {
    if p !in s.docs || !s.docs[p].autoUpload then s
    else if SaveOf(s, p).inFlight then Waits(Noted(s, p), p)
    else Started(Noted(s, p), p, configured)
  }

  /** `FinishSave` with restart. */
  function FinishRound(s: State, p: Path, end: RoundEnd, configured: bool): (t: State)
    ensures (EnqueueResult(s.q) != 0 ==> RoundMoves(s, t, p))
    ensures OutsideKept(s, t) && Queued(s, t) && t.pending == s.pending && t.unnotified == s.unnotified
  {
    if p !in s.saves then s
    else
      var u := s.(saves := s.saves[p := SaveState(false, false)], books := s.books[p := BookOf(s, p).(last := end)]);
      if s.saves[p].again then Started(u, p, configured) else u
  }

  /** The end of the HeadForSave case once the user or the etag allows the upload. */
  function Proceed(s: State, p: Path, configured: bool): (t: State)
    ensures (EnqueueResult(s.q) != 0 && SaveOf(s, p).inFlight ==> RoundMoves(s, t, p))
    ensures OutsideKept(s, t) && Queued(s, t) && t.pending == s.pending && t.unnotified == s.unnotified
    ensures KeepsOrDrops(s, t, p)
  {
    if p !in s.docs || !configured then DropRound(s, p)
    else
      var r := s.docs[p].remote;
      UiEnqueue(s, Request(Upload, r.bucket, r.key, p, ""), Action(UploadSave, p, r), None)
  }

  function HeadDone(s: State, p: Path, outcome: Outcome, configured: bool): (t: State)
    ensures EnqueueResult(s.q) != 0 && SaveOf(s, p).inFlight ==> DoneMoves(s, t, p)
    ensures WorldKept(s, t) && Queued(s, t) && t.seen == s.seen && t.pending == s.pending && t.unnotified == s.unnotified
    ensures KeepsOrDrops(s, t, p)
  {
    if p !in s.docs then DropRound(s, p)
    else match outcome
      case Completed(etag) =>
        if s.docs[p].etag != "" && etag != "" && etag != s.docs[p].etag
        then s.(dialogs := s.dialogs + [RemoteConflict(p, false)]) else Proceed(s, p, configured)
      case Failed(kind) =>
        if kind == NoSuchKey then s.(dialogs := s.dialogs + [RemoteConflict(p, true)])
        else if Interrupts(kind) then s.(dialogs := s.dialogs + [CredentialError(p, false)])
        else DropRound(s, p)
      case Cancelled => DropRound(s, p)
  }

  function UploadDone(s: State, a: Action, outcome: Outcome, configured: bool): (t: State)
    ensures EnqueueResult(s.q) != 0 ==> DoneMoves(s, t, a.path)
    ensures WorldKept(s, t) && Queued(s, t) && t.seen == s.seen && t.pending == s.pending && t.unnotified == s.unnotified
  {
    match outcome
    case Completed(etag) =>
      var u := if a.path in s.docs then s.(docs := s.docs[a.path := s.docs[a.path].(etag := etag)]) else s;
      FinishRound(u, a.path, Uploaded(a.remote), configured)
    case Failed(kind) =>
      if Interrupts(kind) then s.(dialogs := s.dialogs + [CredentialError(a.path, true)])
      else FinishRound(s, a.path, NotUploaded, configured)
    case Cancelled => FinishRound(s, a.path, NotUploaded, configured)
  }

  ghost predicate ActionMoves(s: State, t: State, a: Action) {
    if a.kind == OtherAction then t == s else DoneMoves(s, t, a.path)
  }

  /** A completion whose action is stored. */
  predicate Handles(s: State) {
    s.ui.Free? && s.seen < |s.q.events| && s.q.events[s.seen].Finished? && s.q.events[s.seen].job.id in s.pending
  }

  /** Its action, and the state once the action is taken out. */
  function ActionInHand(s: State): Action
    requires Handles(s)
  {
    s.pending[s.q.events[s.seen].job.id]
  }

  function TakenOut(s: State): State
    requires Handles(s)
  {
    s.(seen := s.seen + 1, pending := s.pending - {s.q.events[s.seen].job.id})
  }

  function ActionDone(s: State, a: Action, outcome: Outcome, configured: bool): (t: State)
    ensures EnqueueResult(s.q) != 0 && (a.kind == OtherAction || SaveOf(s, a.path).inFlight) ==> ActionMoves(s, t, a)
    ensures WorldKept(s, t) && Queued(s, t) && t.seen == s.seen && t.pending == s.pending && t.unnotified == s.unnotified
  {
    match a.kind
    case HeadForSave => HeadDone(s, a.path, outcome, configured)
    case UploadSave => UploadDone(s, a, outcome, configured)
    case OtherAction => s
  }

  /** `HandleTransferEventUi`, as far as saves go. */
  function HandleStep(s: State, configured: bool): (t: State)
    ensures WorldKept(s, t) && Queued(s, t) && t.unnotified == s.unnotified
    ensures PendingMoves(s, t) && (t == s || (s.ui.Free? && t.seen == s.seen + 1))
  {
    if Handles(s) then ActionDone(TakenOut(s), ActionInHand(s), s.q.events[s.seen].outcome, configured)
    else if s.ui.Free? && s.seen < |s.q.events| then s.(seen := s.seen + 1)
    else s
  }

  /** What the handler of a closed dialog goes on with. */
  function Answered(s: State, d: Dialog, choice: Choice, configured: bool): (t: State)
    ensures WorldKept(s, t) && Queued(s, t) && t.seen == s.seen && t.pending == s.pending && t.unnotified == s.unnotified
  {
    match d
    case CredentialError(p, restart) => if restart then FinishRound(s, p, NotUploaded, configured) else DropRound(s, p)
    case RemoteConflict(p, vanished) =>
      if choice == Overwrite then Proceed(s, p, configured)
      else if choice == DownloadRemote && !vanished && p in s.docs && EnqueueResult(s.q) != 0 then
        var r := s.docs[p].remote;
        UiEnqueue(s, Request(Download, r.bucket, r.key, p, ""), Action(OtherAction, p, r), Some(p))
      else DropRound(s, p)
  }

  /** The innermost open dialog is closed. */
  function AnswerStep(s: State, choice: Choice, configured: bool): (t: State)
    ensures WorldKept(s, t) && Queued(s, t) && t.seen == s.seen && t.pending == s.pending && t.unnotified == s.unnotified
  {
    if !s.ui.Free? || s.dialogs == [] then s
    else Answered(s.(dialogs := s.dialogs[..|s.dialogs| - 1]), s.dialogs[|s.dialogs| - 1], choice, configured)
  }

  function AnnounceStep(s: State): (t: State)
    ensures t.(q := s.q, ui := s.ui) == s
  {
    if !s.ui.Announcing? then s
    else s.(q := TransferQueue.Apply(s.q, AnnouncePending(s.ui.job)), ui := Storing(s.ui.job, s.ui.action, s.ui.ending))
  }

  /** The rest of the handler: the action is stored under the job's id. */
  function StoreStep(s: State): (t: State)
    ensures OutsideKept(s, t) && t.q == s.q && t.unnotified == s.unnotified
  {
    if !s.ui.Storing? then s
    else
      var u := s.(pending := s.pending[s.ui.job.id := s.ui.action], ui := Free);
      if s.ui.ending.Some? then DropRound(u, s.ui.ending.value) else u
  }

  // ------------------------------------------------------------ the environment

  /** The action of a job whose completion has not been handled yet. */
  function ActionOf(s: State, id: nat): Option<Action> {
    if !s.ui.Free? && s.ui.job.id == id then Some(s.ui.action)
    else if id in s.pending then Some(s.pending[id]) else None
  }

  function Writer(s: State, id: nat): Option<Path> {
    match ActionOf(s, id)
    case Some(a) => if a.kind == UploadSave then Some(a.path) else None
    case None => None
  }

  function RemoteOf(req: Request): Remote {
    Remote(req.bucket, req.key)
  }

  /** A successful upload has landed; see `Land`. Apart from that the queue's worker moves on its own. */
  function WorkerStepOf(s: State, lane: Lane, step: WorkerStep): (t: State)
    ensures t.(q := s.q, call := s.call) == s && QueueMoves(s, t) && PendingMoves(s, t) && UiMoves(s, t)
  {
    var w := At(s.q, lane).worker;
    var t := s.(q := WorkStep(s.q, lane, step));
    if step.Announce? && w.Starting? && w.job.req.op == Upload then t.(call := Some(UploadCall(w.job, false, false)))
    else if step.Respond? && w.Calling? && w.job.req.op == Upload then
      if step.reply.Ok? && !(s.call.Some? && s.call.value.landed) then s else t.(call := None)
    else t
  }

  /** The upload's bytes reach the remote object: the file's content, or anything if the file changed meanwhile. That a
      call of the uploader does no more is shown in `SaveRefinement`. */
  function LandStep(s: State, content: Content): (t: State)
    ensures t.(remotes := s.remotes, call := s.call, writes := s.writes) == s
  {
    if s.call.None? || s.call.value.landed || !(s.call.value.dirty || s.call.value.job.req.localPath in s.files) then s
    else
      var c := s.call.value;
      var bytes := if c.dirty then content else s.files[c.job.req.localPath];
      s.(remotes := s.remotes[RemoteOf(c.job.req) := bytes], call := Some(c.(landed := true)),
         writes := s.writes + {(RemoteOf(c.job.req), Writer(s, c.job.id))})
  }

  function ChangeFileStep(s: State, p: Path, now: Option<Content>): (t: State)
    ensures t.(files := s.files, call := s.call, unnotified := s.unnotified) == s
  {
    var call := match s.call
      case Some(c) => if c.job.req.localPath == p && !c.landed then Some(c.(dirty := true)) else s.call
      case None => None;
    s.(files := if now.Some? then s.files[p := now.value] else s.files - {p},
       unnotified := s.unnotified + {p}, call := call)
  }

  function ChangeRemoteStep(s: State, r: Remote, now: Option<Content>): State {
    s.(remotes := if now.Some? then s.remotes[r := now.value] else s.remotes - {r}, writes := s.writes + {(r, None)})
  }

  /** What the user-interface thread can do to the queue. */
  ghost predicate UiQueueMoves(s: State, t: State) {
    || Queued(s, t)
    || t.q == s.q
    || (s.ui.Announcing? && t.q == TransferQueue.Apply(s.q, AnnouncePending(s.ui.job)))
  }

  function UiApply(s: State, step: UiStep): (t: State)
    ensures UiQueueMoves(s, t)
    ensures WorldKept(s, t) && QueueMoves(s, t) && PendingMoves(s, t) && UiMoves(s, t)
  {
    match step
    case Notify(p, configured) => if s.ui.Free? then NotifyStep(s, p, configured) else s
    case HandleMessage(configured) => HandleStep(s, configured)
    case Answer(choice, configured) => AnswerStep(s, choice, configured)
    case Announce => AnnounceStep(s)
    case Store => StoreStep(s)
    case OtherJob(req) =>
      if s.ui.Free? then UiEnqueue(s, req, Action(OtherAction, req.localPath, RemoteOf(req)), None) else s
  }

  function WorldApply(s: State, change: WorldStep): (t: State)
    ensures t.ui == s.ui && t.pending == s.pending && t.saves == s.saves && t.books == s.books && t.dialogs == s.dialogs
    ensures QueueMoves(s, t) && PendingMoves(s, t) && UiMoves(s, t)
  {
    match change
    case CancelJob(id) => s.(q := CancelStep(s.q, id))
    case Land(content) => LandStep(s, content)
    case ChangeFile(p, now) => ChangeFileStep(s, p, now)
    case ChangeRemote(r, now) => ChangeRemoteStep(s, r, now)
    case Register(p, doc) => s.(docs := s.docs[p := doc])
    case Unregister(p) => s.(docs := s.docs - {p})
  }

  /** A step that is not possible changes nothing. */
  function Apply(s: State, step: Step): (t: State)
    ensures QueueMoves(s, t) && PendingMoves(s, t) && UiMoves(s, t)
  {
    match step
    case OnUi(u) => UiApply(s, u)
    case Work(lane, w) => WorkerStepOf(s, lane, w)
    case InWorld(change) => WorldApply(s, change)
  }

  function Run(s: State, steps: seq<Step>): State {
    if steps == [] then s else Apply(Run(s, steps[..|steps| - 1]), steps[|steps| - 1])
  }

  /** A plugin that has just started its queue, over any documents, files and remote objects. */
  predicate Initial(s: State) {
    && s.q == StartStep(EMPTY) && s.seen == 0 && s.pending == map[] && s.saves == map[] && s.dialogs == [] && s.ui.Free?
    && s.unnotified == {} && s.call.None? && s.writes == {} && s.books == map[]
  }
}
