/** The resumable multipart upload as a state machine: one client, its journal in memory and on disk, the local
    files and the server. Every storage call is split into a request and a reply, so that a crash, a lost reply,
    an abort from elsewhere, a file edit or a late request can fall between any two steps. */
module UploadProtocol {

  import opened PartPlan
  import opened StorageTypes
  import opened UploadJournal

  type Path = string
  type UploadId = string
  type Etag = string

  // -------------------------------------------------------------------- state

  /** Size and last-write time, read together. */
  datatype Stamp = Stamp(size: u64, time: u64)

  datatype LocalFile = LocalFile(stamp: Stamp, bytes: Bytes)

  /** What one call of `PutObject` works on. */
  datatype Attempt = Attempt(target: Key, path: Path, stamp: Stamp, plan: Plan)

  /** The attempt an upload id was created for, as far as later attempts compare it. */
  datatype Birth = Birth(target: Key, stamp: Stamp, plan: Plan)

  datatype PartRequest = PartRequest(uploadId: UploadId, partNumber: int, bytes: Bytes)
  datatype CompleteRequest = CompleteRequest(uploadId: UploadId, parts: seq<Part>)
  /** Single requests are told apart by a serial number. */
  datatype PutRequest = PutRequest(target: Key, bytes: Bytes, serial: nat)

  /** `live` holds the current etag of each part; `stored` remembers the bytes behind every etag handed out. */
  datatype Server = Server(
    live: map<UploadId, map<int, Etag>>,
    stored: map<(UploadId, int, Etag), Bytes>,
    completed: map<UploadId, (seq<Part>, Bytes)>,
    landedPuts: set<PutRequest>,
    objects: map<Key, Bytes>)

  /** The loop of `Upload`: next part number, list for Complete, numbers sent by this attempt. */
  datatype Loop = Loop(a: Attempt, uploadId: UploadId, done: map<int, Part>, number: int, parts: seq<Part>, sent: set<int>)

  /** Where the client is in `PutObject`, `ResolveResume` and `Upload`. Whether a single request was hashed from the
      file the call found (`asPlanned`) is history. */
  datatype Pc =
    | Idle
    | Hashing(target: Key, path: Path, stamp: Stamp)
    | Putting(target: Key, path: Path, stamp: Stamp, put: PutRequest, asPlanned: bool)
    | PutDone(target: Key, path: Path, stamp: Stamp, put: PutRequest, asPlanned: bool)
    | Finding(a: Attempt)
    | Aborting(a: Attempt, uploadId: UploadId)
    | Listing(a: Attempt, entry: View)
    | Dropping(a: Attempt, uploadId: UploadId, why: Cause)
    | Creating(a: Attempt, created: Option<UploadId>)
    | Beginning(a: Attempt, uploadId: UploadId)
    | Looping(l: Loop)
    | Sending(l: Loop, request: PartRequest)
    | Recording(l: Loop, part: Part)
    | Completing(l: Loop)
    | Finishing(l: Loop)

  /** Events that may leave a live upload without a journal entry. */
  datatype Cause =
    | CreateReplyLost | CrashBeforeBegin | ListPartsFailed | AbortIgnored | FlushLost | Cleanup | JournalUnread

  /** History only: the events so far, the event each unjournalled upload is charged to, Create requests that the
      server may still carry out although the client gave up on them (by event), and attempts started. */
  datatype Ledger = Ledger(events: seq<Cause>, blame: map<UploadId, nat>, orphans: map<nat, Birth>, attempts: nat)

  /** `contents` is history: the bytes every stamp ever stood for. So is `stale`: the uploads with a part that was
      hashed when the file no longer had the stamp its attempt had found. */
  datatype State = State(
    files: map<Path, LocalFile>,
    contents: map<Stamp, Bytes>,
    server: Server,
    births: map<UploadId, Birth>,
    partRequests: set<PartRequest>,
    completeRequests: set<CompleteRequest>,
    putRequests: set<PutRequest>,
    journal: map<Key, View>,
    disk: map<Key, View>,
    pc: Pc,
    ledger: Ledger,
    stale: set<UploadId>)

  /** The client's steps that leave the journal alone: replies, and turns of its own code up to the next request. */
  datatype Move =
    | HashPut
    | PutReplied
    | Look
    | AbortReplied
    | ListReplied(remote: set<Part>)
    | ListFailed
    | CreateReplied
    | CreateRefused
    | Advance
    | PartReplied(etag: Etag)
    | CompleteReplied
    | GiveUp

  /** Journal mutations, each flushed to disk or not. The last is the clean-up command's. */
  datatype JournalStep =
    | Drop(flushed: bool)
    | BeginJournal(flushed: bool)
    | RecordOne(flushed: bool)
    | Finish(flushed: bool)
    | CleanupRemove(key: Key, flushed: bool)

  datatype ServerStep =
    | Create(id: UploadId)
    | CreateLate(event: nat, id: UploadId)
    | Store(part: PartRequest, etag: Etag)
    | Complete(complete: CompleteRequest)
    | Abort(id: UploadId)
    | Put(put: PutRequest)

  /** Whether the restarted program could open, read and parse its journal file. If not, `lost` lists the live uploads
      that the file names, in any order. */
  datatype Reload = Read | Unread(lost: seq<UploadId>)

  datatype Step =
    | Start(target: Key, path: Path, threshold: u64, partSize: u64)
    | Client(move: Move)
    | Journal(change: JournalStep)
    | CreateLost
    | Crash(reload: Reload)
    | WriteFile(file: Path, stamp: Stamp, bytes: Bytes)
    | DeleteFile(file: Path)
    | Remote(effect: ServerStep)

  // -------------------------------------------------------------------- bytes

  /** `PartOffset` and `PartLength` of any number; the loop only asks for numbers an `int` holds. */
  function Offset(plan: Plan, n: int): u64 {
    if 1 <= n <= MAX_INT then PartOffset(plan, n) else 0
  }

  function Length(plan: Plan, size: u64, n: int): u64 {
    if 1 <= n <= MAX_INT then PartLength(plan, size, n) else 0
  }

  /** The range of part `n` in the file's bytes. */
  function PartBytes(content: Bytes, plan: Plan, n: int): Bytes {
    if |content| < U64 && Offset(plan, n) + Length(plan, |content|, n) <= |content|
    then content[Offset(plan, n)..][..Length(plan, |content|, n)] else []
  }

  function Assembled(stored: map<(UploadId, int, Etag), Bytes>, id: UploadId, parts: seq<Part>): Bytes {
    if parts == [] then []
    else
      var p := parts[|parts| - 1];
      Assembled(stored, id, parts[..|parts| - 1])
      + if (id, p.partNumber, p.etag) in stored then stored[(id, p.partNumber, p.etag)] else []
  }

  // ---------------------------------------------------------------- the client

  /** Only the client's own memory, journal and history moved; a request sent stays sent. */
  predicate WorldKept(s: State, t: State) {
    && t.files == s.files && t.contents == s.contents && t.server == s.server && t.births == s.births
    && s.partRequests <= t.partRequests && s.stale <= t.stale
  }

  predicate JournalKept(s: State, t: State) {
    t.journal == s.journal && t.disk == s.disk
  }

  function EntryFor(a: Attempt, id: UploadId): View {
    View(id, a.path, a.stamp.size, a.stamp.time, a.plan.partSize, map[])
  }

  /** Parts the journal and the service agree on. */
  function Trusted(a: Attempt, entry: View, remote: set<Part>): map<int, Part> {
    map n | n in entry.parts && entry.parts[n].size == Length(a.plan, a.stamp.size, n)
            && Part(n, entry.parts[n].size, entry.parts[n].etag) in remote
         :: entry.parts[n]
  }

  function StartStep(s: State, target: Key, path: Path, threshold: u64, partSize: u64): (t: State)
    ensures WorldKept(s, t) && JournalKept(s, t)
  {
    if !s.pc.Idle? || path !in s.files then s
    else
      var f := s.files[path];
      if f.stamp.size < threshold || f.stamp.size == 0 then
        s.(pc := Hashing(target, path, f.stamp))
      else
        var r := PlanMultipartUpload(f.stamp.size, partSize, MAX_PARTS);
        if !r.Success? then s
        else s.(pc := Finding(Attempt(target, path, f.stamp, r.plan)),
                ledger := s.ledger.(attempts := s.ledger.attempts + 1))
  }

  /** `PutObjectSingle`: the whole file is hashed and sent in one request. Hashing is one step here and in `AdvanceStep`,
      since the file is opened with sharing for reading only (src/util/Hash.cpp:92, 123) and stays as it is till the
      last read. */
  function HashPutStep(s: State): (t: State)
    ensures WorldKept(s, t) && JournalKept(s, t) && t.ledger == s.ledger
  {
    if !s.pc.Hashing? then s
    else if s.pc.path !in s.files then s.(pc := Idle)
    else
      var put := PutRequest(s.pc.target, s.files[s.pc.path].bytes, |s.putRequests|);
      s.(pc := Putting(s.pc.target, s.pc.path, s.pc.stamp, put, s.files[s.pc.path].stamp == s.pc.stamp),
         putRequests := s.putRequests + {put})
  }

  /** `ResolveResume` up to its first storage call. */
  function LookStep(s: State): (t: State)
    ensures WorldKept(s, t) && JournalKept(s, t) && t.ledger == s.ledger
  {
    if !s.pc.Finding? then s
    else
      var a := s.pc.a;
      if a.target !in s.journal then s.(pc := Creating(a, None))
      else
        var e := s.journal[a.target];
        if e.fileSize != a.stamp.size || e.fileTime != a.stamp.time || e.partSize != a.plan.partSize
        then s.(pc := Aborting(a, e.uploadId))
        else s.(pc := Listing(a, e))
  }

  function ListStep(s: State, remote: set<Part>): (t: State)
    ensures WorldKept(s, t) && JournalKept(s, t) && t.ledger == s.ledger
  {
    if s.pc.Listing? && s.pc.entry.uploadId in s.server.live
       && forall p :: p in remote ==> (s.pc.entry.uploadId, p.partNumber, p.etag) in s.server.stored
    then
      var a, e := s.pc.a, s.pc.entry;
      s.(pc := Looping(Loop(a, e.uploadId, Trusted(a, e, remote), 1, [], {})))
    else s
  }

  function Charged(l: Ledger, id: UploadId, why: Cause): Ledger {
    l.(events := l.events + [why], blame := l.blame[id := |l.events|])
  }

  /** The entry goes although the upload may still be alive: that is charged. */
  function DropStep(s: State, flushed: bool): (t: State)
    ensures WorldKept(s, t) && t.ledger.orphans == s.ledger.orphans && t.ledger.attempts == s.ledger.attempts
  {
    if !s.pc.Dropping? then s
    else
      var id := s.pc.uploadId;
      var journal := s.journal - {s.pc.a.target};
      s.(journal := journal,
         disk := if flushed && journal != s.journal then journal else s.disk,
         pc := Creating(s.pc.a, None),
         ledger := if id in s.server.live then Charged(s.ledger, id, s.pc.why) else s.ledger)
  }

  function BirthOf(a: Attempt): Birth {
    Birth(a.target, a.stamp, a.plan)
  }

  /** No usable reply: the upload exists, or may come to exist later. */
  function CreateLostStep(s: State): (t: State)
    ensures WorldKept(s, t) && JournalKept(s, t)
  {
    if !s.pc.Creating? then s
    else match s.pc.created
      case Some(id) => s.(pc := Idle, ledger := Charged(s.ledger, id, CreateReplyLost))
      case None => s.(pc := Idle,
                      ledger := s.ledger.(events := s.ledger.events + [CreateReplyLost],
                                          orphans := s.ledger.orphans[|s.ledger.events| := BirthOf(s.pc.a)]))
  }

  function BeginStep(s: State, flushed: bool): (t: State)
    ensures WorldKept(s, t) && t.ledger.orphans == s.ledger.orphans && t.ledger.attempts == s.ledger.attempts
  {
    if !s.pc.Beginning? then s
    else
      var a, id := s.pc.a, s.pc.uploadId;
      var journal := s.journal[a.target := EntryFor(a, id)];
      s.(journal := journal,
         disk := if flushed then journal else s.disk,
         ledger := if flushed then s.ledger else Charged(s.ledger, id, FlushLost),
         pc := Looping(Loop(a, id, map[], 1, [], {})))
  }

  /** One turn of the part loop up to its storage call: a confirmed part is taken over, another is hashed and sent
      if the file still covers its range, and after the last one Complete is sent. */
  function AdvanceStep(s: State): (t: State)
    ensures WorldKept(s, t) && JournalKept(s, t) && t.ledger == s.ledger
  {
    if !s.pc.Looping? then s
    else
      var l := s.pc.l;
      var plan, size := l.a.plan, l.a.stamp.size;
      if l.number > plan.partCount || Length(plan, size, l.number) == 0 then
        s.(pc := Completing(l), completeRequests := s.completeRequests + {CompleteRequest(l.uploadId, l.parts)})
      else if l.number in l.done then
        s.(pc := Looping(l.(parts := l.parts + [l.done[l.number]], number := l.number + 1)))
      else
        var offset, length := Offset(plan, l.number), Length(plan, size, l.number);
        if l.a.path !in s.files || offset + length > |s.files[l.a.path].bytes| then s.(pc := Idle)
        else
          var request := PartRequest(l.uploadId, l.number, s.files[l.a.path].bytes[offset..][..length]);
          s.(pc := Sending(l, request), partRequests := s.partRequests + {request},
             stale := if s.files[l.a.path].stamp == l.a.stamp then s.stale else s.stale + {l.uploadId})
  }

  function PartReplyStep(s: State, etag: Etag): (t: State)
    ensures WorldKept(s, t) && JournalKept(s, t) && t.ledger == s.ledger
  {
    if s.pc.Sending? && etag != "" && (s.pc.l.uploadId, s.pc.l.number, etag) in s.server.stored
       && s.server.stored[(s.pc.l.uploadId, s.pc.l.number, etag)] == s.pc.request.bytes
    then
      var l := s.pc.l;
      s.(pc := Recording(l, Part(l.number, Length(l.a.plan, l.a.stamp.size, l.number), etag)))
    else s
  }

  function RecordStep(s: State, flushed: bool): (t: State)
    ensures WorldKept(s, t) && t.ledger.orphans == s.ledger.orphans && t.ledger.attempts == s.ledger.attempts
  {
    if !s.pc.Recording? then s
    else
      var l, part := s.pc.l, s.pc.part;
      var t := l.a.target;
      var journal := if t in s.journal
                     then s.journal[t := s.journal[t].(parts := s.journal[t].parts[part.partNumber := part])]
                     else s.journal;
      s.(journal := journal,
         disk := if flushed && t in s.journal then journal else s.disk,
         pc := Looping(l.(parts := l.parts + [part], number := l.number + 1, sent := l.sent + {l.number})))
  }

  function CompleteReplyStep(s: State): (t: State)
    ensures WorldKept(s, t) && JournalKept(s, t) && t.ledger == s.ledger
  {
    if s.pc.Completing? && s.pc.l.uploadId in s.server.completed
       && s.server.completed[s.pc.l.uploadId].0 == s.pc.l.parts
    then s.(pc := Finishing(s.pc.l))
    else s
  }

  function FinishStep(s: State, flushed: bool): (t: State)
    ensures WorldKept(s, t) && t.ledger.orphans == s.ledger.orphans && t.ledger.attempts == s.ledger.attempts
  {
    if s.pc.PutDone? then s.(pc := Idle)
    else if !s.pc.Finishing? then s
    else
      var journal := s.journal - {s.pc.l.a.target};
      s.(journal := journal,
         disk := if flushed && journal != s.journal then journal else s.disk,
         pc := Idle)
  }

  // ------------------------------------------------------------ the environment

  /** A stamp determines content. It need not be new: a file may come back with its old stamp, or be copied with it. */
  function WriteStep(s: State, path: Path, stamp: Stamp, bytes: Bytes): (t: State)
    ensures t.server == s.server && t.births == s.births && JournalKept(s, t) && t.pc == s.pc && t.ledger == s.ledger
    ensures t.partRequests == s.partRequests && t.stale == s.stale
  {
    if stamp.size != |bytes| || |bytes| >= I64 || (stamp in s.contents && s.contents[stamp] != bytes) then s
    else s.(files := s.files[path := LocalFile(stamp, bytes)], contents := s.contents[stamp := bytes])
  }

  /** What a step of the server leaves alone, the journal aside. */
  predicate RestKept(s: State, t: State) {
    t.files == s.files && t.contents == s.contents && t.partRequests == s.partRequests && t.stale == s.stale
  }

  function NewUpload(s: State, id: UploadId, b: Birth): State {
    s.(server := s.server.(live := s.server.live[id := map[]]), births := s.births[id := b])
  }

  function ServerCreateStep(s: State, id: UploadId): (t: State)
    ensures RestKept(s, t) && JournalKept(s, t) && t.ledger == s.ledger
  {
    if s.pc.Creating? && s.pc.created.None? && id != "" && id !in s.births
    then NewUpload(s, id, BirthOf(s.pc.a)).(pc := Creating(s.pc.a, Some(id)))
    else s
  }

  function ServerCreateLateStep(s: State, event: nat, id: UploadId): (t: State)
    ensures RestKept(s, t) && JournalKept(s, t) && t.pc == s.pc
    ensures t.ledger.events == s.ledger.events
  {
    if event in s.ledger.orphans && id != "" && id !in s.births
    then NewUpload(s, id, s.ledger.orphans[event])
         .(ledger := s.ledger.(orphans := s.ledger.orphans - {event}, blame := s.ledger.blame[id := event]))
    else s
  }

  /** Any part request ever sent may land, once or more, while the upload is alive. Equal etags mean equal bytes. */
  function ServerStoreStep(s: State, r: PartRequest, etag: Etag): (t: State)
    ensures RestKept(s, t) && JournalKept(s, t) && t.pc == s.pc
    ensures t.births == s.births && t.ledger == s.ledger
  {
    var k := (r.uploadId, r.partNumber, etag);
    if r in s.partRequests && r.uploadId in s.server.live
       && (k in s.server.stored ==> s.server.stored[k] == r.bytes)
    then s.(server := s.server.(
              live := s.server.live[r.uploadId := s.server.live[r.uploadId][r.partNumber := etag]],
              stored := s.server.stored[k := r.bytes]))
    else s
  }

  /** Complete lands only if every listed etag is the part's current one. */
  function ServerCompleteStep(s: State, r: CompleteRequest): (t: State)
    ensures RestKept(s, t) && JournalKept(s, t) && t.pc == s.pc
    ensures t.births == s.births && t.ledger == s.ledger
  {
    if r in s.completeRequests && r.uploadId in s.server.live && r.uploadId in s.births
       && (forall p :: p in r.parts ==> (p.partNumber in s.server.live[r.uploadId]
                                         && s.server.live[r.uploadId][p.partNumber] == p.etag))
    then
      var bytes := Assembled(s.server.stored, r.uploadId, r.parts);
      s.(server := s.server.(
           live := s.server.live - {r.uploadId},
           completed := s.server.completed[r.uploadId := (r.parts, bytes)],
           objects := s.server.objects[s.births[r.uploadId].target := bytes]))
    else s
  }

  function ServerPutStep(s: State, r: PutRequest): (t: State)
    ensures RestKept(s, t) && JournalKept(s, t) && t.pc == s.pc
    ensures t.births == s.births && t.ledger == s.ledger
  {
    if r in s.putRequests
    then s.(server := s.server.(objects := s.server.objects[r.target := r.bytes],
                                landedPuts := s.server.landedPuts + {r}))
    else s
  }

  /** The clean-up command removes by key, whatever upload id the entry names. */
  function CleanupStep(s: State, key: Key, flushed: bool): (t: State)
    ensures WorldKept(s, t) && t.ledger.orphans == s.ledger.orphans && t.ledger.attempts == s.ledger.attempts
  {
    if key !in s.journal then s
    else
      var journal := s.journal - {key};
      s.(journal := journal, disk := if flushed then journal else s.disk,
         ledger := Charged(s.ledger, s.journal[key].uploadId, Cleanup))
  }

  predicate Names(m: map<Key, View>, id: UploadId) {
    exists k :: k in m && m[k].uploadId == id
  }

  /** Each live upload named on disk once, and nothing else. */
  predicate NamedOnDisk(s: State, lost: seq<UploadId>) {
    && (forall k :: k in s.disk && s.disk[k].uploadId in s.server.live ==> s.disk[k].uploadId in lost)
    && (forall i :: 0 <= i < |lost| ==> lost[i] in s.server.live && Names(s.disk, lost[i]))
    && (forall i, j :: 0 <= i < j < |lost| ==> lost[i] != lost[j])
  }

  function ChargedAll(l: Ledger, ids: seq<UploadId>, why: Cause): Ledger {
    if ids == [] then l else Charged(ChargedAll(l, ids[..|ids| - 1], why), ids[|ids| - 1], why)
  }

  /** A reply that had not reached the journal is charged. */
  function Interrupted(s: State): Ledger {
    match s.pc
    case Creating(a, Some(id)) => Charged(s.ledger, id, CrashBeforeBegin)
    case Creating(a, None) => s.ledger.(events := s.ledger.events + [CrashBeforeBegin],
                                        orphans := s.ledger.orphans[|s.ledger.events| := BirthOf(a)])
    case Beginning(a, id) => Charged(s.ledger, id, CrashBeforeBegin)
    case _ => s.ledger
  }

  /** Memory is lost and the journal is reloaded. A file that cannot be opened, read or parsed is taken for no journal
      at all; it stays as it is until the next flush replaces it. */
  function CrashStep(s: State, reload: Reload): (t: State)
    ensures WorldKept(s, t)
  {
    match reload
    case Read => s.(journal := s.disk, pc := Idle, ledger := Interrupted(s))
    case Unread(lost) =>
      if NamedOnDisk(s, lost)
      then s.(journal := map[], pc := Idle, ledger := ChargedAll(Interrupted(s), lost, JournalUnread))
      else s
  }

  function Moved(s: State, move: Move): (t: State)
    ensures WorldKept(s, t) && JournalKept(s, t) && t.ledger == s.ledger
  {
    match move
    case HashPut => HashPutStep(s)
    case PutReplied => if s.pc.Putting? && s.pc.put in s.server.landedPuts
                       then s.(pc := PutDone(s.pc.target, s.pc.path, s.pc.stamp, s.pc.put, s.pc.asPlanned)) else s
    case Look => LookStep(s)
    case AbortReplied => if s.pc.Aborting? then s.(pc := Dropping(s.pc.a, s.pc.uploadId, AbortIgnored)) else s
    case ListReplied(remote) => ListStep(s, remote)
    case ListFailed => if s.pc.Listing? then s.(pc := Dropping(s.pc.a, s.pc.entry.uploadId, ListPartsFailed)) else s
    case CreateReplied => if s.pc.Creating? && s.pc.created.Some?
                          then s.(pc := Beginning(s.pc.a, s.pc.created.value)) else s
    case CreateRefused => if s.pc.Creating? && s.pc.created.None? then s.(pc := Idle) else s
    case Advance => AdvanceStep(s)
    case PartReplied(etag) => PartReplyStep(s, etag)
    case CompleteReplied => CompleteReplyStep(s)
    case GiveUp => if s.pc.Putting? || s.pc.Looping? || s.pc.Sending? || s.pc.Completing? then s.(pc := Idle) else s
  }

  function JournalChanged(s: State, change: JournalStep): (t: State)
    ensures WorldKept(s, t) && t.ledger.orphans == s.ledger.orphans && t.ledger.attempts == s.ledger.attempts
  {
    match change
    case Drop(flushed) => DropStep(s, flushed)
    case BeginJournal(flushed) => BeginStep(s, flushed)
    case RecordOne(flushed) => RecordStep(s, flushed)
    case Finish(flushed) => FinishStep(s, flushed)
    case CleanupRemove(k, flushed) => CleanupStep(s, k, flushed)
  }

  function ServerChanged(s: State, effect: ServerStep): (t: State)
    ensures RestKept(s, t) && JournalKept(s, t) && t.ledger.events == s.ledger.events
  {
    match effect
    case Create(id) => ServerCreateStep(s, id)
    case CreateLate(event, id) => ServerCreateLateStep(s, event, id)
    case Store(r, etag) => ServerStoreStep(s, r, etag)
    case Complete(r) => ServerCompleteStep(s, r)
    case Abort(id) => s.(server := s.server.(live := s.server.live - {id}))
    case Put(r) => ServerPutStep(s, r)
  }

  /** A step that is not possible changes nothing. */
  function Apply(s: State, step: Step): State {
    match step
    case Start(t, p, threshold, size) => StartStep(s, t, p, threshold, size)
    case Client(move) => Moved(s, move)
    case Journal(change) => JournalChanged(s, change)
    case CreateLost => CreateLostStep(s)
    case Crash(reload) => CrashStep(s, reload)
    case WriteFile(p, stamp, bytes) => WriteStep(s, p, stamp, bytes)
    case DeleteFile(p) => s.(files := s.files - {p})
    case Remote(effect) => ServerChanged(s, effect)
  }

  function Run(s: State, steps: seq<Step>): State {
    if steps == [] then s else Apply(Run(s, steps[..|steps| - 1]), steps[|steps| - 1])
  }

  lemma {:induction false} RunAppend(s: State, a: seq<Step>, b: seq<Step>)
    ensures Run(s, a + b) == Run(Run(s, a), b)
  {
    if b == [] {
      assert a + b == a;
    } else {
      assert (a + b)[..|a + b| - 1] == a + b[..|b| - 1];
      RunAppend(s, a, b[..|b| - 1]);
    }
  }
}
