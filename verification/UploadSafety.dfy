/** Whatever is interrupted, lost, aborted, edited or restored, an upload that succeeds stores the file it was planned
    for, unless one of its parts was hashed when the file no longer had the stamp its attempt had found. */
module UploadSafety {

  import opened PartPlan
  import opened StorageTypes
  import opened UploadJournal
  import opened UploadProtocol

  /** Any local files, any remote objects, and nothing begun. */
  ghost predicate Initial(s: State) {
    && FilesOk(s)
    && s.server.live == map[] && s.server.stored == map[] && s.server.completed == map[] && s.server.landedPuts == {}
    && s.births == map[] && s.partRequests == {} && s.completeRequests == {} && s.putRequests == {} && s.stale == {}
    && s.journal == map[] && s.disk == map[] && s.pc == Idle && s.ledger == Ledger([], map[], map[], 0)
  }

  // ----------------------------------------------------------------- invariant

  ghost predicate FilesOk(s: State) {
    && (forall p :: p in s.files ==> s.files[p].stamp in s.contents && s.contents[s.files[p].stamp] == s.files[p].bytes)
    && (forall t :: t in s.contents ==> |s.contents[t]| == t.size < I64)
  }

  ghost predicate ServerOk(s: State) {
    && s.server.live.Keys <= s.births.Keys && s.server.completed.Keys <= s.births.Keys
    && s.server.live.Keys !! s.server.completed.Keys && "" !in s.births
    && (forall id :: id in s.births ==> s.births[id].stamp in s.contents
                                        && ValidPlan(s.births[id].plan, s.births[id].stamp.size))
    && (forall e :: e in s.ledger.orphans ==> s.ledger.orphans[e].stamp in s.contents
                                              && ValidPlan(s.ledger.orphans[e].plan, s.ledger.orphans[e].stamp.size))
  }

  /** The bytes are those of the range planned for this part. */
  ghost predicate Right(s: State, id: UploadId, n: int, bytes: Bytes) {
    && id in s.births && s.births[id].stamp in s.contents
    && bytes == PartBytes(s.contents[s.births[id].stamp], s.births[id].plan, n)
  }

  /** As many bytes as planned; and those of the planned range, unless the upload is stale. */
  ghost predicate BytesOk(s: State, id: UploadId, n: int, bytes: Bytes) {
    && id in s.births && s.births[id].stamp in s.contents && 1 <= n <= s.births[id].plan.partCount
    && var b := s.births[id];
       && |bytes| == Length(b.plan, b.stamp.size, n)
       && (id in s.stale || Right(s, id, n, bytes))
  }

  /** Requests are in order, and the server stores nothing else. */
  ghost predicate RequestsOk(s: State) {
    && (forall r :: r in s.partRequests ==> BytesOk(s, r.uploadId, r.partNumber, r.bytes))
    && (forall k :: k in s.server.stored ==> PartRequest(k.0, k.1, s.server.stored[k]) in s.partRequests)
  }

  ghost predicate PartOk(s: State, id: UploadId, n: int, part: Part) {
    && id in s.births && (id, n, part.etag) in s.server.stored
    && 1 <= n <= s.births[id].plan.partCount && part.partNumber == n
    && part.size == Length(s.births[id].plan, s.births[id].stamp.size, n)
  }

  ghost predicate EntryOk(s: State, t: Key, v: View) {
    && v.uploadId in s.births
    && s.births[v.uploadId].target == t
    && s.births[v.uploadId].stamp == Stamp(v.fileSize, v.fileTime)
    && s.births[v.uploadId].plan.partSize == v.partSize
    && (forall n :: n in v.parts ==> PartOk(s, v.uploadId, n, v.parts[n]))
  }

  ghost predicate JournalOk(s: State, m: map<Key, View>) {
    forall t :: t in m ==> EntryOk(s, t, m[t])
  }

  ghost predicate AttemptOk(s: State, a: Attempt) {
    a.stamp in s.contents && ValidPlan(a.plan, a.stamp.size)
  }

  /** The journal has no other upload for this target: it is this client's own, or cleaned up. */
  predicate OwnEntry(s: State, t: Key, id: UploadId) {
    t in s.journal ==> s.journal[t].uploadId == id
  }

  /** Everything listed and everything to be taken over is in the journal, unless the entry was cleaned up. */
  predicate Journalled(s: State, target: Key, id: UploadId, parts: seq<Part>, done: map<int, Part>) {
    target in s.journal ==>
      var e := s.journal[target];
      && e.uploadId == id
      && (forall p :: p in parts ==> p.partNumber in e.parts && e.parts[p.partNumber] == p)
      && (forall n :: n in done ==> n in e.parts && e.parts[n] == done[n])
  }

  /** The list so far, part by part: taken over or sent. */
  ghost predicate InLine(s: State, l: Loop) {
    && 1 <= l.number <= l.a.plan.partCount + 1 && |l.parts| == l.number - 1
    && (forall i :: 0 <= i < |l.parts| ==> PartOk(s, l.uploadId, i + 1, l.parts[i]))
    && (forall n :: n in l.done ==> PartOk(s, l.uploadId, n, l.done[n]))
    && (forall n :: n in l.sent <==> 1 <= n < l.number && n !in l.done)
    && (forall n :: n in l.done && 1 <= n < l.number ==> l.parts[n - 1] == l.done[n])
  }

  ghost predicate LoopOk(s: State, l: Loop) {
    && AttemptOk(s, l.a) && l.uploadId in s.births && s.births[l.uploadId] == BirthOf(l.a)
    && Journalled(s, l.a.target, l.uploadId, l.parts, l.done) && InLine(s, l)
  }

  ghost predicate PutOk(s: State, stamp: Stamp, put: PutRequest, asPlanned: bool) {
    stamp in s.contents && (asPlanned ==> put.bytes == s.contents[stamp])
  }

  ghost predicate PcOk(s: State) {
    match s.pc
    case Idle => true
    case Hashing(t, path, stamp) => stamp in s.contents
    case Putting(t, path, stamp, put, asPlanned) => PutOk(s, stamp, put, asPlanned)
    case PutDone(t, path, stamp, put, asPlanned) => PutOk(s, stamp, put, asPlanned) && put in s.server.landedPuts
    case Finding(a) => AttemptOk(s, a)
    case Aborting(a, id) => AttemptOk(s, a) && id in s.births && OwnEntry(s, a.target, id)
    case Listing(a, e) => AttemptOk(s, a) && EntryOk(s, a.target, e) && s.births[e.uploadId] == BirthOf(a)
                          && (a.target in s.journal ==> s.journal[a.target] == e)
    case Dropping(a, id, why) => AttemptOk(s, a) && id in s.births && OwnEntry(s, a.target, id)
                                 && (why.ListPartsFailed? || why.AbortIgnored?)
    case Creating(a, created) => AttemptOk(s, a) && a.target !in s.journal
                                 && (created.Some? ==> created.value in s.births && s.births[created.value] == BirthOf(a))
    case Beginning(a, id) => AttemptOk(s, a) && a.target !in s.journal && id in s.births && s.births[id] == BirthOf(a)
    case Looping(l) => LoopOk(s, l)
    case Sending(l, r) => LoopOk(s, l) && l.number <= l.a.plan.partCount && l.number !in l.done
                          && r in s.partRequests && r.uploadId == l.uploadId && r.partNumber == l.number
    case Recording(l, part) => LoopOk(s, l) && l.number <= l.a.plan.partCount && l.number !in l.done
                               && PartOk(s, l.uploadId, l.number, part)
    case Completing(l) => LoopOk(s, l) && l.number == l.a.plan.partCount + 1
    case Finishing(l) => LoopOk(s, l) && l.number == l.a.plan.partCount + 1
                         && l.uploadId in s.server.completed && s.server.completed[l.uploadId].0 == l.parts
  }

  /** Every finished upload was put together from the bytes behind its list. */
  ghost predicate CompletedOk(s: State) {
    forall id :: id in s.server.completed ==>
      && (forall p :: p in s.server.completed[id].0 ==> (id, p.partNumber, p.etag) in s.server.stored)
      && s.server.completed[id].1 == Assembled(s.server.stored, id, s.server.completed[id].0)
  }

  ghost predicate LiveOk(s: State) {
    forall id, n :: id in s.server.live && n in s.server.live[id] ==> (id, n, s.server.live[id][n]) in s.server.stored
  }

  ghost predicate Inv(s: State) {
    && FilesOk(s) && ServerOk(s) && RequestsOk(s) && LiveOk(s) && CompletedOk(s)
    && JournalOk(s, s.journal) && JournalOk(s, s.disk) && PcOk(s)
  }

  // ------------------------------------------------------------- what only grows

  /** Nothing the server ever handed out is forgotten. */
  ghost predicate Grows(s: State, t: State) {
    && (forall id :: id in s.births ==> id in t.births && t.births[id] == s.births[id])
    && (forall k :: k in s.server.stored ==> k in t.server.stored && t.server.stored[k] == s.server.stored[k])
  }

  /** History only grows. */
  ghost predicate Extends(s: State, t: State) {
    && Grows(s, t)
    && (forall x :: x in s.contents ==> x in t.contents && t.contents[x] == s.contents[x])
    && s.partRequests <= t.partRequests && s.stale <= t.stale
  }

  lemma ServerGrows(s: State, effect: ServerStep)
    ensures Grows(s, ServerChanged(s, effect))
  {
  }

  lemma WorldKeptExtends(s: State, t: State)
    requires WorldKept(s, t)
    ensures Extends(s, t) && (FilesOk(s) ==> FilesOk(t))
  {
  }

  lemma WriteExtends(s: State, path: Path, stamp: Stamp, bytes: Bytes)
    requires FilesOk(s)
    ensures var t := WriteStep(s, path, stamp, bytes); FilesOk(t) && Extends(s, t)
  {
    var t := WriteStep(s, path, stamp, bytes);
    assert forall p :: p in t.files ==> t.files[p].stamp in t.contents;
  }

  lemma StepExtends(s: State, step: Step)
    requires FilesOk(s)
    ensures FilesOk(Apply(s, step)) && Extends(s, Apply(s, step))
  {
    match step
    case WriteFile(path, stamp, bytes) => WriteExtends(s, path, stamp, bytes);
    case DeleteFile(path) =>
    case Remote(effect) => ServerGrows(s, effect);
    case _ => WorldKeptExtends(s, Apply(s, step));
  }

  // ------------------------------------------------------- what history keeps

  lemma PartKept(s: State, t: State, id: UploadId, n: int, part: Part)
    requires Extends(s, t) && PartOk(s, id, n, part)
    ensures PartOk(t, id, n, part)
  {
  }

  lemma EntryKept(s: State, t: State, target: Key, v: View)
    requires Extends(s, t) && EntryOk(s, target, v)
    ensures EntryOk(t, target, v)
  {
    forall n | n in v.parts
      ensures PartOk(t, v.uploadId, n, v.parts[n])
    {
      PartKept(s, t, v.uploadId, n, v.parts[n]);
    }
  }

  lemma JournalOkKept(s: State, t: State, m: map<Key, View>)
    requires Extends(s, t) && JournalOk(s, m)
    ensures JournalOk(t, m)
  {
    forall k | k in m
      ensures EntryOk(t, k, m[k])
    {
      EntryKept(s, t, k, m[k]);
    }
  }

  lemma InLineKept(s: State, t: State, l: Loop)
    requires Extends(s, t) && InLine(s, l)
    ensures InLine(t, l)
  {
    forall i | 0 <= i < |l.parts|
      ensures PartOk(t, l.uploadId, i + 1, l.parts[i])
    {
      PartKept(s, t, l.uploadId, i + 1, l.parts[i]);
    }
    forall n | n in l.done
      ensures PartOk(t, l.uploadId, n, l.done[n])
    {
      PartKept(s, t, l.uploadId, n, l.done[n]);
    }
  }

  /** Entries may leave the journal, but none changes. */
  predicate EntriesShrink(s: State, t: State) {
    forall k :: k in t.journal ==> k in s.journal && t.journal[k] == s.journal[k]
  }

  lemma LoopKept(s: State, t: State, l: Loop)
    requires Extends(s, t) && LoopOk(s, l) && (t.journal == s.journal || EntriesShrink(s, t))
    ensures LoopOk(t, l)
  {
    InLineKept(s, t, l);
  }

  predicate InLoop(pc: Pc) {
    pc.Looping? || pc.Sending? || pc.Recording? || pc.Completing? || pc.Finishing?
  }

  lemma LoopPcKept(s: State, t: State)
    requires Extends(s, t) && PcOk(s) && t.pc == s.pc && EntriesShrink(s, t) && Remembers(s, t) && InLoop(s.pc)
    ensures PcOk(t)
  {
    LoopKept(s, t, s.pc.l);
  }

  /** The client's knowledge survives every step that is not its own. */
  lemma PcKept(s: State, t: State)
    requires Extends(s, t) && PcOk(s) && t.pc == s.pc && EntriesShrink(s, t)
    requires Remembers(s, t)
    ensures PcOk(t)
  {
    if InLoop(s.pc) {
      LoopPcKept(s, t);
    } else if s.pc.Listing? {
      EntryKept(s, t, s.pc.a.target, s.pc.entry);
    }
  }

  // ------------------------------------------------------------ the server's steps

  lemma {:induction false} AssembledKept(s: State, t: State, id: UploadId, parts: seq<Part>)
    requires Grows(s, t) && forall p :: p in parts ==> (id, p.partNumber, p.etag) in s.server.stored
    ensures Assembled(t.server.stored, id, parts) == Assembled(s.server.stored, id, parts)
  {
    if parts != [] {
      assert parts[|parts| - 1] in parts;
      AssembledKept(s, t, id, parts[..|parts| - 1]);
    }
  }

  lemma CompletedKept(s: State, t: State)
    requires CompletedOk(s) && Grows(s, t) && t.server.completed == s.server.completed
    ensures CompletedOk(t)
  {
    forall id | id in t.server.completed
      ensures t.server.completed[id].1 == Assembled(t.server.stored, id, t.server.completed[id].0)
    {
      AssembledKept(s, t, id, s.server.completed[id].0);
    }
  }

  /** What Complete puts together is the object, and stays on record. */
  lemma CompleteOk(s: State, r: CompleteRequest)
    requires ServerOk(s) && LiveOk(s) && CompletedOk(s)
    ensures var t := ServerCompleteStep(s, r);
            ServerOk(t) && LiveOk(t) && CompletedOk(t)
    ensures var t := ServerCompleteStep(s, r);
            t.server.completed != s.server.completed ==>
              && r.uploadId in s.server.live && r.uploadId !in s.server.completed
              && t.server.completed == s.server.completed[r.uploadId := (r.parts, t.server.objects[s.births[r.uploadId].target])]
              && r.uploadId !in t.server.live
  {
  }

  lemma BytesKept(s: State, t: State, id: UploadId, n: int, bytes: Bytes)
    requires Extends(s, t) && BytesOk(s, id, n, bytes)
    ensures BytesOk(t, id, n, bytes)
  {
  }

  /** Requests stay in order when no new one is made and the server stores only what was sent. */
  lemma RequestsKept(s: State, t: State)
    requires RequestsOk(s) && Extends(s, t) && t.partRequests == s.partRequests
    requires forall k :: k in t.server.stored ==>
               k in s.server.stored || PartRequest(k.0, k.1, t.server.stored[k]) in s.partRequests
    ensures RequestsOk(t)
  {
    forall r | r in t.partRequests
      ensures BytesOk(t, r.uploadId, r.partNumber, r.bytes)
    {
      BytesKept(s, t, r.uploadId, r.partNumber, r.bytes);
    }
  }

  lemma ServerStoresRequests(s: State, effect: ServerStep)
    ensures var t := ServerChanged(s, effect);
            forall k :: k in t.server.stored ==>
              k in s.server.stored || PartRequest(k.0, k.1, t.server.stored[k]) in s.partRequests
  {
  }

  lemma StoreOk(s: State, r: PartRequest, etag: Etag)
    requires ServerOk(s) && LiveOk(s) && CompletedOk(s)
    ensures var t := ServerStoreStep(s, r, etag);
            ServerOk(t) && LiveOk(t) && CompletedOk(t)
  {
    ServerGrows(s, Store(r, etag));
    CompletedKept(s, ServerStoreStep(s, r, etag));
  }

  lemma NewUploadOk(s: State, id: UploadId, b: Birth)
    requires ServerOk(s) && LiveOk(s) && CompletedOk(s) && id !in s.births && id != ""
    requires b.stamp in s.contents && ValidPlan(b.plan, b.stamp.size)
    ensures ServerOk(NewUpload(s, id, b)) && LiveOk(NewUpload(s, id, b)) && CompletedOk(NewUpload(s, id, b))
  {
    CompletedKept(s, NewUpload(s, id, b));
  }

  lemma CreateOk(s: State, effect: ServerStep)
    requires ServerOk(s) && LiveOk(s) && CompletedOk(s) && PcOk(s) && (effect.Create? || effect.CreateLate?)
    ensures var t := ServerChanged(s, effect);
            ServerOk(t) && LiveOk(t) && CompletedOk(t)
  {
    match effect
    case Create(id) =>
      if s.pc.Creating? && id !in s.births && id != "" {
        NewUploadOk(s, id, BirthOf(s.pc.a));
      }
    case CreateLate(event, id) =>
      if event in s.ledger.orphans && id !in s.births && id != "" {
        NewUploadOk(s, id, s.ledger.orphans[event]);
      }
  }

  lemma ServerStepOk(s: State, effect: ServerStep)
    requires ServerOk(s) && LiveOk(s) && CompletedOk(s) && PcOk(s)
    ensures var t := ServerChanged(s, effect);
            ServerOk(t) && LiveOk(t) && CompletedOk(t)
  {
    match effect
    case Complete(r) => CompleteOk(s, r);
    case Store(r, etag) => StoreOk(s, r, etag);
    case Create(id) => CreateOk(s, effect);
    case CreateLate(event, id) => CreateOk(s, effect);
    case Abort(id) =>
    case Put(r) =>
  }

  // ------------------------------------------------------------ the client's steps

  lemma StartOk(s: State, target: Key, path: Path, threshold: u64, partSize: u64)
    requires FilesOk(s) && PcOk(s)
    ensures PcOk(StartStep(s, target, path, threshold, partSize))
  {
    if path in s.files {
      var size := s.files[path].stamp.size;
      PlanIsValid(size, partSize, MAX_PARTS);
    }
  }

  /** An entry that passes the comparison names an upload made for exactly this plan. */
  lemma MatchedEntry(s: State, a: Attempt, e: View)
    requires ServerOk(s) && AttemptOk(s, a) && EntryOk(s, a.target, e)
    requires e.fileSize == a.stamp.size && e.fileTime == a.stamp.time && e.partSize == a.plan.partSize
    ensures s.births[e.uploadId] == BirthOf(a)
  {
  }

  lemma LookOk(s: State)
    requires ServerOk(s) && JournalOk(s, s.journal) && PcOk(s)
    ensures PcOk(LookStep(s))
  {
    if s.pc.Finding? {
      var a, t := s.pc.a, LookStep(s);
      WorldKeptExtends(s, t);
      if a.target in s.journal {
        var e := s.journal[a.target];
        assert EntryOk(s, a.target, e);
        EntryKept(s, t, a.target, e);
        if t.pc.Listing? {
          MatchedEntry(s, a, e);
        }
      }
    }
  }

  lemma ListOk(s: State, remote: set<Part>)
    requires PcOk(s)
    ensures PcOk(ListStep(s, remote))
  {
    if s.pc.Listing? {
      var a, e, t := s.pc.a, s.pc.entry, ListStep(s, remote);
      WorldKeptExtends(s, t);
      EntryKept(s, t, a.target, e);
      var done := Trusted(a, e, remote);
      assert forall n :: n in done ==> PartOk(t, e.uploadId, n, done[n]);
    }
  }

  /** A journal with one entry changed is in order if that entry is. */
  lemma JournalOkUpdated(s: State, m: map<Key, View>, k: Key, v: View)
    requires JournalOk(s, m) && EntryOk(s, k, v)
    ensures JournalOk(s, m[k := v])
  {
  }

  lemma BeginJournalOk(s: State, flushed: bool)
    requires JournalOk(s, s.journal) && JournalOk(s, s.disk) && PcOk(s)
    ensures var t := BeginStep(s, flushed);
            JournalOk(s, t.journal) && JournalOk(s, t.disk)
  {
    if s.pc.Beginning? {
      JournalOkUpdated(s, s.journal, s.pc.a.target, EntryFor(s.pc.a, s.pc.uploadId));
    }
  }

  lemma BeginPcOk(s: State, flushed: bool)
    requires PcOk(s)
    ensures PcOk(BeginStep(s, flushed))
  {
    if s.pc.Beginning? {
      var t := BeginStep(s, flushed);
      WorldKeptExtends(s, t);
    }
  }

  lemma TakenOver(s: State, l: Loop)
    requires InLine(s, l) && l.number in l.done && l.uploadId in s.births && s.births[l.uploadId] == BirthOf(l.a)
    ensures InLine(s, l.(parts := l.parts + [l.done[l.number]], number := l.number + 1))
  {
  }

  lemma Appended(s: State, l: Loop, part: Part)
    requires InLine(s, l) && l.number <= l.a.plan.partCount && l.number !in l.done
    requires PartOk(s, l.uploadId, l.number, part)
    ensures InLine(s, l.(parts := l.parts + [part], number := l.number + 1, sent := l.sent + {l.number}))
  {
  }

  lemma JournalledOneMore(s: State, target: Key, id: UploadId, parts: seq<Part>, done: map<int, Part>, part: Part)
    requires Journalled(s, target, id, parts, done)
    requires target in s.journal ==>
               var e := s.journal[target]; part.partNumber in e.parts && e.parts[part.partNumber] == part
    ensures Journalled(s, target, id, parts + [part], done)
  {
  }

  /** What is hashed has the planned length, and is the planned range if the file still has the attempt's stamp. */
  lemma HashedRange(s: State, l: Loop)
    requires FilesOk(s) && LoopOk(s, l) && l.a.path in s.files && l.number <= l.a.plan.partCount
    requires Offset(l.a.plan, l.number) + Length(l.a.plan, l.a.stamp.size, l.number) <= |s.files[l.a.path].bytes|
    ensures var offset, length := Offset(l.a.plan, l.number), Length(l.a.plan, l.a.stamp.size, l.number);
            var hashed := s.files[l.a.path].bytes[offset..][..length];
            && |hashed| == length
            && (s.files[l.a.path].stamp == l.a.stamp ==> hashed == PartBytes(s.contents[l.a.stamp], l.a.plan, l.number))
  {
  }

  lemma AdvanceOk(s: State)
    requires PcOk(s)
    ensures PcOk(AdvanceStep(s))
  {
    if s.pc.Looping? {
      var l, t := s.pc.l, AdvanceStep(s);
      WorldKeptExtends(s, t);
      LoopKept(s, t, l);
      if t.pc.Looping? {
        TakenOver(t, l);
        JournalledOneMore(t, l.a.target, l.uploadId, l.parts, l.done, l.done[l.number]);
      } else if t.pc.Completing? && l.number <= l.a.plan.partCount {
        PartsTile(l.a.plan, l.a.stamp.size, l.number);
      }
    }
  }

  /** A request made by the loop is in order. */
  lemma AdvanceRequestsOk(s: State)
    requires FilesOk(s) && RequestsOk(s) && PcOk(s)
    ensures RequestsOk(AdvanceStep(s))
  {
    var t := AdvanceStep(s);
    WorldKeptExtends(s, t);
    if s.pc.Looping? && t.pc.Sending? {
      HashedRange(s, s.pc.l);
    }
    forall r | r in t.partRequests
      ensures BytesOk(t, r.uploadId, r.partNumber, r.bytes)
    {
      if r in s.partRequests {
        BytesKept(s, t, r.uploadId, r.partNumber, r.bytes);
      }
    }
  }

  lemma PartReplyOk(s: State, etag: Etag)
    requires PcOk(s)
    ensures PcOk(PartReplyStep(s, etag))
  {
    if s.pc.Sending? {
      var t := PartReplyStep(s, etag);
      WorldKeptExtends(s, t);
      LoopKept(s, t, s.pc.l);
    }
  }

  lemma RecordJournalOk(s: State, flushed: bool)
    requires JournalOk(s, s.journal) && JournalOk(s, s.disk) && PcOk(s)
    ensures var t := RecordStep(s, flushed);
            JournalOk(s, t.journal) && JournalOk(s, t.disk)
  {
    if s.pc.Recording? && s.pc.l.a.target in s.journal {
      var k := s.pc.l.a.target;
      var v := s.journal[k];
      assert EntryOk(s, k, v);
      JournalOkUpdated(s, s.journal, k, v.(parts := v.parts[s.pc.part.partNumber := s.pc.part]));
    }
  }

  /** Recording a part leaves what is recorded of the others alone. */
  lemma RecordStaysJournalled(s: State, flushed: bool)
    requires PcOk(s) && s.pc.Recording?
    ensures var l, t := s.pc.l, RecordStep(s, flushed);
            Journalled(t, l.a.target, l.uploadId, l.parts + [s.pc.part], l.done)
  {
    var l, t := s.pc.l, RecordStep(s, flushed);
    forall p | p in l.parts
      ensures p.partNumber < l.number
    {
      var i :| 0 <= i < |l.parts| && l.parts[i] == p;
      assert PartOk(s, l.uploadId, i + 1, l.parts[i]);
    }
    assert Journalled(t, l.a.target, l.uploadId, l.parts, l.done);
    JournalledOneMore(t, l.a.target, l.uploadId, l.parts, l.done, s.pc.part);
  }

  lemma RecordPcOk(s: State, flushed: bool)
    requires PcOk(s)
    ensures PcOk(RecordStep(s, flushed))
  {
    if s.pc.Recording? {
      var l, t := s.pc.l, RecordStep(s, flushed);
      WorldKeptExtends(s, t);
      RecordStaysJournalled(s, flushed);
      InLineKept(s, t, l);
      PartKept(s, t, l.uploadId, l.number, s.pc.part);
      Appended(t, l, s.pc.part);
    }
  }

  lemma DropPcOk(s: State, flushed: bool)
    requires PcOk(s)
    ensures PcOk(DropStep(s, flushed))
  {
    if s.pc.Dropping? {
      var t := DropStep(s, flushed);
      WorldKeptExtends(s, t);
    } else {
      assert DropStep(s, flushed) == s;
    }
  }

  /** Replies that only move the client on. */
  lemma RepliedPcOk(s: State, move: Move)
    requires PcOk(s) && (move.CreateReplied? || move.AbortReplied? || move.ListFailed?)
    ensures Moved(s, move).pc != s.pc ==> PcOk(Moved(s, move))
  {
    if s.pc.Creating? || s.pc.Aborting? || s.pc.Listing? {
      var t := Moved(s, move);
      WorldKeptExtends(s, t);
    }
  }

  lemma CompleteReplyPcOk(s: State)
    requires PcOk(s)
    ensures PcOk(CompleteReplyStep(s))
  {
    if s.pc.Completing? {
      var t := CompleteReplyStep(s);
      WorldKeptExtends(s, t);
      LoopKept(s, t, s.pc.l);
    }
  }

  lemma PutPcOk(s: State, move: Move)
    requires FilesOk(s) && PcOk(s) && (move.HashPut? || move.PutReplied?)
    ensures Moved(s, move).pc != s.pc ==> PcOk(Moved(s, move))
  {
  }

  /** Wherever the client goes next, it knows there what it should. */
  lemma MovedPcOk(s: State, move: Move)
    requires FilesOk(s) && ServerOk(s) && JournalOk(s, s.journal) && PcOk(s)
    ensures var t := Moved(s, move);
            t.pc != s.pc && !t.pc.Idle? ==> PcOk(t)
  {
    match move
    case HashPut => PutPcOk(s, move);
    case PutReplied => PutPcOk(s, move);
    case Look => LookOk(s);
    case AbortReplied => RepliedPcOk(s, move);
    case ListReplied(remote) => ListOk(s, remote);
    case ListFailed => RepliedPcOk(s, move);
    case CreateReplied => RepliedPcOk(s, move);
    case CreateRefused =>
    case Advance => AdvanceOk(s);
    case PartReplied(etag) => PartReplyOk(s, etag);
    case CompleteReplied => CompleteReplyPcOk(s);
    case GiveUp =>
  }

  // ------------------------------------------------------------------- every step

  /** Landed and finished requests stay on record. */
  ghost predicate Remembers(s: State, t: State) {
    && s.server.landedPuts <= t.server.landedPuts
    && (forall id :: id in s.server.completed ==> id in t.server.completed && t.server.completed[id] == s.server.completed[id])
  }

  lemma ServerRemembers(s: State, effect: ServerStep)
    requires ServerOk(s) && LiveOk(s) && CompletedOk(s)
    ensures Remembers(s, ServerChanged(s, effect))
  {
    match effect
    case Complete(r) => CompleteOk(s, r);
    case _ =>
  }

  lemma StepRemembers(s: State, step: Step)
    requires ServerOk(s) && LiveOk(s) && CompletedOk(s)
    ensures Remembers(s, Apply(s, step))
  {
    if step.Remote? {
      ServerRemembers(s, step.effect);
    } else {
      assert Apply(s, step).server == s.server;
    }
  }

  lemma ServerCreatePcOk(s: State, id: UploadId)
    requires PcOk(s)
    ensures ServerCreateStep(s, id).pc != s.pc ==> PcOk(ServerCreateStep(s, id))
  {
    var t := ServerCreateStep(s, id);
    if t.pc != s.pc {
      ServerGrows(s, Create(id));
    }
  }

  /** Entries leave the journal, or are replaced by this client's own. */
  lemma WaitingShrinks(s: State, step: Step)
    requires PcOk(s) && Apply(s, step).pc == s.pc && !s.pc.Idle?
    ensures EntriesShrink(s, Apply(s, step))
  {
    if step.Journal? {
      match step.change
      case Drop(flushed) =>
      case BeginJournal(flushed) =>
      case RecordOne(flushed) =>
      case Finish(flushed) =>
      case CleanupRemove(k, flushed) =>
    }
  }

  lemma WaitingPcOk(s: State, step: Step)
    requires FilesOk(s) && ServerOk(s) && LiveOk(s) && CompletedOk(s) && PcOk(s)
    requires Apply(s, step).pc == s.pc && !s.pc.Idle?
    ensures PcOk(Apply(s, step))
  {
    StepExtends(s, step);
    WaitingShrinks(s, step);
    StepRemembers(s, step);
    PcKept(s, Apply(s, step));
  }

  lemma JournalPcOk(s: State, change: JournalStep)
    requires PcOk(s)
    ensures var t := JournalChanged(s, change);
            t.pc != s.pc && !t.pc.Idle? ==> PcOk(t)
  {
    match change
    case Drop(flushed) => DropPcOk(s, flushed);
    case BeginJournal(flushed) => BeginPcOk(s, flushed);
    case RecordOne(flushed) => RecordPcOk(s, flushed);
    case Finish(flushed) =>
    case CleanupRemove(k, flushed) =>
  }

  /** Only a Create that is waited for moves the client when the server acts. */
  lemma RemotePcOk(s: State, effect: ServerStep)
    requires PcOk(s)
    ensures ServerChanged(s, effect).pc != s.pc ==> PcOk(ServerChanged(s, effect))
  {
    if effect.Create? {
      ServerCreatePcOk(s, effect.id);
    }
  }

  /** A step that moves the client leaves it knowing what it should. */
  lemma MovingPcOk(s: State, step: Step)
    requires Inv(s) && Apply(s, step).pc != s.pc
    ensures PcOk(Apply(s, step))
  {
    match step
    case Start(target, p, threshold, size) => StartOk(s, target, p, threshold, size);
    case Client(move) => MovedPcOk(s, move);
    case Journal(change) => JournalPcOk(s, change);
    case Remote(effect) => RemotePcOk(s, effect);
    case _ =>
  }

  lemma StepPcOk(s: State, step: Step)
    requires Inv(s)
    ensures PcOk(Apply(s, step))
  {
    if Apply(s, step).pc != s.pc {
      MovingPcOk(s, step);
    } else if !s.pc.Idle? {
      WaitingPcOk(s, step);
    }
  }

  lemma JournalChangeOk(s: State, change: JournalStep)
    requires JournalOk(s, s.journal) && JournalOk(s, s.disk) && PcOk(s)
    ensures var t := JournalChanged(s, change);
            JournalOk(s, t.journal) && JournalOk(s, t.disk)
  {
    match change
    case BeginJournal(flushed) => BeginJournalOk(s, flushed);
    case RecordOne(flushed) => RecordJournalOk(s, flushed);
    case _ =>
  }

  lemma JournalsChange(s: State, step: Step)
    requires JournalOk(s, s.journal) && JournalOk(s, s.disk) && PcOk(s)
    ensures var t := Apply(s, step);
            JournalOk(s, t.journal) && JournalOk(s, t.disk)
  {
    if step.Journal? {
      JournalChangeOk(s, step.change);
    }
  }

  /** Requests the client gave up on were made for a planned file. */
  lemma OrphansArePlanned(s: State)
    requires ServerOk(s) && PcOk(s)
    ensures ServerOk(CreateLostStep(s))
  {
  }

  lemma {:induction false} ChargedAllKeepsOrphans(l: Ledger, ids: seq<UploadId>, why: Cause)
    ensures ChargedAll(l, ids, why).orphans == l.orphans
  {
    if ids != [] {
      ChargedAllKeepsOrphans(l, ids[..|ids| - 1], why);
    }
  }

  lemma CrashOrphansArePlanned(s: State, reload: Reload)
    requires ServerOk(s) && PcOk(s)
    ensures ServerOk(CrashStep(s, reload))
  {
    if reload.Unread? {
      ChargedAllKeepsOrphans(Interrupted(s), reload.lost, JournalUnread);
    }
  }

  lemma StepServerOk(s: State, step: Step)
    requires Inv(s)
    ensures var t := Apply(s, step);
            ServerOk(t) && LiveOk(t) && CompletedOk(t)
  {
    match step
    case Remote(effect) => ServerStepOk(s, effect);
    case CreateLost => OrphansArePlanned(s);
    case Crash(reload) => CrashOrphansArePlanned(s, reload);
    case _ =>
  }

  lemma MoveSendsNothing(s: State, move: Move)
    requires !move.Advance?
    ensures Moved(s, move).partRequests == s.partRequests
  {
  }

  lemma JournalSendsNothing(s: State, change: JournalStep)
    ensures JournalChanged(s, change).partRequests == s.partRequests
  {
  }

  /** Only the loop makes requests for parts, and the server stores what was requested. */
  lemma StepSendsNothing(s: State, step: Step)
    requires step != Client(Advance)
    ensures var t := Apply(s, step);
            && t.partRequests == s.partRequests
            && forall k :: k in t.server.stored ==>
                 k in s.server.stored || PartRequest(k.0, k.1, t.server.stored[k]) in s.partRequests
  {
    match step
    case Client(move) => MoveSendsNothing(s, move);
    case Journal(change) => JournalSendsNothing(s, change);
    case Remote(effect) => ServerStoresRequests(s, effect);
    case _ =>
  }

  lemma StepRequestsOk(s: State, step: Step)
    requires Inv(s)
    ensures RequestsOk(Apply(s, step))
  {
    if step == Client(Advance) {
      AdvanceRequestsOk(s);
    } else {
      StepExtends(s, step);
      StepSendsNothing(s, step);
      RequestsKept(s, Apply(s, step));
    }
  }

  lemma StepKeepsInv(s: State, step: Step)
    requires Inv(s)
    ensures Inv(Apply(s, step))
  {
    var t := Apply(s, step);
    StepExtends(s, step);
    StepPcOk(s, step);
    StepServerOk(s, step);
    StepRequestsOk(s, step);
    JournalsChange(s, step);
    JournalOkKept(s, t, t.journal);
    JournalOkKept(s, t, t.disk);
  }

  lemma {:induction false} RunStaysOk(s: State, steps: seq<Step>)
    requires Inv(s)
    ensures Inv(Run(s, steps))
  {
    if steps != [] {
      RunStaysOk(s, steps[..|steps| - 1]);
      StepKeepsInv(Run(s, steps[..|steps| - 1]), steps[|steps| - 1]);
    }
  }

  /** Every reachable state is in order. */
  lemma RunKeepsInv(s: State, steps: seq<Step>)
    requires Initial(s)
    ensures Inv(Run(s, steps))
  {
    RunStaysOk(s, steps);
  }

  // -------------------------------------------------------------------- theorems

  /** Where the bytes of the first `k` parts end. */
  function EndOf(plan: Plan, size: u64, k: nat): nat {
    if k == 0 then 0 else Offset(plan, k) + Length(plan, size, k)
  }

  lemma PartExtendsPrefix(content: Bytes, plan: Plan, n: int)
    requires ValidPlan(plan, |content|) && 1 <= n <= plan.partCount
    ensures EndOf(plan, |content|, n - 1) <= EndOf(plan, |content|, n) <= |content|
    ensures content[..EndOf(plan, |content|, n - 1)] + PartBytes(content, plan, n) == content[..EndOf(plan, |content|, n)]
    ensures n == plan.partCount ==> EndOf(plan, |content|, n) == |content|
  {
    PartsTile(plan, |content|, n);
    if n > 1 {
      PartsTile(plan, |content|, n - 1);
    }
  }

  /** Every part sent for this upload had the planned bytes. */
  ghost predicate AllRight(s: State, id: UploadId) {
    forall r :: r in s.partRequests && r.uploadId == id ==> Right(s, id, r.partNumber, r.bytes)
  }

  /** A list of parts 1, 2, ... of this upload. */
  ghost predicate PartsOk(s: State, id: UploadId, parts: seq<Part>) {
    && id in s.births && s.births[id].stamp in s.contents && ValidPlan(s.births[id].plan, s.births[id].stamp.size)
    && |parts| <= s.births[id].plan.partCount
    && (forall i :: 0 <= i < |parts| ==> PartOk(s, id, i + 1, parts[i]))
  }

  /** The first `k` listed parts are as long as planned, and the first bytes of the file if all were sent right. */
  lemma {:induction false} ListedPartsAreFile(s: State, id: UploadId, parts: seq<Part>, k: nat)
    requires FilesOk(s) && RequestsOk(s) && PartsOk(s, id, parts) && k <= |parts|
    ensures EndOf(s.births[id].plan, s.births[id].stamp.size, k) <= |s.contents[s.births[id].stamp]|
    ensures var bytes := Assembled(s.server.stored, id, parts[..k]);
            && |bytes| == EndOf(s.births[id].plan, s.births[id].stamp.size, k)
            && (AllRight(s, id) ==> bytes == s.contents[s.births[id].stamp][..|bytes|])
  {
    if k > 0 {
      ListedPartsAreFile(s, id, parts, k - 1);
      assert parts[..k][..k - 1] == parts[..k - 1];
      var part := parts[k - 1];
      assert PartOk(s, id, k, part);
      assert PartRequest(id, k, s.server.stored[(id, k, part.etag)]) in s.partRequests;
      PartExtendsPrefix(s.contents[s.births[id].stamp], s.births[id].plan, k);
    }
  }

  /** A whole list is put together to something of the file's size, and to the file if all parts were sent right: in
      particular if the upload is not stale. */
  lemma WholeListIsFile(s: State, id: UploadId, parts: seq<Part>)
    requires FilesOk(s) && RequestsOk(s) && PartsOk(s, id, parts) && |parts| == s.births[id].plan.partCount
    ensures var bytes, b := Assembled(s.server.stored, id, parts), s.births[id];
            && |bytes| == b.stamp.size
            && (id !in s.stale || AllRight(s, id) ==> bytes == s.contents[b.stamp])
  {
    ListedPartsAreFile(s, id, parts, |parts|);
    assert parts[..|parts|] == parts;
    PartExtendsPrefix(s.contents[s.births[id].stamp], s.births[id].plan, |parts|);
  }

  /** In a finishing state what Complete put together has the size of the file the attempt found, and is that file if
      all parts were sent right: in particular if the upload is not stale. */
  lemma FinishingStoresFile(s: State)
    requires Inv(s) && s.pc.Finishing?
    ensures var l := s.pc.l;
            && l.a.stamp in s.contents && l.uploadId in s.server.completed
            && |s.server.completed[l.uploadId].1| == l.a.stamp.size
            && (l.uploadId !in s.stale || AllRight(s, l.uploadId) ==>
                  s.server.completed[l.uploadId].1 == s.contents[l.a.stamp])
  {
    WholeListIsFile(s, s.pc.l.uploadId, s.pc.l.parts);
  }

  /** Resume safety over whole runs. Attempts, crashes, lost or late requests, lost flushes, aborts from elsewhere,
      clean-ups, and edits, copies and restored files in any order: when an upload succeeds, none of whose parts was
      hashed from a file that no longer had the stamp its attempt had found, what Complete assembled is the file the
      attempt found, byte for byte, and any file that has its stamp; likewise for a single request. */
  lemma UploadStoresFile(s: State, steps: seq<Step>, path: Path)
    requires Initial(s)
    ensures var t := Run(s, steps);
            && (t.pc.Finishing? && t.pc.l.uploadId !in t.stale ==>
                  && t.pc.l.a.stamp in t.contents && t.pc.l.uploadId in t.server.completed
                  && t.server.completed[t.pc.l.uploadId].1 == t.contents[t.pc.l.a.stamp]
                  && (path in t.files && t.files[path].stamp == t.pc.l.a.stamp ==>
                        t.server.completed[t.pc.l.uploadId].1 == t.files[path].bytes))
            && (t.pc.PutDone? && t.pc.asPlanned ==>
                  && t.pc.stamp in t.contents && t.pc.put in t.server.landedPuts
                  && t.pc.put.bytes == t.contents[t.pc.stamp]
                  && (path in t.files && t.files[path].stamp == t.pc.stamp ==> t.pc.put.bytes == t.files[path].bytes))
  {
    var t := Run(s, steps);
    RunKeepsInv(s, steps);
    if t.pc.Finishing? {
      FinishingStoresFile(t);
    }
  }

  /** Key invariant: what the journal says of a part is true of what the service holds behind its etag, and the bytes
      are the range of any file that has the entry's stamp if the upload is not stale. */
  lemma JournalledPartIsFileRange(s: State, steps: seq<Step>, k: Key, n: int, path: Path)
    requires Initial(s)
    requires var t := Run(s, steps); k in t.journal && n in t.journal[k].parts
    ensures Run(s, steps).journal[k].uploadId in Run(s, steps).births
    ensures var t := Run(s, steps);
            var e := t.journal[k];
            var b := t.births[e.uploadId];
            && 1 <= n <= b.plan.partCount && b.plan.partSize == e.partSize
            && (e.uploadId, n, e.parts[n].etag) in t.server.stored
            && e.parts[n].size == |t.server.stored[(e.uploadId, n, e.parts[n].etag)]| > 0
            && (e.uploadId !in t.stale && path in t.files && t.files[path].stamp == Stamp(e.fileSize, e.fileTime) ==>
                  t.server.stored[(e.uploadId, n, e.parts[n].etag)] == PartBytes(t.files[path].bytes, b.plan, n))
  {
    var t := Run(s, steps);
    RunKeepsInv(s, steps);
    var e := t.journal[k];
    assert EntryOk(t, k, e);
    assert PartOk(t, e.uploadId, n, e.parts[n]);
    assert PartRequest(e.uploadId, n, t.server.stored[(e.uploadId, n, e.parts[n].etag)]) in t.partRequests;
    var b := t.births[e.uploadId];
    PartsTile(b.plan, b.stamp.size, n);
  }

  // ------------------------------------------------------------------- accounting

  function SizeSum(parts: seq<Part>): nat {
    if parts == [] then 0 else SizeSum(parts[..|parts| - 1]) + parts[|parts| - 1].size
  }

  /** Bytes of the listed parts that were taken over (`done`) or sent. */
  function ResumedBytes(parts: seq<Part>, done: set<int>): nat {
    if parts == [] then 0
    else
      var p := parts[|parts| - 1];
      ResumedBytes(parts[..|parts| - 1], done) + if p.partNumber in done then p.size else 0
  }

  lemma {:induction false} SizesAddUp(s: State, l: Loop, k: nat)
    requires LoopOk(s, l) && k <= |l.parts|
    ensures SizeSum(l.parts[..k]) == EndOf(l.a.plan, l.a.stamp.size, k) <= l.a.stamp.size
    ensures ResumedBytes(l.parts[..k], l.done.Keys) + ResumedBytes(l.parts[..k], l.sent) == SizeSum(l.parts[..k])
  {
    if k == 0 {
    } else {
      SizesAddUp(s, l, k - 1);
      assert l.parts[..k][..k - 1] == l.parts[..k - 1];
      assert PartOk(s, l.uploadId, k, l.parts[k - 1]);
      PartsTile(l.a.plan, l.a.stamp.size, k);
      if k > 1 {
        PartsTile(l.a.plan, l.a.stamp.size, k - 1);
      }
    }
  }

  /** The list is parts 1..partCount in order with the planned sizes, which add up to the file; the parts sent are
      exactly those not taken over, and resumed and sent bytes make up the file. */
  ghost predicate IsWholeFile(l: Loop) {
    && |l.parts| == l.a.plan.partCount
    && (forall i :: 0 <= i < |l.parts| ==>
          l.parts[i].partNumber == i + 1 && l.parts[i].size == Length(l.a.plan, l.a.stamp.size, i + 1))
    && SizeSum(l.parts) == l.a.stamp.size
    && (forall n :: 1 <= n <= l.a.plan.partCount ==> (n in l.sent <==> n !in l.done))
    && (forall n :: n in l.done ==> 1 <= n <= |l.parts| && l.parts[n - 1] == l.done[n])
    && ResumedBytes(l.parts, l.done.Keys) + ResumedBytes(l.parts, l.sent) == l.a.stamp.size
  }

  lemma FullLoopIsWholeFile(s: State, l: Loop)
    requires LoopOk(s, l) && l.number == l.a.plan.partCount + 1
    ensures IsWholeFile(l)
  {
    SizesAddUp(s, l, |l.parts|);
    assert l.parts[..|l.parts|] == l.parts;
    PartsTile(l.a.plan, l.a.stamp.size, l.a.plan.partCount);
    forall i | 0 <= i < |l.parts|
      ensures l.parts[i].partNumber == i + 1 && l.parts[i].size == Length(l.a.plan, l.a.stamp.size, i + 1)
    {
      assert PartOk(s, l.uploadId, i + 1, l.parts[i]);
    }
    forall n | n in l.done
      ensures 1 <= n <= |l.parts|
    {
      assert PartOk(s, l.uploadId, n, l.done[n]);
    }
  }

  lemma ListIsWholeFile(t: State)
    requires Inv(t)
    ensures t.pc.Completing? || t.pc.Finishing? ==> IsWholeFile(t.pc.l)
  {
    if t.pc.Completing? || t.pc.Finishing? {
      FullLoopIsWholeFile(t, t.pc.l);
    }
  }

  /** Run accounting: Complete is only ever sent with the whole file. */
  lemma CompleteListIsWholeFile(s: State, steps: seq<Step>)
    requires Initial(s)
    ensures var t := Run(s, steps);
            t.pc.Completing? || t.pc.Finishing? ==> IsWholeFile(t.pc.l)
  {
    RunKeepsInv(s, steps);
    ListIsWholeFile(Run(s, steps));
  }

  /** A journalled part is taken over exactly when the service lists the very same number, size and etag: in a
      reachable state the comparison with the planned length rejects nothing. */
  lemma TakenOverIsAgreement(s: State, steps: seq<Step>, remote: set<Part>, n: int)
    requires Initial(s) && Run(s, steps).pc.Listing?
    ensures var pc := Run(s, steps).pc;
            n in Trusted(pc.a, pc.entry, remote) <==> n in pc.entry.parts && pc.entry.parts[n] in remote
  {
    var t := Run(s, steps);
    RunKeepsInv(s, steps);
    assert n in t.pc.entry.parts ==> PartOk(t, t.pc.entry.uploadId, n, t.pc.entry.parts[n]);
  }

  lemma NextPartFits(s: State, l: Loop)
    requires LoopOk(s, l) && l.number <= l.a.plan.partCount
    ensures SizeSum(l.parts) + Length(l.a.plan, l.a.stamp.size, l.number) <= l.a.stamp.size
  {
    SizesAddUp(s, l, |l.parts|);
    assert l.parts[..|l.parts|] == l.parts;
    PartsTile(l.a.plan, l.a.stamp.size, l.number);
    if l.number > 1 {
      PartsTile(l.a.plan, l.a.stamp.size, l.number - 1);
    }
  }

  /** While a part is being sent and reports at most its length, progress stays within the file. */
  lemma ProgressWithinFile(s: State, steps: seq<Step>, reported: nat)
    requires Initial(s)
    requires var pc := Run(s, steps).pc;
             pc.Sending? && reported <= Length(pc.l.a.plan, pc.l.a.stamp.size, pc.l.number)
    ensures var l := Run(s, steps).pc.l;
            SizeSum(l.parts) + reported <= l.a.stamp.size
  {
    RunKeepsInv(s, steps);
    NextPartFits(Run(s, steps), Run(s, steps).pc.l);
  }
}
