/** Two ways in which a stamp that comes back makes a successful upload store something else than the file. The journal
    compares size and time only, and a part is recorded under the stamp taken before the upload even if the file was
    replaced meanwhile. If then the old file comes back with its old time, say from a backup, or a copy made before with
    the same time is uploaded to the same key, the stale part is taken for part of it. Every stamp still stands for one
    content throughout. `UploadGuard` says which hash decides it. */
module StampReuse {

  import opened PartPlan
  import opened StorageTypes
  import opened UploadJournal
  import opened UploadProtocol
  import opened UploadSafety
  import opened UploadGuard
  import opened FreshStamps

  const SIZE: nat := MIN_PART_SIZE
  const OLD := Stamp(SIZE, 1)
  const NEW := Stamp(SIZE, 2)
  const TARGET := Key.Key("scope", "bucket", "key")
  const PLAN := Plan(SIZE, 1)
  const STALE := Part(1, SIZE, "etag")

  function OldBytes(): (b: Bytes) ensures |b| == SIZE { seq(SIZE, _ => 0) }
  function NewBytes(): (b: Bytes) ensures |b| == SIZE { seq(SIZE, _ => 1) }

  function OldFile(): LocalFile { LocalFile(OLD, OldBytes()) }
  function NewFile(): LocalFile { LocalFile(NEW, NewBytes()) }

  /** Part 1, hashed after the file was replaced. */
  function StaleRequest(): PartRequest {
    PartRequest("id", 1, NewBytes()[0..][..SIZE])
  }

  function Before(files: map<Path, LocalFile>): State {
    State(files, map[OLD := OldBytes()], Server(map[], map[], map[], {}, map[]), map[], {}, {}, {}, map[], map[], Idle,
          Ledger([], map[], map[], 0), {})
  }

  lemma PlannedInOne()
    ensures PlanMultipartUpload(SIZE, 0, MAX_PARTS) == Planned.Success(PLAN)
    ensures Offset(PLAN, 1) == 0 && Length(PLAN, SIZE, 1) == SIZE && ValidPlan(PLAN, SIZE)
  {
    PlanNeverWraps(SIZE, 0, MAX_PARTS);
    CeilDivLeast(SIZE, MAX_PARTS, MIN_PART_SIZE);
    CeilDivLeast(SIZE, SIZE, 0);
    CeilDivLeast(SIZE, SIZE, 1);
    OffsetExact(PLAN, 1);
  }

  function AttemptOn(path: Path): Attempt { Attempt(TARGET, path, OLD, PLAN) }

  const FIRST := Loop(AttemptOn("file"), "id", map[], 1, [], {})
  const ENTRY := EntryFor(AttemptOn("file"), "id")
  const RECORDED := ENTRY.(parts := map[1 := STALE])
  const HOLDING := Server(map["id" := map[1 := "etag"]], map[("id", 1, "etag") := StaleRequest().bytes], map[], {}, map[])

  /** The second attempt, on a file that has the old stamp. */
  function Resumed(path: Path): Loop { Loop(AttemptOn(path), "id", map[1 := STALE], 1, [], {}) }
  function Listed(path: Path): Loop { Resumed(path).(parts := [STALE], number := 2) }

  // The runs, phase by phase, and what is reached after each.

  const BEGINS := [Start(TARGET, "file", 0, 0), Client(Look), Remote(Create("id"))]
  const JOURNALS := [Client(CreateReplied), Journal(BeginJournal(true))]
  const REPLACES := WriteFile("file", NEW, NewBytes())
  const HASHES := [Client(Advance)]
  const STORES := [Remote(Store(StaleRequest(), "etag")), Client(PartReplied("etag"))]
  const GIVES_UP := [Journal(RecordOne(true)), Client(GiveUp)]
  const COMPLETES := [Remote(Complete(CompleteRequest("id", [STALE]))), Client(CompleteReplied)]
  const TAKES_OVER: seq<Step> := [Client(Advance), Client(Advance)]
  function Resumes(path: Path): seq<Step> { [Start(TARGET, path, 0, 0), Client(Look), Client(ListReplied({STALE}))] }

  predicate NothingSent(s: State) {
    s.completeRequests == {} && s.births == map["id" := BirthOf(AttemptOn("file"))]
  }

  lemma Two(s: State, a: Step, b: Step)
    ensures Run(s, [a, b]) == Apply(Apply(s, a), b)
  {
    assert [a, b][..1] == [a] && [a][..0] == [];
    assert Run(s, [a]) == Apply(s, a);
  }

  /** An attempt starts and creates its upload. */
  lemma Begins(s: State)
    requires s == Before(s.files) && "file" in s.files && s.files["file"] == OldFile()
    ensures var t := Run(s, BEGINS);
            && t.pc == Creating(AttemptOn("file"), Some("id")) && t.files == s.files && t.contents == s.contents
            && t.server == Server(map["id" := map[]], map[], map[], {}, map[]) && NothingSent(t) && t.journal == map[]
  {
    PlannedInOne();
    Three(s, BEGINS[0], BEGINS[1], BEGINS[2]);
  }

  lemma Journals(s: State)
    requires s.pc == Creating(AttemptOn("file"), Some("id")) && s.journal == map[]
    ensures var t := Run(s, JOURNALS);
            && t.pc == Looping(FIRST) && t.journal == map[TARGET := ENTRY] && WorldKept(s, t)
            && t.completeRequests == s.completeRequests
  {
    Two(s, JOURNALS[0], JOURNALS[1]);
  }

  /** The file is replaced before its only part is hashed. */
  lemma Replaced(s: State)
    requires s.pc == Looping(FIRST) && s.contents == map[OLD := OldBytes()]
    ensures var t := Run(s, [REPLACES]);
            && t.pc == Looping(FIRST) && t.files == s.files["file" := NewFile()]
            && OLD in t.contents && t.contents[OLD] == OldBytes()
            && t.server == s.server && t.births == s.births && t.journal == s.journal
            && t.completeRequests == s.completeRequests
  {
    One(s, REPLACES);
  }

  lemma Hashes(s: State)
    requires s.pc == Looping(FIRST) && "file" in s.files && s.files["file"] == NewFile()
    ensures var t := Run(s, HASHES);
            && t.pc == Sending(FIRST, StaleRequest()) && StaleRequest() in t.partRequests && WorldKept(s, t)
            && t.journal == s.journal && t.completeRequests == s.completeRequests
  {
    PlannedInOne();
    One(s, Client(Advance));
  }

  lemma Stores(s: State)
    requires s.pc == Sending(FIRST, StaleRequest()) && StaleRequest() in s.partRequests
    requires s.server == Server(map["id" := map[]], map[], map[], {}, map[])
    ensures var t := Run(s, STORES);
            && t.pc == Recording(FIRST, STALE) && t.server == HOLDING && t.files == s.files && t.contents == s.contents
            && t.births == s.births && t.journal == s.journal && t.completeRequests == s.completeRequests
  {
    Two(s, STORES[0], STORES[1]);
    StaleIsStored(s);
    StaleIsAnswered(ServerStoreStep(s, StaleRequest(), "etag"));
  }

  lemma StaleIsStored(s: State)
    requires StaleRequest() in s.partRequests && s.server == Server(map["id" := map[]], map[], map[], {}, map[])
    ensures ServerStoreStep(s, StaleRequest(), "etag") == s.(server := HOLDING)
  {
  }

  lemma StaleIsAnswered(s: State)
    requires s.pc == Sending(FIRST, StaleRequest()) && s.server == HOLDING
    ensures PartReplyStep(s, "etag") == s.(pc := Recording(FIRST, STALE))
  {
    PlannedInOne();
  }

  /** The stale part is recorded, and the attempt gives up. */
  lemma GivesUp(s: State)
    requires s.pc == Recording(FIRST, STALE) && s.journal == map[TARGET := ENTRY]
    ensures var t := Run(s, GIVES_UP);
            && t.pc == Idle && t.journal == map[TARGET := RECORDED] && WorldKept(s, t)
            && t.completeRequests == s.completeRequests
  {
    Two(s, GIVES_UP[0], GIVES_UP[1]);
  }

  predicate HasOld(s: State, path: Path) {
    path in s.files && s.files[path] == OldFile()
  }

  lemma ResumesStale(s: State, path: Path)
    requires s.pc == Idle && HasOld(s, path) && s.server == HOLDING && s.journal == map[TARGET := RECORDED]
    ensures var t := Run(s, Resumes(path));
            t.pc == Looping(Resumed(path)) && WorldKept(s, t) && t.completeRequests == s.completeRequests
  {
    Three(s, Start(TARGET, path, 0, 0), Client(Look), Client(ListReplied({STALE})));
    StartsSecond(s, path);
    ListsStale(LookStep(StartStep(s, TARGET, path, 0, 0)), path);
  }

  lemma StartsSecond(s: State, path: Path)
    requires s.pc == Idle && HasOld(s, path) && s.journal == map[TARGET := RECORDED]
    ensures var t := LookStep(StartStep(s, TARGET, path, 0, 0));
            t.pc == Listing(AttemptOn(path), RECORDED) && t == s.(pc := t.pc, ledger := t.ledger)
  {
    PlannedInOne();
  }

  lemma ListsStale(s: State, path: Path)
    requires s.pc == Listing(AttemptOn(path), RECORDED) && s.server == HOLDING
    ensures ListStep(s, {STALE}) == s.(pc := Looping(Resumed(path)))
  {
    PlannedInOne();
    assert Trusted(AttemptOn(path), RECORDED, {STALE}) == map[1 := STALE];
  }

  lemma TakesOver(s: State, path: Path)
    requires s.pc == Looping(Resumed(path))
    ensures var t := Run(s, TAKES_OVER);
            t.pc == Completing(Listed(path)) && WorldKept(s, t) && CompleteRequest("id", [STALE]) in t.completeRequests
  {
    PlannedInOne();
    Two(s, TAKES_OVER[0], TAKES_OVER[1]);
  }

  lemma Completes(s: State, path: Path)
    requires s.pc == Completing(Listed(path)) && s.server == HOLDING
    requires CompleteRequest("id", [STALE]) in s.completeRequests && "id" in s.births
    ensures var t := Run(s, COMPLETES);
            && t.pc == Finishing(Listed(path)) && t.files == s.files
            && "id" in t.server.completed && t.server.completed["id"].1 == StaleRequest().bytes
  {
    Two(s, COMPLETES[0], COMPLETES[1]);
    StaleIsFinished(s);
  }

  lemma StaleIsFinished(s: State)
    requires s.server == HOLDING && CompleteRequest("id", [STALE]) in s.completeRequests && "id" in s.births
    ensures var t := ServerCompleteStep(s, CompleteRequest("id", [STALE]));
            && t == s.(server := t.server) && "id" in t.server.completed
            && t.server.completed["id"] == ([STALE], StaleRequest().bytes)
  {
    StaleIsAssembled();
  }

  lemma StaleIsAssembled()
    ensures Assembled(HOLDING.stored, "id", [STALE]) == StaleRequest().bytes
  {
    assert [STALE][..0] == [];
    assert Assembled(HOLDING.stored, "id", [STALE]) == [] + StaleRequest().bytes;
  }

  const STALE_ATTEMPT: seq<Step> := BEGINS + JOURNALS + [REPLACES] + (HASHES + STORES + GIVES_UP)
  function SecondAttempt(path: Path): seq<Step> { Resumes(path) + TAKES_OVER + COMPLETES }

  lemma ThreePhases(s: State, a: seq<Step>, b: seq<Step>, c: seq<Step>)
    ensures Run(s, a + b + c) == Run(Run(Run(s, a), b), c)
  {
    RunAppend(s, a, b);
    RunAppend(s, a + b, c);
  }

  /** What the first attempt leaves behind: a stale part, journalled and held by the server. */
  predicate LeavesStale(s: State) {
    && s.pc == Idle && s.journal == map[TARGET := RECORDED] && s.server == HOLDING && NothingSent(s)
    && OLD in s.contents && s.contents[OLD] == OldBytes()
  }

  lemma FirstAttempt(files: map<Path, LocalFile>)
    requires "file" in files && files["file"] == OldFile()
    ensures var t := Run(Before(files), STALE_ATTEMPT); LeavesStale(t) && t.files == files["file" := NewFile()]
  {
    var s := Before(files);
    ThreePhases(s, BEGINS, JOURNALS, [REPLACES]);
    RunAppend(s, BEGINS + JOURNALS + [REPLACES], HASHES + STORES + GIVES_UP);
    Begins(s);
    var t := Run(s, BEGINS);
    Journals(t);
    Replaced(Run(t, JOURNALS));
    var u := Run(Run(t, JOURNALS), [REPLACES]);
    ThreePhases(u, HASHES, STORES, GIVES_UP);
    Hashes(u);
    Stores(Run(u, HASHES));
    GivesUp(Run(Run(u, HASHES), STORES));
  }

  /** The attempt has succeeded for a file that has its stamp, and stored something else. */
  ghost predicate StoredOther(t: State) {
    && t.pc.Finishing? && t.pc.l.uploadId in t.server.completed
    && HasStamp(t, t.pc.l.a.path, t.pc.l.a.stamp)
    && t.server.completed[t.pc.l.uploadId].1 != t.files[t.pc.l.a.path].bytes
  }

  lemma ResumesWrong(s: State, path: Path)
    requires LeavesStale(s) && HasOld(s, path)
    ensures StoredOther(Run(s, SecondAttempt(path)))
  {
    ThreePhases(s, Resumes(path), TAKES_OVER, COMPLETES);
    ResumesStale(s, path);
    var t := Run(s, Resumes(path));
    TakesOver(t, path);
    Completes(Run(t, TAKES_OVER), path);
    assert StaleRequest().bytes[0] == 1 && OldBytes()[0] == 0;
  }

  /** The old file comes back with its old stamp, and the resumed upload stores a stale part for it: in a run in which
      no two files ever share a stamp, but one write brings a stamp back. */
  lemma RestoredStampCorrupts()
    ensures var s := Before(map["file" := OldFile()]);
            var steps := STALE_ATTEMPT + [WriteFile("file", OLD, OldBytes())] + SecondAttempt("file");
            Initial(s) && Distinct(s) && StoredOther(Run(s, steps)) && !FreshRun(s, steps) && !Guarded(s, steps)
  {
    var s := Before(map["file" := OldFile()]);
    var steps := STALE_ATTEMPT + [WriteFile("file", OLD, OldBytes())] + SecondAttempt("file");
    RestoredRunStoresOther(s);
    NotGuarded(s, steps);
    NotFresh(s, steps);
  }

  lemma RestoredRunStoresOther(s: State)
    requires s == Before(s.files) && HasOld(s, "file")
    ensures StoredOther(Run(s, STALE_ATTEMPT + [WriteFile("file", OLD, OldBytes())] + SecondAttempt("file")))
  {
    var back := [WriteFile("file", OLD, OldBytes())];
    ThreePhases(s, STALE_ATTEMPT, back, SecondAttempt("file"));
    FirstAttempt(s.files);
    var t := Run(s, STALE_ATTEMPT);
    One(t, back[0]);
    RestoreWrites(t, "file", OLD);
    ResumesWrong(Run(t, back), "file");
  }

  lemma NotFresh(s: State, steps: seq<Step>)
    requires Initial(s) && Distinct(s) && StoredOther(Run(s, steps))
    ensures !FreshRun(s, steps)
  {
    if FreshRun(s, steps) {
      FreshUploadStoresFile(s, steps);
    }
  }

  lemma OneFreshWrite(s: State, a: seq<Step>, write: Step, b: seq<Step>)
    requires forall step :: step in a || step in b ==> !step.WriteFile?
    requires Fresh(Run(s, a), write)
    ensures FreshRun(s, a + [write] + b)
  {
    NothingWritten(s, a);
    OneIsFresh(Run(s, a), write);
    FreshAppend(s, a, [write]);
    NothingWritten(Run(s, a + [write]), b);
    FreshAppend(s, a + [write], b);
  }

  /** The only write of the first attempt brings a new stamp. */
  lemma FirstAttemptIsFresh(files: map<Path, LocalFile>)
    requires "file" in files && files["file"] == OldFile()
    ensures FreshRun(Before(files), STALE_ATTEMPT)
  {
    var s := Before(files);
    RunAppend(s, BEGINS, JOURNALS);
    Begins(s);
    Journals(Run(s, BEGINS));
    OneFreshWrite(s, BEGINS + JOURNALS, REPLACES, HASHES + STORES + GIVES_UP);
  }

  lemma BothAttemptsAreFresh(files: map<Path, LocalFile>, path: Path)
    requires "file" in files && files["file"] == OldFile()
    ensures FreshRun(Before(files), STALE_ATTEMPT + SecondAttempt(path))
  {
    FirstAttemptIsFresh(files);
    NothingWritten(Run(Before(files), STALE_ATTEMPT), SecondAttempt(path));
    FreshAppend(Before(files), STALE_ATTEMPT, SecondAttempt(path));
  }

  /** A copy that keeps its time is uploaded to the same key, and a stale part of the file it was made from is stored
      for it: in a run in which every write brings a new stamp, but two files share one from the start. */
  lemma CopiedStampCorrupts()
    ensures var s := Before(map["file" := OldFile(), "copy" := OldFile()]);
            var steps := STALE_ATTEMPT + SecondAttempt("copy");
            Initial(s) && StoredOther(Run(s, steps)) && FreshRun(s, steps) && !Distinct(s) && !Guarded(s, steps)
  {
    var s := Before(map["file" := OldFile(), "copy" := OldFile()]);
    var steps := STALE_ATTEMPT + SecondAttempt("copy");
    RunAppend(s, STALE_ATTEMPT, SecondAttempt("copy"));
    FirstAttempt(s.files);
    ResumesWrong(Run(s, STALE_ATTEMPT), "copy");
    NotGuarded(s, steps);
    BothAttemptsAreFresh(s.files, "copy");
    assert s.files["file"].stamp == s.files["copy"].stamp;
  }

  lemma NotGuarded(s: State, steps: seq<Step>)
    requires Initial(s) && StoredOther(Run(s, steps))
    ensures !Guarded(s, steps)
  {
    if Guarded(s, steps) {
      GuardedUploadStoresFile(s, steps, Run(s, steps).pc.l.a.path);
    }
  }
}
