/** Folder downloads and bulk aborts: one listing fans out into many jobs that share counters, and a summary is logged
    when the last of them is over. Jobs finish in any order; each finishes once, as `TransferQueue` shows. */
module BulkFanout {

  import opened CachePaths
  import opened StorageErrors
  import opened StorageTypes
  import J = UploadJournal

  datatype Upload = Upload(key: string, uploadId: string)

  datatype BulkKind = FolderDownload | AbortUploads

  datatype Item = DownloadItem(key: string) | AbortItem(upload: Upload)

  datatype Bulk = Bulk(kind: BulkKind, listing: bool, pending: int, done: int, failed: int, claimed: set<string>)

  /** The message box about a page that failed for credentials. While it shows, its handler waits and others are
      handled. `outstanding` items were left when it opened, `left` when it closed. */
  datatype Box = NoBox | Showing(outstanding: nat) | Closed(outstanding: nat, left: nat)

  /** `items` are the item jobs outstanding, by job id; `pages` counts outstanding listing jobs. History: keys listed
      that have something to download, uploads sent for abort, items cancelled, summaries logged. */
  datatype State = State(
    bulk: Bulk,
    items: map<nat, Item>,
    pages: nat,
    box: Box,
    nextId: nat,
    eligible: nat,
    sent: seq<Upload>,
    cancelled: nat,
    logged: nat)

  datatype Outcome = Ok | Failed | Cancelled

  /** `canWrite` says for which keys the parent directories can be made; a listing without an `error` was cancelled. */
  datatype Step =
    | Listed(keys: seq<string>, more: bool, canWrite: string -> bool)
    | ListedUploads(uploads: seq<Upload>)
    | ListFailed(error: Option<ErrorKind>)
    | BoxClosed
    | ItemDone(id: nat, outcome: Outcome)

  /** What a folder download runs on: its prefix, and the local path of what follows it in a key. */
  datatype Setting = Setting(prefix: string, path: string -> string)

  /** Counters at zero and the first listing job in the queue. */
  function Blank(kind: BulkKind): State {
    State(Bulk(kind, true, 0, 0, 0, {}), map[], 1, NoBox, 0, 0, [], 0, 0)
  }

  function Enqueued(s: State, item: Item): State {
    s.(items := s.items[s.nextId := item], nextId := s.nextId + 1, bulk := s.bulk.(pending := s.bulk.pending + 1))
  }

  /** `FinishBulkIfDone`. */
  function Finished(s: State): State {
    if s.bulk.listing || s.bulk.pending > 0 then s else s.(logged := s.logged + 1)
  }

  // ------------------------------------------------------------ folder downloads

  function StartDownload(): State {
    Blank(FolderDownload)
  }

  /** A key longer than the prefix that names a file. */
  predicate Eligible(prefix: string, key: string) {
    |key| > |prefix| && key[|key| - 1] != '/'
  }

  /** One listed object. */
  function OneObject(s: State, g: Setting, key: string, canWrite: string -> bool): State {
    if |key| <= |g.prefix| then s
    else if g.path(key[|g.prefix|..]) == "" then s
    else if key[|key| - 1] == '/' then s
    else if !canWrite(key) then s.(bulk := s.bulk.(failed := s.bulk.failed + 1))
    else Enqueued(s, DownloadItem(key))
  }

  function Objects(s: State, g: Setting, keys: seq<string>, canWrite: string -> bool): State {
    if keys == [] then s
    else OneObject(Objects(s, g, keys[..|keys| - 1], canWrite), g, keys[|keys| - 1], canWrite)
  }

  function CountEligible(prefix: string, keys: seq<string>): nat {
    if keys == [] then 0
    else CountEligible(prefix, keys[..|keys| - 1]) + if Eligible(prefix, keys[|keys| - 1]) then 1 else 0
  }

  function ListedStep(s: State, g: Setting, keys: seq<string>, more: bool, canWrite: string -> bool): State {
    if s.pages == 0 || s.bulk.kind != FolderDownload then s
    else
      var t := Objects(s.(eligible := s.eligible + CountEligible(g.prefix, keys)), g, keys, canWrite);
      if more then t
      else Finished(t.(pages := s.pages - 1, bulk := t.bulk.(listing := false)))
  }

  // ------------------------------------------------------------------ bulk aborts

  /** How a claimed upload is remembered. */
  function Token(u: Upload): string {
    u.key + "\n" + u.uploadId
  }

  function Abort(s: State, u: Upload): State {
    Enqueued(s, AbortItem(u)).(sent := s.sent + [u])
  }

  function Claim(s: State, u: Upload): State {
    s.(bulk := s.bulk.(claimed := s.bulk.claimed + {Token(u)}))
  }

  /** What the journal names in the bucket below the prefix, in its order. The scope of an entry is not looked at. */
  function Journalled(entries: seq<J.Entry>, bucket: string, prefix: string): seq<Upload> {
    if entries == [] then []
    else
      var front, e := Journalled(entries[..|entries| - 1], bucket, prefix), entries[|entries| - 1];
      if e.target.bucket == bucket && prefix <= e.target.key then front + [Upload(e.target.key, e.uploadId)] else front
  }

  /** The journalled uploads are aborted without asking what is claimed. */
  function AbortJournalled(s: State, entries: seq<Upload>): State {
    if entries == [] then s
    else Abort(Claim(AbortJournalled(s, entries[..|entries| - 1]), entries[|entries| - 1]), entries[|entries| - 1])
  }

  lemma AbortOneMore(s: State, entries: seq<Upload>, u: Upload)
    ensures AbortJournalled(s, entries + [u]) == Abort(Claim(AbortJournalled(s, entries), u), u)
  {
    assert (entries + [u])[..|entries|] == entries;
  }

  function StartAborts(entries: seq<Upload>): State {
    AbortJournalled(Blank(AbortUploads), entries)
  }

  /** A listed upload is aborted unless its token is claimed. */
  function OneUpload(s: State, u: Upload): State {
    if Token(u) in s.bulk.claimed then s else Abort(Claim(s, u), u)
  }

  function Uploads(s: State, uploads: seq<Upload>): State {
    if uploads == [] then s else OneUpload(Uploads(s, uploads[..|uploads| - 1]), uploads[|uploads| - 1])
  }

  function ListedUploadsStep(s: State, uploads: seq<Upload>): State {
    if s.pages == 0 || s.bulk.kind != AbortUploads then s
    else
      var t := Uploads(s, uploads);
      Finished(t.(pages := s.pages - 1, bulk := t.bulk.(listing := false)))
  }

  // ------------------------------------------------------------------- completions

  /** The listing is over. A failed page of a download is shown to the user if the error interrupts, and only then is
      it checked whether all is over; a failed listing of uploads is only logged. */
  function ListFailedStep(s: State, error: Option<ErrorKind>): State {
    if s.pages == 0 then s
    else
      var t := s.(pages := s.pages - 1, bulk := s.bulk.(listing := false));
      if s.bulk.kind == FolderDownload && error.Some? && Interrupts(error.value)
      then t.(box := Showing(|s.items|)) else Finished(t)
  }

  /** The handler behind the box goes on. */
  function BoxClosedStep(s: State): State {
    if !s.box.Showing? then s
    else Finished(s.(box := Closed(s.box.outstanding, |s.items|)))
  }

  /** A cancelled download counts as failed, a cancelled abort counts for nothing. */
  function ItemDoneStep(s: State, id: nat, outcome: Outcome): State {
    if id !in s.items then s
    else
      var b := s.bulk.(pending := s.bulk.pending - 1);
      var t := s.(items := s.items - {id}, cancelled := s.cancelled + if outcome == Cancelled then 1 else 0);
      Finished(t.(bulk := if outcome == Ok then b.(done := b.done + 1)
                          else if outcome == Failed || b.kind == FolderDownload then b.(failed := b.failed + 1)
                          else b))
  }

  /** A step that is not possible changes nothing. */
  function Apply(s: State, g: Setting, step: Step): State {
    match step
    case Listed(keys, more, canWrite) => ListedStep(s, g, keys, more, canWrite)
    case ListedUploads(uploads) => ListedUploadsStep(s, uploads)
    case ListFailed(error) => ListFailedStep(s, error)
    case BoxClosed => BoxClosedStep(s)
    case ItemDone(id, outcome) => ItemDoneStep(s, id, outcome)
  }

  function Run(s: State, g: Setting, steps: seq<Step>): State {
    if steps == [] then s else Apply(Run(s, g, steps[..|steps| - 1]), g, steps[|steps| - 1])
  }

  // ---------------------------------------------------------------------- counters

  /** How often the summary has been logged, from what is outstanding and what the box saw: by the last item, by the
      closing of the box, or by both. */
  function Summaries(s: State): nat {
    if s.bulk.listing then 0
    else match s.box
      case NoBox => if s.bulk.pending > 0 then 0 else 1
      case Showing(outstanding) => if s.bulk.pending > 0 || outstanding == 0 then 0 else 1
      case Closed(outstanding, left) =>
        (if s.bulk.pending > 0 then 0 else 1) + if outstanding > 0 && left == 0 then 1 else 0
  }

  /** Items only get fewer behind a box, and only a download shows one. */
  predicate BoxOk(s: State) {
    match s.box
    case NoBox => true
    case Showing(outstanding) => s.bulk.kind == FolderDownload && !s.bulk.listing && s.bulk.pending <= outstanding
    case Closed(outstanding, left) =>
      s.bulk.kind == FolderDownload && !s.bulk.listing && s.bulk.pending <= left <= outstanding
  }

  /** The counters say what is outstanding, and how often the summary has been logged. */
  ghost predicate Counted(s: State) {
    && s.bulk.pending == |s.items|
    && (forall id :: id in s.items ==> id < s.nextId)
    && s.pages == (if s.bulk.listing then 1 else 0)
    && BoxOk(s) && s.logged == Summaries(s)
  }

  /** As above, before the check whether all is over. */
  ghost predicate Counting(s: State) {
    && s.bulk.pending == |s.items|
    && (forall id :: id in s.items ==> id < s.nextId)
    && s.logged == 0
  }

  lemma EnqueuedCounts(s: State, item: Item)
    requires Counting(s)
    ensures Counting(Enqueued(s, item))
  {
    assert s.items[s.nextId := item].Keys == s.items.Keys + {s.nextId};
  }

  /** The setting of a real download, for a decoder of key text. */
  function Below(prefix: string, widen: string -> string): Setting {
    Setting(prefix, key => RelativePath(key, widen))
  }

  /** Only slashes have no path. */
  ghost predicate PathsOk(g: Setting) {
    forall rest: string :: rest != "" && g.path(rest) == "" ==> rest[|rest| - 1] == '/'
  }

  lemma BelowIsOk(prefix: string, widen: string -> string)
    ensures PathsOk(Below(prefix, widen))
  {
    forall rest: string | rest != "" && RelativePath(rest, widen) == "" ensures rest[|rest| - 1] == '/' {
      PathIsEmptyIff(rest, widen);
    }
  }

  /** An object is counted exactly if its key names a file below the prefix: a key without a path ends in a slash. */
  lemma OneObjectCounts(s: State, g: Setting, key: string, canWrite: string -> bool)
    requires Counting(s) && PathsOk(g)
    ensures var t := OneObject(s, g, key, canWrite);
            && Counting(t) && t.(items := s.items, nextId := s.nextId, bulk := s.bulk) == s
            && t.bulk.(pending := s.bulk.pending, failed := s.bulk.failed) == s.bulk
            && t.bulk.failed + t.bulk.pending == s.bulk.failed + s.bulk.pending + if Eligible(g.prefix, key) then 1 else 0
  {
    EnqueuedCounts(s, DownloadItem(key));
    if |key| > |g.prefix| {
      var rest := key[|g.prefix|..];
      assert rest[|rest| - 1] == key[|key| - 1];
    }
  }

  lemma {:induction false} ObjectsCount(s: State, g: Setting, keys: seq<string>, canWrite: string -> bool)
    requires Counting(s) && PathsOk(g)
    ensures var t := Objects(s, g, keys, canWrite);
            && Counting(t) && t.(items := s.items, nextId := s.nextId, bulk := s.bulk) == s
            && t.bulk.(pending := s.bulk.pending, failed := s.bulk.failed) == s.bulk
            && t.bulk.failed + t.bulk.pending == s.bulk.failed + s.bulk.pending + CountEligible(g.prefix, keys)
  {
    if keys != [] {
      ObjectsCount(s, g, keys[..|keys| - 1], canWrite);
      OneObjectCounts(Objects(s, g, keys[..|keys| - 1], canWrite), g, keys[|keys| - 1], canWrite);
    }
  }

  lemma {:induction false} UploadsCount(s: State, uploads: seq<Upload>)
    requires Counting(s)
    ensures var t := Uploads(s, uploads);
            && Counting(t) && t.pages == s.pages && t.box == s.box && t.bulk.listing == s.bulk.listing && t.bulk.kind == s.bulk.kind
            && t.bulk.done == s.bulk.done && t.bulk.failed == s.bulk.failed && t.cancelled == s.cancelled
            && |t.sent| - t.bulk.pending == |s.sent| - s.bulk.pending
  {
    if uploads != [] {
      var u, last := Uploads(s, uploads[..|uploads| - 1]), uploads[|uploads| - 1];
      UploadsCount(s, uploads[..|uploads| - 1]);
      EnqueuedCounts(Claim(u, last), AbortItem(last));
    }
  }

  lemma {:induction false} JournalledCount(s: State, entries: seq<Upload>)
    requires Counting(s)
    ensures var t := AbortJournalled(s, entries);
            && Counting(t) && t.pages == s.pages && t.box == s.box && t.bulk.listing == s.bulk.listing && t.bulk.kind == s.bulk.kind
            && t.bulk.done == s.bulk.done && t.bulk.failed == s.bulk.failed && t.cancelled == s.cancelled
            && t.bulk.pending == s.bulk.pending + |entries| && t.sent == s.sent + entries
  {
    if entries != [] {
      var u, last := AbortJournalled(s, entries[..|entries| - 1]), entries[|entries| - 1];
      JournalledCount(s, entries[..|entries| - 1]);
      EnqueuedCounts(Claim(u, last), AbortItem(last));
      assert entries == entries[..|entries| - 1] + [last];
    }
  }

  /** Every item is accounted for: a listed key in a download, an upload sent in an abort. */
  ghost predicate Balanced(s: State) {
    if s.bulk.kind == FolderDownload then s.bulk.done + s.bulk.failed + s.bulk.pending == s.eligible
    else s.bulk.done + s.bulk.failed + s.cancelled + s.bulk.pending == |s.sent|
  }

  ghost predicate BulkOk(s: State, kind: BulkKind) {
    s.bulk.kind == kind && Counted(s) && Balanced(s)
  }

  lemma ListedKeepsOk(s: State, g: Setting, keys: seq<string>, more: bool, canWrite: string -> bool, kind: BulkKind)
    requires BulkOk(s, kind) && PathsOk(g)
    ensures BulkOk(ListedStep(s, g, keys, more, canWrite), kind)
  {
    if s.pages == 1 && kind == FolderDownload {
      ObjectsCount(s.(eligible := s.eligible + CountEligible(g.prefix, keys)), g, keys, canWrite);
    }
  }

  lemma ListedUploadsKeepsOk(s: State, uploads: seq<Upload>, kind: BulkKind)
    requires BulkOk(s, kind)
    ensures BulkOk(ListedUploadsStep(s, uploads), kind)
  {
    if s.pages == 1 && kind == AbortUploads {
      UploadsCount(s, uploads);
    }
  }

  lemma ItemKeepsOk(s: State, id: nat, outcome: Outcome, kind: BulkKind)
    requires BulkOk(s, kind)
    ensures BulkOk(ItemDoneStep(s, id, outcome), kind)
  {
    if id in s.items {
      assert (s.items - {id}).Keys == s.items.Keys - {id};
    }
  }

  lemma StepKeepsOk(s: State, g: Setting, step: Step, kind: BulkKind)
    requires BulkOk(s, kind) && PathsOk(g)
    ensures BulkOk(Apply(s, g, step), kind)
  {
    match step
    case Listed(keys, more, canWrite) => ListedKeepsOk(s, g, keys, more, canWrite, kind);
    case ListedUploads(uploads) => ListedUploadsKeepsOk(s, uploads, kind);
    case ListFailed(error) =>
    case BoxClosed =>
    case ItemDone(id, outcome) => ItemKeepsOk(s, id, outcome, kind);
  }

  lemma {:induction false} RunKeepsOk(s: State, g: Setting, steps: seq<Step>, kind: BulkKind)
    requires BulkOk(s, kind) && PathsOk(g)
    ensures BulkOk(Run(s, g, steps), kind)
  {
    if steps != [] {
      RunKeepsOk(s, g, steps[..|steps| - 1], kind);
      StepKeepsOk(Run(s, g, steps[..|steps| - 1]), g, steps[|steps| - 1], kind);
    }
  }

  /** How often a download's summary has been logged once nothing is outstanding: twice exactly if a page failed with an
      interrupting error while items were outstanding and the last of them was handled before the box was closed. */
  function SummariesAtEnd(box: Box): nat {
    match box
    case NoBox => 1
    case Showing(outstanding) => if outstanding > 0 then 1 else 0
    case Closed(outstanding, left) => if outstanding > 0 && left == 0 then 2 else 1
  }

  lemma CountedMeans(s: State)
    requires BulkOk(s, FolderDownload)
    ensures s.bulk.pending == |s.items| && s.pages == (if s.bulk.listing then 1 else 0)
    ensures s.logged > 0 ==> s.pages == 0 && s.items == map[] && s.bulk.done + s.bulk.failed == s.eligible
    ensures s.pages == 0 && s.items == map[] ==> s.logged == SummariesAtEnd(s.box)
  {
    assert s.bulk.pending == 0 <==> s.items == map[];
  }

  lemma DownloadOk(g: Setting, steps: seq<Step>)
    requires PathsOk(g)
    ensures BulkOk(Run(StartDownload(), g, steps), FolderDownload)
  {
    RunKeepsOk(StartDownload(), g, steps, FolderDownload);
  }

  /** A folder download, in any order of pages and items: `pending` is the number of item jobs outstanding, `listing`
      says whether the page job is. A summary is logged only when neither is left, and then what was downloaded and
      what failed add up to the listed keys that name a file below the prefix. At the end there is one summary, or two
      if the message box about a failed page outlived the last item. */
  lemma DownloadAddsUp(prefix: string, widen: string -> string, steps: seq<Step>)
    ensures var s := Run(StartDownload(), Below(prefix, widen), steps);
            && s.bulk.pending == |s.items| && s.pages == (if s.bulk.listing then 1 else 0)
            && (s.logged > 0 ==> s.pages == 0 && s.items == map[] && s.bulk.done + s.bulk.failed == s.eligible)
            && (s.pages == 0 && s.items == map[] ==> s.logged == SummariesAtEnd(s.box))
  {
    var g := Below(prefix, widen);
    BelowIsOk(prefix, widen);
    DownloadOk(g, steps);
    CountedMeans(Run(StartDownload(), g, steps));
  }

  lemma FourSteps(s: State, g: Setting, steps: seq<Step>)
    requires |steps| == 4
    ensures Run(s, g, steps) == Apply(Apply(Apply(Apply(s, g, steps[0]), g, steps[1]), g, steps[2]), g, steps[3])
  {
    assert steps[..3][..2] == steps[..2] && steps[..2][..1] == steps[..1] && steps[..1][..0] == [];
    assert Run(s, g, steps[..1]) == Apply(s, g, steps[0]);
    assert Run(s, g, steps[..2]) == Apply(Run(s, g, steps[..1]), g, steps[1]);
    assert Run(s, g, steps[..3]) == Apply(Run(s, g, steps[..2]), g, steps[2]);
  }

  /** A truncated page with one object that has a path queues it. */
  lemma FirstPage(s: State, g: Setting, canWrite: string -> bool)
    requires s == StartDownload() && g.prefix == "" && g.path("a") != "" && canWrite("a")
    ensures ListedStep(s, g, ["a"], true, canWrite) == Enqueued(s.(eligible := 1), DownloadItem("a"))
  {
    assert "a"[0..] == "a" && ["a"][..0] == [];
    var t := s.(eligible := 1);
    assert CountEligible("", ["a"]) == 1;
    assert Objects(t, g, ["a"], canWrite) == OneObject(Objects(t, g, [], canWrite), g, "a", canWrite);
  }

  /** An item that finishes behind the box logs the summary, and closing the box logs it again. */
  lemma BoxOutlivesItem(s: State, g: Setting)
    requires s == Enqueued(StartDownload().(eligible := 1), DownloadItem("a"))
    ensures Apply(Apply(Apply(s, g, ListFailed(Some(AccessDenied))), g, ItemDone(0, Ok)), g, BoxClosed).logged == 2
  {
    var t := ListFailedStep(s, Some(AccessDenied));
    assert t.box.Showing? && t.items.Keys == {0};
    assert ItemDoneStep(t, 0, Ok).items == map[];
  }

  /** The second page is denied while an item of the first is outstanding, and the box about it outlives the item. */
  lemma SummaryIsLoggedTwice(widen: string -> string, canWrite: string -> bool)
    requires canWrite("a")
    ensures Run(StartDownload(), Below("", widen),
                [Listed(["a"], true, canWrite), ListFailed(Some(AccessDenied)), ItemDone(0, Ok), BoxClosed]).logged == 2
  {
    var g, s := Below("", widen), StartDownload();
    var steps := [Listed(["a"], true, canWrite), ListFailed(Some(AccessDenied)), ItemDone(0, Ok), BoxClosed];
    FourSteps(s, g, steps);
    PathIsEmptyIff("a", widen);
    FirstPage(s, g, canWrite);
    BoxOutlivesItem(ListedStep(s, g, ["a"], true, canWrite), g);
  }

  lemma BlankCounts(kind: BulkKind)
    ensures Counting(Blank(kind))
  {
  }

  lemma BegunIsOk(t: State, s: State, entries: seq<Upload>)
    requires s == Blank(AbortUploads) && Counting(t) && t.sent == s.sent + entries && t.bulk.pending == |entries|
    requires t.bulk == Bulk(AbortUploads, true, t.bulk.pending, 0, 0, t.bulk.claimed)
    requires t.pages == 1 && t.box == NoBox && t.cancelled == 0
    ensures BulkOk(t, AbortUploads)
  {
    assert |t.sent| == |s.sent| + |entries|;
  }

  lemma StartAbortsOk(entries: seq<Upload>)
    ensures BulkOk(StartAborts(entries), AbortUploads)
  {
    var s := Blank(AbortUploads);
    BlankCounts(AbortUploads);
    JournalledCount(s, entries);
    BegunIsOk(AbortJournalled(s, entries), s, entries);
  }

  lemma AbortsStayOk(entries: seq<Upload>, g: Setting, steps: seq<Step>)
    requires PathsOk(g)
    ensures BulkOk(Run(StartAborts(entries), g, steps), AbortUploads)
  {
    StartAbortsOk(entries);
    RunKeepsOk(StartAborts(entries), g, steps, AbortUploads);
  }

  lemma AbortCountedMeans(s: State)
    requires BulkOk(s, AbortUploads)
    ensures s.bulk.pending == |s.items| && s.pages == (if s.bulk.listing then 1 else 0)
    ensures s.logged == (if s.pages == 0 && s.items == map[] then 1 else 0)
    ensures s.logged == 1 ==> s.bulk.done + s.bulk.failed + s.cancelled == |s.sent|
  {
    assert s.bulk.pending == 0 <==> s.items == map[];
  }

  /** The same for a bulk abort, which shows no box: the summary is logged exactly once, and then what was aborted,
      failed or was cancelled adds up to the uploads sent. */
  lemma AbortsAddUp(entries: seq<Upload>, prefix: string, widen: string -> string, steps: seq<Step>)
    ensures var s := Run(StartAborts(entries), Below(prefix, widen), steps);
            && s.bulk.pending == |s.items| && s.pages == (if s.bulk.listing then 1 else 0)
            && s.logged == (if s.pages == 0 && s.items == map[] then 1 else 0)
            && (s.logged == 1 ==> s.bulk.done + s.bulk.failed + s.cancelled == |s.sent|)
  {
    var g := Below(prefix, widen);
    BelowIsOk(prefix, widen);
    AbortsStayOk(entries, g, steps);
    AbortCountedMeans(Run(StartAborts(entries), g, steps));
  }

  // ------------------------------------------------------------- no abort sent twice

  /** Every upload sent is claimed, and none was sent twice. */
  ghost predicate SentOnce(s: State) {
    && (forall k :: 0 <= k < |s.sent| ==> Token(s.sent[k]) in s.bulk.claimed)
    && (forall j, k :: 0 <= j < k < |s.sent| ==> s.sent[j] != s.sent[k])
  }

  /** Claimed tokens are those of uploads sent. */
  ghost predicate OnlySentClaimed(s: State) {
    forall t :: t in s.bulk.claimed ==> exists k :: 0 <= k < |s.sent| && Token(s.sent[k]) == t
  }

  ghost predicate AbortsOk(s: State) {
    SentOnce(s) && OnlySentClaimed(s)
  }

  lemma AbortKeepsOk(s: State, u: Upload)
    requires AbortsOk(s) && u !in s.sent
    ensures AbortsOk(Abort(Claim(s, u), u))
  {
    var t := Abort(Claim(s, u), u);
    assert t.sent == s.sent + [u] && t.bulk.claimed == s.bulk.claimed + {Token(u)};
    assert t.sent[|s.sent|] == u;
    forall x | x in t.bulk.claimed ensures exists k :: 0 <= k < |t.sent| && Token(t.sent[k]) == x {
      if x in s.bulk.claimed {
        var k :| 0 <= k < |s.sent| && Token(s.sent[k]) == x;
        assert t.sent[k] == s.sent[k];
      }
    }
  }

  lemma {:induction false} JournalledOnce(s: State, entries: seq<Upload>)
    requires AbortsOk(s) && forall k :: 0 <= k < |entries| ==> entries[k] !in s.sent
    requires forall j, k :: 0 <= j < k < |entries| ==> entries[j] != entries[k]
    ensures AbortsOk(AbortJournalled(s, entries)) && AbortJournalled(s, entries).sent == s.sent + entries
  {
    if entries != [] {
      var before, last := entries[..|entries| - 1], entries[|entries| - 1];
      JournalledOnce(s, before);
      LastIsNew(s.sent, entries);
      OneMoreOnce(AbortJournalled(s, before), s.sent, before, last);
      assert entries == before + [last];
    }
  }

  lemma OneMoreOnce(t: State, sent: seq<Upload>, before: seq<Upload>, last: Upload)
    requires AbortsOk(t) && t.sent == sent + before && last !in sent + before
    ensures var u := Abort(Claim(t, last), last); AbortsOk(u) && u.sent == sent + (before + [last])
  {
    AbortKeepsOk(t, last);
    assert sent + before + [last] == sent + (before + [last]);
  }

  lemma LastIsNew(sent: seq<Upload>, entries: seq<Upload>)
    requires entries != [] && forall k :: 0 <= k < |entries| ==> entries[k] !in sent
    requires forall j, k :: 0 <= j < k < |entries| ==> entries[j] != entries[k]
    ensures entries[|entries| - 1] !in sent + entries[..|entries| - 1]
  {
  }

  lemma OneUploadOnce(s: State, u: Upload)
    requires AbortsOk(s)
    ensures AbortsOk(OneUpload(s, u)) && s.sent <= OneUpload(s, u).sent && Token(u) in OneUpload(s, u).bulk.claimed
  {
    if Token(u) !in s.bulk.claimed {
      AbortKeepsOk(s, u);
    }
  }

  lemma {:induction false} UploadsOnce(s: State, uploads: seq<Upload>)
    requires AbortsOk(s)
    ensures var t := Uploads(s, uploads);
            && AbortsOk(t) && s.bulk.claimed <= t.bulk.claimed
            && forall k :: 0 <= k < |uploads| ==> Token(uploads[k]) in t.bulk.claimed
  {
    if uploads != [] {
      UploadsOnce(s, uploads[..|uploads| - 1]);
      OneUploadOnce(Uploads(s, uploads[..|uploads| - 1]), uploads[|uploads| - 1]);
    }
  }

  lemma {:induction false} ObjectsSendNothing(s: State, g: Setting, keys: seq<string>, canWrite: string -> bool)
    ensures var t := Objects(s, g, keys, canWrite); t.sent == s.sent && t.bulk.claimed == s.bulk.claimed
  {
    if keys != [] {
      ObjectsSendNothing(s, g, keys[..|keys| - 1], canWrite);
    }
  }

  lemma SameSent(s: State, t: State)
    requires AbortsOk(s) && t.sent == s.sent && t.bulk.claimed == s.bulk.claimed
    ensures AbortsOk(t)
  {
  }

  lemma ListedSendsNothing(s: State, g: Setting, keys: seq<string>, more: bool, canWrite: string -> bool)
    ensures var t := ListedStep(s, g, keys, more, canWrite); t.sent == s.sent && t.bulk.claimed == s.bulk.claimed
  {
    ObjectsSendNothing(s.(eligible := s.eligible + CountEligible(g.prefix, keys)), g, keys, canWrite);
  }

  lemma ListedUploadsSendOnce(s: State, uploads: seq<Upload>)
    requires AbortsOk(s)
    ensures AbortsOk(ListedUploadsStep(s, uploads))
  {
    UploadsOnce(s, uploads);
    if s.pages != 0 && s.bulk.kind == AbortUploads {
      SameSent(Uploads(s, uploads), ListedUploadsStep(s, uploads));
    }
  }

  lemma StepSendsOnce(s: State, g: Setting, step: Step)
    requires AbortsOk(s)
    ensures AbortsOk(Apply(s, g, step))
  {
    match step
    case Listed(keys, more, canWrite) =>
      ListedSendsNothing(s, g, keys, more, canWrite);
      SameSent(s, ListedStep(s, g, keys, more, canWrite));
    case ListedUploads(uploads) => ListedUploadsSendOnce(s, uploads);
    case ListFailed(error) => SameSent(s, ListFailedStep(s, error));
    case BoxClosed => SameSent(s, BoxClosedStep(s));
    case ItemDone(id, outcome) => SameSent(s, ItemDoneStep(s, id, outcome));
  }

  lemma {:induction false} RunSendsOnce(s: State, g: Setting, steps: seq<Step>)
    requires AbortsOk(s)
    ensures AbortsOk(Run(s, g, steps))
  {
    if steps != [] {
      RunSendsOnce(s, g, steps[..|steps| - 1]);
      StepSendsOnce(Run(s, g, steps[..|steps| - 1]), g, steps[|steps| - 1]);
    }
  }

  /** Over a journal without duplicates a bulk abort never sends the same key and upload id twice, whatever the listing
      repeats. */
  lemma AbortsAreSentOnce(entries: seq<Upload>, g: Setting, steps: seq<Step>, j: nat, k: nat)
    requires forall j, k :: 0 <= j < k < |entries| ==> entries[j] != entries[k]
    ensures var s := Run(StartAborts(entries), g, steps); j < k < |s.sent| ==> s.sent[j] != s.sent[k]
  {
    JournalledOnce(Blank(AbortUploads), entries);
    RunSendsOnce(StartAborts(entries), g, steps);
  }

  /** The key of `b` goes on, behind a line break, where that of `a` ends, and the id of `a` starts with that rest. */
  predicate Overlaps(a: Upload, b: Upload) {
    a.key + "\n" <= b.key && a.uploadId == b.key[|a.key| + 1..] + "\n" + b.uploadId
  }

  lemma ShorterKeyOverlaps(a: Upload, b: Upload)
    requires |a.key| < |b.key| && Token(a) == Token(b)
    ensures Overlaps(a, b)
  {
    assert b.key == Token(b)[..|b.key|] == a.key + "\n" + Token(a)[|a.key| + 1..|b.key|];
    assert a.uploadId == Token(a)[|a.key| + 1..] == b.key[|a.key| + 1..] + "\n" + b.uploadId;
  }

  lemma OverlapSharesToken(a: Upload, b: Upload)
    requires Overlaps(a, b)
    ensures Token(a) == Token(b) && a != b
  {
    assert b.key == a.key + "\n" + b.key[|a.key| + 1..];
    assert Token(b) == a.key + "\n" + (b.key[|a.key| + 1..] + "\n" + b.uploadId) == Token(a);
  }

  lemma EqualKeysTellApart(a: Upload, b: Upload)
    requires |a.key| == |b.key| && Token(a) == Token(b)
    ensures a == b
  {
    assert Token(a)[..|a.key|] == a.key && Token(b)[..|b.key|] == b.key;
    assert Token(a)[|a.key| + 1..] == a.uploadId && Token(b)[|b.key| + 1..] == b.uploadId;
  }

  /** Exactly which uploads the claimed text confuses. */
  lemma TokenTellsApart(a: Upload, b: Upload)
    ensures Token(a) == Token(b) <==> a == b || Overlaps(a, b) || Overlaps(b, a)
  {
    if Overlaps(a, b) { OverlapSharesToken(a, b); }
    if Overlaps(b, a) { OverlapSharesToken(b, a); }
    if Token(a) == Token(b) {
      if |a.key| < |b.key| {
        ShorterKeyOverlaps(a, b);
      } else if |b.key| < |a.key| {
        ShorterKeyOverlaps(b, a);
      } else {
        EqualKeysTellApart(a, b);
      }
    }
  }

  /** Exactly the entries of the bucket below the prefix are aborted: those made for another endpoint or account too,
      if it has a bucket of that name. */
  lemma {:induction false} JournalledIff(entries: seq<J.Entry>, bucket: string, prefix: string, u: Upload)
    ensures u in Journalled(entries, bucket, prefix) <==>
            prefix <= u.key && exists e :: e in entries && e.target.bucket == bucket && e.target.key == u.key
                                           && e.uploadId == u.uploadId
  {
    if entries != [] {
      var front, last := entries[..|entries| - 1], entries[|entries| - 1];
      JournalledIff(front, bucket, prefix, u);
      assert entries == front + [last];
      assert forall e :: e in entries <==> e in front || e == last;
    }
  }

  predicate OneLine(u: Upload) {
    '\n' !in u.uploadId
  }

  lemma OverlapTakesBreak(a: Upload, b: Upload)
    requires Overlaps(a, b)
    ensures !OneLine(a)
  {
    assert a.uploadId[|b.key| - |a.key| - 1] == '\n';
  }

  /** What the listing sends differs in its token from everything sent before. */
  ghost predicate ListedDiffer(s: State, first: nat) {
    forall j, k :: 0 <= j < k < |s.sent| && first <= k ==> Token(s.sent[j]) != Token(s.sent[k])
  }

  lemma {:induction false} UploadsDiffer(s: State, uploads: seq<Upload>)
    requires AbortsOk(s)
    ensures var t := Uploads(s, uploads); AbortsOk(t) && s.sent <= t.sent && ListedDiffer(t, |s.sent|)
  {
    if uploads != [] {
      UploadsDiffer(s, uploads[..|uploads| - 1]);
      OneUploadOnce(Uploads(s, uploads[..|uploads| - 1]), uploads[|uploads| - 1]);
    }
  }

  lemma ListedTokenIsItsOwn(s: State, t: State, u: Upload, v: Upload)
    requires s.sent <= t.sent && ListedDiffer(t, |s.sent|)
    requires u !in s.sent && u in t.sent && v in t.sent && u != v
    ensures Token(u) != Token(v)
  {
    var j :| 0 <= j < |t.sent| && t.sent[j] == u;
    var k :| 0 <= k < |t.sent| && t.sent[k] == v;
  }

  lemma ClaimedWasSent(t: State, u: Upload)
    requires AbortsOk(t) && Token(u) in t.bulk.claimed && u !in t.sent
    ensures exists v :: v in t.sent && (Overlaps(u, v) || Overlaps(v, u))
  {
    var k :| 0 <= k < |t.sent| && Token(t.sent[k]) == Token(u);
    TokenTellsApart(t.sent[k], u);
    assert t.sent[k] in t.sent;
  }

  /** A listed upload that the journal did not name is left out exactly if an upload that was sent overlaps with it. */
  lemma LeftOutIff(s: State, uploads: seq<Upload>, u: Upload)
    requires AbortsOk(s) && u in uploads && u !in s.sent
    ensures var t := Uploads(s, uploads);
            u !in t.sent <==> exists v :: v in t.sent && (Overlaps(u, v) || Overlaps(v, u))
  {
    var t := Uploads(s, uploads);
    UploadsOnce(s, uploads);
    UploadsDiffer(s, uploads);
    if u !in t.sent {
      ClaimedWasSent(t, u);
    } else if v :| v in t.sent && (Overlaps(u, v) || Overlaps(v, u)) {
      if Overlaps(u, v) { OverlapSharesToken(u, v); } else { OverlapSharesToken(v, u); }
      ListedTokenIsItsOwn(s, t, u, v);
    }
  }

  lemma HiddenTakesBreak(t: State, u: Upload)
    requires AbortsOk(t) && Token(u) in t.bulk.claimed && u !in t.sent
    ensures !OneLine(u) || exists x :: x in t.sent && !OneLine(x)
  {
    ClaimedWasSent(t, u);
    var v :| v in t.sent && (Overlaps(u, v) || Overlaps(v, u));
    if Overlaps(u, v) { OverlapTakesBreak(u, v); } else { OverlapTakesBreak(v, u); }
  }

  /** So every listed upload is aborted if no id holds a line break. */
  lemma EveryListedUploadIsSent(s: State, uploads: seq<Upload>, u: Upload)
    requires AbortsOk(s) && u in uploads && OneLine(u)
    requires forall x :: x in Uploads(s, uploads).sent ==> OneLine(x)
    ensures u in Uploads(s, uploads).sent
  {
    var t := Uploads(s, uploads);
    UploadsOnce(s, uploads);
    UploadsDiffer(s, uploads);
    if u !in t.sent {
      HiddenTakesBreak(t, u);
    }
  }

  const JOINED := Upload("a\nb", "c")
  const BROKEN := Upload("a", "b\nc")

  /** With one it may not be: the token of another upload already looks the same. */
  lemma LineBreakHidesUpload()
    ensures BROKEN !in Uploads(StartAborts([JOINED]), [BROKEN]).sent
  {
    assert Token(JOINED) == "a\nb\nc" == Token(BROKEN);
    assert [JOINED][..0] == [] && [BROKEN][..0] == [];
    var s := StartAborts([JOINED]);
    assert AbortJournalled(Blank(AbortUploads), []) == Blank(AbortUploads);
    assert s.sent == [JOINED] && Token(JOINED) in s.bulk.claimed;
    assert Uploads(s, [BROKEN]) == OneUpload(s, BROKEN) == s;
    assert JOINED.key != BROKEN.key by { assert |JOINED.key| == 3 && |BROKEN.key| == 1; }
  }

  // --------------------------------------------------------- as the handlers write it

  /** The counters every job of one bulk operation shares, changed in place by the handlers. */
  class BulkState {
    const kind: BulkKind
    var listing: bool
    var pending: int
    var done: int
    var failed: int
    var claimed: set<string>
    var jobs: map<nat, Item>
    var nextId: nat
    var logged: nat
    ghost var world: State

    ghost predicate Valid()
      reads this
    {
      && world.bulk == Bulk(kind, listing, pending, done, failed, claimed)
      && world.items == jobs && world.nextId == nextId && world.logged == logged
    }

    constructor (kind: BulkKind)
      ensures Valid() && world == Blank(kind) && this.kind == kind
    {
      this.kind := kind;
      listing, pending, done, failed, claimed := true, 0, 0, 0, {};
      jobs, nextId, logged := map[], 0, 0;
      world := Blank(kind);
    }

    method EnqueueItem(item: Item)
      requires Valid()
      modifies this
      ensures Valid() && world == Enqueued(old(world), item)
    {
      world := Enqueued(world, item);
      pending := pending + 1;
      jobs := jobs[nextId := item];
      nextId := nextId + 1;
    }

    method FinishBulkIfDone()
      requires Valid()
      modifies this
      ensures Valid() && world == Finished(old(world))
    {
      world := Finished(world);
      if listing || pending > 0 {
        return;
      }
      logged := logged + 1;
    }

    method AbortOne(upload: Upload)
      requires Valid()
      modifies this
      ensures Valid() && world == Abort(Claim(old(world), upload), upload)
    {
      claimed := claimed + {Token(upload)};
      world := Claim(world, upload);
      EnqueueItem(AbortItem(upload));
      world := world.(sent := world.sent + [upload]);
    }

    /** The loop over the journal in `AbortIncompleteUploadsAsk`. */
    method AbortEntries(entries: seq<J.Entry>, bucket: string, prefix: string)
      requires Valid()
      modifies this
      ensures Valid() && world == AbortJournalled(old(world), Journalled(entries, bucket, prefix))
    {
      var k := 0;
      while k < |entries|
        invariant 0 <= k <= |entries| && Valid()
        invariant world == AbortJournalled(old(world), Journalled(entries[..k], bucket, prefix))
      {
        assert entries[..k + 1][..k] == entries[..k];
        var e := entries[k];
        if e.target.bucket == bucket && prefix <= e.target.key {
          AbortOneMore(old(world), Journalled(entries[..k], bucket, prefix), Upload(e.target.key, e.uploadId));
          AbortOne(Upload(e.target.key, e.uploadId));
        }
        k := k + 1;
      }
      assert entries[..|entries|] == entries;
    }

    /** The ListIncompleteUploads case for a listing that arrived. */
    method UploadsListed(uploads: seq<Upload>)
      requires Valid() && world.pages == 1 && kind == AbortUploads
      modifies this
      ensures Valid() && world == ListedUploadsStep(old(world), uploads)
    {
      var k := 0;
      while k < |uploads|
        invariant 0 <= k <= |uploads| && Valid() && world == Uploads(old(world), uploads[..k])
      {
        assert uploads[..k + 1][..k] == uploads[..k];
        if Token(uploads[k]) !in claimed {
          AbortOne(uploads[k]);
        }
        k := k + 1;
      }
      assert uploads[..|uploads|] == uploads;
      listing := false;
      world := world.(pages := 0, bulk := world.bulk.(listing := false));
      FinishBulkIfDone();
    }

    /** The loop over the objects of a page in the DownloadPrefixPage case. */
    method DownloadObjects(g: Setting, keys: seq<string>, canWrite: string -> bool)
      requires Valid()
      modifies this
      ensures Valid() && world == Objects(old(world), g, keys, canWrite)
    {
      var k := 0;
      while k < |keys|
        invariant 0 <= k <= |keys| && Valid() && world == Objects(old(world), g, keys[..k], canWrite)
      {
        assert keys[..k + 1][..k] == keys[..k];
        DownloadOne(g, keys[k], canWrite);
        k := k + 1;
      }
      assert keys[..|keys|] == keys;
    }

    method DownloadOne(g: Setting, key: string, canWrite: string -> bool)
      requires Valid()
      modifies this
      ensures Valid() && world == OneObject(old(world), g, key, canWrite)
    {
      if |key| <= |g.prefix| {
        return;
      }
      var relative := g.path(key[|g.prefix|..]);
      if relative == "" || key[|key| - 1] == '/' {
        return;
      }
      if !canWrite(key) {
        failed := failed + 1;
        world := world.(bulk := world.bulk.(failed := failed));
        return;
      }
      EnqueueItem(DownloadItem(key));
    }

    /** The DownloadPrefixPage case for a page that arrived. */
    method PageListed(g: Setting, keys: seq<string>, more: bool, canWrite: string -> bool)
      requires Valid() && world.pages == 1 && kind == FolderDownload
      modifies this
      ensures Valid() && world == ListedStep(old(world), g, keys, more, canWrite)
    {
      world := world.(eligible := world.eligible + CountEligible(g.prefix, keys));
      DownloadObjects(g, keys, canWrite);
      if !more {
        listing := false;
        world := world.(pages := 0, bulk := world.bulk.(listing := false));
        FinishBulkIfDone();
      }
    }

    /** The same case for a page that failed: when it shows a box, the rest waits for it to be closed. */
    method PageFailed(error: Option<ErrorKind>) returns (boxOpen: bool)
      requires Valid() && world.pages == 1 && kind == FolderDownload
      modifies this
      ensures Valid() && world == ListFailedStep(old(world), error)
      ensures boxOpen <==> error.Some? && Interrupts(error.value)
    {
      listing := false;
      world := world.(pages := 0, bulk := world.bulk.(listing := false));
      boxOpen := error.Some? && Interrupts(error.value);
      if boxOpen {
        world := world.(box := Showing(|jobs|));
        return;
      }
      FinishBulkIfDone();
    }

    method BoxClosed()
      requires Valid() && world.box.Showing?
      modifies this
      ensures Valid() && world == BoxClosedStep(old(world))
    {
      world := world.(box := Closed(world.box.outstanding, |jobs|));
      FinishBulkIfDone();
    }

    /** The ListIncompleteUploads case for a listing that failed. */
    method UploadsNotListed(error: Option<ErrorKind>)
      requires Valid() && world.pages == 1 && kind == AbortUploads
      modifies this
      ensures Valid() && world == ListFailedStep(old(world), error)
    {
      listing := false;
      world := world.(pages := 0, bulk := world.bulk.(listing := false));
      FinishBulkIfDone();
    }

    method ItemFinished(id: nat, outcome: Outcome)
      requires Valid() && id in jobs
      modifies this
      ensures Valid() && world == ItemDoneStep(old(world), id, outcome)
    {
      jobs := jobs - {id};
      if outcome == Ok {
        done := done + 1;
      } else if outcome == Failed || kind == FolderDownload {
        failed := failed + 1;
      }
      pending := pending - 1;
      world := world.(items := jobs, bulk := Bulk(kind, listing, pending, done, failed, claimed),
                      cancelled := world.cancelled + if outcome == Cancelled then 1 else 0);
      FinishBulkIfDone();
    }
  }
}
