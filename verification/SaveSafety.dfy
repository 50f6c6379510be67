/** What every run of `SaveRounds` keeps: completions find their action, one round per path, no save is lost, and the
    last save wins. */
module SaveSafety {

  import opened StorageTypes
  import opened StorageErrors
  import opened TransferQueue
  import opened SaveRounds

  // ----------------------------------------------------------------- the queue

  ghost predicate QueueOk(s: SaveRounds.State) {
    Inv(s.q) && s.q.started && !s.q.stopping && s.seen <= |s.q.events|
  }

  lemma StepKeepsQueue(s: SaveRounds.State, t: SaveRounds.State)
    requires QueueOk(s) && QueueMoves(s, t)
    ensures QueueOk(t) && s.q.events <= t.q.events
  {
    if t.q == s.q {
    } else if Queued(s, t) {
      EnqueueKeepsInv(s.q, t.ui.job.req);
    } else if s.ui.Announcing? && t.q == TransferQueue.Apply(s.q, AnnouncePending(s.ui.job)) {
      AnnounceKeepsInv(s.q, s.ui.job);
    } else if lane: Lane, w :| t.q == WorkStep(s.q, lane, w) {
      WorkKeepsInv(s.q, lane, w);
      WorkFrame(s.q, lane, w);
    } else {
      CancelKeepsInv(s.q, t.q);
    }
  }

  lemma CancelKeepsInv(q: TransferQueue.State, r: TransferQueue.State)
    requires Inv(q) && r.(cancelled := q.cancelled) == q
    ensures Inv(r)
  {
  }

  // -------------------------------------------------------- actions and completions

  function UiIds(ui: Ui): set<nat> {
    if ui.Free? then {} else {ui.job.id}
  }

  /** The completion of this job is among the first `n` messages. */
  ghost predicate Told(events: seq<Event>, n: nat, id: nat)
    requires n <= |events|
  {
    exists k :: 0 <= k < n && events[k].Finished? && events[k].job.id == id
  }

  /** The jobs with an action stored, or about to be, are those issued and not yet handled as finished. */
  ghost predicate Paired(s: SaveRounds.State) {
    && QueueOk(s)
    && (forall id: nat :: id in s.pending.Keys + UiIds(s.ui) <==> 1 <= id < s.q.nextId && !Told(s.q.events, s.seen, id))
    && UiIds(s.ui) !! s.pending.Keys
  }

  lemma {:induction false} CountsFinished(events: seq<Event>, k: nat, id: nat)
    requires k < |events| && events[k].Finished? && events[k].job.id == id
    ensures CountFinished(events, id) >= 1
    ensures CountFinished(events, id) == 1 ==>
              forall j :: 0 <= j < |events| && events[j].Finished? && events[j].job.id == id ==> j == k
  {
    var before := events[..|events| - 1];
    if k < |events| - 1 {
      CountsFinished(before, k, id);
    } else {
      forall j | 0 <= j < |events| - 1 && events[j].Finished? && events[j].job.id == id ensures CountFinished(events, id) > 1 {
        assert before[j] == events[j];
        CountsFinished(before, j, id);
      }
    }
  }

  lemma FinishedIsIssuedOnce(q: TransferQueue.State, k: nat)
    requires Inv(q) && k < |q.events| && q.events[k].Finished?
    ensures 1 <= q.events[k].job.id < q.nextId && !Told(q.events, k, q.events[k].job.id)
  {
    var id := q.events[k].job.id;
    EveryIdOnce(q, id);
    CountsFinished(q.events, k, id);
  }

  lemma ToldGrows(events: seq<Event>, n: nat, id: nat)
    requires n < |events|
    ensures Told(events, n + 1, id) <==> Told(events, n, id) || id in FinishedId(events[n])
  {
    if events[n].Finished? && events[n].job.id == id {
      assert Told(events, n + 1, id);
    }
  }

  lemma ToldStays(events: seq<Event>, more: seq<Event>, n: nat, id: nat)
    requires n <= |events| && events <= more
    ensures Told(more, n, id) <==> Told(events, n, id)
  {
    assert forall k :: 0 <= k < n ==> more[k] == events[k];
    if Told(more, n, id) {
      var k :| 0 <= k < n && more[k].Finished? && more[k].job.id == id;
      assert events[k].Finished?;
    }
  }

  lemma NewIdNotTold(q: TransferQueue.State, n: nat)
    requires Inv(q) && n <= |q.events|
    ensures !Told(q.events, n, q.nextId)
  {
    if Told(q.events, n, q.nextId) {
      var k :| 0 <= k < n && q.events[k].Finished? && q.events[k].job.id == q.nextId;
      FinishedIsIssuedOnce(q, k);
    }
  }

  lemma StepKeepsPaired(s: SaveRounds.State, t: SaveRounds.State)
    requires Paired(s) && QueueMoves(s, t) && PendingMoves(s, t) && UiMoves(s, t)
    ensures Paired(t)
  {
    StepKeepsQueue(s, t);
    forall id: nat ensures Told(t.q.events, s.seen, id) <==> Told(s.q.events, s.seen, id) {
      ToldStays(s.q.events, t.q.events, s.seen, id);
    }
    NewIdNotTold(s.q, s.seen);
    if t.seen == s.seen + 1 {
      forall id: nat ensures Told(t.q.events, t.seen, id) <==> Told(s.q.events, s.seen, id) || id in FinishedId(s.q.events[s.seen]) {
        ToldGrows(t.q.events, s.seen, id);
      }
      if s.q.events[s.seen].Finished? {
        FinishedIsIssuedOnce(s.q, s.seen);
      }
    }
  }

  // ---------------------------------------------------------- one round for each path

  /** Ids of the jobs a path's round waits for. */
  function SaveIds(pending: map<nat, Action>, p: Path): set<nat> {
    set id | id in pending && IsSave(pending[id], p)
  }

  function UiTokens(ui: Ui, p: Path): nat {
    if ui.Free? then 0
    else (if IsSave(ui.action, p) then 1 else 0) + (if ui.ending == Some(p) then 1 else 0)
  }

  function DialogsOf(dialogs: seq<Dialog>, p: Path): nat {
    if dialogs == [] then 0
    else DialogsOf(dialogs[..|dialogs| - 1], p) + if dialogs[|dialogs| - 1].path == p then 1 else 0
  }

  /** What is outstanding for a path: a job of its round, a handler about to store or end it, an open dialog. */
  function Tokens(s: SaveRounds.State, p: Path): nat {
    |SaveIds(s.pending, p)| + UiTokens(s.ui, p) + DialogsOf(s.dialogs, p)
  }

  ghost predicate OneRound(s: SaveRounds.State, p: Path) {
    && Tokens(s, p) == (if SaveOf(s, p).inFlight then 1 else 0)
    && (SaveOf(s, p).again ==> SaveOf(s, p).inFlight)
  }

  lemma TakeAway(pending: map<nat, Action>, id: nat, p: Path)
    requires id in pending
    ensures |SaveIds(pending - {id}, p)| == |SaveIds(pending, p)| - if IsSave(pending[id], p) then 1 else 0
  {
    if IsSave(pending[id], p) {
      assert SaveIds(pending - {id}, p) == SaveIds(pending, p) - {id};
    } else {
      assert SaveIds(pending - {id}, p) == SaveIds(pending, p);
    }
  }

  lemma PutIn(pending: map<nat, Action>, id: nat, a: Action, p: Path)
    requires id !in pending
    ensures |SaveIds(pending[id := a], p)| == |SaveIds(pending, p)| + if IsSave(a, p) then 1 else 0
  {
    if IsSave(a, p) {
      assert SaveIds(pending[id := a], p) == SaveIds(pending, p) + {id};
    } else {
      assert SaveIds(pending[id := a], p) == SaveIds(pending, p);
    }
  }

  lemma OneMoreDialog(dialogs: seq<Dialog>, d: Dialog, p: Path)
    ensures DialogsOf(dialogs + [d], p) == DialogsOf(dialogs, p) + if d.path == p then 1 else 0
  {
    assert (dialogs + [d])[..|dialogs|] == dialogs;
  }

  // Other paths are left alone.

  ghost predicate PathKept(s: SaveRounds.State, t: SaveRounds.State, p: Path) {
    SaveOf(t, p) == SaveOf(s, p) && BookOf(t, p) == BookOf(s, p)
  }

  lemma StartedKeeps(s: SaveRounds.State, x: Path, configured: bool, p: Path)
    requires x != p
    ensures PathKept(s, Started(s, x, configured), p)
  {
  }

  lemma FinishRoundKeeps(s: SaveRounds.State, x: Path, end: RoundEnd, configured: bool, p: Path)
    requires x != p
    ensures PathKept(s, FinishRound(s, x, end, configured), p)
  {
    if x in s.saves {
      StartedKeeps(s.(saves := s.saves[x := SaveState(false, false)], books := s.books[x := BookOf(s, x).(last := end)]),
                   x, configured, p);
    }
  }

  lemma DropKeeps(s: SaveRounds.State, t: SaveRounds.State, x: Path, p: Path)
    requires KeepsOrDrops(s, t, x) && x != p
    ensures PathKept(s, t, p)
  {
  }

  lemma UploadDoneKeeps(s: SaveRounds.State, a: Action, outcome: Outcome, configured: bool, p: Path)
    requires a.path != p
    ensures PathKept(s, UploadDone(s, a, outcome, configured), p)
  {
    if outcome.Completed? {
      var u := if a.path in s.docs then s.(docs := s.docs[a.path := s.docs[a.path].(etag := outcome.etag)]) else s;
      FinishRoundKeeps(u, a.path, Uploaded(a.remote), configured, p);
    } else {
      FinishRoundKeeps(s, a.path, NotUploaded, configured, p);
    }
  }

  lemma DoneKeeps(s: SaveRounds.State, a: Action, outcome: Outcome, configured: bool, p: Path)
    requires !IsSave(a, p)
    ensures PathKept(s, ActionDone(s, a, outcome, configured), p)
  {
    if a.kind == HeadForSave {
      DropKeeps(s, HeadDone(s, a.path, outcome, configured), a.path, p);
    } else if a.kind == UploadSave {
      UploadDoneKeeps(s, a, outcome, configured, p);
    }
  }

  /** A round that has lost its token, or never had one, gets one or ends. */
  lemma RoundGetsToken(s: SaveRounds.State, t: SaveRounds.State, x: Path)
    requires RoundMoves(s, t, x) && s.ui.Free? && Tokens(s, x) == 0
    ensures OneRound(t, x)
  {
    assert SaveIds(t.pending, x) == SaveIds(s.pending, x);
  }

  lemma RoundPassesOn(s: SaveRounds.State, t: SaveRounds.State, x: Path)
    requires DoneMoves(s, t, x) && s.ui.Free? && Tokens(s, x) == 0 && SaveOf(s, x).inFlight
    ensures OneRound(t, x)
  {
    if RoundMoves(s, t, x) {
      RoundGetsToken(s, t, x);
    } else {
      var d: Dialog :| d.path == x && t == s.(dialogs := s.dialogs + [d]);
      OneMoreDialog(s.dialogs, d, x);
    }
  }

  lemma OtherRoundsStay(s: SaveRounds.State, t: SaveRounds.State, x: Path, p: Path)
    requires DoneMoves(s, t, x) && s.ui.Free? && x != p && OneRound(s, p) && PathKept(s, t, p)
    ensures OneRound(t, p)
  {
    if d: Dialog :| d.path == x && t == s.(dialogs := s.dialogs + [d]) {
      OneMoreDialog(s.dialogs, d, p);
    }
  }

  lemma HandledKeepsRounds(s: SaveRounds.State, t: SaveRounds.State, p: Path)
    requires Paired(s) && Handles(s) && ActionMoves(TakenOut(s), t, ActionInHand(s))
    requires OneRound(s, p) && OneRound(s, ActionInHand(s).path) && (IsSave(ActionInHand(s), p) || PathKept(s, t, p))
    ensures OneRound(t, p)
  {
    var a, u := ActionInHand(s), TakenOut(s);
    TakeAway(s.pending, s.q.events[s.seen].job.id, p);
    if a.kind != OtherAction {
      if a.path == p {
        RoundPassesOn(u, t, p);
      } else {
        OtherRoundsStay(u, t, a.path, p);
      }
    }
  }

  lemma HandleKeepsRounds(s: SaveRounds.State, configured: bool, p: Path)
    requires Paired(s) && forall x :: OneRound(s, x)
    ensures OneRound(HandleStep(s, configured), p)
  {
    assert OneRound(s, p);
    if Handles(s) {
      TakeAway(s.pending, s.q.events[s.seen].job.id, ActionInHand(s).path);
      assert OneRound(s, ActionInHand(s).path);
      var a, u, outcome := ActionInHand(s), TakenOut(s), s.q.events[s.seen].outcome;
      if !IsSave(a, p) {
        DoneKeeps(u, a, outcome, configured, p);
      }
      HandledKeepsRounds(s, ActionDone(u, a, outcome, configured), p);
    }
  }

  /** The token of a closed dialog passes to the handler that goes on. */
  lemma AnsweredPassesOn(s: SaveRounds.State, d: Dialog, choice: Choice, configured: bool)
    requires EnqueueResult(s.q) != 0 && s.ui.Free? && Tokens(s, d.path) == 0 && SaveOf(s, d.path).inFlight
    ensures OneRound(Answered(s, d, choice, configured), d.path)
  {
    var t := Answered(s, d, choice, configured);
    if d.RemoteConflict? && choice == DownloadRemote && !d.vanished && d.path in s.docs {
      assert t.ui.Announcing? && t.ui.ending == Some(d.path) && t.ui.action.kind == OtherAction;
      assert SaveOf(t, d.path) == SaveOf(s, d.path);
    } else {
      RoundGetsToken(s, t, d.path);
    }
  }

  lemma AnsweredKeepsOther(s: SaveRounds.State, d: Dialog, choice: Choice, configured: bool, p: Path)
    requires EnqueueResult(s.q) != 0 && s.ui.Free? && SaveOf(s, d.path).inFlight && d.path != p && OneRound(s, p)
    ensures OneRound(Answered(s, d, choice, configured), p)
  {
    var t := Answered(s, d, choice, configured);
    if d.RemoteConflict? {
      DropKeeps(s, t, d.path, p);
    } else {
      FinishRoundKeeps(s, d.path, NotUploaded, configured, p);
      DropKeeps(s, DropRound(s, d.path), d.path, p);
    }
    assert DialogsOf(t.dialogs, p) == DialogsOf(s.dialogs, p);
  }

  lemma AnswerKeepsRounds(s: SaveRounds.State, choice: Choice, configured: bool, p: Path)
    requires Paired(s) && forall x :: OneRound(s, x)
    ensures OneRound(AnswerStep(s, choice, configured), p)
  {
    assert OneRound(s, p);
    if s.ui.Free? && s.dialogs != [] {
      var d, u := s.dialogs[|s.dialogs| - 1], s.(dialogs := s.dialogs[..|s.dialogs| - 1]);
      assert OneRound(s, d.path);
      if d.path == p {
        AnsweredPassesOn(u, d, choice, configured);
      } else {
        AnsweredKeepsOther(u, d, choice, configured, p);
      }
    }
  }

  lemma StartKeepsRounds(s: SaveRounds.State, x: Path, configured: bool, p: Path)
    requires EnqueueResult(s.q) != 0 && s.ui.Free? && OneRound(s, p) && OneRound(s, x) && !SaveOf(s, x).inFlight
    ensures OneRound(Started(s, x, configured), p)
  {
    var t := Started(s, x, configured);
    if x == p {
      RoundGetsToken(s, t, x);
    } else {
      StartedKeeps(s, x, configured, p);
      OtherRoundsStay(s, t, x, p);
    }
  }

  lemma NotifyKeepsRounds(s: SaveRounds.State, x: Path, configured: bool, p: Path)
    requires Paired(s) && s.ui.Free? && OneRound(s, p) && OneRound(s, x)
    ensures OneRound(NotifyStep(s, x, configured), p)
  {
    if x in s.docs && s.docs[x].autoUpload {
      var u := Noted(s, x);
      assert OneRound(u, p) && OneRound(u, x);
      if SaveOf(s, x).inFlight {
        assert OneRound(Waits(u, x), p);
      } else {
        StartKeepsRounds(u, x, configured, p);
      }
    }
  }

  lemma StoreKeepsRounds(s: SaveRounds.State, p: Path)
    requires Paired(s) && OneRound(s, p)
    ensures OneRound(StoreStep(s), p)
  {
    if s.ui.Storing? {
      PutIn(s.pending, s.ui.job.id, s.ui.action, p);
      var u := s.(pending := s.pending[s.ui.job.id := s.ui.action], ui := Free);
      if s.ui.ending.Some? && s.ui.ending.value != p {
        DropKeeps(u, DropRound(u, s.ui.ending.value), s.ui.ending.value, p);
      }
    }
  }

  lemma UiKeepsRounds(s: SaveRounds.State, step: UiStep, p: Path)
    requires Paired(s) && forall x :: OneRound(s, x)
    ensures OneRound(UiApply(s, step), p)
  {
    assert OneRound(s, p);
    match step
    case Notify(x, configured) => if s.ui.Free? { NotifyKeepsRounds(s, x, configured, p); }
    case HandleMessage(configured) => HandleKeepsRounds(s, configured, p);
    case Answer(choice, configured) => AnswerKeepsRounds(s, choice, configured, p);
    case Announce => assert OneRound(AnnounceStep(s), p);
    case Store => StoreKeepsRounds(s, p);
    case OtherJob(req) => if s.ui.Free? { OtherKeepsRounds(s, req, p); }
  }

  lemma OtherKeepsRounds(s: SaveRounds.State, req: Request, p: Path)
    requires OneRound(s, p) && s.ui.Free?
    ensures OneRound(UiEnqueue(s, req, Action(OtherAction, req.localPath, RemoteOf(req)), None), p)
  {
  }

  lemma StepKeepsRounds(s: SaveRounds.State, step: SaveRounds.Step, p: Path)
    requires Paired(s) && forall x :: OneRound(s, x)
    ensures OneRound(SaveRounds.Apply(s, step), p)
  {
    assert OneRound(s, p);
    match step
    case OnUi(u) => UiKeepsRounds(s, u, p);
    case Work(lane, w) => assert OneRound(WorkerStepOf(s, lane, w), p);
    case InWorld(change) => assert OneRound(WorldApply(s, change), p);
  }

  // -------------------------------------------------------------- no save is lost

  /** Where the saves notified for a path have gone: started rounds, the one waiting, those merged into a waiting
      one, those dropped. */
  function Accounted(s: SaveRounds.State, p: Path): nat {
    var b := BookOf(s, p);
    b.started + (if SaveOf(s, p).again then 1 else 0) + b.merged + b.dropped
  }

  /** What a step can do to a path's books: `saves` more are notified, and a waiting save is dropped only when its
      round ends without an upload. */
  ghost predicate BooksMove(s: SaveRounds.State, t: SaveRounds.State, p: Path, saves: nat) {
    var b, c := BookOf(s, p), BookOf(t, p);
    && c.notified == b.notified + saves
    && Accounted(t, p) == Accounted(s, p) + saves
    && b.dropped <= c.dropped <= b.dropped + 1
    && (c.dropped != b.dropped ==> SaveOf(s, p).again && !SaveOf(t, p).inFlight && c.last == NotUploaded)
  }

  lemma DropBooks(s: SaveRounds.State, t: SaveRounds.State, x: Path, p: Path)
    requires KeepsOrDrops(s, t, x)
    ensures BooksMove(s, t, p, 0)
  {
  }

  /** A round is started for a save that is not in the books yet. */
  lemma StartedBooks(s: SaveRounds.State, p: Path, configured: bool)
    requires !SaveOf(s, p).again
    ensures var t := Started(s, p, configured);
            && BookOf(t, p).(last := NoRound) == BookOf(s, p).(last := NoRound, started := BookOf(s, p).started + 1)
            && !SaveOf(t, p).again
  {
  }

  lemma FinishBooks(s: SaveRounds.State, x: Path, end: RoundEnd, configured: bool, p: Path)
    ensures BooksMove(s, FinishRound(s, x, end, configured), p, 0)
  {
    if x != p {
      FinishRoundKeeps(s, x, end, configured, p);
    } else if x in s.saves {
      StartedBooks(s.(saves := s.saves[p := SaveState(false, false)], books := s.books[p := BookOf(s, p).(last := end)]),
                   p, configured);
    }
  }

  lemma UploadDoneBooks(s: SaveRounds.State, a: Action, outcome: Outcome, configured: bool, p: Path)
    ensures BooksMove(s, UploadDone(s, a, outcome, configured), p, 0)
  {
    if outcome.Completed? {
      var u := if a.path in s.docs then s.(docs := s.docs[a.path := s.docs[a.path].(etag := outcome.etag)]) else s;
      FinishBooks(u, a.path, Uploaded(a.remote), configured, p);
    } else {
      FinishBooks(s, a.path, NotUploaded, configured, p);
    }
  }

  lemma ActionBooks(s: SaveRounds.State, a: Action, outcome: Outcome, configured: bool, p: Path)
    ensures BooksMove(s, ActionDone(s, a, outcome, configured), p, 0)
  {
    match a.kind
    case HeadForSave => DropBooks(s, HeadDone(s, a.path, outcome, configured), a.path, p);
    case UploadSave => UploadDoneBooks(s, a, outcome, configured, p);
    case OtherAction =>
  }

  /** Taking a message off changes no book. */
  lemma BooksFrom(s: SaveRounds.State, u: SaveRounds.State, t: SaveRounds.State, p: Path)
    requires u == s.(seen := u.seen, pending := u.pending) && BooksMove(u, t, p, 0)
    ensures BooksMove(s, t, p, 0)
  {
  }

  lemma HandleBooks(s: SaveRounds.State, configured: bool, p: Path)
    ensures BooksMove(s, HandleStep(s, configured), p, 0)
  {
    if Handles(s) {
      var a, u, outcome := ActionInHand(s), TakenOut(s), s.q.events[s.seen].outcome;
      ActionBooks(u, a, outcome, configured, p);
      BooksFrom(s, u, ActionDone(u, a, outcome, configured), p);
    }
  }

  lemma AnsweredBooks(s: SaveRounds.State, d: Dialog, choice: Choice, configured: bool, p: Path)
    ensures BooksMove(s, Answered(s, d, choice, configured), p, 0)
  {
    if d.RemoteConflict? {
      DropBooks(s, Answered(s, d, choice, configured), d.path, p);
    } else {
      DropBooks(s, DropRound(s, d.path), d.path, p);
      FinishBooks(s, d.path, NotUploaded, configured, p);
    }
  }

  lemma AnswerBooks(s: SaveRounds.State, choice: Choice, configured: bool, p: Path)
    ensures BooksMove(s, AnswerStep(s, choice, configured), p, 0)
  {
    if s.ui.Free? && s.dialogs != [] {
      var u := s.(dialogs := s.dialogs[..|s.dialogs| - 1]);
      assert BookOf(u, p) == BookOf(s, p) && SaveOf(u, p) == SaveOf(s, p);
      AnsweredBooks(u, s.dialogs[|s.dialogs| - 1], choice, configured, p);
    }
  }

  lemma NotedBooks(s: SaveRounds.State, x: Path, configured: bool, p: Path)
    requires !SaveOf(s, x).inFlight ==> !SaveOf(s, x).again
    ensures var t := if SaveOf(s, x).inFlight then Waits(Noted(s, x), x) else Started(Noted(s, x), x, configured);
            BooksMove(s, t, p, if x == p then 1 else 0)
  {
    var u := Noted(s, x);
    if !SaveOf(s, x).inFlight {
      if x == p {
        StartedBooks(u, x, configured);
      } else {
        StartedKeeps(u, x, configured, p);
      }
    }
  }

  /** The notification of a tracked document's save is entered in its books. */
  lemma NotifyBooks(s: SaveRounds.State, x: Path, configured: bool, p: Path)
    requires OneRound(s, x)
    ensures BooksMove(s, NotifyStep(s, x, configured), p, if x == p && p in s.docs && s.docs[p].autoUpload then 1 else 0)
  {
    if x in s.docs && s.docs[x].autoUpload {
      NotedBooks(s, x, configured, p);
    }
  }

  lemma StoreBooks(s: SaveRounds.State, p: Path)
    ensures BooksMove(s, StoreStep(s), p, 0)
  {
    if s.ui.Storing? && s.ui.ending.Some? {
      var u := s.(pending := s.pending[s.ui.job.id := s.ui.action], ui := Free);
      DropBooks(u, DropRound(u, s.ui.ending.value), s.ui.ending.value, p);
    }
  }

  function SavesNotified(s: SaveRounds.State, step: SaveRounds.Step, p: Path): nat {
    if step.OnUi? && step.ui.Notify? && s.ui.Free? && step.ui.path == p && p in s.docs && s.docs[p].autoUpload then 1 else 0
  }

  lemma UiBooks(s: SaveRounds.State, step: UiStep, p: Path)
    requires forall x :: OneRound(s, x)
    ensures BooksMove(s, UiApply(s, step), p, SavesNotified(s, OnUi(step), p))
  {
    match step
    case Notify(x, configured) =>
      if s.ui.Free? {
        assert OneRound(s, x);
        NotifyBooks(s, x, configured, p);
      }
    case HandleMessage(configured) => HandleBooks(s, configured, p);
    case Answer(choice, configured) => AnswerBooks(s, choice, configured, p);
    case Announce =>
    case Store => StoreBooks(s, p);
    case OtherJob(req) =>
  }

  lemma StepBooks(s: SaveRounds.State, step: SaveRounds.Step, p: Path)
    requires forall x :: OneRound(s, x)
    ensures BooksMove(s, SaveRounds.Apply(s, step), p, SavesNotified(s, step, p))
  {
    match step
    case OnUi(u) => UiBooks(s, u, p);
    case Work(lane, w) => assert BooksMove(s, WorkerStepOf(s, lane, w), p, 0);
    case InWorld(change) => assert BooksMove(s, WorldApply(s, change), p, 0);
  }

  // ----------------------------------------------------------------- over all runs

  ghost predicate Safe(s: SaveRounds.State) {
    && Paired(s)
    && (forall p :: OneRound(s, p))
    && (forall p :: Accounted(s, p) == BookOf(s, p).notified)
  }

  lemma InitialIsSafe(s: SaveRounds.State)
    requires SaveRounds.Initial(s)
    ensures Safe(s)
  {
    EmptyInv();
    StartKeepsInv(EMPTY);
    assert forall p :: SaveIds(s.pending, p) == {};
  }

  lemma StepKeepsSafe(s: SaveRounds.State, step: SaveRounds.Step)
    requires Safe(s)
    ensures Safe(SaveRounds.Apply(s, step))
  {
    var t := SaveRounds.Apply(s, step);
    StepKeepsPaired(s, t);
    forall p ensures OneRound(t, p) && Accounted(t, p) == BookOf(t, p).notified {
      StepKeepsRounds(s, step, p);
      StepBooks(s, step, p);
    }
  }

  lemma {:induction false} RunKeepsSafe(s: SaveRounds.State, steps: seq<SaveRounds.Step>)
    requires SaveRounds.Initial(s)
    ensures Safe(SaveRounds.Run(s, steps))
  {
    if steps == [] {
      InitialIsSafe(s);
    } else {
      RunKeepsSafe(s, steps[..|steps| - 1]);
      StepKeepsSafe(SaveRounds.Run(s, steps[..|steps| - 1]), steps[|steps| - 1]);
    }
  }

  /** Whenever the thread takes the next message and it is a Finished event, the job's action is stored already. Once
      handled it is gone, and no later message finishes that job again. */
  lemma CompletionFindsAction(s: SaveRounds.State, steps: seq<SaveRounds.Step>, configured: bool)
    requires SaveRounds.Initial(s)
    ensures var t := SaveRounds.Run(s, steps);
            t.seen <= |t.q.events|
            && (t.ui.Free? && t.seen < |t.q.events| && t.q.events[t.seen].Finished? ==>
                  var id := t.q.events[t.seen].job.id;
                  && id in t.pending
                  && id !in HandleStep(t, configured).pending
                  && forall k :: 0 <= k < |t.q.events| && k != t.seen && t.q.events[k].Finished? ==> t.q.events[k].job.id != id)
  {
    RunKeepsSafe(s, steps);
    var t := SaveRounds.Run(s, steps);
    if t.ui.Free? && t.seen < |t.q.events| && t.q.events[t.seen].Finished? {
      FinishedIsIssuedOnce(t.q, t.seen);
      EveryIdOnce(t.q, t.q.events[t.seen].job.id);
      CountsFinished(t.q.events, t.seen, t.q.events[t.seen].job.id);
      assert Handles(t);
    }
  }

  /** A path has a round in flight exactly when one thing is outstanding for it: a job of the round, the handler that
      is storing one or about to end the round, or an open dialog. There is never a second one. */
  lemma OneRoundEach(s: SaveRounds.State, steps: seq<SaveRounds.Step>, p: Path)
    requires SaveRounds.Initial(s)
    ensures var t := SaveRounds.Run(s, steps);
            && (SaveOf(t, p).inFlight <==> Tokens(t, p) == 1) && (!SaveOf(t, p).inFlight <==> Tokens(t, p) == 0)
            && (SaveOf(t, p).again ==> SaveOf(t, p).inFlight)
  {
    RunKeepsSafe(s, steps);
    assert OneRound(SaveRounds.Run(s, steps), p);
  }

  /** Every save notified for a path has started a round, waits, was merged into a waiting save or was dropped, so
      there are never more rounds than saves. */
  lemma SavesAddUp(s: SaveRounds.State, steps: seq<SaveRounds.Step>, p: Path)
    requires SaveRounds.Initial(s)
    ensures var t := SaveRounds.Run(s, steps);
            var b := BookOf(t, p);
            && b.notified == b.started + (if SaveOf(t, p).again then 1 else 0) + b.merged + b.dropped
            && b.started <= b.notified
  {
    RunKeepsSafe(s, steps);
  }

  /** A waiting save is dropped only by a step that ends its round without an upload. */
  lemma DropsOnlyWithoutUpload(s: SaveRounds.State, steps: seq<SaveRounds.Step>, step: SaveRounds.Step, p: Path)
    requires SaveRounds.Initial(s)
    ensures var t := SaveRounds.Run(s, steps);
            var u := SaveRounds.Run(s, steps + [step]);
            BookOf(u, p).dropped != BookOf(t, p).dropped ==>
              && SaveOf(t, p) == SaveState(true, true) && !SaveOf(u, p).inFlight
              && BookOf(u, p).dropped == BookOf(t, p).dropped + 1 && BookOf(u, p).last == NotUploaded
  {
    RunKeepsSafe(s, steps);
    assert (steps + [step])[..|steps|] == steps;
    assert OneRound(SaveRounds.Run(s, steps), p);
    StepBooks(SaveRounds.Run(s, steps), step, p);
  }
}
