/** The plugin's save handlers as the source writes them: a class that changes its maps in place and calls the queue
    object. Each method carries out the machine's step for its handler, with no worker in between. */
module SavePlugins {

  import opened StorageTypes
  import opened StorageErrors
  import opened TransferQueue
  import opened TransferManagers
  import opened SaveRounds

  /** A handler's call of the queue carried to its end. */
  function Settled(s: SaveRounds.State): SaveRounds.State {
    StoreStep(AnnounceStep(s))
  }

  class NppS3Plugin {
    const transfers: TransferManager
    var saveStates: map<Path, SaveState>
    var pending: map<nat, Action>
    var documents: map<Path, Doc>
    var dialogs: seq<Dialog>
    ghost var world: SaveRounds.State

    ghost predicate Valid()
      reads this, transfers, transfers.queue, transfers.active, transfers.made
    {
      && transfers.Valid() && transfers.world == world.q && world.ui.Free?
      && saveStates == world.saves && pending == world.pending && documents == world.docs && dialogs == world.dialogs
    }

    constructor (transfers: TransferManager, documents: map<Path, Doc>, ghost files: map<Path, Content>,
                 ghost remotes: map<Remote, Content>)
      requires transfers.Valid() && transfers.world == StartStep(EMPTY)
      ensures Valid() && this.transfers == transfers && SaveRounds.Initial(world)
      ensures this.documents == documents && world.files == files && world.remotes == remotes
    {
      this.transfers := transfers;
      this.documents := documents;
      saveStates, pending, dialogs := map[], map[], [];
      world := SaveRounds.State(transfers.world, 0, map[], map[], documents, [], Free, files, remotes, {}, None, {}, map[]);
    }

    method Enqueue(req: Request, action: Action) returns (id: nat)
      requires Valid() && Fits(req, action)
      modifies this, transfers, transfers.queue
      ensures Valid() && fresh(transfers.made - old(transfers.made))
      ensures id == EnqueueResult(old(world.q)) && world == Settled(UiEnqueue(old(world), req, action, None))
    {
      id := transfers.Enqueue(req);
      ghost var announced := AnnounceStep(UiEnqueue(world, req, action, None));
      if id != 0 {
        transfers.AnnounceQueued(Job(id, req));
        pending := pending[id := action];
      }
      world := StoreStep(announced);
    }

    /** `FinishSave` without restart. */
    method DropSave(path: Path)
      requires Valid()
      modifies this
      ensures Valid() && world == DropRound(old(world), path)
    {
      world := DropRound(world, path);
      if path in saveStates {
        saveStates := saveStates[path := SaveState(false, false)];
      }
    }

    method StartSaveUpload(path: Path, configured: bool)
      requires Valid()
      modifies this, transfers, transfers.queue
      ensures Valid() && fresh(transfers.made - old(transfers.made))
      ensures world == Settled(StartRound(old(world), path, configured))
    {
      if path !in documents || !configured {
        DropSave(path);
        return;
      }
      var r := documents[path].remote;
      var id := Enqueue(Request(Head, r.bucket, r.key, "", ""), Action(HeadForSave, path, r));
    }

    /** Marks the path as in flight and starts its upload. */
    method BeginRound(path: Path, configured: bool)
      requires Valid()
      modifies this, transfers, transfers.queue
      ensures Valid() && fresh(transfers.made - old(transfers.made))
      ensures world == Settled(Started(old(world), path, configured))
    {
      saveStates := saveStates[path := SaveState(true, false)];
      var b := BookOf(world, path);
      world := world.(saves := saveStates, books := world.books[path := b.(started := b.started + 1)]);
      StartSaveUpload(path, configured);
    }

    /** `FinishSave` with restart; `end` is how the round ended, for the history. */
    method FinishSave(path: Path, ghost end: RoundEnd, configured: bool)
      requires Valid()
      modifies this, transfers, transfers.queue
      ensures Valid() && fresh(transfers.made - old(transfers.made))
      ensures world == Settled(FinishRound(old(world), path, end, configured))
    {
      if path !in saveStates {
        return;
      }
      var again := saveStates[path].again;
      saveStates := saveStates[path := SaveState(false, false)];
      world := world.(saves := saveStates, books := world.books[path := BookOf(world, path).(last := end)]);
      if again {
        BeginRound(path, configured);
      }
    }

    method HandleFileSaved(path: Path, configured: bool)
      requires Valid()
      modifies this, transfers, transfers.queue
      ensures Valid() && fresh(transfers.made - old(transfers.made))
      ensures world == Settled(NotifyStep(old(world), path, configured))
    {
      if path !in documents || !documents[path].autoUpload {
        return;
      }
      world := Noted(world, path);
      var state := if path in saveStates then saveStates[path] else SaveState(false, false);
      if state.inFlight {
        world := Waits(world, path);
        saveStates := saveStates[path := SaveState(true, true)];
        return;
      }
      BeginRound(path, configured);
    }

    method EnqueueUpload(path: Path, configured: bool)
      requires Valid()
      modifies this, transfers, transfers.queue
      ensures Valid() && fresh(transfers.made - old(transfers.made))
      ensures world == Settled(Proceed(old(world), path, configured))
    {
      if path !in documents || !configured {
        DropSave(path);
        return;
      }
      var r := documents[path].remote;
      var id := Enqueue(Request(Upload, r.bucket, r.key, path, ""), Action(UploadSave, path, r));
    }

    /** The HeadForSave case, up to a dialog if it opens one. */
    method HeadForSaveDone(path: Path, outcome: Outcome, configured: bool)
      requires Valid()
      modifies this, transfers, transfers.queue
      ensures Valid() && fresh(transfers.made - old(transfers.made))
      ensures world == Settled(HeadDone(old(world), path, outcome, configured))
    {
      if path !in documents {
        DropSave(path);
      } else if outcome.Completed? {
        var etag := documents[path].etag;
        if etag != "" && outcome.etag != "" && outcome.etag != etag {
          OpenDialog(RemoteConflict(path, false));
        } else {
          EnqueueUpload(path, configured);
        }
      } else if outcome.Failed? && outcome.error == NoSuchKey {
        OpenDialog(RemoteConflict(path, true));
      } else if outcome.Failed? && Interrupts(outcome.error) {
        OpenDialog(CredentialError(path, false));
      } else {
        DropSave(path);
      }
    }

    method OpenDialog(dialog: Dialog)
      requires Valid()
      modifies this
      ensures Valid() && world == old(world).(dialogs := old(world).dialogs + [dialog])
    {
      dialogs := dialogs + [dialog];
      world := world.(dialogs := dialogs);
    }

    /** The UploadSave case. */
    method UploadSaveDone(action: Action, outcome: Outcome, configured: bool)
      requires Valid()
      modifies this, transfers, transfers.queue
      ensures Valid() && fresh(transfers.made - old(transfers.made))
      ensures world == Settled(UploadDone(old(world), action, outcome, configured))
    {
      if outcome.Completed? {
        if action.path in documents {
          documents := documents[action.path := documents[action.path].(etag := outcome.etag)];
          world := world.(docs := documents);
        }
        FinishSave(action.path, Uploaded(action.remote), configured);
      } else if outcome.Failed? && Interrupts(outcome.error) {
        OpenDialog(CredentialError(action.path, true));
      } else {
        FinishSave(action.path, NotUploaded, configured);
      }
    }

    /** The switch over the kinds of action. */
    method FinishAction(action: Action, outcome: Outcome, configured: bool)
      requires Valid()
      modifies this, transfers, transfers.queue
      ensures Valid() && fresh(transfers.made - old(transfers.made))
      ensures world == Settled(ActionDone(old(world), action, outcome, configured))
    {
      match action.kind {
        case HeadForSave => HeadForSaveDone(action.path, outcome, configured);
        case UploadSave => UploadSaveDone(action, outcome, configured);
        case OtherAction =>
      }
    }

    /** `HandleTransferEventUi` for the next message. */
    method HandleTransferEventUi(event: Event, configured: bool)
      requires Valid() && world.seen < |world.q.events| && event == world.q.events[world.seen]
      modifies this, transfers, transfers.queue
      ensures Valid() && fresh(transfers.made - old(transfers.made))
      ensures world == Settled(HandleStep(old(world), configured))
    {
      if !event.Finished? || event.job.id !in pending {
        world := world.(seen := world.seen + 1);
        return;
      }
      var action := pending[event.job.id];
      pending := pending - {event.job.id};
      world := TakenOut(world);
      FinishAction(action, event.outcome, configured);
    }

    lemma DownloadThenDrop(s: SaveRounds.State, req: Request, action: Action, path: Path)
      requires Fits(req, action) && EnqueueResult(s.q) != 0
      ensures DropRound(Settled(UiEnqueue(s, req, action, None)), path) == Settled(UiEnqueue(s, req, action, Some(path)))
    {
    }

    /** The user's choice about a remote object that changed or vanished. The handler held on to its document, which is
        still the one found here: documents are kept in a map and removed at start-up only. */
    method ConflictAnswered(path: Path, vanished: bool, choice: Choice, configured: bool)
      requires Valid()
      modifies this, transfers, transfers.queue
      ensures Valid() && fresh(transfers.made - old(transfers.made))
      ensures world == Settled(Answered(old(world), RemoteConflict(path, vanished), choice, configured))
    {
      if choice == Overwrite {
        EnqueueUpload(path, configured);
      } else if choice == DownloadRemote && !vanished && path in documents {
        var r := documents[path].remote;
        var req, action := Request(Download, r.bucket, r.key, path, ""), Action(OtherAction, path, r);
        if EnqueueResult(world.q) != 0 {
          DownloadThenDrop(world, req, action, path);
        }
        var id := Enqueue(req, action);
        DropSave(path);
      } else {
        DropSave(path);
      }
    }

    /** The handler of a closed dialog goes on. */
    method GoOn(dialog: Dialog, choice: Choice, configured: bool)
      requires Valid()
      modifies this, transfers, transfers.queue
      ensures Valid() && fresh(transfers.made - old(transfers.made))
      ensures world == Settled(Answered(old(world), dialog, choice, configured))
    {
      match dialog {
        case RemoteConflict(path, vanished) => ConflictAnswered(path, vanished, choice, configured);
        case CredentialError(path, restart) =>
          if restart {
            FinishSave(path, NotUploaded, configured);
          } else {
            DropSave(path);
          }
      }
    }

    method CloseDialog(choice: Choice, configured: bool)
      requires Valid() && dialogs != []
      modifies this, transfers, transfers.queue
      ensures Valid() && fresh(transfers.made - old(transfers.made))
      ensures world == Settled(AnswerStep(old(world), choice, configured))
    {
      var dialog := dialogs[|dialogs| - 1];
      dialogs := dialogs[..|dialogs| - 1];
      world := world.(dialogs := dialogs);
      ghost var closed := world;
      GoOn(dialog, choice, configured);
      assert AnswerStep(old(world), choice, configured) == Answered(closed, dialog, choice, configured);
    }
  }
}
