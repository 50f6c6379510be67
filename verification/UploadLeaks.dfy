/** Every live upload this client caused is in its journal, in its hands, or charged to an event of its own. */
module UploadLeaks {

  import opened PartPlan
  import opened StorageTypes
  import opened UploadJournal
  import opened UploadProtocol
  import opened UploadSafety

  /** Created, and on its way into the journal. */
  predicate InHand(pc: Pc, id: UploadId) {
    (pc.Creating? && pc.created == Some(id)) || (pc.Beginning? && pc.uploadId == id)
  }

  /** Uploads and open requests are charged to events, no two to the same. */
  ghost predicate LedgerOk(l: Ledger) {
    && (forall id :: id in l.blame ==> l.blame[id] < |l.events|)
    && (forall e :: e in l.orphans ==> e < |l.events|)
    && (forall a, b :: a in l.blame && b in l.blame && a != b ==> l.blame[a] != l.blame[b])
    && (forall id :: id in l.blame ==> l.blame[id] !in l.orphans)
  }

  ghost predicate LiveCovered(s: State) {
    forall id :: id in s.server.live ==> Names(s.journal, id) || id in s.ledger.blame || InHand(s.pc, id)
  }

  /** What only memory knows is charged already. */
  ghost predicate NamesCovered(s: State) {
    forall k :: k in s.journal ==> Names(s.disk, s.journal[k].uploadId) || s.journal[k].uploadId in s.ledger.blame
  }

  ghost predicate LeakOk(s: State) {
    LedgerOk(s.ledger) && LiveCovered(s) && NamesCovered(s)
  }

  lemma ChargedOk(l: Ledger, id: UploadId, why: Cause)
    requires LedgerOk(l)
    ensures LedgerOk(Charged(l, id, why))
  {
  }

  lemma OrphanedOk(l: Ledger, why: Cause, b: Birth)
    requires LedgerOk(l)
    ensures LedgerOk(l.(events := l.events + [why], orphans := l.orphans[|l.events| := b]))
  {
  }

  lemma JournalLedgerOk(s: State, change: JournalStep)
    requires LedgerOk(s.ledger)
    ensures LedgerOk(JournalChanged(s, change).ledger)
  {
    match change
    case Drop(flushed) => if s.pc.Dropping? { ChargedOk(s.ledger, s.pc.uploadId, s.pc.why); }
    case BeginJournal(flushed) => if s.pc.Beginning? { ChargedOk(s.ledger, s.pc.uploadId, FlushLost); }
    case CleanupRemove(k, flushed) => if k in s.journal { ChargedOk(s.ledger, s.journal[k].uploadId, Cleanup); }
    case RecordOne(flushed) =>
    case Finish(flushed) =>
  }

  lemma LateCreateLedgerOk(s: State, event: nat, id: UploadId)
    requires LedgerOk(s.ledger)
    ensures LedgerOk(ServerCreateLateStep(s, event, id).ledger)
  {
  }

  lemma {:induction false} ChargedAllOk(l: Ledger, ids: seq<UploadId>, why: Cause)
    requires LedgerOk(l)
    ensures var m := ChargedAll(l, ids, why);
            && LedgerOk(m) && l.blame.Keys <= m.blame.Keys && (forall id :: id in ids ==> id in m.blame)
            && m.orphans == l.orphans && m.attempts == l.attempts
            && l.events <= m.events && |m.events| == |l.events| + |ids|
            && (forall k :: |l.events| <= k < |m.events| ==> m.events[k] == why)
  {
    if ids != [] {
      var front, last := ids[..|ids| - 1], ids[|ids| - 1];
      ChargedAllOk(l, front, why);
      ChargedOk(ChargedAll(l, front, why), last, why);
      assert forall id :: id in ids ==> id in front || id == last;
    }
  }

  lemma InterruptedOk(s: State)
    requires LedgerOk(s.ledger)
    ensures LedgerOk(Interrupted(s)) && s.ledger.blame.Keys <= Interrupted(s).blame.Keys
    ensures forall id :: InHand(s.pc, id) ==> id in Interrupted(s).blame
  {
    match s.pc
    case Creating(a, Some(id)) => ChargedOk(s.ledger, id, CrashBeforeBegin);
    case Creating(a, None) => OrphanedOk(s.ledger, CrashBeforeBegin, BirthOf(a));
    case Beginning(a, id) => ChargedOk(s.ledger, id, CrashBeforeBegin);
    case _ =>
  }

  lemma CrashLedgerOk(s: State, reload: Reload)
    requires LedgerOk(s.ledger)
    ensures LedgerOk(CrashStep(s, reload).ledger)
  {
    InterruptedOk(s);
    if reload.Unread? {
      ChargedAllOk(Interrupted(s), reload.lost, JournalUnread);
    }
  }

  lemma CreateLostLedgerOk(s: State)
    requires LedgerOk(s.ledger)
    ensures LedgerOk(CreateLostStep(s).ledger)
  {
    if s.pc.Creating? {
      match s.pc.created
      case Some(id) => ChargedOk(s.ledger, id, CreateReplyLost);
      case None => OrphanedOk(s.ledger, CreateReplyLost, BirthOf(s.pc.a));
    }
  }

  lemma LedgerStaysOk(s: State, step: Step)
    requires LedgerOk(s.ledger)
    ensures LedgerOk(Apply(s, step).ledger)
  {
    match step
    case Journal(change) => JournalLedgerOk(s, change);
    case Remote(effect) => if effect.CreateLate? { LateCreateLedgerOk(s, effect.event, effect.id); }
    case CreateLost => CreateLostLedgerOk(s);
    case Crash(reload) => CrashLedgerOk(s, reload);
    case _ =>
  }

  lemma DropCovered(s: State, flushed: bool)
    requires LeakOk(s) && PcOk(s)
    ensures LiveCovered(DropStep(s, flushed)) && NamesCovered(DropStep(s, flushed))
  {
    if s.pc.Dropping? {
      var t := DropStep(s, flushed);
      forall id | id in t.server.live
        ensures Names(t.journal, id) || id in t.ledger.blame
      {
        if id !in s.ledger.blame && id != s.pc.uploadId {
          var k :| k in s.journal && s.journal[k].uploadId == id;
          assert t.journal[k].uploadId == id;
        }
      }
    }
  }

  lemma BeginCovered(s: State, flushed: bool)
    requires LeakOk(s) && PcOk(s)
    ensures LiveCovered(BeginStep(s, flushed)) && NamesCovered(BeginStep(s, flushed))
  {
    if s.pc.Beginning? {
      var t := BeginStep(s, flushed);
      assert t.journal[s.pc.a.target].uploadId == s.pc.uploadId;
      forall id | id in t.server.live
        ensures Names(t.journal, id) || id in t.ledger.blame
      {
        if id !in s.ledger.blame && id != s.pc.uploadId {
          var k :| k in s.journal && s.journal[k].uploadId == id;
          assert t.journal[k].uploadId == id;
        }
      }
    }
  }

  /** Recording a part renames nothing. */
  lemma RecordCovered(s: State, flushed: bool)
    requires LeakOk(s) && PcOk(s)
    ensures LiveCovered(RecordStep(s, flushed)) && NamesCovered(RecordStep(s, flushed))
  {
    var t := RecordStep(s, flushed);
    assert t.journal.Keys == s.journal.Keys;
    assert forall k :: k in s.journal ==> t.journal[k].uploadId == s.journal[k].uploadId;
    forall id | Names(s.journal, id)
      ensures Names(t.journal, id)
    {
      var k :| k in s.journal && s.journal[k].uploadId == id;
      assert t.journal[k].uploadId == id;
    }
  }

  /** A finished upload is not alive, so its entry may go. */
  lemma FinishCovered(s: State, flushed: bool)
    requires LeakOk(s) && PcOk(s) && ServerOk(s)
    ensures LiveCovered(FinishStep(s, flushed)) && NamesCovered(FinishStep(s, flushed))
  {
    if s.pc.Finishing? {
      var l := s.pc.l;
      assert l.uploadId !in s.server.live && OwnEntry(s, l.a.target, l.uploadId);
      EntryOfDeadGoes(s, FinishStep(s, flushed), l.a.target);
    }
  }

  /** The entry of an upload that is not alive may go. */
  lemma EntryOfDeadGoes(s: State, t: State, k: Key)
    requires LiveCovered(s) && NamesCovered(s) && t.server == s.server && t.ledger == s.ledger && t.pc.Idle?
    requires (forall id :: !InHand(s.pc, id)) && (k in s.journal ==> s.journal[k].uploadId !in s.server.live)
    requires t.journal == s.journal - {k} && (t.disk == s.disk || t.disk == t.journal)
    ensures LiveCovered(t) && NamesCovered(t)
  {
    forall id | id in t.server.live
      ensures Names(t.journal, id) || id in t.ledger.blame
    {
      if id !in s.ledger.blame {
        var j :| j in s.journal && s.journal[j].uploadId == id;
        assert t.journal[j].uploadId == id;
      }
    }
  }

  lemma CleanupCovered(s: State, key: Key, flushed: bool)
    requires LeakOk(s)
    ensures LiveCovered(CleanupStep(s, key, flushed)) && NamesCovered(CleanupStep(s, key, flushed))
  {
    if key in s.journal {
      var t := CleanupStep(s, key, flushed);
      forall id | id in t.server.live
        ensures Names(t.journal, id) || id in t.ledger.blame || InHand(t.pc, id)
      {
        if id !in t.ledger.blame && Names(s.journal, id) {
          var k :| k in s.journal && s.journal[k].uploadId == id;
          assert t.journal[k].uploadId == id;
        }
      }
    }
  }

  lemma ReloadCovered(s: State)
    requires LeakOk(s)
    ensures LiveCovered(CrashStep(s, Read)) && NamesCovered(CrashStep(s, Read))
  {
    var t := CrashStep(s, Read);
    InterruptedOk(s);
    forall id | id in t.server.live
      ensures Names(t.journal, id) || id in t.ledger.blame
    {
      if id !in s.ledger.blame && Names(s.journal, id) {
        var k :| k in s.journal && s.journal[k].uploadId == id;
        assert Names(s.disk, s.journal[k].uploadId);
      }
    }
    assert forall k :: k in t.journal ==> t.disk[k].uploadId == t.journal[k].uploadId;
  }

  /** A journal that is not read names nothing, and what it named is charged. */
  lemma UnreadCovered(s: State, lost: seq<UploadId>)
    requires LeakOk(s) && NamedOnDisk(s, lost)
    ensures LiveCovered(CrashStep(s, Unread(lost))) && NamesCovered(CrashStep(s, Unread(lost)))
  {
    InterruptedOk(s);
    ChargedAllOk(Interrupted(s), lost, JournalUnread);
    forall id | id in s.server.live && id !in s.ledger.blame && !InHand(s.pc, id)
      ensures id in lost
    {
      var k :| k in s.journal && s.journal[k].uploadId == id;
      assert Names(s.disk, s.journal[k].uploadId);
    }
  }

  lemma CrashCovered(s: State, reload: Reload)
    requires LeakOk(s)
    ensures LiveCovered(CrashStep(s, reload)) && NamesCovered(CrashStep(s, reload))
  {
    match reload
    case Read => ReloadCovered(s);
    case Unread(lost) => if NamedOnDisk(s, lost) { UnreadCovered(s, lost); }
  }

  lemma ServerCovered(s: State, effect: ServerStep)
    requires LeakOk(s)
    ensures LiveCovered(ServerChanged(s, effect)) && NamesCovered(ServerChanged(s, effect))
  {
    var t := ServerChanged(s, effect);
    assert forall id :: id in s.ledger.blame ==> id in t.ledger.blame;
    assert forall id :: id in t.server.live ==> id in s.server.live || id in t.ledger.blame || InHand(t.pc, id);
    assert forall id :: InHand(s.pc, id) ==> InHand(t.pc, id);
  }

  lemma MoveKeepsHold(s: State, move: Move)
    ensures forall id :: InHand(s.pc, id) ==> InHand(Moved(s, move).pc, id)
  {
    if s.pc.Creating? || s.pc.Beginning? {
    }
  }

  lemma CreateLostCovered(s: State)
    requires LeakOk(s)
    ensures LiveCovered(CreateLostStep(s)) && NamesCovered(CreateLostStep(s))
  {
  }

  lemma JournalCovered(s: State, change: JournalStep)
    requires LeakOk(s) && PcOk(s) && ServerOk(s)
    ensures LiveCovered(JournalChanged(s, change)) && NamesCovered(JournalChanged(s, change))
  {
    match change
    case Drop(flushed) => DropCovered(s, flushed);
    case BeginJournal(flushed) => BeginCovered(s, flushed);
    case RecordOne(flushed) => RecordCovered(s, flushed);
    case Finish(flushed) => FinishCovered(s, flushed);
    case CleanupRemove(k, flushed) => CleanupCovered(s, k, flushed);
  }

  lemma StepKeepsLeakOk(s: State, step: Step)
    requires LeakOk(s) && PcOk(s) && ServerOk(s)
    ensures LeakOk(Apply(s, step))
  {
    LedgerStaysOk(s, step);
    match step
    case Journal(change) => JournalCovered(s, change);
    case Remote(effect) => ServerCovered(s, effect);
    case Client(move) => MoveCovered(s, move);
    case CreateLost => CreateLostCovered(s);
    case Crash(reload) => CrashCovered(s, reload);
    case _ => OtherCovered(s, step);
  }

  lemma MoveCovered(s: State, move: Move)
    requires LeakOk(s)
    ensures LiveCovered(Moved(s, move)) && NamesCovered(Moved(s, move))
  {
    MoveKeepsHold(s, move);
  }

  lemma OtherCovered(s: State, step: Step)
    requires LeakOk(s) && (step.Start? || step.WriteFile? || step.DeleteFile?)
    ensures LiveCovered(Apply(s, step)) && NamesCovered(Apply(s, step))
  {
    var t := Apply(s, step);
    assert t.server == s.server && t.journal == s.journal && t.disk == s.disk && t.ledger.blame == s.ledger.blame;
    assert forall id :: InHand(s.pc, id) ==> InHand(t.pc, id);
  }

  lemma {:induction false} RunKeepsLeakOk(s: State, steps: seq<Step>)
    requires Initial(s)
    ensures LeakOk(Run(s, steps))
  {
    if steps != [] {
      RunKeepsLeakOk(s, steps[..|steps| - 1]);
      RunKeepsInv(s, steps[..|steps| - 1]);
      StepKeepsLeakOk(Run(s, steps[..|steps| - 1]), steps[|steps| - 1]);
    }
  }

  // ----------------------------------------------------------------- how many

  /** Attempts that may still bring an upload into being. */
  function MayCreate(pc: Pc): nat {
    if pc.Finding? || pc.Aborting? || pc.Listing? || pc.Dropping? || (pc.Creating? && pc.created.None?) then 1 else 0
  }

  ghost predicate UploadsBounded(s: State) {
    |s.births| + |s.ledger.orphans| + MayCreate(s.pc) <= s.ledger.attempts
  }

  lemma MoveCreatesNothing(s: State, move: Move)
    ensures MayCreate(Moved(s, move).pc) <= MayCreate(s.pc)
  {
  }

  lemma JournalCreatesNothing(s: State, change: JournalStep)
    ensures MayCreate(JournalChanged(s, change).pc) <= MayCreate(s.pc)
  {
  }

  lemma CreateLostBounded(s: State)
    requires UploadsBounded(s) && LedgerOk(s.ledger)
    ensures UploadsBounded(CreateLostStep(s))
  {
  }

  lemma CrashBounded(s: State, reload: Reload)
    requires UploadsBounded(s) && LedgerOk(s.ledger)
    ensures UploadsBounded(CrashStep(s, reload))
  {
    if reload.Unread? {
      InterruptedOk(s);
      ChargedAllOk(Interrupted(s), reload.lost, JournalUnread);
    }
  }

  lemma LateCreateBounded(s: State, event: nat, id: UploadId)
    requires UploadsBounded(s)
    ensures UploadsBounded(ServerCreateLateStep(s, event, id))
  {
    if event in s.ledger.orphans {
      assert s.ledger.orphans == (s.ledger.orphans - {event})[event := s.ledger.orphans[event]];
    }
  }

  lemma ServerBounded(s: State, effect: ServerStep)
    requires UploadsBounded(s)
    ensures UploadsBounded(ServerChanged(s, effect))
  {
    if effect.CreateLate? {
      LateCreateBounded(s, effect.event, effect.id);
    }
  }

  lemma StepBounded(s: State, step: Step)
    requires UploadsBounded(s) && LedgerOk(s.ledger)
    ensures UploadsBounded(Apply(s, step))
  {
    match step
    case Client(move) => MoveCreatesNothing(s, move);
    case Journal(change) => JournalCreatesNothing(s, change);
    case Remote(effect) => ServerBounded(s, effect);
    case CreateLost => CreateLostBounded(s);
    case Crash(reload) => CrashBounded(s, reload);
    case _ =>
  }

  lemma {:induction false} RunBounded(s: State, steps: seq<Step>)
    requires Initial(s)
    ensures UploadsBounded(Run(s, steps))
  {
    if steps != [] {
      RunBounded(s, steps[..|steps| - 1]);
      RunKeepsLeakOk(s, steps[..|steps| - 1]);
      StepBounded(Run(s, steps[..|steps| - 1]), steps[|steps| - 1]);
    }
  }

  /** Ids charged to different events below `n` are at most `n`. */
  lemma {:induction false} DistinctEventsBound(blame: map<UploadId, nat>, ids: set<UploadId>, n: nat)
    requires ids <= blame.Keys
    requires forall id :: id in ids ==> blame[id] < n
    requires forall a, b :: a in ids && b in ids && a != b ==> blame[a] != blame[b]
    ensures |ids| <= n
  {
    if n == 0 {
      assert forall id :: id !in ids;
    } else if id :| id in ids && blame[id] == n - 1 {
      DistinctEventsBound(blame, ids - {id}, n - 1);
    } else {
      DistinctEventsBound(blame, ids, n - 1);
    }
  }

  /** Leak accounting. In every reachable state a live upload is named in the journal, in the hands of the attempt
      that just created it, or charged to one event of its own: a Create without a usable reply or followed by a
      crash, a failed ListParts, an abort that left it alive, a lost flush, a clean-up by key, or its share in a restart
      that could not read the journal file. So the unjournalled live uploads never outnumber those events, and there
      are at most as many uploads as attempts. */
  lemma LeakAccounting(s: State, steps: seq<Step>)
    requires Initial(s)
    ensures var t := Run(s, steps);
            var leaked := set id | id in t.server.live && !Names(t.journal, id) && !InHand(t.pc, id);
            && (forall id :: id in leaked ==> id in t.ledger.blame && t.ledger.blame[id] < |t.ledger.events|)
            && (forall a, b :: a in leaked && b in leaked && a != b ==> t.ledger.blame[a] != t.ledger.blame[b])
            && |leaked| <= |t.ledger.events|
            && |t.births| <= t.ledger.attempts
  {
    var t := Run(s, steps);
    RunKeepsLeakOk(s, steps);
    RunBounded(s, steps);
    var leaked := set id | id in t.server.live && !Names(t.journal, id) && !InHand(t.pc, id);
    DistinctEventsBound(t.ledger.blame, leaked, |t.ledger.events|);
  }

  // ------------------------------------------------------------------ what for

  /** What may put an event on record, by the event's name. */
  predicate MayCharge(s: State, step: Step, why: Cause) {
    match why
    case CreateReplyLost => step.CreateLost? && s.pc.Creating?
    case CrashBeforeBegin => step.Crash? && (s.pc.Creating? || s.pc.Beginning?)
    case ListPartsFailed => Drops(s, step, why)
    case AbortIgnored => Drops(s, step, why)
    case FlushLost => step.Journal? && step.change.BeginJournal? && !step.change.flushed
    case Cleanup => step.Journal? && step.change.CleanupRemove? && step.change.key in s.journal
    case JournalUnread => step.Crash? && step.reload.Unread? && NamedOnDisk(s, step.reload.lost)
  }

  /** The entry of an upload that is still alive goes. */
  predicate Drops(s: State, step: Step, why: Cause) {
    step.Journal? && step.change.Drop? && s.pc.Dropping? && s.pc.why == why && s.pc.uploadId in s.server.live
  }

  /** What is new on record fits the step; only a failed reload records more than one event, one for each upload lost. */
  ghost predicate NewEventsFit(s: State, step: Step, t: State) {
    var before, after := s.ledger.events, t.ledger.events;
    && before <= after
    && (forall k :: |before| <= k < |after| ==> MayCharge(s, step, after[k]))
    && |after| <= |before| + 1 + (if step.Crash? && step.reload.Unread? then |step.reload.lost| else 0)
  }

  lemma JournalEventsAreNamed(s: State, change: JournalStep)
    requires PcOk(s)
    ensures NewEventsFit(s, Journal(change), JournalChanged(s, change))
  {
    match change
    case Drop(flushed) =>
    case BeginJournal(flushed) =>
    case CleanupRemove(k, flushed) =>
    case RecordOne(flushed) =>
    case Finish(flushed) =>
  }

  lemma InterruptionIsNamed(s: State, reload: Reload)
    ensures var before, after := s.ledger.events, Interrupted(s).events;
            after == before || (after == before + [CrashBeforeBegin] && MayCharge(s, Crash(reload), CrashBeforeBegin))
  {
  }

  lemma UnreadEventsAreNamed(s: State, lost: seq<UploadId>)
    requires LedgerOk(s.ledger) && NamedOnDisk(s, lost)
    ensures NewEventsFit(s, Crash(Unread(lost)), CrashStep(s, Unread(lost)))
  {
    InterruptedOk(s);
    InterruptionIsNamed(s, Unread(lost));
    ChargedAllOk(Interrupted(s), lost, JournalUnread);
  }

  lemma CrashEventsAreNamed(s: State, reload: Reload)
    requires LedgerOk(s.ledger)
    ensures NewEventsFit(s, Crash(reload), CrashStep(s, reload))
  {
    match reload
    case Read => InterruptionIsNamed(s, reload);
    case Unread(lost) => if NamedOnDisk(s, lost) { UnreadEventsAreNamed(s, lost); }
  }

  lemma EventsAreNamed(s: State, step: Step)
    requires PcOk(s) && LedgerOk(s.ledger)
    ensures NewEventsFit(s, step, Apply(s, step))
  {
    match step
    case Crash(reload) => CrashEventsAreNamed(s, reload);
    case Journal(change) => JournalEventsAreNamed(s, change);
    case _ =>
  }

  /** Some step of the run may have put this event on record. */
  ghost predicate Happened(s: State, steps: seq<Step>, why: Cause) {
    exists j :: 0 <= j < |steps| && MayCharge(Run(s, steps[..j]), steps[j], why)
  }

  lemma StaysHappened(s: State, steps: seq<Step>, why: Cause)
    requires steps != []
    ensures Happened(s, steps[..|steps| - 1], why) ==> Happened(s, steps, why)
    ensures MayCharge(Run(s, steps[..|steps| - 1]), steps[|steps| - 1], why) ==> Happened(s, steps, why)
  {
    var front := steps[..|steps| - 1];
    assert steps[..|front|] == front;
    if Happened(s, front, why) {
      var j :| 0 <= j < |front| && MayCharge(Run(s, front[..j]), front[j], why);
      assert front[..j] == steps[..j] && front[j] == steps[j];
    }
  }

  /** Nothing is on record that did not happen: every event of a run was put there by a step of its kind. */
  lemma {:induction false} EventsHappened(s: State, steps: seq<Step>, k: nat)
    requires Initial(s) && k < |Run(s, steps).ledger.events|
    ensures Happened(s, steps, Run(s, steps).ledger.events[k])
  {
    if steps != [] {
      var front := steps[..|steps| - 1];
      RunKeepsInv(s, front);
      RunKeepsLeakOk(s, front);
      EventsAreNamed(Run(s, front), steps[|steps| - 1]);
      StaysHappened(s, steps, Run(s, steps).ledger.events[k]);
      if k < |Run(s, front).ledger.events| {
        EventsHappened(s, front, k);
      }
    }
  }

  /** The step leaves this upload, made for `b`, alive without an entry, or may do so once the server gets to a Create
      that the client gave up on. */
  predicate Forgets(s: State, step: Step, id: UploadId, b: Birth) {
    match step
    case CreateLost => GivesUpOn(s.pc, id, b)
    case Crash(reload) =>
      GivesUpOn(s.pc, id, b) || (s.pc.Beginning? && s.pc.uploadId == id) || (reload.Unread? && id in reload.lost && NamedOnDisk(s, reload.lost))
    case Journal(change) => (match change
                             case Drop(_) => s.pc.Dropping? && s.pc.uploadId == id && id in s.server.live
                             case BeginJournal(flushed) => s.pc.Beginning? && s.pc.uploadId == id && !flushed
                             case CleanupRemove(k, _) => k in s.journal && s.journal[k].uploadId == id
                             case _ => false)
    case _ => false
  }

  predicate GivesUpOn(pc: Pc, id: UploadId, b: Birth) {
    pc.Creating? && (pc.created == Some(id) || (pc.created.None? && BirthOf(pc.a) == b))
  }

  /** Everyone newly charged is forgotten by the step, or was waiting for the server; so is everyone newly waiting. */
  ghost predicate ForgetsCharged(s: State, step: Step, t: State) {
    && (forall id :: id in t.ledger.blame ==>
          && id in t.births
          && ((id in s.ledger.blame && id in s.births && t.births[id] == s.births[id])
              || Forgets(s, step, id, t.births[id])
              || exists e :: e in s.ledger.orphans && s.ledger.orphans[e] == t.births[id]))
    && (forall e, id: UploadId :: e in t.ledger.orphans ==>
          (e in s.ledger.orphans && s.ledger.orphans[e] == t.ledger.orphans[e])
          || Forgets(s, step, id, t.ledger.orphans[e]))
  }

  /** Only uploads that exist are charged. */
  predicate ChargedExist(s: State) {
    s.ledger.blame.Keys <= s.births.Keys
  }

  lemma JournalForgets(s: State, change: JournalStep)
    requires PcOk(s) && JournalOk(s, s.journal) && ChargedExist(s)
    ensures ForgetsCharged(s, Journal(change), JournalChanged(s, change))
  {
    match change
    case Drop(flushed) =>
    case BeginJournal(flushed) =>
    case CleanupRemove(k, flushed) => assert k in s.journal ==> EntryOk(s, k, s.journal[k]);
    case RecordOne(flushed) =>
    case Finish(flushed) =>
  }

  lemma CreateLostForgets(s: State)
    requires PcOk(s) && ChargedExist(s)
    ensures ForgetsCharged(s, CreateLost, CreateLostStep(s))
  {
  }

  lemma {:induction false} ChargedAllBlames(l: Ledger, ids: seq<UploadId>, why: Cause)
    ensures forall id :: id in ChargedAll(l, ids, why).blame <==> id in l.blame || id in ids
  {
    if ids != [] {
      ChargedAllBlames(l, ids[..|ids| - 1], why);
      assert forall id :: id in ids <==> id in ids[..|ids| - 1] || id == ids[|ids| - 1];
    }
  }

  lemma InterruptionForgets(s: State, reload: Reload)
    requires PcOk(s) && ChargedExist(s)
    ensures ForgetsCharged(s, Crash(reload), s.(ledger := Interrupted(s)))
  {
  }

  lemma UnreadForgets(s: State, lost: seq<UploadId>)
    requires PcOk(s) && JournalOk(s, s.disk) && ChargedExist(s) && NamedOnDisk(s, lost)
    ensures ForgetsCharged(s, Crash(Unread(lost)), CrashStep(s, Unread(lost)))
  {
    InterruptionForgets(s, Unread(lost));
    ChargedAllBlames(Interrupted(s), lost, JournalUnread);
    ChargedAllKeepsOrphans(Interrupted(s), lost, JournalUnread);
    forall id | id in lost
      ensures id in s.births
    {
      var i :| 0 <= i < |lost| && lost[i] == id;
      var k :| k in s.disk && s.disk[k].uploadId == id;
      assert EntryOk(s, k, s.disk[k]);
    }
  }

  lemma CrashForgets(s: State, reload: Reload)
    requires PcOk(s) && JournalOk(s, s.disk) && ChargedExist(s)
    ensures ForgetsCharged(s, Crash(reload), CrashStep(s, reload))
  {
    match reload
    case Read => InterruptionForgets(s, reload);
    case Unread(lost) => if NamedOnDisk(s, lost) { UnreadForgets(s, lost); }
  }

  lemma ServerForgets(s: State, effect: ServerStep)
    requires ChargedExist(s)
    ensures ForgetsCharged(s, Remote(effect), ServerChanged(s, effect))
  {
  }

  lemma StepForgets(s: State, step: Step)
    requires Inv(s) && ChargedExist(s)
    ensures ForgetsCharged(s, step, Apply(s, step))
  {
    match step
    case Journal(change) => JournalForgets(s, change);
    case CreateLost => CreateLostForgets(s);
    case Crash(reload) => CrashForgets(s, reload);
    case Remote(effect) => ServerForgets(s, effect);
    case _ => OtherStepsCharge(s, step);
  }

  lemma OtherStepsCharge(s: State, step: Step)
    requires ChargedExist(s) && (step.Start? || step.Client? || step.WriteFile? || step.DeleteFile?)
    ensures ForgetsCharged(s, step, Apply(s, step))
  {
    var t := Apply(s, step);
    assert t.ledger.blame == s.ledger.blame && t.ledger.orphans == s.ledger.orphans && t.births == s.births;
  }

  /** Some step of the run forgot this upload. */
  ghost predicate Forgotten(s: State, steps: seq<Step>, id: UploadId, b: Birth) {
    exists j :: 0 <= j < |steps| && Forgets(Run(s, steps[..j]), steps[j], id, b)
  }

  ghost predicate AllForgotten(s: State, steps: seq<Step>) {
    var t := Run(s, steps);
    && ChargedExist(t)
    && (forall id :: id in t.ledger.blame ==> Forgotten(s, steps, id, t.births[id]))
    && (forall e, id: UploadId :: e in t.ledger.orphans ==> Forgotten(s, steps, id, t.ledger.orphans[e]))
  }

  lemma StaysForgotten(s: State, steps: seq<Step>, id: UploadId, b: Birth)
    requires steps != []
    ensures Forgotten(s, steps[..|steps| - 1], id, b) ==> Forgotten(s, steps, id, b)
    ensures Forgets(Run(s, steps[..|steps| - 1]), steps[|steps| - 1], id, b) ==> Forgotten(s, steps, id, b)
  {
    var front := steps[..|steps| - 1];
    assert steps[..|front|] == front;
    if Forgotten(s, front, id, b) {
      var j :| 0 <= j < |front| && Forgets(Run(s, front[..j]), front[j], id, b);
      assert front[..j] == steps[..j] && front[j] == steps[j];
    }
  }

  lemma {:induction false} RunForgets(s: State, steps: seq<Step>)
    requires Initial(s)
    ensures AllForgotten(s, steps)
  {
    if steps != [] {
      var front := steps[..|steps| - 1];
      var u, t := Run(s, front), Run(s, steps);
      RunForgets(s, front);
      RunKeepsInv(s, front);
      StepForgets(u, steps[|steps| - 1]);
      forall id | id in t.ledger.blame
        ensures Forgotten(s, steps, id, t.births[id])
      {
        StaysForgotten(s, steps, id, t.births[id]);
      }
      forall e, id: UploadId | e in t.ledger.orphans
        ensures Forgotten(s, steps, id, t.ledger.orphans[e])
      {
        StaysForgotten(s, steps, id, t.ledger.orphans[e]);
      }
    }
  }

  /** Every leak has its cause: a live upload that the journal does not name and no attempt holds was forgotten by a
      step of the run that concerned it. */
  lemma LeakHasCause(s: State, steps: seq<Step>, id: UploadId)
    requires Initial(s)
    ensures var t := Run(s, steps);
            id in t.server.live && !Names(t.journal, id) && !InHand(t.pc, id) ==>
              id in t.births && Forgotten(s, steps, id, t.births[id])
  {
    RunKeepsLeakOk(s, steps);
    RunForgets(s, steps);
  }

  // ------------------------------------------------------------ a restart without

  lemma {:induction false} SomeOrder(ids: set<UploadId>) returns (order: seq<UploadId>)
    ensures forall id :: id in order <==> id in ids
    ensures forall i, j :: 0 <= i < j < |order| ==> order[i] != order[j]
    ensures |order| == |ids|
  {
    if ids == {} {
      order := [];
    } else {
      var id :| id in ids;
      order := SomeOrder(ids - {id});
      order := order + [id];
    }
  }

  lemma LostInOrder(s: State) returns (lost: seq<UploadId>)
    ensures NamedOnDisk(s, lost) && forall id :: id in s.server.live && Names(s.disk, id) ==> id in lost
  {
    var ids := set k | k in s.disk && s.disk[k].uploadId in s.server.live :: s.disk[k].uploadId;
    lost := SomeOrder(ids);
    forall i | 0 <= i < |lost|
      ensures lost[i] in s.server.live && Names(s.disk, lost[i])
    {
      assert lost[i] in ids;
    }
    assert forall k :: k in s.disk && s.disk[k].uploadId in s.server.live ==> s.disk[k].uploadId in ids;
  }

  /** A restart forgets no live upload that its file names if and only if it can read the file; otherwise it forgets
      them all, and each is charged by itself. It can happen in every state. */
  lemma RestartForgetsIff(s: State) returns (lost: seq<UploadId>)
    requires exists id :: id in s.server.live && Names(s.disk, id)
    ensures NamedOnDisk(s, lost) && lost != []
    ensures forall reload: Reload :: reload.Read? || reload == Unread(lost) ==>
              var t := CrashStep(s, reload);
              (forall id :: id in t.server.live && Names(s.disk, id) ==> Names(t.journal, id)) <==> reload.Read?
    ensures var t := CrashStep(s, Unread(lost));
            t.journal == map[] && t.server == s.server && t.pc == Idle
            && |t.ledger.events| == |Interrupted(s).events| + |lost|
  {
    lost := LostInOrder(s);
    var id :| id in s.server.live && Names(s.disk, id);
    ChargedAllLength(Interrupted(s), lost, JournalUnread);
    assert !Names(CrashStep(s, Unread(lost)).journal, id);
  }

  lemma {:induction false} ChargedAllLength(l: Ledger, ids: seq<UploadId>, why: Cause)
    ensures |ChargedAll(l, ids, why).events| == |l.events| + |ids|
  {
    if ids != [] {
      ChargedAllLength(l, ids[..|ids| - 1], why);
    }
  }
}
