/** The uploader in its own form: one call after another, loops over vectors, the journal changed in place. Every
    storage call may be delayed, fail or lose its reply, and anything else may happen meanwhile. Each run of this code
    is a run of the state machine, so what holds of all its runs holds here. A crash only cuts such a run short. */
module MultipartUploader {

  import opened PartPlan
  import opened StorageTypes
  import opened UploadJournal
  import opened UploadProtocol
  import opened UploadSafety
  import opened UploadCalls
  import opened FreshStamps

  /** What the rest of the world does on its own. */
  predicate IsElsewhere(step: Step) {
    step.WriteFile? || step.DeleteFile? || step.Remote?
  }

  /** The client stays where it is, though the Create it waits for may have reached the server. */
  predicate StillAt(before: Pc, after: Pc) {
    after == before
    || (before.Creating? && before.created.None? && after.Creating? && after.a == before.a)
  }

  lemma ElsewhereWaits(s: State, step: Step)
    requires IsElsewhere(step)
    ensures StillAt(s.pc, Apply(s, step).pc) && Apply(s, step).journal == s.journal
  {
  }

  lemma OneMoreStep(start: State, steps: seq<Step>, step: Step)
    ensures Run(start, steps + [step]) == Apply(Run(start, steps), step)
  {
    assert (steps + [step])[..|steps|] == steps;
  }

  lemma RecordChanges(s: State, l: Loop, part: Part, flushed: bool)
    requires s.pc == Recording(l, part)
    ensures var t := Apply(s, Journal(RecordOne(flushed)));
            && t.journal == PerformOnMap(s.journal, Op.RecordPart(l.a.target, part))
            && t.pc == Looping(l.(parts := l.parts + [part], number := l.number + 1, sent := l.sent + {l.number}))
  {
  }

  lemma AdvanceIsMove(s: State)
    ensures Moved(s, Advance) == AdvanceStep(s)
  {
  }

  lemma BeginChanges(s: State, a: Attempt, id: UploadId, flushed: bool)
    requires s.pc == Beginning(a, id)
    ensures var t := Apply(s, Journal(BeginJournal(flushed)));
            t.journal == s.journal[a.target := EntryFor(a, id)] && t.pc == Looping(Loop(a, id, map[], 1, [], {}))
  {
  }

  lemma FinishChanges(s: State, l: Loop, flushed: bool)
    requires s.pc == Finishing(l)
    ensures var t := Apply(s, Journal(Finish(flushed)));
            t.journal == s.journal - {l.a.target} && t == s.(journal := t.journal, disk := t.disk, pc := Idle)
  {
  }

  lemma CleanUpChanges(s: State, key: Key, flushed: bool)
    ensures var t := Apply(s, Journal(CleanupRemove(key, flushed)));
            t.journal == s.journal - {key} && t.pc == s.pc
  {
  }

  /** The whole file was listed and completed; and what was assembled is the file, if no part of the upload was hashed
      from a changed file and it has not changed since. */
  ghost predicate Delivered(w: State, l: Loop) {
    && IsWholeFile(l)
    && l.uploadId in w.births && w.births[l.uploadId] == BirthOf(l.a)
    && l.uploadId in w.server.completed && w.server.completed[l.uploadId].0 == l.parts
    && (l.uploadId !in w.stale && l.a.path in w.files && w.files[l.a.path].stamp == l.a.stamp ==>
          w.server.completed[l.uploadId].1 == w.files[l.a.path].bytes)
  }

  /** Where stamps are never used again it is the file whenever that has not changed since. */
  lemma FreshDelivery(start: State, steps: seq<Step>, l: Loop)
    requires Initial(start) && Distinct(start) && FreshRun(start, steps) && Delivered(Run(start, steps), l)
    ensures var w := Run(start, steps);
            l.a.path in w.files && w.files[l.a.path].stamp == l.a.stamp ==>
              w.server.completed[l.uploadId].1 == w.files[l.a.path].bytes
  {
    RunKeepsFreshOk(start, steps);
  }

  class MultipartUploader {
    var world: State
    const journal: FileUploadJournal
    ghost const start: State
    ghost var steps: seq<Step>
    var resumed: bool
    var resumedBytes: nat

    /** The world is what a run of the machine made of it, and the journal object is the journal in it. */
    ghost predicate Valid()
      reads this, journal
    {
      && Initial(start) && world == Run(start, steps)
      && Unique(journal.entries) && AsMap(journal.entries) == world.journal
    }

    constructor (world: State, journal: FileUploadJournal)
      requires Initial(world) && journal.entries == []
      ensures Valid() && this.world == world && this.journal == journal && steps == []
    {
      this.world, this.journal, this.start, this.steps := world, journal, world, [];
      resumed, resumedBytes := false, 0;
    }

    /** The machine's own view of one step; the caller keeps the journal object in line. */
    method Take(step: Step)
      requires Initial(start) && world == Run(start, steps)
      modifies `world, `steps
      ensures steps == old(steps) + [step] && world == Apply(old(world), step)
      ensures world == Run(start, steps)
    {
      OneMoreStep(start, steps, step);
      world := Apply(world, step);
      steps := steps + [step];
    }

    method Reply(move: Move)
      requires Valid()
      modifies `world, `steps
      ensures Valid() && world == Moved(old(world), move) && steps == old(steps) + [Client(move)]
    {
      Take(Client(move));
    }

    /** The next turn of the client's own code. */
    method Turn()
      requires Valid()
      modifies `world, `steps
      ensures Valid() && world == AdvanceStep(old(world)) && steps == old(steps) + [Client(Advance)]
    {
      AdvanceIsMove(world);
      Reply(Advance);
    }

    method PartReply(etag: Etag)
      requires Valid()
      modifies `world, `steps
      ensures Valid() && world == PartReplyStep(old(world), etag) && steps == old(steps) + [Client(PartReplied(etag))]
    {
      Reply(PartReplied(etag));
    }

    method CompleteReply()
      requires Valid()
      modifies `world, `steps
      ensures Valid() && world == CompleteReplyStep(old(world)) && steps == old(steps) + [Client(CompleteReplied)]
    {
      Reply(CompleteReplied);
    }

    /** The attempt ends; upload and journal stay for the next one. */
    method Fail()
      requires Valid() && (world.pc.Looping? || world.pc.Sending? || world.pc.Completing?)
      modifies `world, `steps
      ensures Valid() && world == old(world).(pc := Idle) && steps == old(steps) + [Client(GiveUp)]
    {
      Reply(GiveUp);
    }

    /** The clean-up command, on the user interface's own thread. */
    method CleanUp(key: Key, flushed: bool)
      requires Valid()
      modifies `world, `steps, journal
      ensures Valid() && world.pc == old(world.pc) && old(steps) <= steps
    {
      if key in world.journal {
        RemovedRefines(journal.entries, key);
        CleanUpChanges(world, key, flushed);
        journal.Remove(key, flushed);
        Take(Journal(CleanupRemove(key, flushed)));
      }
    }

    /** One step of the server or of another program, if it is possible now. */
    method Elsewhere(step: Step)
      requires Valid()
      modifies `world, `steps
      ensures Valid() && StillAt(old(world.pc), world.pc) && old(steps) <= steps
    {
      if IsElsewhere(step) {
        ElsewhereWaits(world, step);
        Take(step);
      }
    }

    /** Any number of steps of the server, of other programs and of the clean-up command. */
    method Others()
      requires Valid()
      modifies `world, `steps, journal
      ensures Valid() && StillAt(old(world.pc), world.pc) && old(steps) <= steps
    {
      var more: nat := *;
      while more > 0
        invariant Valid() && StillAt(old(world.pc), world.pc) && old(steps) <= steps
      {
        var step: Step := *;
        var cleaning: bool := *;
        if cleaning && step.Journal? && step.change.CleanupRemove? {
          CleanUp(step.change.key, step.change.flushed);
        } else {
          Elsewhere(step);
        }
        more := more - 1;
      }
    }

    method LoseCreate()
      requires Valid()
      modifies `world, `steps
      ensures Valid() && world == CreateLostStep(old(world)) && steps == old(steps) + [CreateLost]
    {
      Take(CreateLost);
    }

    /** The reply to Create does not come, or is a refusal. */
    method CreateFails()
      requires Valid() && world.pc.Creating?
      modifies `world, `steps
      ensures Valid() && world.pc == Idle && old(steps) <= steps
    {
      var replied: bool := *;
      if replied && world.pc.created.None? {
        Reply(CreateRefused);
      } else {
        LoseCreate();
      }
    }

    method CreateMultipartUpload(a: Attempt) returns (created: Option<UploadId>)
      requires Valid() && world.pc == Creating(a, None)
      modifies `world, `steps, journal
      ensures Valid() && old(steps) <= steps
      ensures world.pc == match created case Some(id) => Beginning(a, id) case None => Idle
    {
      Others();
      var replied: bool := *;
      created := if replied then world.pc.created else None;
      if created.Some? {
        Reply(CreateReplied);
      } else {
        CreateFails();
      }
    }

    method ListParts(a: Attempt, e: View) returns (remote: Option<set<Part>>)
      requires Valid() && world.pc == Listing(a, e)
      modifies `world, `steps, journal
      ensures Valid() && old(steps) <= steps
      ensures world.pc == match remote
                          case Some(ps) => Looping(Loop(a, e.uploadId, Trusted(a, e, ps), 1, [], {}))
                          case None => Dropping(a, e.uploadId, ListPartsFailed)
    {
      Others();
      var ps: set<Part> := *;
      if e.uploadId in world.server.live
         && forall p :: p in ps ==> (e.uploadId, p.partNumber, p.etag) in world.server.stored {
        remote := Some(ps);
        Reply(ListReplied(ps));
      } else {
        remote := None;
        Reply(ListFailed);
      }
    }

    method RemoveEntry(a: Attempt)
      requires Valid() && (world.pc.Dropping? && world.pc.a == a)
      modifies `world, `steps, journal
      ensures Valid() && world.pc == Creating(a, None) && a.target !in world.journal && old(steps) <= steps
    {
      var flushed: bool := *;
      RemovedRefines(journal.entries, a.target);
      journal.Remove(a.target, flushed);
      Take(Journal(Drop(flushed)));
    }

    /** Looks the target up; the machine goes the way the entry says. */
    method FindEntry(a: Attempt) returns (found: Option<Entry>)
      requires Valid() && world.pc == Finding(a)
      modifies `world, `steps
      ensures Valid() && old(steps) <= steps
      ensures found.None? ==> world.pc == Creating(a, None)
      ensures found.Some? ==>
                && DistinctParts(found.value.parts) && found.value.uploadId != ""
                && world.pc == if found.value.fileSize != a.stamp.size || found.value.fileTime != a.stamp.time
                                  || found.value.partSize != a.plan.partSize
                               then Aborting(a, found.value.uploadId) else Listing(a, ViewOf(found.value))
    {
      RunKeepsInv(start, steps);
      FoundIsMapLookup(journal.entries, a.target);
      found := journal.Find(a.target);
      if found.Some? {
        assert EntryOk(world, a.target, ViewOf(found.value));
      }
      Reply(Look);
    }

    method AbortMultipartUpload(a: Attempt, id: UploadId)
      requires Valid() && world.pc == Aborting(a, id)
      modifies `world, `steps, journal
      ensures Valid() && world.pc == Dropping(a, id, AbortIgnored) && old(steps) <= steps
    {
      Others();
      Reply(AbortReplied);
    }

    /** An upload id to continue and the parts to keep, or the empty id to start fresh. */
    method ResolveResume(a: Attempt) returns (uploadId: UploadId, doneParts: seq<Part>)
      requires Valid() && world.pc == Finding(a)
      modifies `world, `steps, journal
      ensures Valid() && old(steps) <= steps && DistinctParts(doneParts)
      ensures world.pc == if uploadId == "" then Creating(a, None)
                          else Looping(Loop(a, uploadId, PartMap(doneParts), 1, [], {}))
      ensures uploadId == "" ==> doneParts == []
    {
      doneParts := [];
      var found := FindEntry(a);
      if found.None? {
        return "", [];
      }
      var entry := found.value;
      if entry.fileSize != a.stamp.size || entry.fileTime != a.stamp.time || entry.partSize != a.plan.partSize {
        AbortMultipartUpload(a, entry.uploadId);
        RemoveEntry(a);
        return "", [];
      }
      var remote := ListParts(a, ViewOf(entry));
      if remote.None? {
        RemoveEntry(a);
        return "", [];
      }
      doneParts := Agreed(a, entry, remote.value);
      uploadId := entry.uploadId;
    }

    /** Parts of the journal entry that the service lists with the same number, size and etag. */
    method Agreed(a: Attempt, entry: Entry, remote: set<Part>) returns (doneParts: seq<Part>)
      requires DistinctParts(entry.parts)
      ensures DistinctParts(doneParts) && PartMap(doneParts) == Trusted(a, ViewOf(entry), remote)
    {
      doneParts := [];
      for i := 0 to |entry.parts|
        invariant DistinctParts(doneParts)
        invariant forall p :: p in doneParts <==> p in entry.parts[..i] && Keeps(a, remote, p)
      {
        var journalled := entry.parts[i];
        assert entry.parts[..i + 1] == entry.parts[..i] + [journalled];
        assert forall p :: p in entry.parts[..i] ==> p.partNumber != journalled.partNumber;
        if Keeps(a, remote, journalled) {
          doneParts := doneParts + [journalled];
        }
      }
      assert entry.parts[..|entry.parts|] == entry.parts;
      AgreedIsTrusted(a, entry, remote, doneParts);
    }

    method BeginEntry(a: Attempt, id: UploadId)
      requires Valid() && world.pc == Beginning(a, id)
      modifies `world, `steps, journal
      ensures Valid() && world.pc == Looping(Loop(a, id, map[], 1, [], {})) && old(steps) <= steps
    {
      var flushed: bool := *;
      var entry := Entry(a.target, id, a.path, a.stamp.size, a.stamp.time, a.plan.partSize, []);
      assert ViewOf(entry) == EntryFor(a, id);
      PlacedRefines(journal.entries, entry, Begun(journal.entries, entry));
      BeginChanges(world, a, id, flushed);
      journal.Begin(entry, flushed);
      Take(Journal(BeginJournal(flushed)));
    }

    /** Hashes the range and sends it, if the file still has it. */
    method SendRange(l: Loop) returns (sent: bool)
      requires Valid() && world.pc == Looping(l) && l.number <= l.a.plan.partCount && l.number !in l.done
      requires 0 < Length(l.a.plan, l.a.stamp.size, l.number)
      modifies `world, `steps
      ensures Valid() && old(steps) <= steps
      ensures if sent then world.pc.Sending? && world.pc.l == l else world.pc == Idle
    {
      Turn();
      sent := world.pc.Sending?;
    }

    /** The reply, if it comes and carries an etag. */
    method AwaitEtag(l: Loop) returns (part: Option<Part>)
      requires Valid() && world.pc.Sending? && world.pc.l == l
      modifies `world, `steps
      ensures Valid() && old(steps) <= steps
      ensures world.pc == match part case Some(p) => Recording(l, p) case None => Idle
    {
      var etag: Etag := *;
      PartReply(etag);
      if world.pc.Recording? {
        return Some(world.pc.part);
      }
      Fail();
      part := None;
    }

    method UploadPart(l: Loop) returns (part: Option<Part>)
      requires Valid() && world.pc == Looping(l) && l.number <= l.a.plan.partCount && l.number !in l.done
      requires 0 < Length(l.a.plan, l.a.stamp.size, l.number)
      modifies `world, `steps, journal
      ensures Valid() && old(steps) <= steps
      ensures world.pc == match part case Some(p) => Recording(l, p) case None => Idle
    {
      var sent := SendRange(l);
      if !sent {
        return None;
      }
      Others();
      part := AwaitEtag(l);
    }

    method RecordPart(l: Loop, part: Part)
      requires Valid() && world.pc == Recording(l, part)
      modifies `world, `steps, journal
      ensures Valid() && old(steps) <= steps
      ensures world.pc == Looping(l.(parts := l.parts + [part], number := l.number + 1, sent := l.sent + {l.number}))
    {
      var flushed: bool := *;
      RecordedRefines(journal.entries, l.a.target, part);
      RecordChanges(world, l, part, flushed);
      journal.RecordPart(l.a.target, part, flushed);
      Take(Journal(RecordOne(flushed)));
    }

    method CompleteMultipartUpload(l: Loop) returns (ok: bool)
      requires Valid() && world.pc == Looping(l) && l.number == l.a.plan.partCount + 1
      modifies `world, `steps, journal
      ensures Valid() && old(steps) <= steps && world.pc == if ok then Finishing(l) else Idle
    {
      Turn();
      Others();
      CompleteReply();
      ok := world.pc.Finishing?;
      if !ok {
        Fail();
      }
    }

    method Done(l: Loop)
      requires Valid() && world.pc == Finishing(l)
      modifies `world, `steps, journal
      ensures Valid() && world.pc == Idle && l.a.target !in world.journal && old(steps) <= steps
      ensures world.server == old(world.server) && world.files == old(world.files)
      ensures world.births == old(world.births) && world.stale == old(world.stale)
    {
      var flushed: bool := *;
      RemovedRefines(journal.entries, l.a.target);
      FinishChanges(world, l, flushed);
      journal.Remove(l.a.target, flushed);
      Take(Journal(Finish(flushed)));
    }

    /** Position of part `number` among the parts to keep, or their number. */
    method FindDone(doneParts: seq<Part>, number: int) returns (j: nat)
      ensures j == PartIndex(doneParts, number)
    {
      j := 0;
      while j < |doneParts| && doneParts[j].partNumber != number
        invariant j <= |doneParts| && forall i :: 0 <= i < j ==> doneParts[i].partNumber != number
      {
        j := j + 1;
      }
    }

    /** `m_resumed` and `m_resumedBytes`. */
    method CountResumed(doneParts: seq<Part>)
      requires Valid()
      modifies `resumed, `resumedBytes
      ensures Valid() && (resumed <==> doneParts != []) && resumedBytes == SizeSum(doneParts)
    {
      resumed, resumedBytes := false, 0;
      if doneParts != [] {
        resumed := true;
        for i := 0 to |doneParts|
          invariant resumed && resumedBytes == SizeSum(doneParts[..i])
        {
          assert doneParts[..i + 1][..i] == doneParts[..i];
          resumedBytes := resumedBytes + doneParts[i].size;
        }
        assert doneParts[..|doneParts|] == doneParts;
      }
    }

    /** A confirmed part is listed as it is; progress may be the moment of a cancellation. */
    method TakeOver(l: Loop, part: Part) returns (next: Option<Part>)
      requires Valid() && world.pc == Looping(l) && l.number <= l.a.plan.partCount
      requires l.number in l.done && l.done[l.number] == part && 0 < Length(l.a.plan, l.a.stamp.size, l.number)
      modifies `world, `steps
      ensures Valid() && old(steps) <= steps
      ensures if next.None? then world.pc == Idle
              else next.value == part && world.pc == Looping(l.(parts := l.parts + [part], number := l.number + 1))
    {
      Turn();
      var cancelled: bool := *;
      if cancelled {
        Fail();
        return None;
      }
      next := Some(part);
    }

    /** One turn of the part loop; `None` when the upload failed or was cancelled. */
    method OnePart(l: Loop, doneParts: seq<Part>) returns (next: Option<Part>)
      requires Valid() && world.pc == Looping(l) && l.number <= l.a.plan.partCount
      requires DistinctParts(doneParts) && l.done == PartMap(doneParts)
      modifies `world, `steps, journal
      ensures Valid() && old(steps) <= steps
      ensures next.None? ==> world.pc == Idle
      ensures next.Some? ==> world.pc == Looping(l.(parts := l.parts + [next.value], number := l.number + 1,
                                                    sent := if l.number in l.done then l.sent else l.sent + {l.number}))
    {
      RunKeepsInv(start, steps);
      NextPartHasBytes(world, l);
      PartKnown(doneParts, l.number);
      var j := FindDone(doneParts, l.number);
      if j < |doneParts| {
        next := TakeOver(l, doneParts[j]);
        return;
      }
      next := UploadPart(l);
      if next.Some? {
        RecordPart(l, next.value);
      }
    }

    /** The part loop. */
    method SendParts(first: Loop, doneParts: seq<Part>) returns (ok: bool, l: Loop)
      requires Valid() && world.pc == Looping(first) && first.number == 1 && first.parts == []
      requires DistinctParts(doneParts) && first.done == PartMap(doneParts)
      modifies `world, `steps, journal
      ensures Valid() && old(steps) <= steps
      ensures l.a == first.a && l.uploadId == first.uploadId && l.done == first.done
      ensures if ok then world.pc == Looping(l) && l.number == l.a.plan.partCount + 1 else world.pc == Idle
    {
      l := first;
      RunKeepsInv(start, steps);
      while l.number <= l.a.plan.partCount
        invariant Valid() && old(steps) <= steps && world.pc == Looping(l) && l.number <= l.a.plan.partCount + 1
        invariant l.a == first.a && l.uploadId == first.uploadId && l.done == first.done
        decreases l.a.plan.partCount - l.number
      {
        var part := OnePart(l, doneParts);
        if part.None? {
          return false, l;
        }
        l := l.(parts := l.parts + [part.value], number := l.number + 1,
                sent := if l.number in l.done then l.sent else l.sent + {l.number});
      }
      ok := true;
    }

    /** The upload to work on: one to resume, with its parts to keep, or a new one. */
    method Obtain(a: Attempt) returns (uploadId: Option<UploadId>, doneParts: seq<Part>)
      requires Valid() && world.pc == Finding(a)
      modifies this, journal
      ensures Valid() && old(steps) <= steps && DistinctParts(doneParts)
      ensures world.pc == match uploadId
                          case Some(id) => Looping(Loop(a, id, PartMap(doneParts), 1, [], {}))
                          case None => Idle
      ensures (resumed <==> doneParts != []) && resumedBytes == SizeSum(doneParts)
    {
      var id;
      id, doneParts := ResolveResume(a);
      CountResumed(doneParts);
      if id != "" {
        return Some(id), doneParts;
      }
      uploadId := CreateMultipartUpload(a);
      assert PartMap([]) == map[];
      if uploadId.Some? {
        BeginEntry(a, uploadId.value);
      }
    }

    /** Complete and, if it answers, the end of the journal entry. */
    method Deliver(l: Loop, doneParts: seq<Part>) returns (ok: bool)
      requires Valid() && world.pc == Looping(l) && l.number == l.a.plan.partCount + 1
      requires DistinctParts(doneParts) && l.done == PartMap(doneParts)
      modifies `world, `steps, journal
      ensures Valid() && old(steps) <= steps && world.pc == Idle
      ensures ok ==> Delivered(world, l) && l.a.target !in world.journal
      ensures ok ==> SizeSum(doneParts) == ResumedBytes(l.parts, l.done.Keys) && (doneParts != [] <==> l.done != map[])
    {
      ok := CompleteMultipartUpload(l);
      if ok {
        RunKeepsInv(start, steps);
        Succeeded(world, l, doneParts);
        Done(l);
      }
    }

    /** The part loop and Complete, over an upload that is there. */
    method SendAndDeliver(a: Attempt, id: UploadId, doneParts: seq<Part>) returns (ok: bool, l: Loop)
      requires Valid() && world.pc == Looping(Loop(a, id, PartMap(doneParts), 1, [], {})) && DistinctParts(doneParts)
      modifies `world, `steps, journal
      ensures Valid() && old(steps) <= steps && world.pc == Idle && l.a == a
      ensures ok ==> Delivered(world, l) && a.target !in world.journal
      ensures ok ==> SizeSum(doneParts) == ResumedBytes(l.parts, l.done.Keys) && (doneParts != [] <==> l.done != map[])
    {
      ok, l := SendParts(Loop(a, id, PartMap(doneParts), 1, [], {}), doneParts);
      if ok {
        ok := Deliver(l, doneParts);
      }
    }

    /** Create or resume, send what is missing, complete. On success the list sent covers the whole file in order,
        nothing confirmed was sent again, the journal no longer has the target, and if the file still has the stamp
        the attempt was planned for and the upload is not stale, the object assembled is the file. */
    method Upload(a: Attempt) returns (ok: bool, l: Loop)
      requires Valid() && world.pc == Finding(a)
      modifies this, journal
      ensures Valid() && old(steps) <= steps && world.pc == Idle
      ensures ok ==> l.a == a && Delivered(world, l) && a.target !in AsMap(journal.entries)
      ensures ok ==> resumedBytes == ResumedBytes(l.parts, l.done.Keys) && (resumed <==> l.done != map[])
    {
      ok, l := false, Loop(a, "", map[], 1, [], {});
      var uploadId, doneParts := Obtain(a);
      if uploadId.Some? {
        ok, l := SendAndDeliver(a, uploadId.value, doneParts);
      }
    }
  }

  /** What is known once Complete has answered. */
  lemma Succeeded(t: State, l: Loop, doneParts: seq<Part>)
    requires Inv(t) && t.pc == Finishing(l)
    requires DistinctParts(doneParts) && l.done == PartMap(doneParts)
    ensures Delivered(t, l)
    ensures SizeSum(doneParts) == ResumedBytes(l.parts, l.done.Keys) && (doneParts != [] <==> l.done != map[])
  {
    FullLoopIsWholeFile(t, l);
    ResumedIsCounted(l, doneParts);
    if l.a.path in t.files && t.files[l.a.path].stamp == l.a.stamp {
      FinishingStoresFile(t);
    }
  }

  /** The next part of a loop that is not over has bytes. */
  lemma NextPartHasBytes(t: State, l: Loop)
    requires Inv(t) && t.pc == Looping(l) && l.number <= l.a.plan.partCount
    ensures 1 <= l.number && 0 < Length(l.a.plan, l.a.stamp.size, l.number)
  {
    PartsTile(l.a.plan, l.a.stamp.size, l.number);
  }

  // ---------------------------------------------------------------- counting

  lemma {:induction false} OneMoreResumed(parts: seq<Part>, numbers: set<int>, n: int)
    requires forall i :: 0 <= i < |parts| ==> parts[i].partNumber == i + 1
    requires n !in numbers
    ensures ResumedBytes(parts, numbers + {n}) ==
            ResumedBytes(parts, numbers) + if 1 <= n <= |parts| then parts[n - 1].size else 0
  {
    if parts != [] {
      OneMoreResumed(parts[..|parts| - 1], numbers, n);
    }
  }

  lemma {:induction false} NoneResumed(parts: seq<Part>)
    ensures ResumedBytes(parts, {}) == 0
  {
    if parts != [] {
      NoneResumed(parts[..|parts| - 1]);
    }
  }

  function Numbers(ps: seq<Part>): set<int> {
    set p | p in ps :: p.partNumber
  }

  /** Adding up the parts to keep in any order gives the bytes resumed. */
  lemma {:induction false} SumInAnyOrder(parts: seq<Part>, doneParts: seq<Part>)
    requires forall i :: 0 <= i < |parts| ==> parts[i].partNumber == i + 1
    requires DistinctParts(doneParts)
    requires forall p :: p in doneParts ==> 1 <= p.partNumber <= |parts| && parts[p.partNumber - 1] == p
    ensures SizeSum(doneParts) == ResumedBytes(parts, Numbers(doneParts))
  {
    if doneParts == [] {
      NoneResumed(parts);
      assert Numbers(doneParts) == {};
    } else {
      var front, last := doneParts[..|doneParts| - 1], doneParts[|doneParts| - 1];
      assert last in doneParts && forall p :: p in front ==> p in doneParts;
      SumInAnyOrder(parts, front);
      OneMoreResumed(parts, Numbers(front), last.partNumber);
      NumbersOneMore(doneParts);
    }
  }

  lemma NumbersOneMore(ps: seq<Part>)
    requires ps != []
    ensures Numbers(ps) == Numbers(ps[..|ps| - 1]) + {ps[|ps| - 1].partNumber}
  {
    assert ps == ps[..|ps| - 1] + [ps[|ps| - 1]];
  }

  lemma ResumedIsCounted(l: Loop, doneParts: seq<Part>)
    requires IsWholeFile(l) && DistinctParts(doneParts) && l.done == PartMap(doneParts)
    ensures SizeSum(doneParts) == ResumedBytes(l.parts, l.done.Keys)
    ensures doneParts != [] <==> l.done != map[]
  {
    forall p | p in doneParts
      ensures p.partNumber in l.done && l.done[p.partNumber] == p
    {
      PartOfMap(doneParts, p);
    }
    assert l.done.Keys == Numbers(doneParts);
    if doneParts != [] {
      assert doneParts[0].partNumber in l.done;
    }
    SumInAnyOrder(l.parts, doneParts);
  }

  /** The test of the matching loop. */
  predicate Keeps(a: Attempt, remote: set<Part>, p: Part) {
    p.size == Length(a.plan, a.stamp.size, p.partNumber) && p in remote
  }

  lemma PartOfMap(ps: seq<Part>, p: Part)
    requires DistinctParts(ps)
    ensures p in ps <==> p.partNumber in PartMap(ps) && PartMap(ps)[p.partNumber] == p
  {
    PartKnown(ps, p.partNumber);
    if p in ps {
      var i :| 0 <= i < |ps| && ps[i] == p;
      assert PartIndex(ps, p.partNumber) == i;
    }
  }

  lemma NumberedPart(ps: seq<Part>, n: int)
    requires n in PartMap(ps)
    ensures PartMap(ps)[n].partNumber == n && PartMap(ps)[n] in ps
  {
    PartKnown(ps, n);
  }

  lemma AgreedIsTrusted(a: Attempt, entry: Entry, remote: set<Part>, doneParts: seq<Part>)
    requires DistinctParts(entry.parts) && DistinctParts(doneParts)
    requires forall p :: p in doneParts <==> p in entry.parts && Keeps(a, remote, p)
    ensures PartMap(doneParts) == Trusted(a, ViewOf(entry), remote)
  {
    var kept, trusted := PartMap(doneParts), Trusted(a, ViewOf(entry), remote);
    forall n
      ensures n in kept <==> n in trusted
      ensures n in kept ==> kept[n] == trusted[n]
    {
      if n in kept {
        NumberedPart(doneParts, n);
        PartOfMap(entry.parts, kept[n]);
      }
      if n in trusted {
        NumberedPart(entry.parts, n);
        PartOfMap(doneParts, trusted[n]);
      }
    }
  }
}
