/** What the client ever asked the server to do at the end of an upload: every Complete names a whole list, none is sent
    for an upload before its loop, and single requests are told apart. */
module SentRequests {

  import opened PartPlan
  import opened StorageTypes
  import opened UploadJournal
  import opened UploadProtocol
  import opened UploadSafety

  /** A whole list of the upload's parts. */
  ghost predicate WholeList(s: State, id: UploadId, parts: seq<Part>) {
    PartsOk(s, id, parts) && |parts| == s.births[id].plan.partCount
  }

  ghost predicate CompletesOk(s: State) {
    && (forall r :: r in s.completeRequests ==> WholeList(s, r.uploadId, r.parts))
    && (forall id :: id in s.server.completed ==> CompleteRequest(id, s.server.completed[id].0) in s.completeRequests)
  }

  predicate PutsOk(s: State) {
    && s.server.landedPuts <= s.putRequests
    && (forall r :: r in s.putRequests ==> r.serial < |s.putRequests|)
  }

  predicate Unsent(s: State, id: UploadId) {
    forall r :: r in s.completeRequests ==> r.uploadId != id
  }

  /** No Complete has been sent for an upload that is only on its way to the loop. */
  predicate NewIsUnsent(s: State) {
    && (s.pc.Creating? && s.pc.created.Some? ==> Unsent(s, s.pc.created.value))
    && (s.pc.Beginning? ==> Unsent(s, s.pc.uploadId))
  }

  ghost predicate SentOk(s: State) {
    CompletesOk(s) && PutsOk(s) && NewIsUnsent(s)
  }

  lemma WholeListKept(s: State, t: State, id: UploadId, parts: seq<Part>)
    requires Extends(s, t) && WholeList(s, id, parts)
    ensures WholeList(t, id, parts)
  {
    forall i | 0 <= i < |parts|
      ensures PartOk(t, id, i + 1, parts[i])
    {
      PartKept(s, t, id, i + 1, parts[i]);
    }
  }

  // --------------------------------------------------------------- who asks for what

  lemma MoveAsksLittle(s: State, move: Move)
    ensures move.Advance? || Moved(s, move).completeRequests == s.completeRequests
    ensures move.HashPut? || Moved(s, move).putRequests == s.putRequests
  {
  }

  lemma JournalAsksNothing(s: State, change: JournalStep)
    ensures JournalChanged(s, change).completeRequests == s.completeRequests
    ensures JournalChanged(s, change).putRequests == s.putRequests
  {
  }

  lemma ServerAsksNothing(s: State, effect: ServerStep)
    ensures ServerChanged(s, effect).completeRequests == s.completeRequests
    ensures ServerChanged(s, effect).putRequests == s.putRequests
  {
  }

  lemma StepAsksLittle(s: State, step: Step)
    ensures step == Client(Advance) || Apply(s, step).completeRequests == s.completeRequests
    ensures step == Client(HashPut) || Apply(s, step).putRequests == s.putRequests
  {
    match step
    case Client(move) => MoveAsksLittle(s, move);
    case Journal(change) => JournalAsksNothing(s, change);
    case Remote(effect) => ServerAsksNothing(s, effect);
    case _ =>
  }

  // ------------------------------------------------------------------ Complete

  lemma CompletesStayOk(s: State, t: State)
    requires CompletesOk(s) && Extends(s, t) && t.completeRequests == s.completeRequests
    requires forall id :: id in t.server.completed ==> CompleteRequest(id, t.server.completed[id].0) in s.completeRequests
    ensures CompletesOk(t)
  {
    forall r | r in t.completeRequests
      ensures WholeList(t, r.uploadId, r.parts)
    {
      WholeListKept(s, t, r.uploadId, r.parts);
    }
  }

  /** Only a landed Complete finishes an upload. */
  lemma ServerFinishesAsked(s: State, effect: ServerStep)
    requires CompletesOk(s)
    ensures var t := ServerChanged(s, effect);
            forall id :: id in t.server.completed ==> CompleteRequest(id, t.server.completed[id].0) in s.completeRequests
  {
  }

  lemma LoopListIsWhole(s: State, l: Loop)
    requires LoopOk(s, l) && l.number == l.a.plan.partCount + 1
    ensures WholeList(s, l.uploadId, l.parts)
  {
  }

  lemma AdvanceAsks(s: State)
    ensures var t := AdvanceStep(s);
            t.completeRequests == s.completeRequests
            || (t.pc.Completing? && t.completeRequests == s.completeRequests + {CompleteRequest(t.pc.l.uploadId, t.pc.l.parts)})
  {
  }

  /** The loop asks for Complete with its whole list. */
  lemma AdvanceCompletesOk(s: State)
    requires Inv(s) && CompletesOk(s)
    ensures CompletesOk(AdvanceStep(s))
  {
    var t := AdvanceStep(s);
    WorldKeptExtends(s, t);
    AdvanceAsks(s);
    if t.pc.Completing? {
      AdvanceOk(s);
      LoopListIsWhole(t, t.pc.l);
    }
    forall r | r in t.completeRequests
      ensures WholeList(t, r.uploadId, r.parts)
    {
      if r in s.completeRequests {
        WholeListKept(s, t, r.uploadId, r.parts);
      }
    }
  }

  lemma StepCompletesOk(s: State, step: Step)
    requires Inv(s) && CompletesOk(s)
    ensures CompletesOk(Apply(s, step))
  {
    if step == Client(Advance) {
      AdvanceCompletesOk(s);
    } else {
      StepAsksLittle(s, step);
      StepExtends(s, step);
      if step.Remote? {
        ServerFinishesAsked(s, step.effect);
      }
      CompletesStayOk(s, Apply(s, step));
    }
  }

  // ------------------------------------------------------------- single requests

  lemma HashPutsOk(s: State)
    requires PutsOk(s)
    ensures PutsOk(HashPutStep(s))
    ensures var t := HashPutStep(s);
            t.pc.Putting? && !s.pc.Putting? ==> t.pc.put !in s.putRequests && t.pc.put !in t.server.landedPuts
  {
    if s.pc.Hashing? && s.pc.path in s.files {
      var put := PutRequest(s.pc.target, s.files[s.pc.path].bytes, |s.putRequests|);
      assert put !in s.putRequests;
      assert |s.putRequests + {put}| == |s.putRequests| + 1;
    }
  }

  lemma ServerPutsOk(s: State, effect: ServerStep)
    requires PutsOk(s)
    ensures PutsOk(ServerChanged(s, effect))
  {
  }

  lemma StepPutsOk(s: State, step: Step)
    requires PutsOk(s)
    ensures PutsOk(Apply(s, step))
  {
    StepAsksLittle(s, step);
    if step == Client(HashPut) {
      HashPutsOk(s);
    } else if step.Remote? {
      ServerPutsOk(s, step.effect);
    } else {
      assert Apply(s, step).server == s.server;
    }
  }

  // ---------------------------------------------------------------- new uploads

  lemma ServerNewIsUnsent(s: State, effect: ServerStep)
    requires CompletesOk(s) && NewIsUnsent(s)
    ensures NewIsUnsent(ServerChanged(s, effect))
  {
    if effect.Create? && effect.id !in s.births {
      assert Unsent(s, effect.id);
    }
  }

  lemma MoveNewIsUnsent(s: State, move: Move)
    requires NewIsUnsent(s)
    ensures NewIsUnsent(Moved(s, move))
  {
  }

  lemma JournalNewIsUnsent(s: State, change: JournalStep)
    requires NewIsUnsent(s)
    ensures NewIsUnsent(JournalChanged(s, change))
  {
  }

  lemma StepNewIsUnsent(s: State, step: Step)
    requires CompletesOk(s) && NewIsUnsent(s)
    ensures NewIsUnsent(Apply(s, step))
  {
    match step
    case Client(move) => MoveNewIsUnsent(s, move);
    case Journal(change) => JournalNewIsUnsent(s, change);
    case Remote(effect) => ServerNewIsUnsent(s, effect);
    case _ =>
  }

  lemma StepKeepsSentOk(s: State, step: Step)
    requires Inv(s) && SentOk(s)
    ensures SentOk(Apply(s, step))
  {
    StepCompletesOk(s, step);
    StepPutsOk(s, step);
    StepNewIsUnsent(s, step);
  }

  lemma {:induction false} RunKeepsSentOk(s: State, steps: seq<Step>)
    requires Initial(s)
    ensures SentOk(Run(s, steps))
  {
    if steps != [] {
      RunKeepsSentOk(s, steps[..|steps| - 1]);
      RunKeepsInv(s, steps[..|steps| - 1]);
      StepKeepsSentOk(Run(s, steps[..|steps| - 1]), steps[|steps| - 1]);
    }
  }

  lemma FinishedIsFile(s: State, id: UploadId)
    requires Inv(s) && SentOk(s) && id in s.server.completed
    ensures && id in s.births && s.births[id].stamp in s.contents
            && |s.server.completed[id].1| == s.births[id].stamp.size
            && (id !in s.stale ==> s.server.completed[id].1 == s.contents[s.births[id].stamp])
  {
    assert WholeList(s, id, CompleteRequest(id, s.server.completed[id].0).parts);
    WholeListIsFile(s, id, s.server.completed[id].0);
  }

  /** Whichever attempt's Complete got there, and whether or not its reply did: every upload ever finished has the size
      of the file it was made for, and is that file if it is not stale. */
  lemma FinishedUploadIsFile(s: State, steps: seq<Step>, id: UploadId)
    requires Initial(s) && id in Run(s, steps).server.completed
    ensures var t := Run(s, steps);
            && id in t.births && t.births[id].stamp in t.contents
            && |t.server.completed[id].1| == t.births[id].stamp.size
            && (id !in t.stale ==> t.server.completed[id].1 == t.contents[t.births[id].stamp])
  {
    RunKeepsInv(s, steps);
    RunKeepsSentOk(s, steps);
    FinishedIsFile(Run(s, steps), id);
  }
}
