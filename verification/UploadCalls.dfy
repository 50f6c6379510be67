/** One upload call over a file that nobody touches meanwhile: what the save rounds rely on. */
module UploadCalls {

  import opened PartPlan
  import opened StorageTypes
  import opened UploadJournal
  import opened UploadProtocol
  import opened UploadSafety

  /** The file the client is working on, and the stamp it found. */
  function Work(pc: Pc): Option<(Path, Stamp)> {
    match pc
    case Idle => None
    case Hashing(_, path, stamp) => Some((path, stamp))
    case Putting(_, path, stamp, _, _) => Some((path, stamp))
    case PutDone(_, path, stamp, _, _) => Some((path, stamp))
    case Finding(a) => Some((a.path, a.stamp))
    case Aborting(a, _) => Some((a.path, a.stamp))
    case Listing(a, _) => Some((a.path, a.stamp))
    case Dropping(a, _, _) => Some((a.path, a.stamp))
    case Creating(a, _) => Some((a.path, a.stamp))
    case Beginning(a, _) => Some((a.path, a.stamp))
    case Looping(l) => Some((l.a.path, l.a.stamp))
    case Sending(l, _) => Some((l.a.path, l.a.stamp))
    case Recording(l, _) => Some((l.a.path, l.a.stamp))
    case Completing(l) => Some((l.a.path, l.a.stamp))
    case Finishing(l) => Some((l.a.path, l.a.stamp))
  }

  predicate Touches(step: Step, p: Path) {
    (step.WriteFile? || step.DeleteFile?) && step.file == p
  }

  /** The client goes on with the same file, or stops. */
  predicate SameWork(s: State, t: State) {
    Work(t.pc) == None || Work(t.pc) == Work(s.pc)
  }

  lemma AdvanceKeepsWork(s: State)
    ensures SameWork(s, AdvanceStep(s))
  {
  }

  lemma ResolveKeepsWork(s: State, move: Move)
    requires move.Look? || move.AbortReplied? || move.ListReplied? || move.ListFailed?
    ensures SameWork(s, Moved(s, move))
  {
  }

  lemma ReplyKeepsWork(s: State, move: Move)
    requires move.CreateReplied? || move.CreateRefused? || move.PartReplied? || move.CompleteReplied? || move.GiveUp?
    ensures SameWork(s, Moved(s, move))
  {
  }

  lemma MoveKeepsWork(s: State, move: Move)
    ensures SameWork(s, Moved(s, move))
  {
    match move
    case HashPut =>
    case PutReplied =>
    case Advance => AdvanceKeepsWork(s);
    case Look => ResolveKeepsWork(s, move);
    case AbortReplied => ResolveKeepsWork(s, move);
    case ListReplied(_) => ResolveKeepsWork(s, move);
    case ListFailed => ResolveKeepsWork(s, move);
    case _ => ReplyKeepsWork(s, move);
  }

  lemma JournalKeepsWork(s: State, change: JournalStep)
    ensures var w := Work(JournalChanged(s, change).pc); w == None || w == Work(s.pc)
  {
  }

  lemma ServerKeepsWork(s: State, effect: ServerStep)
    ensures Work(ServerChanged(s, effect).pc) == Work(s.pc)
  {
  }

  /** Only the start of a call looks at the file's stamp. */
  lemma StepKeepsWork(s: State, step: Step)
    ensures var w := Work(Apply(s, step).pc);
            || w == None || w == Work(s.pc)
            || (step.Start? && step.path in s.files && w == Some((step.path, s.files[step.path].stamp)))
  {
    match step
    case Client(move) => MoveKeepsWork(s, move);
    case Journal(change) => JournalKeepsWork(s, change);
    case Remote(effect) => ServerKeepsWork(s, effect);
    case _ =>
  }

  lemma JournalHashesNothing(s: State, change: JournalStep)
    ensures var t := JournalChanged(s, change);
            t.stale == s.stale && (t.pc.Putting? || t.pc.PutDone? ==> t.pc == s.pc)
  {
  }

  /** Only the client's own moves hash anything. */
  lemma OtherStepsHashNothing(s: State, step: Step)
    requires !step.Client?
    ensures var t := Apply(s, step);
            t.stale == s.stale && (t.pc.Putting? || t.pc.PutDone? ==> t.pc == s.pc)
  {
    match step
    case Journal(change) => JournalHashesNothing(s, change);
    case _ =>
  }

  lemma StepKeepsFile(s: State, step: Step, p: Path)
    requires p in s.files && !Touches(step, p)
    ensures p in Apply(s, step).files && Apply(s, step).files[p] == s.files[p]
  {
  }

  /** Whatever the client does with the file, it does with the stamp the file has. */
  ghost predicate Undisturbed(s: State, p: Path, f: LocalFile) {
    && p in s.files && s.files[p] == f
    && (Work(s.pc).Some? && Work(s.pc).value.0 == p ==> Work(s.pc).value.1 == f.stamp)
    && ((s.pc.Putting? || s.pc.PutDone?) && s.pc.path == p ==> s.pc.asPlanned)
  }

  /** A single request over an untouched file is hashed from what the call found. */
  lemma StepPutsAsPlanned(s: State, step: Step, p: Path, f: LocalFile)
    requires Undisturbed(s, p, f)
    ensures var pc := Apply(s, step).pc; (pc.Putting? || pc.PutDone?) && pc.path == p ==> pc.asPlanned
  {
    match step
    case Client(move) => MovePutsAsPlanned(s, move, p, f);
    case _ =>
  }

  lemma OtherMovesHashNothing(s: State, move: Move)
    requires !move.HashPut? && !move.Advance?
    ensures var t := Moved(s, move);
            && t.stale == s.stale && (t.pc.Putting? ==> t.pc == s.pc)
            && (t.pc.PutDone? ==>
                  t.pc == s.pc
                  || (s.pc.Putting? && t.pc == PutDone(s.pc.target, s.pc.path, s.pc.stamp, s.pc.put, s.pc.asPlanned)))
  {
  }

  lemma MovePutsAsPlanned(s: State, move: Move, p: Path, f: LocalFile)
    requires Undisturbed(s, p, f)
    ensures var pc := Moved(s, move).pc; (pc.Putting? || pc.PutDone?) && pc.path == p ==> pc.asPlanned
  {
    match move
    case HashPut =>
    case Advance =>
    case _ => OtherMovesHashNothing(s, move);
  }

  lemma StepStaysUndisturbed(s: State, step: Step, p: Path, f: LocalFile)
    requires Undisturbed(s, p, f) && !Touches(step, p)
    ensures Undisturbed(Apply(s, step), p, f)
  {
    StepKeepsWork(s, step);
    StepKeepsFile(s, step, p);
    StepPutsAsPlanned(s, step, p, f);
  }

  lemma {:induction false} RunStaysUndisturbed(s: State, steps: seq<Step>, p: Path, f: LocalFile)
    requires Undisturbed(s, p, f) && forall k :: 0 <= k < |steps| ==> !Touches(steps[k], p)
    ensures Undisturbed(Run(s, steps), p, f)
  {
    if steps != [] {
      RunStaysUndisturbed(s, steps[..|steps| - 1], p, f);
      StepStaysUndisturbed(Run(s, steps[..|steps| - 1]), steps[|steps| - 1], p, f);
    }
  }

  /** What a finished call has stored, in terms of the file it found; parts that an earlier call left behind count only
      if their upload is not stale. */
  ghost predicate StoredFile(t: State, p: Path, f: LocalFile) {
    && (t.pc.Finishing? && t.pc.l.a.path == p && t.pc.l.uploadId !in t.stale ==>
          t.pc.l.uploadId in t.server.completed && t.server.completed[t.pc.l.uploadId].1 == f.bytes)
    && (t.pc.PutDone? && t.pc.path == p ==> t.pc.put in t.server.landedPuts && t.pc.put.bytes == f.bytes)
  }

  lemma UndisturbedIsStored(t: State, p: Path, f: LocalFile)
    requires Inv(t) && Undisturbed(t, p, f)
    ensures StoredFile(t, p, f)
  {
    if t.pc.Finishing? && t.pc.l.a.path == p {
      FinishingStoresFile(t);
    }
  }

  /** A call that begins on an idle client and succeeds while nobody writes or deletes its file stores what the file
      held when the call began, through everything else that may happen, unless it went on with an upload that an
      earlier call made stale: this is what an upload of an unchanged file does in the save rounds. */
  lemma UntouchedFileIsStored(s: State, before: seq<Step>, steps: seq<Step>, p: Path)
    requires Initial(s)
    requires Run(s, before).pc.Idle? && p in Run(s, before).files
    requires forall k :: 0 <= k < |steps| ==> !Touches(steps[k], p)
    ensures StoredFile(Run(s, before + steps), p, Run(s, before).files[p])
  {
    var u := Run(s, before);
    RunKeepsInv(s, before + steps);
    RunAppend(s, before, steps);
    RunStaysUndisturbed(u, steps, p, u.files[p]);
    UndisturbedIsStored(Run(u, steps), p, u.files[p]);
  }
}
