/** Where a stamp never comes back no stale upload can do harm: a file state that was left is gone for good. Every write
    must bring a stamp that no file had before, and no two files may share one. */
module FreshStamps {

  import opened PartPlan
  import opened StorageTypes
  import opened UploadJournal
  import opened UploadProtocol
  import opened UploadSafety
  import opened UploadCalls

  /** A write gives the file a stamp that no file has had before. */
  predicate Fresh(s: State, step: Step) {
    step.WriteFile? ==> step.stamp !in s.contents
  }

  predicate FreshRun(s: State, steps: seq<Step>) {
    steps == [] || (FreshRun(s, steps[..|steps| - 1]) && Fresh(Run(s, steps[..|steps| - 1]), steps[|steps| - 1]))
  }

  lemma {:induction false} FreshAppend(s: State, a: seq<Step>, b: seq<Step>)
    requires FreshRun(s, a) && FreshRun(Run(s, a), b)
    ensures FreshRun(s, a + b)
  {
    if b == [] {
      assert a + b == a;
    } else {
      assert (a + b)[..|a + b| - 1] == a + b[..|b| - 1];
      FreshAppend(s, a, b[..|b| - 1]);
      RunAppend(s, a, b[..|b| - 1]);
    }
  }

  lemma OneIsFresh(s: State, step: Step)
    requires Fresh(s, step)
    ensures FreshRun(s, [step])
  {
    assert [step][..0] == [];
    assert Run(s, []) == s;
  }

  lemma {:induction false} NothingWritten(s: State, steps: seq<Step>)
    requires forall step :: step in steps ==> !step.WriteFile?
    ensures FreshRun(s, steps)
  {
    if steps != [] {
      NothingWritten(s, steps[..|steps| - 1]);
    }
  }

  predicate Distinct(s: State) {
    forall p, q :: p in s.files && q in s.files && p != q ==> s.files[p].stamp != s.files[q].stamp
  }

  /** No file has this stamp any more. */
  predicate Retired(s: State, stamp: Stamp) {
    forall p :: p in s.files ==> s.files[p].stamp != stamp
  }

  /** The file still has this stamp, or no file has. */
  predicate Unmoved(s: State, path: Path, stamp: Stamp) {
    Retired(s, stamp) || (path in s.files && s.files[path].stamp == stamp)
  }

  /** The client works with a stamp its file still has, or none; stale uploads and requests were made for stamps that
      are gone. */
  ghost predicate FreshOk(s: State) {
    && Distinct(s)
    && (Work(s.pc).Some? ==> Work(s.pc).value.1 in s.contents && Unmoved(s, Work(s.pc).value.0, Work(s.pc).value.1))
    && (forall id :: id in s.stale ==>
          id in s.births && s.births[id].stamp in s.contents && Retired(s, s.births[id].stamp))
    && ((s.pc.Putting? || s.pc.PutDone?) && !s.pc.asPlanned ==> Retired(s, s.pc.stamp))
  }

  lemma StepKeepsDistinct(s: State, step: Step)
    requires FilesOk(s) && Distinct(s) && Fresh(s, step)
    ensures Distinct(Apply(s, step))
  {
    if step.WriteFile? {
      var t := WriteStep(s, step.file, step.stamp, step.bytes);
      assert forall p :: p in t.files ==> p in s.files || p == step.file;
    }
  }

  lemma StaysUnmoved(s: State, step: Step, path: Path, stamp: Stamp)
    requires FilesOk(s) && Distinct(s) && Fresh(s, step) && stamp in s.contents
    ensures Unmoved(s, path, stamp) ==> Unmoved(Apply(s, step), path, stamp)
    ensures Retired(s, stamp) ==> Retired(Apply(s, step), stamp)
  {
    var t := Apply(s, step);
    assert forall p :: p in t.files ==> (p in s.files && t.files[p] == s.files[p]) || t.files[p].stamp !in s.contents;
  }

  lemma WorkStaysUnmoved(s: State, step: Step)
    requires FilesOk(s) && FreshOk(s) && Fresh(s, step)
    ensures var t := Apply(s, step);
            Work(t.pc).Some? ==>
              Work(t.pc).value.1 in t.contents && Unmoved(t, Work(t.pc).value.0, Work(t.pc).value.1)
  {
    StepKeepsWork(s, step);
    StepExtends(s, step);
    if Work(Apply(s, step).pc).Some? && Work(Apply(s, step).pc) == Work(s.pc) {
      StaysUnmoved(s, step, Work(s.pc).value.0, Work(s.pc).value.1);
    }
  }

  /** What a step makes stale, or hashes other than planned, belongs to a stamp that is gone. */
  ghost predicate OnlyGoneGetStale(s: State, t: State) {
    && (t.stale == s.stale || (s.pc.Looping? && t.stale == s.stale + {s.pc.l.uploadId} && Retired(s, s.pc.l.a.stamp)))
    && ((t.pc.Putting? || t.pc.PutDone?) && !t.pc.asPlanned ==> Work(t.pc) == Work(s.pc) && Retired(s, t.pc.stamp))
  }

  lemma AdvanceMakesStale(s: State)
    requires FreshOk(s)
    ensures OnlyGoneGetStale(s, AdvanceStep(s))
  {
  }

  lemma HashMakesStale(s: State)
    requires FreshOk(s)
    ensures OnlyGoneGetStale(s, HashPutStep(s))
  {
  }

  lemma MoveMakesStale(s: State, move: Move)
    requires FreshOk(s)
    ensures OnlyGoneGetStale(s, Moved(s, move))
  {
    match move
    case HashPut => HashMakesStale(s);
    case Advance => AdvanceMakesStale(s);
    case _ => OtherMovesHashNothing(s, move);
  }

  lemma OnlyGoneStampsGetStale(s: State, step: Step)
    requires FreshOk(s)
    ensures OnlyGoneGetStale(s, Apply(s, step))
  {
    match step
    case Client(move) => MoveMakesStale(s, move);
    case _ => OtherStepsHashNothing(s, step);
  }

  lemma StaleStaysRetired(s: State, step: Step)
    requires Inv(s) && FreshOk(s) && Fresh(s, step)
    ensures var t := Apply(s, step);
            forall id :: id in t.stale ==>
              id in t.births && t.births[id].stamp in t.contents && Retired(t, t.births[id].stamp)
  {
    var t := Apply(s, step);
    OnlyGoneStampsGetStale(s, step);
    StepExtends(s, step);
    forall id | id in t.stale
      ensures id in t.births && t.births[id].stamp in t.contents && Retired(t, t.births[id].stamp)
    {
      StaysUnmoved(s, step, "", s.births[id].stamp);
    }
  }

  lemma StepKeepsFreshOk(s: State, step: Step)
    requires Inv(s) && FreshOk(s) && Fresh(s, step)
    ensures FreshOk(Apply(s, step))
  {
    var t := Apply(s, step);
    StepKeepsDistinct(s, step);
    WorkStaysUnmoved(s, step);
    StaleStaysRetired(s, step);
    OnlyGoneStampsGetStale(s, step);
    if (t.pc.Putting? || t.pc.PutDone?) && !t.pc.asPlanned {
      StaysUnmoved(s, step, t.pc.path, t.pc.stamp);
    }
  }

  lemma {:induction false} RunKeepsFreshOk(s: State, steps: seq<Step>)
    requires Initial(s) && Distinct(s) && FreshRun(s, steps)
    ensures FreshOk(Run(s, steps))
  {
    if steps != [] {
      RunKeepsFreshOk(s, steps[..|steps| - 1]);
      RunKeepsInv(s, steps[..|steps| - 1]);
      StepKeepsFreshOk(Run(s, steps[..|steps| - 1]), steps[|steps| - 1]);
    }
  }

  /** With fresh stamps every upload that succeeds for a file that still has the attempt's stamp stores that file. */
  lemma FreshUploadStoresFile(s: State, steps: seq<Step>)
    requires Initial(s) && Distinct(s) && FreshRun(s, steps)
    ensures var t := Run(s, steps);
            && (t.pc.Finishing? && t.pc.l.a.path in t.files && t.files[t.pc.l.a.path].stamp == t.pc.l.a.stamp ==>
                  t.pc.l.uploadId in t.server.completed
                  && t.server.completed[t.pc.l.uploadId].1 == t.files[t.pc.l.a.path].bytes)
            && (t.pc.PutDone? && t.pc.path in t.files && t.files[t.pc.path].stamp == t.pc.stamp ==>
                  t.pc.put in t.server.landedPuts && t.pc.put.bytes == t.files[t.pc.path].bytes)
  {
    var t := Run(s, steps);
    RunKeepsInv(s, steps);
    RunKeepsFreshOk(s, steps);
    if t.pc.Finishing? {
      UploadStoresFile(s, steps, t.pc.l.a.path);
    } else if t.pc.PutDone? {
      UploadStoresFile(s, steps, t.pc.path);
    }
  }

  ghost predicate StoredWhole(t: State, p: Path, f: LocalFile) {
    && (t.pc.Finishing? && t.pc.l.a.path == p ==>
          t.pc.l.uploadId in t.server.completed && t.server.completed[t.pc.l.uploadId].1 == f.bytes)
    && (t.pc.PutDone? && t.pc.path == p ==> t.pc.put in t.server.landedPuts && t.pc.put.bytes == f.bytes)
  }

  lemma UnmovedIsStored(t: State, p: Path, f: LocalFile)
    requires Inv(t) && FreshOk(t) && Undisturbed(t, p, f)
    ensures StoredWhole(t, p, f)
  {
    UndisturbedIsStored(t, p, f);
  }

  /** A call over a file that nobody touches stores that file. */
  lemma FreshFileIsStored(s: State, before: seq<Step>, steps: seq<Step>, p: Path)
    requires Initial(s) && Distinct(s) && FreshRun(s, before + steps)
    requires Run(s, before).pc.Idle? && p in Run(s, before).files
    requires forall k :: 0 <= k < |steps| ==> !Touches(steps[k], p)
    ensures StoredWhole(Run(s, before + steps), p, Run(s, before).files[p])
  {
    var u := Run(s, before);
    RunAppend(s, before, steps);
    RunStaysUndisturbed(u, steps, p, u.files[p]);
    RunKeepsInv(s, before + steps);
    RunKeepsFreshOk(s, before + steps);
    UnmovedIsStored(Run(s, before + steps), p, u.files[p]);
  }
}
