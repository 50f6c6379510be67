/** What would keep uploads safe whatever happens to files and stamps: to look, when a part is hashed, whether the file
    still has the stamp the attempt found. With that guard every upload that succeeds stores its file; and wherever wrong
    bytes are sent, the environment can make an upload of them succeed for a file that looks unchanged. */
module UploadGuard {

  import opened PartPlan
  import opened StorageTypes
  import opened UploadJournal
  import opened UploadProtocol
  import opened UploadSafety
  import opened UploadCalls

  predicate HasStamp(s: State, path: Path, stamp: Stamp) {
    path in s.files && s.files[path].stamp == stamp
  }

  /** A file is hashed and sent although it no longer has the stamp the call found. */
  predicate HashesStale(s: State, step: Step) {
    || (step == Client(Advance) && s.pc.Looping? && AdvanceStep(s).pc.Sending?
        && !HasStamp(s, s.pc.l.a.path, s.pc.l.a.stamp))
    || (step == Client(HashPut) && s.pc.Hashing? && s.pc.path in s.files && !HasStamp(s, s.pc.path, s.pc.stamp))
  }

  predicate Guarded(s: State, steps: seq<Step>) {
    steps == []
    || (Guarded(s, steps[..|steps| - 1]) && !HashesStale(Run(s, steps[..|steps| - 1]), steps[|steps| - 1]))
  }

  // ----------------------------------------------------------- the guard suffices

  predicate PutsAsPlanned(pc: Pc) {
    pc.Putting? || pc.PutDone? ==> pc.asPlanned
  }

  lemma GuardedMove(s: State, move: Move)
    requires !HashesStale(s, Client(move)) && PutsAsPlanned(s.pc)
    ensures Moved(s, move).stale == s.stale && PutsAsPlanned(Moved(s, move).pc)
  {
  }

  lemma GuardedStep(s: State, step: Step)
    requires !HashesStale(s, step) && PutsAsPlanned(s.pc)
    ensures Apply(s, step).stale == s.stale && PutsAsPlanned(Apply(s, step).pc)
  {
    match step
    case Client(move) => GuardedMove(s, move);
    case _ => OtherStepsHashNothing(s, step);
  }

  lemma {:induction false} GuardedGetsNothingStale(s: State, steps: seq<Step>)
    requires Guarded(s, steps) && PutsAsPlanned(s.pc)
    ensures Run(s, steps).stale == s.stale && PutsAsPlanned(Run(s, steps).pc)
  {
    if steps != [] {
      GuardedGetsNothingStale(s, steps[..|steps| - 1]);
      GuardedStep(Run(s, steps[..|steps| - 1]), steps[|steps| - 1]);
    }
  }

  /** Over all guarded runs, with edits, copies and restored files in any order: an upload that succeeds stores the file
      its attempt found, and any file that has the attempt's stamp. */
  lemma GuardedUploadStoresFile(s: State, steps: seq<Step>, path: Path)
    requires Initial(s) && Guarded(s, steps)
    ensures var t := Run(s, steps);
            && (t.pc.Finishing? ==>
                  && t.pc.l.a.stamp in t.contents && t.pc.l.uploadId in t.server.completed
                  && t.server.completed[t.pc.l.uploadId].1 == t.contents[t.pc.l.a.stamp]
                  && (HasStamp(t, path, t.pc.l.a.stamp) ==>
                        t.server.completed[t.pc.l.uploadId].1 == t.files[path].bytes))
            && (t.pc.PutDone? ==>
                  && t.pc.stamp in t.contents && t.pc.put in t.server.landedPuts
                  && t.pc.put.bytes == t.contents[t.pc.stamp]
                  && (HasStamp(t, path, t.pc.stamp) ==> t.pc.put.bytes == t.files[path].bytes))
  {
    GuardedGetsNothingStale(s, steps);
    UploadStoresFile(s, steps, path);
  }

  /** The file of the call under way has the stamp the call found. */
  predicate WorkKeepsStamp(s: State) {
    Work(s.pc).Some? ==> HasStamp(s, Work(s.pc).value.0, Work(s.pc).value.1)
  }

  /** In particular a run is guarded if every file keeps its stamp as long as a call works on it. */
  lemma {:induction false} KeptFilesAreGuarded(s: State, steps: seq<Step>)
    requires forall k :: 0 <= k < |steps| ==> WorkKeepsStamp(Run(s, steps[..k]))
    ensures Guarded(s, steps)
  {
    if steps != [] {
      var front := steps[..|steps| - 1];
      assert forall k :: 0 <= k < |front| ==> front[..k] == steps[..k];
      KeptFilesAreGuarded(s, front);
      assert WorkKeepsStamp(Run(s, front));
    }
  }

  // ------------------------------------------------------------ running on

  lemma {:induction false} GuardedAppend(s: State, a: seq<Step>, b: seq<Step>)
    requires Guarded(s, a) && Guarded(Run(s, a), b)
    ensures Guarded(s, a + b)
  {
    if b == [] {
      assert a + b == a;
    } else {
      assert (a + b)[..|a + b| - 1] == a + b[..|b| - 1];
      GuardedAppend(s, a, b[..|b| - 1]);
      RunAppend(s, a, b[..|b| - 1]);
    }
  }

  lemma {:induction false} NothingHashed(s: State, steps: seq<Step>)
    requires forall k :: 0 <= k < |steps| ==> steps[k] != Client(Advance) && steps[k] != Client(HashPut)
    ensures Guarded(s, steps)
  {
    if steps != [] {
      NothingHashed(s, steps[..|steps| - 1]);
    }
  }

  lemma One(s: State, a: Step)
    ensures Run(s, [a]) == Apply(s, a)
    ensures !HashesStale(s, a) ==> Guarded(s, [a])
  {
    assert [a][..0] == [];
  }

  lemma Three(s: State, a: Step, b: Step, c: Step)
    ensures Run(s, [a, b, c]) == Apply(Apply(Apply(s, a), b), c)
  {
    assert [a, b, c][..2] == [a, b] && [a, b][..1] == [a];
    One(s, a);
    assert Run(s, [a, b]) == Apply(Run(s, [a]), b);
  }

  lemma {:induction false} LongerThanAll(xs: set<string>) returns (e: string)
    ensures e != "" && forall x :: x in xs ==> |x| < |e|
  {
    if xs == {} {
      e := "a";
    } else {
      var x :| x in xs;
      e := LongerThanAll(xs - {x});
      if |x| >= |e| {
        e := x + "a";
      }
    }
  }

  lemma UnusedEtag(s: State) returns (e: Etag)
    ensures e != "" && forall k :: k in s.server.stored ==> k.2 != e
  {
    var used := set k | k in s.server.stored :: k.2;
    e := LongerThanAll(used);
    assert forall k :: k in s.server.stored ==> k.2 in used;
  }

  /** The server still holds what is listed and what is to be taken over. */
  predicate Held(s: State, l: Loop) {
    && l.uploadId in s.server.live
    && (forall p :: p in l.parts ==>
          p.partNumber in s.server.live[l.uploadId] && s.server.live[l.uploadId][p.partNumber] == p.etag)
    && (forall n :: n in l.done ==>
          n in s.server.live[l.uploadId] && s.server.live[l.uploadId][n] == l.done[n].etag)
  }

  function Arrival(r: PartRequest, etag: Etag): seq<Step> {
    [Remote(Store(r, etag)), Client(PartReplied(etag)), Journal(RecordOne(true))]
  }

  function WithPart(l: Loop, etag: Etag): Loop {
    var part := Part(l.number, Length(l.a.plan, l.a.stamp.size, l.number), etag);
    l.(parts := l.parts + [part], number := l.number + 1, sent := l.sent + {l.number})
  }

  lemma ListedBefore(s: State, l: Loop)
    requires InLine(s, l)
    ensures forall p :: p in l.parts ==> p.partNumber < l.number
  {
    forall p | p in l.parts
      ensures p.partNumber < l.number
    {
      var i :| 0 <= i < |l.parts| && l.parts[i] == p;
      assert PartOk(s, l.uploadId, i + 1, l.parts[i]);
    }
  }

  /** Nothing but what the server stores moved. */
  predicate OnlyStored(s: State, t: State) {
    t == s.(server := s.server.(live := t.server.live, stored := t.server.stored))
  }

  lemma RequestArrives(s: State, l: Loop, r: PartRequest, etag: Etag)
    requires PcOk(s) && s.pc == Sending(l, r) && Held(s, l) && (l.uploadId, l.number, etag) !in s.server.stored
    ensures var t := ServerStoreStep(s, r, etag);
            && OnlyStored(s, t) && t.server.stored == s.server.stored[(l.uploadId, l.number, etag) := r.bytes]
            && t.server.live == s.server.live[l.uploadId := s.server.live[l.uploadId][l.number := etag]]
  {
  }

  lemma HeldOneMore(s: State, t: State, l: Loop, etag: Etag)
    requires Held(s, l) && (forall p :: p in l.parts ==> p.partNumber < l.number) && l.number !in l.done
    requires l.uploadId in t.server.live
    requires t.server.live[l.uploadId] == s.server.live[l.uploadId][l.number := etag]
    ensures Held(t, WithPart(l, etag))
  {
    var k := WithPart(l, etag);
    assert forall p :: p in k.parts ==> p in l.parts || p == k.parts[|l.parts|];
  }

  lemma ReplyArrives(s: State, l: Loop, r: PartRequest, etag: Etag)
    requires s.pc == Sending(l, r) && etag != "" && (l.uploadId, l.number, etag) in s.server.stored
    requires s.server.stored[(l.uploadId, l.number, etag)] == r.bytes
    ensures PartReplyStep(s, etag) == s.(pc := Recording(l, Part(l.number, Length(l.a.plan, l.a.stamp.size, l.number), etag)))
  {
  }

  lemma PartRecorded(s: State, l: Loop, etag: Etag)
    requires s.pc == Recording(l, Part(l.number, Length(l.a.plan, l.a.stamp.size, l.number), etag))
    ensures var t := RecordStep(s, true);
            t.pc == Looping(WithPart(l, etag)) && t == s.(pc := t.pc, journal := t.journal, disk := t.disk)
  {
  }

  function Arrived(s: State, r: PartRequest, etag: Etag): State {
    RecordStep(PartReplyStep(ServerStoreStep(s, r, etag), etag), true)
  }

  lemma ArrivalRuns(s: State, r: PartRequest, etag: Etag)
    ensures Run(s, Arrival(r, etag)) == Arrived(s, r, etag)
  {
    Three(s, Remote(Store(r, etag)), Client(PartReplied(etag)), Journal(RecordOne(true)));
  }

  /** A request that is on its way may arrive, be answered and be recorded. */
  lemma PartArrives(s: State, l: Loop, r: PartRequest, etag: Etag)
    requires PcOk(s) && s.pc == Sending(l, r) && Held(s, l)
    requires etag != "" && (l.uploadId, l.number, etag) !in s.server.stored
    ensures var t := Arrived(s, r, etag);
            && t.pc == Looping(WithPart(l, etag)) && Held(t, WithPart(l, etag))
            && t.server.stored == s.server.stored[(l.uploadId, l.number, etag) := r.bytes]
            && t == s.(server := t.server, pc := t.pc, journal := t.journal, disk := t.disk)
  {
    var u := ServerStoreStep(s, r, etag);
    RequestArrives(s, l, r, etag);
    ReplyArrives(u, l, r, etag);
    PartRecorded(PartReplyStep(u, etag), l, etag);
    ListedBefore(s, l);
    HeldOneMore(s, Arrived(s, r, etag), l, etag);
  }

  // ---------------------------------------------------- an attempt can succeed

  /** The same attempt goes on with what it has, and no file changes. */
  ghost predicate Continues(s: State, l: Loop, t: State, k: Loop) {
    && Extends(s, t) && t.files == s.files && t.contents == s.contents
    && k.a == l.a && k.uploadId == l.uploadId && l.parts <= k.parts
  }

  ghost predicate Finishes(s: State, l: Loop, steps: seq<Step>) {
    var t := Run(s, steps);
    Guarded(s, steps) && t.pc.Finishing? && Continues(s, l, t, t.pc.l)
  }

  /** The loop is about to continue with the file it was planned for. */
  ghost predicate Ready(s: State, l: Loop) {
    Inv(s) && s.pc == Looping(l) && Held(s, l) && HasStamp(s, l.a.path, l.a.stamp)
  }

  lemma ContinuesOn(s: State, l: Loop, t: State, k: Loop, u: State, m: Loop)
    requires Continues(s, l, t, k) && Continues(t, k, u, m)
    ensures Continues(s, l, u, m)
  {
  }

  lemma GoesToComplete(s: State, l: Loop)
    requires s.pc == Looping(l) && l.number == l.a.plan.partCount + 1
    ensures AdvanceStep(s) == s.(pc := Completing(l),
                                 completeRequests := s.completeRequests + {CompleteRequest(l.uploadId, l.parts)})
  {
  }

  lemma CompleteLands(s: State, l: Loop)
    requires s.pc == Completing(l) && CompleteRequest(l.uploadId, l.parts) in s.completeRequests
    requires Held(s, l) && l.uploadId in s.births
    ensures var t := ServerCompleteStep(s, CompleteRequest(l.uploadId, l.parts));
            && t == s.(server := t.server) && t.server.stored == s.server.stored
            && l.uploadId in t.server.completed && t.server.completed[l.uploadId].0 == l.parts
  {
  }

  lemma DeliveryFinishes(s: State, l: Loop)
    requires s.pc == Looping(l) && l.number == l.a.plan.partCount + 1 && Held(s, l) && l.uploadId in s.births
    ensures var t := CompleteReplyStep(ServerCompleteStep(AdvanceStep(s), CompleteRequest(l.uploadId, l.parts)));
            t.pc == Finishing(l) && Continues(s, l, t, l)
  {
    GoesToComplete(s, l);
    CompleteLands(AdvanceStep(s), l);
  }

  lemma AdvanceGuarded(s: State, l: Loop)
    requires s.pc == Looping(l) && HasStamp(s, l.a.path, l.a.stamp)
    ensures Guarded(s, [Client(Advance)]) && Run(s, [Client(Advance)]) == AdvanceStep(s)
  {
    One(s, Client(Advance));
  }

  lemma DeliveryGuarded(s: State, r: CompleteRequest)
    requires Guarded(s, [Client(Advance)])
    ensures Guarded(s, [Client(Advance), Remote(Complete(r)), Client(CompleteReplied)])
  {
    var u := Run(s, [Client(Advance)]);
    NothingHashed(u, [Remote(Complete(r)), Client(CompleteReplied)]);
    GuardedAppend(s, [Client(Advance)], [Remote(Complete(r)), Client(CompleteReplied)]);
    assert [Client(Advance)] + [Remote(Complete(r)), Client(CompleteReplied)]
        == [Client(Advance), Remote(Complete(r)), Client(CompleteReplied)];
  }

  lemma DeliveryRuns(s: State, r: CompleteRequest)
    ensures Run(s, [Client(Advance), Remote(Complete(r)), Client(CompleteReplied)])
         == CompleteReplyStep(ServerCompleteStep(AdvanceStep(s), r))
  {
    Three(s, Client(Advance), Remote(Complete(r)), Client(CompleteReplied));
  }

  lemma Delivers(s: State, l: Loop) returns (steps: seq<Step>)
    requires s.pc == Looping(l) && l.number == l.a.plan.partCount + 1 && Held(s, l) && l.uploadId in s.births
    requires HasStamp(s, l.a.path, l.a.stamp)
    ensures Finishes(s, l, steps)
  {
    var r := CompleteRequest(l.uploadId, l.parts);
    steps := [Client(Advance), Remote(Complete(r)), Client(CompleteReplied)];
    DeliveryFinishes(s, l);
    DeliveryRuns(s, r);
    AdvanceGuarded(s, l);
    DeliveryGuarded(s, r);
  }

  /** One turn of the loop, as a sequence of steps. */
  ghost predicate Turns(s: State, l: Loop, steps: seq<Step>) {
    var t := Run(s, steps);
    && Guarded(s, steps) && t.pc.Looping? && Continues(s, l, t, t.pc.l)
    && t.pc.l.number == l.number + 1 && Held(t, t.pc.l)
  }

  lemma NextIsTakenOver(s: State, l: Loop)
    requires LoopOk(s, l) && s.pc == Looping(l) && Held(s, l) && l.number in l.done
    ensures var k := l.(parts := l.parts + [l.done[l.number]], number := l.number + 1);
            AdvanceStep(s) == s.(pc := Looping(k)) && Held(s, k)
  {
    assert PartOk(s, l.uploadId, l.number, l.done[l.number]);
    PartsTile(l.a.plan, l.a.stamp.size, l.number);
    var k := l.(parts := l.parts + [l.done[l.number]], number := l.number + 1);
    assert forall p :: p in k.parts ==> p in l.parts || p == l.done[l.number];
  }

  lemma TakesOverNext(s: State, l: Loop)
    requires LoopOk(s, l) && s.pc == Looping(l) && Held(s, l) && l.number in l.done && HasStamp(s, l.a.path, l.a.stamp)
    ensures Turns(s, l, [Client(Advance)])
  {
    NextIsTakenOver(s, l);
    AdvanceGuarded(s, l);
  }

  lemma NextIsSent(s: State, l: Loop)
    requires Ready(s, l) && l.number <= l.a.plan.partCount && l.number !in l.done
    ensures var t := AdvanceStep(s);
            && t.pc.Sending? && t.pc.l == l && PcOk(t) && Held(t, l)
            && t == s.(pc := t.pc, partRequests := t.partRequests)
  {
    PartsTile(l.a.plan, l.a.stamp.size, l.number);
    PartExtendsPrefix(s.files[l.a.path].bytes, l.a.plan, l.number);
    AdvanceOk(s);
  }

  lemma ArrivedContinues(s: State, l: Loop, etag: Etag)
    requires PcOk(s) && s.pc.Sending? && s.pc.l == l && Held(s, l)
    requires etag != "" && forall k :: k in s.server.stored ==> k.2 != etag
    ensures var t := Arrived(s, s.pc.request, etag);
            t.pc == Looping(WithPart(l, etag)) && Held(t, WithPart(l, etag)) && Continues(s, l, t, WithPart(l, etag))
  {
    PartArrives(s, l, s.pc.request, etag);
  }

  lemma ArrivalGuarded(s: State, r: PartRequest, etag: Etag)
    requires Guarded(s, [Client(Advance)]) && Run(s, [Client(Advance)]) == AdvanceStep(s)
    ensures Guarded(s, [Client(Advance)] + Arrival(r, etag))
    ensures Run(s, [Client(Advance)] + Arrival(r, etag)) == Arrived(AdvanceStep(s), r, etag)
  {
    RunAppend(s, [Client(Advance)], Arrival(r, etag));
    ArrivalRuns(AdvanceStep(s), r, etag);
    NothingHashed(AdvanceStep(s), Arrival(r, etag));
    GuardedAppend(s, [Client(Advance)], Arrival(r, etag));
  }

  lemma SentArrives(s: State, l: Loop, u: State, etag: Etag)
    requires s.pc == Looping(l) && HasStamp(s, l.a.path, l.a.stamp) && u == AdvanceStep(s)
    requires u.pc.Sending? && u.pc.l == l && PcOk(u) && Held(u, l) && Continues(s, l, u, l)
    requires etag != "" && forall k :: k in u.server.stored ==> k.2 != etag
    ensures Turns(s, l, [Client(Advance)] + Arrival(u.pc.request, etag))
  {
    AdvanceGuarded(s, l);
    ArrivalGuarded(s, u.pc.request, etag);
    ArrivedContinues(u, l, etag);
    ContinuesOn(s, l, u, l, Arrived(u, u.pc.request, etag), WithPart(l, etag));
  }

  lemma SendsNext(s: State, l: Loop) returns (steps: seq<Step>)
    requires Ready(s, l) && l.number <= l.a.plan.partCount && l.number !in l.done
    ensures Turns(s, l, steps)
  {
    var etag := UnusedEtag(s);
    NextIsSent(s, l);
    var u := AdvanceStep(s);
    SentArrives(s, l, u, etag);
    steps := [Client(Advance)] + Arrival(u.pc.request, etag);
  }

  lemma NextTurn(s: State, l: Loop) returns (steps: seq<Step>)
    requires Ready(s, l) && l.number <= l.a.plan.partCount
    ensures Turns(s, l, steps)
  {
    if l.number in l.done {
      TakesOverNext(s, l);
      steps := [Client(Advance)];
    } else {
      steps := SendsNext(s, l);
    }
  }

  lemma TurnsThenFinishes(s: State, l: Loop, turn: seq<Step>, rest: seq<Step>)
    requires Turns(s, l, turn) && Finishes(Run(s, turn), Run(s, turn).pc.l, rest)
    ensures Finishes(s, l, turn + rest)
  {
    RunAppend(s, turn, rest);
    GuardedAppend(s, turn, rest);
    var u, t := Run(s, turn), Run(s, turn + rest);
    ContinuesOn(s, l, u, u.pc.l, t, t.pc.l);
  }

  /** From the loop, with the planned file in place and the listed parts held, the attempt can go on to success. */
  lemma CanFinish(s: State, l: Loop) returns (steps: seq<Step>)
    requires Ready(s, l)
    ensures Finishes(s, l, steps)
    decreases l.a.plan.partCount + 1 - l.number
  {
    if l.number == l.a.plan.partCount + 1 {
      steps := Delivers(s, l);
    } else {
      var turn := NextTurn(s, l);
      RunStaysOk(s, turn);
      var rest := CanFinish(Run(s, turn), Run(s, turn).pc.l);
      TurnsThenFinishes(s, l, turn, rest);
      steps := turn + rest;
    }
  }

  // -------------------------------------------------- wrong bytes always matter

  lemma {:induction false} AssembledPrefix(stored: map<(UploadId, int, Etag), Bytes>, id: UploadId, parts: seq<Part>, k: nat)
    requires k <= |parts|
    ensures Assembled(stored, id, parts[..k]) <= Assembled(stored, id, parts)
  {
    if k == |parts| {
      assert parts[..k] == parts;
    } else {
      AssembledPrefix(stored, id, parts[..|parts| - 1], k);
      assert parts[..|parts| - 1][..k] == parts[..k];
    }
  }

  lemma SameTail(a: Bytes, b: Bytes, x: Bytes, y: Bytes)
    requires |a| == |b| && a + x == b + y
    ensures x == y
  {
    assert x == (a + x)[|a|..] && y == (b + y)[|b|..];
  }

  /** Only right parts make up the file. */
  lemma WholeFileHasRightParts(s: State, l: Loop, n: nat)
    requires FilesOk(s) && RequestsOk(s) && LoopOk(s, l) && 1 <= n <= |l.parts|
    requires (l.uploadId, n, l.parts[n - 1].etag) in s.server.stored
    requires Assembled(s.server.stored, l.uploadId, l.parts) == s.contents[l.a.stamp]
    ensures Right(s, l.uploadId, n, s.server.stored[(l.uploadId, n, l.parts[n - 1].etag)])
  {
    var stored, id, content := s.server.stored, l.uploadId, s.contents[l.a.stamp];
    var bytes, before := stored[(id, n, l.parts[n - 1].etag)], Assembled(stored, id, l.parts[..n - 1]);
    assert PartOk(s, id, n, l.parts[n - 1]);
    assert l.parts[..n][..n - 1] == l.parts[..n - 1];
    assert Assembled(stored, id, l.parts[..n]) == before + bytes;
    ListedPartsAreFile(s, id, l.parts, n - 1);
    ListedPartsAreFile(s, id, l.parts, n);
    AssembledPrefix(stored, id, l.parts, n);
    PartExtendsPrefix(content, l.a.plan, n);
    var end, start := EndOf(l.a.plan, l.a.stamp.size, n), EndOf(l.a.plan, l.a.stamp.size, n - 1);
    assert before + bytes == content[..end] == content[..start] + PartBytes(content, l.a.plan, n);
    SameTail(before, content[..start], bytes, PartBytes(content, l.a.plan, n));
  }

  /** The attempt has succeeded for a file that has its stamp, and stored something else. */
  ghost predicate Corrupts(s: State, l: Loop, steps: seq<Step>) {
    var t := Run(s, steps);
    && Guarded(s, steps) && t.pc.Finishing? && t.pc.l.a == l.a && t.pc.l.uploadId == l.uploadId
    && HasStamp(t, l.a.path, l.a.stamp) && l.uploadId in t.server.completed
    && t.server.completed[l.uploadId].1 != t.files[l.a.path].bytes
  }

  lemma HashesNothingMore(s: State, steps: seq<Step>, write: Step)
    requires write.WriteFile? && forall k :: 0 <= k < |steps| ==> steps[k] != Client(Advance) && steps[k] != Client(HashPut)
    ensures Run(s, steps + [write]) == Apply(Run(s, steps), write) && Guarded(s, steps + [write])
  {
    assert (steps + [write])[..|steps|] == steps;
    NothingHashed(s, steps + [write]);
  }

  /** The state in which the part has arrived and the planned file is back. */
  function Back(s: State, l: Loop, r: PartRequest, etag: Etag): State
    requires l.a.stamp in s.contents
  {
    WriteStep(Arrived(s, r, etag), l.a.path, l.a.stamp, s.contents[l.a.stamp])
  }

  lemma BackIsReached(s: State, l: Loop, r: PartRequest, etag: Etag) returns (steps: seq<Step>)
    requires l.a.stamp in s.contents
    ensures Run(s, steps) == Back(s, l, r, etag) && Guarded(s, steps)
  {
    var write := WriteFile(l.a.path, l.a.stamp, s.contents[l.a.stamp]);
    ArrivalRuns(s, r, etag);
    HashesNothingMore(s, Arrival(r, etag), write);
    steps := Arrival(r, etag) + [write];
  }

  /** What is known when the planned file is back. */
  ghost predicate BackInPlace(s: State, l: Loop, r: PartRequest, etag: Etag, u: State) {
    && u.pc == Looping(WithPart(l, etag)) && Held(u, WithPart(l, etag)) && HasStamp(u, l.a.path, l.a.stamp)
    && u.server.stored == s.server.stored[(l.uploadId, l.number, etag) := r.bytes]
    && u.contents == s.contents && u.births == s.births
  }

  lemma BackIsInPlace(s: State, l: Loop, r: PartRequest, etag: Etag)
    requires PcOk(s) && FilesOk(s) && s.pc == Sending(l, r) && Held(s, l)
    requires etag != "" && forall k :: k in s.server.stored ==> k.2 != etag
    ensures BackInPlace(s, l, r, etag, Back(s, l, r, etag))
  {
    PartArrives(s, l, r, etag);
    RestoreWrites(Arrived(s, r, etag), l.a.path, l.a.stamp);
  }

  /** The request arrives and the planned file comes back. */
  lemma FileComesBack(s: State, l: Loop, r: PartRequest, etag: Etag) returns (steps: seq<Step>)
    requires Inv(s) && s.pc == Sending(l, r) && Held(s, l)
    requires etag != "" && forall k :: k in s.server.stored ==> k.2 != etag
    ensures Guarded(s, steps)
    ensures Ready(Run(s, steps), WithPart(l, etag)) && BackInPlace(s, l, r, etag, Run(s, steps))
  {
    steps := BackIsReached(s, l, r, etag);
    RunStaysOk(s, steps);
    BackIsInPlace(s, l, r, etag);
  }

  lemma RestoreWrites(s: State, path: Path, stamp: Stamp)
    requires stamp in s.contents && |s.contents[stamp]| == stamp.size < I64
    ensures var t := WriteStep(s, path, stamp, s.contents[stamp]);
            t == s.(files := t.files) && HasStamp(t, path, stamp)
  {
    assert s.contents[stamp := s.contents[stamp]] == s.contents;
  }

  /** The `n`-th listed part is not the range it stands for. */
  ghost predicate ListsWrongPart(s: State, l: Loop, n: nat) {
    && 1 <= n <= |l.parts| && (l.uploadId, n, l.parts[n - 1].etag) in s.server.stored
    && l.uploadId in s.births && s.births[l.uploadId] == BirthOf(l.a) && l.a.stamp in s.contents
    && !Right(s, l.uploadId, n, s.server.stored[(l.uploadId, n, l.parts[n - 1].etag)])
  }

  lemma WrongPartStays(s: State, l: Loop, n: nat, t: State, k: Loop)
    requires ListsWrongPart(s, l, n) && Continues(s, l, t, k)
    ensures ListsWrongPart(t, k, n)
  {
  }

  lemma WrongPartIsStored(s: State, n: nat)
    requires Inv(s) && s.pc.Finishing? && ListsWrongPart(s, s.pc.l, n)
    ensures var l := s.pc.l;
            && l.uploadId in s.server.completed && l.a.stamp in s.contents
            && s.server.completed[l.uploadId].1 != s.contents[l.a.stamp]
  {
    var l := s.pc.l;
    if Assembled(s.server.stored, l.uploadId, l.parts) == s.contents[l.a.stamp] {
      WholeFileHasRightParts(s, l, n);
    }
  }

  lemma FinishesWrong(s: State, k: Loop, steps: seq<Step>, n: nat)
    requires Ready(s, k) && Finishes(s, k, steps) && ListsWrongPart(s, k, n)
    ensures Corrupts(s, k, steps)
  {
    var t := Run(s, steps);
    RunStaysOk(s, steps);
    WrongPartStays(s, k, n, t, t.pc.l);
    WrongPartIsStored(t, n);
  }

  lemma CorruptsLater(s: State, l: Loop, first: seq<Step>, k: Loop, steps: seq<Step>)
    requires Guarded(s, first) && Corrupts(Run(s, first), k, steps) && k.a == l.a && k.uploadId == l.uploadId
    ensures Corrupts(s, l, first + steps)
  {
    RunAppend(s, first, steps);
    GuardedAppend(s, first, steps);
  }

  lemma BackListsWrong(s: State, l: Loop, r: PartRequest, etag: Etag, u: State)
    requires BackInPlace(s, l, r, etag, u) && |l.parts| == l.number - 1 && l.a.stamp in s.contents
    requires l.uploadId in s.births && s.births[l.uploadId] == BirthOf(l.a) && !Right(s, l.uploadId, l.number, r.bytes)
    ensures ListsWrongPart(u, WithPart(l, etag), l.number)
  {
    assert WithPart(l, etag).parts[l.number - 1].etag == etag;
  }

  lemma SendingKnows(s: State, l: Loop, r: PartRequest)
    requires PcOk(s) && s.pc == Sending(l, r)
    ensures |l.parts| == l.number - 1 && l.a.stamp in s.contents
    ensures l.uploadId in s.births && s.births[l.uploadId] == BirthOf(l.a)
  {
  }

  lemma WrongPartComesBack(s: State, l: Loop, r: PartRequest) returns (first: seq<Step>, k: Loop)
    requires Inv(s) && s.pc == Sending(l, r) && Held(s, l) && |l.parts| == l.number - 1 && l.a.stamp in s.contents
    requires l.uploadId in s.births && s.births[l.uploadId] == BirthOf(l.a) && !Right(s, l.uploadId, l.number, r.bytes)
    ensures Guarded(s, first) && Ready(Run(s, first), k) && ListsWrongPart(Run(s, first), k, l.number)
    ensures k.a == l.a && k.uploadId == l.uploadId
  {
    var etag := UnusedEtag(s);
    first := FileComesBack(s, l, r, etag);
    k := WithPart(l, etag);
    BackListsWrong(s, l, r, etag, Run(s, first));
  }

  /** With a wrong part listed and the planned file back, the attempt can go on to the wrong object. */
  lemma WrongPartCorrupts(s: State, l: Loop, first: seq<Step>, k: Loop, n: nat) returns (steps: seq<Step>)
    requires Guarded(s, first) && Ready(Run(s, first), k) && ListsWrongPart(Run(s, first), k, n)
    requires k.a == l.a && k.uploadId == l.uploadId
    ensures Corrupts(s, l, steps)
  {
    var rest := CanFinish(Run(s, first), k);
    FinishesWrong(Run(s, first), k, rest, n);
    CorruptsLater(s, l, first, k, rest);
    steps := first + rest;
  }

  /** Wherever a loop whose listed parts the server holds has sent wrong bytes, there is a way on, itself guarded, on
      which the planned file comes back, the attempt succeeds and the object is not the file. */
  lemma WrongBytesCorrupt(s: State) returns (steps: seq<Step>)
    requires Inv(s) && s.pc.Sending? && Held(s, s.pc.l)
    requires !Right(s, s.pc.l.uploadId, s.pc.l.number, s.pc.request.bytes)
    ensures Corrupts(s, s.pc.l, steps)
  {
    var l, r := s.pc.l, s.pc.request;
    SendingKnows(s, l, r);
    var first, k := WrongPartComesBack(s, l, r);
    steps := WrongPartCorrupts(s, l, first, k, l.number);
  }

  // ------------------------------------------------------ right bytes are enough

  lemma AdvanceStaysRight(s: State, id: UploadId)
    requires Inv(s) && AllRight(s, id) && !HashesStale(s, Client(Advance))
    ensures AllRight(AdvanceStep(s), id)
  {
    var t := AdvanceStep(s);
    if s.pc.Looping? && t.pc.Sending? {
      HashedRange(s, s.pc.l);
    }
  }

  lemma StepStaysRight(s: State, step: Step, id: UploadId)
    requires Inv(s) && AllRight(s, id) && !HashesStale(s, step)
    ensures AllRight(Apply(s, step), id)
  {
    if step == Client(Advance) {
      AdvanceStaysRight(s, id);
    } else {
      StepExtends(s, step);
      StepSendsNothing(s, step);
    }
  }

  lemma {:induction false} RunStaysRight(s: State, steps: seq<Step>, id: UploadId)
    requires Inv(s) && AllRight(s, id) && Guarded(s, steps)
    ensures AllRight(Run(s, steps), id)
  {
    if steps != [] {
      RunStaysRight(s, steps[..|steps| - 1], id);
      RunStaysOk(s, steps[..|steps| - 1]);
      StepStaysRight(Run(s, steps[..|steps| - 1]), steps[|steps| - 1], id);
    }
  }

  /** No guarded run on from here ends with the upload finished for a file that has the stamp but another object. */
  ghost predicate Safe(s: State, l: Loop, steps: seq<Step>) {
    var t := Run(s, steps);
    Guarded(s, steps) && t.pc.Finishing? && t.pc.l.uploadId == l.uploadId && HasStamp(t, l.a.path, l.a.stamp) ==>
      l.uploadId in t.server.completed && t.server.completed[l.uploadId].1 == t.files[l.a.path].bytes
  }

  /** A finished upload whose parts were all right is any file with its stamp. */
  lemma FinishedRightIsSafe(t: State, id: UploadId, path: Path, stamp: Stamp)
    requires Inv(t) && t.pc.Finishing? && t.pc.l.uploadId == id && AllRight(t, id)
    requires t.pc.l.a.stamp == stamp && HasStamp(t, path, stamp)
    ensures id in t.server.completed && t.server.completed[id].1 == t.files[path].bytes
  {
    FinishingStoresFile(t);
  }

  /** Whichever attempt finishes an upload, it was made for the stamp the upload was. */
  lemma LoopStamp(s: State, t: State, id: UploadId)
    requires PcOk(s) && PcOk(t) && Extends(s, t) && InLoop(s.pc) && InLoop(t.pc)
    requires s.pc.l.uploadId == id && t.pc.l.uploadId == id
    ensures t.pc.l.a.stamp == s.pc.l.a.stamp
  {
    assert t.births[id] == s.births[id];
  }

  lemma RightBytesAreSafe(s: State, steps: seq<Step>)
    requires Inv(s) && s.pc.Sending? && AllRight(s, s.pc.l.uploadId)
    ensures Safe(s, s.pc.l, steps)
  {
    var l, t := s.pc.l, Run(s, steps);
    if Guarded(s, steps) && t.pc.Finishing? && t.pc.l.uploadId == l.uploadId && HasStamp(t, l.a.path, l.a.stamp) {
      RunStaysOk(s, steps);
      RunExtends(s, steps);
      RunStaysRight(s, steps, l.uploadId);
      LoopStamp(s, t, l.uploadId);
      FinishedRightIsSafe(t, l.uploadId, l.a.path, l.a.stamp);
    }
  }

  lemma {:induction false} RunExtends(s: State, steps: seq<Step>)
    requires FilesOk(s)
    ensures FilesOk(Run(s, steps)) && Extends(s, Run(s, steps))
  {
    if steps != [] {
      RunExtends(s, steps[..|steps| - 1]);
      StepExtends(Run(s, steps[..|steps| - 1]), steps[|steps| - 1]);
    }
  }

  /** The moment that decides: a part has just been hashed and sent, everything sent for the upload before was right,
      and the server holds what is listed. Then every guarded way on is safe exactly if these bytes are right; to hash
      the file only while it has the attempt's stamp makes them so (`HashedRange`). */
  lemma SafeExactlyIfRight(s: State)
    requires Inv(s) && s.pc.Sending? && Held(s, s.pc.l)
    requires forall q :: q in s.partRequests && q.uploadId == s.pc.l.uploadId && q != s.pc.request
                         ==> Right(s, q.uploadId, q.partNumber, q.bytes)
    ensures Right(s, s.pc.l.uploadId, s.pc.l.number, s.pc.request.bytes)
       <==> forall steps :: Safe(s, s.pc.l, steps)
  {
    if Right(s, s.pc.l.uploadId, s.pc.l.number, s.pc.request.bytes) {
      assert AllRight(s, s.pc.l.uploadId);
      forall steps ensures Safe(s, s.pc.l, steps) {
        RightBytesAreSafe(s, steps);
      }
    } else {
      var steps := WrongBytesCorrupt(s);
      assert !Safe(s, s.pc.l, steps);
    }
  }
}
