/** The journal of interrupted uploads: a vector of entries changed in place and flushed to an XML file. */
module UploadJournal {

  import opened PartPlan
  import opened StorageTypes
  import opened Decimal

  datatype Key = Key(scope: string, bucket: string, key: string)

  datatype Entry = Entry(
    target: Key,
    uploadId: string,
    localPath: string,
    fileSize: u64,
    fileTime: u64,
    partSize: u64,
    parts: seq<Part>)

  // ------------------------------------------- what each operation computes

  /** Position of the first entry for `k`, or the length. */
  function IndexOf(es: seq<Entry>, k: Key): (i: nat)
    ensures i <= |es| && (i < |es| ==> es[i].target == k)
    ensures forall j :: 0 <= j < i ==> es[j].target != k
  {
    if es == [] || es[0].target == k then 0 else 1 + IndexOf(es[1..], k)
  }

  function PartIndex(ps: seq<Part>, n: int): (i: nat)
    ensures i <= |ps| && (i < |ps| ==> ps[i].partNumber == n)
    ensures forall j :: 0 <= j < i ==> ps[j].partNumber != n
  {
    if ps == [] || ps[0].partNumber == n then 0 else 1 + PartIndex(ps[1..], n)
  }

  function Found(es: seq<Entry>, k: Key): Option<Entry> {
    var i := IndexOf(es, k);
    if i < |es| then Some(es[i]) else None
  }

  function Begun(es: seq<Entry>, e: Entry): seq<Entry> {
    var i := IndexOf(es, e.target);
    if i < |es| then es[i := e] else es + [e]
  }

  function WithPart(ps: seq<Part>, p: Part): seq<Part> {
    var i := PartIndex(ps, p.partNumber);
    if i < |ps| then ps[i := p] else ps + [p]
  }

  function Recorded(es: seq<Entry>, k: Key, p: Part): seq<Entry> {
    var i := IndexOf(es, k);
    if i < |es| then es[i := es[i].(parts := WithPart(es[i].parts, p))] else es
  }

  function Removed(es: seq<Entry>, k: Key): (r: seq<Entry>)
    ensures |r| <= |es|
  {
    if es == [] then []
    else
      var last := es[|es| - 1];
      Removed(es[..|es| - 1], k) + if last.target == k then [] else [last]
  }

  // ------------------------------------------------------ the map it stands for

  /** An entry without its place in the vector; parts by number. */
  datatype View = View(
    uploadId: string,
    localPath: string,
    fileSize: u64,
    fileTime: u64,
    partSize: u64,
    parts: map<int, Part>)

  predicate DistinctParts(ps: seq<Part>) {
    forall i, j :: 0 <= i < j < |ps| ==> ps[i].partNumber != ps[j].partNumber
  }

  /** One entry per key and one record per part number. */
  predicate Unique(es: seq<Entry>) {
    && (forall i, j :: 0 <= i < j < |es| ==> es[i].target != es[j].target)
    && (forall i :: 0 <= i < |es| ==> DistinctParts(es[i].parts))
  }

  function PartMap(ps: seq<Part>): map<int, Part> {
    map n | n in (set p | p in ps :: p.partNumber) :: ps[PartIndex(ps, n)]
  }

  function ViewOf(e: Entry): View {
    View(e.uploadId, e.localPath, e.fileSize, e.fileTime, e.partSize, PartMap(e.parts))
  }

  function AsMap(es: seq<Entry>): map<Key, View> {
    map k | k in (set e | e in es :: e.target) :: ViewOf(es[IndexOf(es, k)])
  }

  /** A lookup finds an entry exactly when the map has its key, and then the same data. */
  lemma FoundIsMapLookup(es: seq<Entry>, k: Key)
    ensures Found(es, k).Some? <==> k in AsMap(es)
    ensures k in AsMap(es) ==> ViewOf(Found(es, k).value) == AsMap(es)[k]
  {
    if k in AsMap(es) {
      var e :| e in es && e.target == k;
    }
  }

  lemma PartKnown(ps: seq<Part>, n: int)
    ensures n in PartMap(ps) <==> PartIndex(ps, n) < |ps|
  {
    if n in PartMap(ps) {
      var p :| p in ps && p.partNumber == n;
    }
  }

  /** Where a part is found after a recording. */
  lemma WithPartLookup(ps: seq<Part>, p: Part, n: int)
    requires DistinctParts(ps)
    ensures var r, at, i := WithPart(ps, p), PartIndex(ps, p.partNumber), PartIndex(ps, n);
            && at < |r| && r[at] == p
            && PartIndex(r, n) == (if n == p.partNumber then at else if i < |ps| then i else |r|)
            && (n != p.partNumber && i < |ps| ==> r[i] == ps[i])
  {
    var r, at := WithPart(ps, p), PartIndex(ps, p.partNumber);
    var i, j := PartIndex(ps, n), PartIndex(r, n);
    assert r[at] == p;
    if n != p.partNumber {
      assert i < |ps| ==> r[i] == ps[i];
      assert j < |r| ==> r[j] == ps[j];
    }
  }

  lemma WithPartRefines(ps: seq<Part>, p: Part)
    requires DistinctParts(ps)
    ensures DistinctParts(WithPart(ps, p))
    ensures PartMap(WithPart(ps, p)) == PartMap(ps)[p.partNumber := p]
  {
    var r := WithPart(ps, p);
    var at := PartIndex(ps, p.partNumber);
    assert r[at] == p;
    forall n
      ensures (n in PartMap(r) <==> n in PartMap(ps)[p.partNumber := p])
      ensures n in PartMap(r) ==> PartMap(r)[n] == PartMap(ps)[p.partNumber := p][n]
    {
      PartKnown(ps, n);
      PartKnown(r, n);
      WithPartLookup(ps, p, n);
    }
  }

  lemma EntryKnown(es: seq<Entry>, k: Key)
    ensures k in AsMap(es) <==> IndexOf(es, k) < |es|
  {
    FoundIsMapLookup(es, k);
  }

  lemma BegunUnique(es: seq<Entry>, e: Entry)
    requires Unique(es) && DistinctParts(e.parts)
    ensures Unique(Begun(es, e))
  {
  }

  lemma BegunAt(es: seq<Entry>, e: Entry, k: Key)
    ensures Found(Begun(es, e), k) == if k == e.target then Some(e) else Found(es, k)
  {
    var r, at := Begun(es, e), IndexOf(es, e.target);
    assert r[at] == e && forall j :: 0 <= j < |es| && j != at ==> r[j] == es[j];
    assert IndexOf(r, e.target) == at;
    if k != e.target {
      assert IndexOf(es, k) < |es| ==> IndexOf(r, k) == IndexOf(es, k);
    }
  }

  /** Replacing the entry of a key, or appending one for a new key, updates the map there and nowhere else. */
  lemma PlacedRefines(es: seq<Entry>, e: Entry, r: seq<Entry>)
    requires Unique(es) && DistinctParts(e.parts) && r == Begun(es, e)
    ensures Unique(r) && AsMap(r) == AsMap(es)[e.target := ViewOf(e)]
  {
    BegunUnique(es, e);
    forall k
      ensures k in AsMap(r) <==> k in AsMap(es)[e.target := ViewOf(e)]
      ensures k in AsMap(r) ==> AsMap(r)[k] == AsMap(es)[e.target := ViewOf(e)][k]
    {
      FoundIsMapLookup(es, k);
      FoundIsMapLookup(r, k);
      BegunAt(es, e, k);
    }
  }

  lemma RecordedRefines(es: seq<Entry>, k: Key, p: Part)
    requires Unique(es)
    ensures Unique(Recorded(es, k, p))
    ensures AsMap(Recorded(es, k, p)) ==
            if k !in AsMap(es) then AsMap(es)
            else AsMap(es)[k := AsMap(es)[k].(parts := AsMap(es)[k].parts[p.partNumber := p])]
  {
    EntryKnown(es, k);
    var i := IndexOf(es, k);
    if i < |es| {
      var e := es[i].(parts := WithPart(es[i].parts, p));
      WithPartRefines(es[i].parts, p);
      PlacedRefines(es, e, Recorded(es, k, p));
    }
  }

  lemma {:induction false} RemovedMembers(es: seq<Entry>, k: Key)
    requires Unique(es)
    ensures Unique(Removed(es, k))
    ensures forall e :: e in Removed(es, k) <==> e in es && e.target != k
  {
    if es != [] {
      var front, last := es[..|es| - 1], es[|es| - 1];
      RemovedMembers(front, k);
      assert es == front + [last];
      var r := Removed(front, k);
      assert forall i :: 0 <= i < |r| ==> r[i] in front;
    }
  }

  lemma EntryOfMember(es: seq<Entry>, e: Entry)
    requires Unique(es) && e in es
    ensures es[IndexOf(es, e.target)] == e
  {
    var i :| 0 <= i < |es| && es[i] == e;
    assert IndexOf(es, e.target) == i;
  }

  lemma RemovedAt(es: seq<Entry>, k: Key, q: Key)
    requires Unique(es) && Unique(Removed(es, k))
    requires forall e :: e in Removed(es, k) <==> e in es && e.target != k
    ensures Found(Removed(es, k), q) == if q == k then None else Found(es, q)
  {
    var r := Removed(es, k);
    assert q != k && IndexOf(es, q) < |es| ==> es[IndexOf(es, q)] in r;
    if IndexOf(r, q) < |r| {
      EntryOfMember(es, r[IndexOf(r, q)]);
    }
  }

  lemma RemovedLookup(es: seq<Entry>, k: Key, q: Key)
    requires Unique(es) && Unique(Removed(es, k))
    ensures q in AsMap(Removed(es, k)) <==> q in AsMap(es) && q != k
    ensures q in AsMap(Removed(es, k)) ==> AsMap(Removed(es, k))[q] == AsMap(es)[q]
  {
    FoundIsMapLookup(es, q);
    FoundIsMapLookup(Removed(es, k), q);
    RemovedFound(es, k, q);
  }

  lemma RemovedFound(es: seq<Entry>, k: Key, q: Key)
    requires Unique(es) && Unique(Removed(es, k))
    ensures Found(Removed(es, k), q) == if q == k then None else Found(es, q)
  {
    RemovedMembers(es, k);
    RemovedAt(es, k, q);
  }

  lemma MapWithout(a: map<Key, View>, b: map<Key, View>, k: Key)
    requires forall q :: q in a <==> q in b && q != k
    requires forall q :: q in a ==> a[q] == b[q]
    ensures a == b - {k}
  {
  }

  lemma RemovedIsUnique(es: seq<Entry>, k: Key)
    requires Unique(es)
    ensures Unique(Removed(es, k))
  {
    RemovedMembers(es, k);
  }

  lemma RemovedRefines(es: seq<Entry>, k: Key)
    requires Unique(es)
    ensures Unique(Removed(es, k))
    ensures AsMap(Removed(es, k)) == AsMap(es) - {k}
  {
    RemovedIsUnique(es, k);
    forall q
      ensures q in AsMap(Removed(es, k)) <==> q in AsMap(es) && q != k
      ensures q in AsMap(Removed(es, k)) ==> AsMap(Removed(es, k))[q] == AsMap(es)[q]
    {
      RemovedLookup(es, k, q);
    }
    MapWithout(AsMap(Removed(es, k)), AsMap(es), k);
  }

  // ----------------------------------------------------- sequences of operations

  datatype Op = Begin(entry: Entry) | RecordPart(target: Key, part: Part) | Remove(key: Key)

  function Perform(es: seq<Entry>, op: Op): seq<Entry> {
    match op
    case Begin(e) => Begun(es, e)
    case RecordPart(k, p) => Recorded(es, k, p)
    case Remove(k) => Removed(es, k)
  }

  /** The same operation on the map. */
  function PerformOnMap(m: map<Key, View>, op: Op): map<Key, View> {
    match op
    case Begin(e) => m[e.target := ViewOf(e)]
    case RecordPart(k, p) => if k in m then m[k := m[k].(parts := m[k].parts[p.partNumber := p])] else m
    case Remove(k) => m - {k}
  }

  function History(es: seq<Entry>, ops: seq<Op>): seq<Entry> {
    if ops == [] then es else Perform(History(es, ops[..|ops| - 1]), ops[|ops| - 1])
  }

  function MapHistory(m: map<Key, View>, ops: seq<Op>): map<Key, View> {
    if ops == [] then m else PerformOnMap(MapHistory(m, ops[..|ops| - 1]), ops[|ops| - 1])
  }

  /** After any sequence of operations the vector has one entry per key, one record per part, and is the map. */
  lemma {:induction false} JournalIsMap(es: seq<Entry>, ops: seq<Op>)
    requires Unique(es)
    requires forall op :: op in ops && op.Begin? ==> DistinctParts(op.entry.parts)
    ensures Unique(History(es, ops))
    ensures AsMap(History(es, ops)) == MapHistory(AsMap(es), ops)
  {
    if ops != [] {
      var before := History(es, ops[..|ops| - 1]);
      JournalIsMap(es, ops[..|ops| - 1]);
      match ops[|ops| - 1]
      case Begin(e) => PlacedRefines(before, e, Begun(before, e));
      case RecordPart(k, p) => RecordedRefines(before, k, p);
      case Remove(k) => RemovedRefines(before, k);
    }
  }

  // ------------------------------------------------------------ the XML record

  /** An element with its attributes in order; text and escaping belong to the XML library. */
  datatype Xml = Element(name: string, attributes: seq<(string, string)>, children: seq<Xml>)

  function PartXml(p: Part): Xml {
    Element("Part", [("n", IntToString(p.partNumber)), ("size", ToString(p.size)), ("etag", p.etag)], [])
  }

  function EntryXml(e: Entry): Xml {
    Element("Upload",
            [("scope", e.target.scope), ("bucket", e.target.bucket), ("key", e.target.key),
             ("uploadId", e.uploadId), ("localPath", e.localPath), ("fileSize", ToString(e.fileSize)),
             ("fileTime", ToString(e.fileTime)), ("partSize", ToString(e.partSize))],
            PartsXml(e.parts))
  }

  function PartsXml(ps: seq<Part>): seq<Xml> {
    if ps == [] then [] else PartsXml(ps[..|ps| - 1]) + [PartXml(ps[|ps| - 1])]
  }

  function EntriesXml(es: seq<Entry>): seq<Xml> {
    if es == [] then [] else EntriesXml(es[..|es| - 1]) + [EntryXml(es[|es| - 1])]
  }

  function Serialized(es: seq<Entry>): Xml {
    Element("NppS3Uploads", [], EntriesXml(es))
  }

  function Attribute(x: Xml, name: string): Option<string> {
    AttributeIn(x.attributes, name)
  }

  function AttributeIn(attributes: seq<(string, string)>, name: string): Option<string> {
    if attributes == [] then None
    else if attributes[0].0 == name then Some(attributes[0].1)
    else AttributeIn(attributes[1..], name)
  }

  function TextOr(x: Xml, name: string): string {
    match Attribute(x, name) case Some(v) => v case None => ""
  }

  /** A missing number is left at its default, zero. */
  function NumberOr(x: Xml, name: string): u64 {
    match Attribute(x, name) case Some(v) => ReadU64(v) case None => 0
  }

  function ReadPart(x: Xml): Part {
    Part(match Attribute(x, "n") case Some(v) => ReadInt(v) case None => 0, NumberOr(x, "size"), TextOr(x, "etag"))
  }

  /** Parts of an `Upload` element; those without a positive number are skipped. */
  function ReadParts(xs: seq<Xml>): seq<Part> {
    if xs == [] then []
    else
      ReadParts(xs[..|xs| - 1]) + KeptPart(xs[|xs| - 1])
  }

  function KeptPart(x: Xml): seq<Part> {
    if x.name == "Part" && ReadPart(x).partNumber > 0 then [ReadPart(x)] else []
  }

  function ReadEntry(x: Xml): Entry {
    Entry(Key(TextOr(x, "scope"), TextOr(x, "bucket"), TextOr(x, "key")), TextOr(x, "uploadId"), TextOr(x, "localPath"),
          NumberOr(x, "fileSize"), NumberOr(x, "fileTime"), NumberOr(x, "partSize"), ReadParts(x.children))
  }

  predicate Named(e: Entry) {
    e.target.bucket != "" && e.target.key != "" && e.uploadId != ""
  }

  /** `Upload` elements; those lacking a bucket, a key or an upload id are skipped. */
  function ReadEntries(xs: seq<Xml>): seq<Entry> {
    if xs == [] then []
    else
      ReadEntries(xs[..|xs| - 1]) + KeptEntry(xs[|xs| - 1])
  }

  function KeptEntry(x: Xml): seq<Entry> {
    if x.name == "Upload" && Named(ReadEntry(x)) then [ReadEntry(x)] else []
  }

  predicate Reloadable(es: seq<Entry>) {
    forall e :: e in es ==> Named(e) && forall p :: p in e.parts ==> p.partNumber > 0
  }

  lemma {:induction false} AttributeAt(attributes: seq<(string, string)>, i: nat)
    requires i < |attributes| && forall j :: 0 <= j < i ==> attributes[j].0 != attributes[i].0
    ensures AttributeIn(attributes, attributes[i].0) == Some(attributes[i].1)
  {
    if i > 0 {
      AttributeAt(attributes[1..], i - 1);
    }
  }

  lemma PartReadBack(p: Part)
    ensures ReadPart(PartXml(p)) == p
  {
    ReadBack(p.partNumber);
    ReadBack(p.size);
    var a := PartXml(p).attributes;
    AttributeAt(a, 0);
    AttributeAt(a, 1);
    AttributeAt(a, 2);
  }

  lemma KeptPartReadBack(p: Part)
    requires p.partNumber > 0
    ensures KeptPart(PartXml(p)) == [p]
  {
    PartReadBack(p);
  }

  lemma OneMorePart(xs: seq<Xml>, x: Xml)
    ensures ReadParts(xs + [x]) == ReadParts(xs) + KeptPart(x)
  {
    assert (xs + [x])[..|xs|] == xs;
  }

  lemma {:induction false} PartsReadBack(ps: seq<Part>)
    requires forall p :: p in ps ==> p.partNumber > 0
    ensures ReadParts(PartsXml(ps)) == ps
  {
    if ps != [] {
      var front, last := ps[..|ps| - 1], ps[|ps| - 1];
      assert ps == front + [last];
      PartsReadBack(front);
      KeptPartReadBack(last);
      OneMorePart(PartsXml(front), PartXml(last));
    }
  }

  lemma EntryTextReadBack(e: Entry)
    ensures var x := EntryXml(e);
            && TextOr(x, "scope") == e.target.scope && TextOr(x, "bucket") == e.target.bucket
            && TextOr(x, "key") == e.target.key && TextOr(x, "uploadId") == e.uploadId
            && TextOr(x, "localPath") == e.localPath
  {
    var a := EntryXml(e).attributes;
    AttributeAt(a, 0);
    AttributeAt(a, 1);
    AttributeAt(a, 2);
    AttributeAt(a, 3);
    AttributeAt(a, 4);
  }

  lemma EntryNumbersReadBack(e: Entry)
    ensures var x := EntryXml(e);
            && NumberOr(x, "fileSize") == e.fileSize && NumberOr(x, "fileTime") == e.fileTime
            && NumberOr(x, "partSize") == e.partSize
  {
    var a := EntryXml(e).attributes;
    AttributeAt(a, 5);
    AttributeAt(a, 6);
    AttributeAt(a, 7);
    ReadBack(e.fileSize);
    ReadBack(e.fileTime);
    ReadBack(e.partSize);
  }

  lemma EntryReadBack(e: Entry)
    requires forall p :: p in e.parts ==> p.partNumber > 0
    ensures ReadEntry(EntryXml(e)) == e
  {
    EntryTextReadBack(e);
    EntryNumbersReadBack(e);
    PartsReadBack(e.parts);
  }

  lemma KeptReadBack(e: Entry)
    requires Named(e) && forall p :: p in e.parts ==> p.partNumber > 0
    ensures KeptEntry(EntryXml(e)) == [e]
  {
    EntryReadBack(e);
  }

  lemma OneMoreEntry(xs: seq<Xml>, x: Xml)
    ensures ReadEntries(xs + [x]) == ReadEntries(xs) + KeptEntry(x)
  {
    assert (xs + [x])[..|xs|] == xs;
  }

  lemma {:induction false} EntriesReadBack(es: seq<Entry>)
    requires Reloadable(es)
    ensures ReadEntries(EntriesXml(es)) == es
  {
    if es != [] {
      var front, last := es[..|es| - 1], es[|es| - 1];
      assert es == front + [last];
      EntriesReadBack(front);
      KeptReadBack(last);
      OneMoreEntry(EntriesXml(front), EntryXml(last));
    }
  }

  lemma {:induction false} ReadPartsPositive(xs: seq<Xml>)
    ensures forall p :: p in ReadParts(xs) ==> p.partNumber > 0
  {
    if xs != [] {
      ReadPartsPositive(xs[..|xs| - 1]);
    }
  }

  lemma {:induction false} ReadEntriesReloadable(xs: seq<Xml>)
    ensures Reloadable(ReadEntries(xs))
  {
    if xs != [] {
      ReadEntriesReloadable(xs[..|xs| - 1]);
      ReadPartsPositive(xs[|xs| - 1].children);
    }
  }

  /** A flushed journal is reloaded as it was exactly when every entry is named and every part number positive. */
  lemma ReloadedIff(es: seq<Entry>)
    ensures ReadEntries(Serialized(es).children) == es <==> Reloadable(es)
  {
    ReadEntriesReloadable(Serialized(es).children);
    if Reloadable(es) {
      EntriesReadBack(es);
    }
  }

  // ------------------------------------------------------------------ the class

  /** What the journal file holds: nothing, something that is not a journal, or a document. */
  datatype Disk = NoFile | NotXml | Document(root: Xml)

  class FileUploadJournal {
    var file: string
    var entries: seq<Entry>
    var disk: Disk

    constructor ()
      ensures entries == [] && file == "" && disk == NoFile
    {
      file, entries, disk := "", [], NoFile;
    }

    /** Loads the file if it can be read and parsed; otherwise the journal is empty. */
    method SetFile(path: string, onDisk: Disk, readable: bool)
      modifies this
      ensures file == path && disk == onDisk
      ensures entries == if readable && disk.Document? && disk.root.name == "NppS3Uploads"
                         then ReadEntries(disk.root.children) else []
    {
      file, disk := path, onDisk;
      entries := [];
      if disk == NoFile || !readable {
        return;
      }
      var _ := DeserializeFromXml(disk);
    }

    method SerializeToXml() returns (root: Xml)
      ensures root == Serialized(entries)
    {
      var uploads: seq<Xml> := [];
      for i := 0 to |entries|
        invariant uploads == EntriesXml(entries[..i])
      {
        var e := EntryToXml(entries[i]);
        uploads := uploads + [e];
        assert entries[..i + 1][..i] == entries[..i];
      }
      assert entries[..|entries|] == entries;
      root := Element("NppS3Uploads", [], uploads);
    }

    static method EntryToXml(entry: Entry) returns (e: Xml)
      ensures e == EntryXml(entry)
    {
      var parts: seq<Xml> := [];
      for j := 0 to |entry.parts|
        invariant parts == PartsXml(entry.parts[..j])
      {
        parts := parts + [PartXml(entry.parts[j])];
        assert entry.parts[..j + 1][..j] == entry.parts[..j];
      }
      assert entry.parts[..|entry.parts|] == entry.parts;
      e := Element("Upload",
                   [("scope", entry.target.scope), ("bucket", entry.target.bucket), ("key", entry.target.key),
                    ("uploadId", entry.uploadId), ("localPath", entry.localPath),
                    ("fileSize", ToString(entry.fileSize)), ("fileTime", ToString(entry.fileTime)),
                    ("partSize", ToString(entry.partSize))], parts);
    }

    method DeserializeFromXml(doc: Disk) returns (ok: bool)
      modifies `entries
      ensures ok <==> doc.Document? && doc.root.name == "NppS3Uploads"
      ensures entries == if ok then ReadEntries(doc.root.children) else old(entries)
    {
      if !doc.Document? || doc.root.name != "NppS3Uploads" {
        return false;
      }
      var xs := doc.root.children;
      var parsed: seq<Entry> := [];
      for i := 0 to |xs|
        invariant parsed == ReadEntries(xs[..i]) && entries == old(entries)
      {
        assert xs[..i + 1] == xs[..i] + [xs[i]];
        OneMoreEntry(xs[..i], xs[i]);
        if xs[i].name == "Upload" {
          var entry := EntryFromXml(xs[i]);
          if entry.target.bucket != "" && entry.target.key != "" && entry.uploadId != "" {
            parsed := parsed + [entry];
          }
        }
      }
      assert xs[..|xs|] == xs;
      entries := parsed;
      ok := true;
    }

    static method EntryFromXml(x: Xml) returns (entry: Entry)
      ensures entry == ReadEntry(x)
    {
      var ps := x.children;
      var parts: seq<Part> := [];
      for j := 0 to |ps|
        invariant parts == ReadParts(ps[..j])
      {
        assert ps[..j + 1][..j] == ps[..j];
        if ps[j].name == "Part" {
          var part := ReadPart(ps[j]);
          if part.partNumber > 0 {
            parts := parts + [part];
          }
        }
      }
      assert ps[..|ps|] == ps;
      entry := Entry(Key(TextOr(x, "scope"), TextOr(x, "bucket"), TextOr(x, "key")), TextOr(x, "uploadId"),
                     TextOr(x, "localPath"), NumberOr(x, "fileSize"), NumberOr(x, "fileTime"), NumberOr(x, "partSize"), parts);
    }

    /** Writes a temporary file and moves it into place; `flushed` says whether both worked. */
    method SaveLocked(flushed: bool)
      modifies `disk
      ensures disk == if file != "" && flushed then Document(Serialized(entries)) else old(disk)
    {
      if file == "" {
        return;
      }
      var xml := SerializeToXml();
      if flushed {
        disk := Document(xml);
      }
    }

    method FindLocked(k: Key) returns (i: nat)
      ensures i == IndexOf(entries, k)
    {
      i := 0;
      while i < |entries| && entries[i].target != k
        invariant i <= |entries| && forall j :: 0 <= j < i ==> entries[j].target != k
      {
        i := i + 1;
      }
    }

    method Find(k: Key) returns (r: Option<Entry>)
      ensures r == Found(entries, k)
    {
      for i := 0 to |entries|
        invariant forall j :: 0 <= j < i ==> entries[j].target != k
      {
        if entries[i].target == k {
          return Some(entries[i]);
        }
      }
      r := None;
    }

    method Begin(entry: Entry, flushed: bool)
      modifies this
      ensures file == old(file) && entries == Perform(old(entries), Op.Begin(entry))
      ensures disk == if file != "" && flushed then Document(Serialized(entries)) else old(disk)
    {
      var i := FindLocked(entry.target);
      if i < |entries| {
        entries := entries[i := entry];
      } else {
        entries := entries + [entry];
      }
      SaveLocked(flushed);
    }

    method RecordPart(k: Key, part: Part, flushed: bool)
      modifies this
      ensures file == old(file) && entries == Perform(old(entries), Op.RecordPart(k, part))
      ensures disk == if file != "" && flushed && Found(old(entries), k).Some?
                      then Document(Serialized(entries)) else old(disk)
    {
      var i := FindLocked(k);
      if i == |entries| {
        return;
      }
      var entry := entries[i];
      var j := 0;
      while j < |entry.parts| && entry.parts[j].partNumber != part.partNumber
        invariant j <= |entry.parts| && forall l :: 0 <= l < j ==> entry.parts[l].partNumber != part.partNumber
      {
        j := j + 1;
      }
      if j < |entry.parts| {
        entry := entry.(parts := entry.parts[j := part]);
      } else {
        entry := entry.(parts := entry.parts + [part]);
      }
      entries := entries[i := entry];
      SaveLocked(flushed);
    }

    /** Flushes only when something was removed. */
    method Remove(k: Key, flushed: bool)
      modifies this
      ensures file == old(file) && entries == Perform(old(entries), Op.Remove(k))
      ensures disk == if file != "" && flushed && entries != old(entries)
                      then Document(Serialized(entries)) else old(disk)
    {
      var before := entries;
      var kept: seq<Entry> := [];
      for i := 0 to |before|
        invariant kept == Removed(before[..i], k) && entries == before && disk == old(disk) && file == old(file)
        invariant |kept| == i <==> kept == before[..i]
      {
        assert before[..i + 1][..i] == before[..i];
        if before[i].target != k {
          kept := kept + [before[i]];
        }
      }
      assert before[..|before|] == before;
      entries := kept;
      if |entries| != |before| {
        SaveLocked(flushed);
      }
    }
  }
}
