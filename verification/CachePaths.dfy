/** From object keys to local paths: every key, however hostile, becomes a path of plain components. */
module CachePaths {

  import opened StringUtil

  // ------------------------------------------------------------ one component

  predicate Forbidden(c: char) {
    c as int < 32 || c in "<>:\"/\\|?*"
  }

  predicate Trailing(c: char) {
    c == '.' || c == ' '
  }

  function Replaced(s: string): string {
    if s == "" then "" else Replaced(s[..|s| - 1]) + [if Forbidden(s[|s| - 1]) then '_' else s[|s| - 1]]
  }

  function Trimmed(s: string): string {
    if s != "" && Trailing(s[|s| - 1]) then Trimmed(s[..|s| - 1]) else s
  }

  function LastDot(s: string): (d: int)
    ensures -1 <= d < |s| && (d >= 0 ==> s[d] == '.')
    ensures forall k :: d < k < |s| ==> s[k] != '.'
  {
    if s == "" then -1 else if s[|s| - 1] == '.' then |s| - 1 else LastDot(s[..|s| - 1])
  }

  /** The name up to its last dot. */
  function Base(s: string): string {
    if LastDot(s) < 0 then s else s[..LastDot(s)]
  }

  function Upper(c: char): char {
    if 'a' <= c <= 'z' then (c as int - 32) as char else c
  }

  function Uppercase(s: string): (t: string)
    ensures |t| == |s|
    ensures forall k :: 0 <= k < |s| ==> t[k] == Upper(s[k])
  {
    if s == "" then "" else Uppercase(s[..|s| - 1]) + [Upper(s[|s| - 1])]
  }

  const DEVICES: seq<string> := ["CON", "PRN", "AUX", "NUL"]
  const PORTS: seq<string> := ["COM", "LPT"]

  /** A device, or a port numbered 1 to 9, in any case. */
  predicate IsReservedName(base: string) {
    var u := Uppercase(base);
    u in DEVICES || (|u| == 4 && u[..3] in PORTS && '1' <= u[3] <= '9')
  }

  const RESERVED: seq<string> := [
    "CON", "PRN", "AUX", "NUL",
    "COM1", "COM2", "COM3", "COM4", "COM5", "COM6", "COM7", "COM8", "COM9",
    "LPT1", "LPT2", "LPT3", "LPT4", "LPT5", "LPT6", "LPT7", "LPT8", "LPT9"]

  lemma ListedIsReserved(u: string, k: nat)
    requires k < |RESERVED| && u == RESERVED[k]
    ensures u in DEVICES || (|u| == 4 && u[..3] in PORTS && '1' <= u[3] <= '9')
  {
    if k >= 4 {
      assert |u| == 4 && (u[..3] == "COM" || u[..3] == "LPT");
    }
  }

  lemma PortIsListed(u: string)
    requires |u| == 4 && u[..3] in PORTS && '1' <= u[3] <= '9'
    ensures u in RESERVED
  {
    var k := (if u[..3] == "COM" then 4 else 13) + u[3] as int - '1' as int;
    assert u == u[..3] + [u[3]];
    assert RESERVED[k] == u;
  }

  /** These are the reserved names, compared without case. */
  lemma ReservedIff(base: string)
    ensures IsReservedName(base) <==> Uppercase(base) in RESERVED
  {
    var u := Uppercase(base);
    if k :| 0 <= k < |RESERVED| && RESERVED[k] == u {
      ListedIsReserved(u, k);
    } else if IsReservedName(base) && u !in DEVICES {
      PortIsListed(u);
    }
  }

  /** Neither empty nor a reserved name. */
  function Guarded(s: string): string {
    var out := if s == "" then "_" else s;
    if IsReservedName(Base(out)) then "_" + out else out
  }

  /** The name before any truncation. */
  function Cleaned(name: string): string {
    Guarded(Trimmed(Replaced(name)))
  }

  /** The extension kept when a name is truncated. */
  function Extension(out: string, maxLen: nat): (ext: string)
    ensures |ext| < maxLen || ext == ""
    ensures |ext| <= |out| && out[|out| - |ext|..] == ext
  {
    var d := LastDot(out);
    if d >= 0 && |out| - d <= 12 && |out| - d < maxLen then out[d..] else ""
  }

  function Truncated(out: string, maxLen: nat): string {
    if |out| <= maxLen then out
    else out[..maxLen - |Extension(out, maxLen)|] + Extension(out, maxLen)
  }

  function Sanitized(name: string, maxLen: nat): string {
    Truncated(Cleaned(name), maxLen)
  }

  method SanitizeComponent(name: string, maxLen: nat) returns (out: string)
    ensures out == Sanitized(name, maxLen)
  {
    out := ReplaceForbidden(name);
    out := TrimEnd(out);
    out := Guard(out);
    out := Truncate(out, maxLen);
  }

  method Guard(s: string) returns (out: string)
    ensures out == Guarded(s)
  {
    out := s;
    if out == "" {
      out := "_";
    }
    if IsReservedName(Base(out)) {
      out := "_" + out;
    }
  }

  method Truncate(s: string, maxLen: nat) returns (out: string)
    ensures out == Truncated(s, maxLen)
  {
    out := s;
    if |out| > maxLen {
      var ext := "";
      var d := LastDot(out);
      if d >= 0 && |out| - d <= 12 {
        ext := out[d..];
      }
      if |ext| >= maxLen {
        ext := "";
      }
      out := out[..maxLen - |ext|] + ext;
    }
  }

  method ReplaceForbidden(name: string) returns (out: string)
    ensures out == Replaced(name)
  {
    out := "";
    var k := 0;
    while k < |name|
      invariant 0 <= k <= |name| && out == Replaced(name[..k])
    {
      assert name[..k + 1][..k] == name[..k];
      out := out + [if Forbidden(name[k]) then '_' else name[k]];
      k := k + 1;
    }
    assert name[..|name|] == name;
  }

  method TrimEnd(s: string) returns (out: string)
    ensures out == Trimmed(s)
  {
    out := s;
    while out != "" && Trailing(out[|out| - 1])
      invariant Trimmed(out) == Trimmed(s)
      decreases |out|
    {
      out := out[..|out| - 1];
    }
  }

  // ------------------------------------------------------- what a component is

  /** What file names may not hold, control characters aside. */
  const SPECIAL: set<char> := {'<', '>', ':', '"', '/', '\\', '|', '?', '*'}

  /** Nothing in it is special to the file system, and it does not leave its directory. */
  ghost predicate Plain(s: string) {
    && s != "" && s != "." && s != ".."
    && forall k :: 0 <= k < |s| ==> s[k] >= ' ' && s[k] !in SPECIAL
  }

  lemma {:induction false} ReplacedClean(s: string)
    ensures |Replaced(s)| == |s| && forall k :: 0 <= k < |s| ==> !Forbidden(Replaced(s)[k])
    ensures (forall k :: 0 <= k < |s| ==> !Forbidden(s[k])) ==> Replaced(s) == s
  {
    if s != "" {
      ReplacedClean(s[..|s| - 1]);
      assert s == s[..|s| - 1] + [s[|s| - 1]];
    }
  }

  lemma {:induction false} TrimmedIsPrefix(s: string)
    ensures Trimmed(s) <= s && (Trimmed(s) != "" ==> !Trailing(Trimmed(s)[|Trimmed(s)| - 1]))
  {
    if s != "" && Trailing(s[|s| - 1]) {
      TrimmedIsPrefix(s[..|s| - 1]);
    }
  }

  lemma LastDotUnder(s: string)
    ensures LastDot("_" + s) == (if LastDot(s) < 0 then -1 else LastDot(s) + 1)
    ensures Base("_" + s) == "_" + Base(s)
  {
    var t, d := "_" + s, LastDot(s);
    forall k | d + 1 < k < |t| ensures t[k] != '.' {
      assert t[k] == s[k - 1];
    }
    if d >= 0 {
      assert t[d + 1] == '.';
    } else {
      assert t[0] == '_';
    }
  }

  /** Reserved names begin with a letter. */
  lemma ReservedStart(base: string)
    requires IsReservedName(base)
    ensures base != "" && 'A' <= Upper(base[0]) <= 'Z'
  {
    var u := Uppercase(base);
    assert u != "" && 'A' <= u[0] <= 'Z' by {
      if u !in DEVICES {
        assert u[0] == u[..3][0];
      }
    }
  }

  lemma TrimmedIsClean(name: string)
    ensures var t := Trimmed(Replaced(name));
            && (forall k :: 0 <= k < |t| ==> !Forbidden(t[k]))
            && (t != "" ==> !Trailing(t[|t| - 1]))
  {
    ReplacedClean(name);
    TrimmedIsPrefix(Replaced(name));
  }

  lemma UnderIsNotReserved(s: string)
    ensures !IsReservedName(Base("_" + s))
  {
    LastDotUnder(s);
    if IsReservedName("_" + Base(s)) {
      ReservedStart("_" + Base(s));
    }
  }

  /** A plain name that ends well and is no device. */
  ghost predicate Clean(s: string) {
    Plain(s) && !Trailing(s[|s| - 1]) && !IsReservedName(Base(s))
  }

  lemma GuardedIsClean(s: string)
    requires forall k :: 0 <= k < |s| ==> !Forbidden(s[k])
    requires s != "" ==> !Trailing(s[|s| - 1])
    ensures Clean(Guarded(s))
  {
    var out := if s == "" then "_" else s;
    EndsWellIsPlain(out);
    UnderIsNotReserved(out);
    UnderIsPlain(out);
  }

  /** Only dots would be no name, and they end in one. */
  lemma EndsWellIsPlain(s: string)
    requires s != "" && !Trailing(s[|s| - 1]) && forall k :: 0 <= k < |s| ==> !Forbidden(s[k])
    ensures Plain(s)
  {
    forall k | 0 <= k < |s| ensures s[k] >= ' ' && s[k] !in SPECIAL {
      assert !Forbidden(s[k]);
    }
  }

  lemma UnderIsPlain(s: string)
    requires Plain(s)
    ensures Plain("_" + s) && ("_" + s)[|s|] == s[|s| - 1]
  {
    var t := "_" + s;
    assert t[0] == '_' && |t| >= 2;
    forall k | 0 <= k < |t| ensures !Forbidden(t[k]) {
      if k > 0 {
        assert t[k] == s[k - 1];
      }
    }
  }

  lemma CleanedIsClean(name: string)
    ensures Clean(Cleaned(name))
  {
    TrimmedIsClean(name);
    GuardedIsClean(Trimmed(Replaced(name)));
  }

  /** A clean name stays as it is. */
  lemma CleanStays(s: string)
    requires Clean(s)
    ensures Cleaned(s) == s
  {
    ReplacedClean(s);
  }

  lemma TruncatedIsPlain(out: string, maxLen: nat)
    requires Clean(out) && maxLen >= 3
    ensures Plain(Truncated(out, maxLen)) && |Truncated(out, maxLen)| <= maxLen
  {
    var ext := Extension(out, maxLen);
    if |out| > maxLen {
      var s := out[..maxLen - |ext|] + ext;
      forall k | 0 <= k < |s| ensures !Forbidden(s[k]) {
        assert s[k] in out;
      }
    }
  }

  /** For the limits in use (and any from 3 on) a component is plain and no longer than the limit. */
  lemma SanitizedIsPlain(name: string, maxLen: nat)
    requires maxLen >= 3
    ensures var s := Sanitized(name, maxLen); Plain(s) && |s| <= maxLen
  {
    CleanedIsClean(name);
    TruncatedIsPlain(Cleaned(name), maxLen);
  }

  /** Below 3 a truncated name can be a dot entry, so 3 is exactly where the promise starts. */
  lemma PlainExactlyFromThree(maxLen: nat)
    requires maxLen >= 1
    ensures (forall name :: Plain(Sanitized(name, maxLen))) <==> maxLen >= 3
  {
    if maxLen == 1 {
      DotEntry(".a", 1);
    } else if maxLen == 2 {
      DotEntry("..a", 2);
    } else {
      forall name ensures Plain(Sanitized(name, maxLen)) {
        SanitizedIsPlain(name, maxLen);
      }
    }
  }

  lemma DotNamePlain(name: string)
    requires name == ".a" || name == "..a"
    ensures Plain(name) && !Trailing(name[|name| - 1]) && name[|name| - 2] == '.' && LastDot(name) == |name| - 2
  {
    forall k | 0 <= k < |name| ensures !Forbidden(name[k]) {
      assert name[k] == '.' || name[k] == 'a';
    }
  }

  lemma DotEntry(name: string, maxLen: nat)
    requires (name == ".a" && maxLen == 1) || (name == "..a" && maxLen == 2)
    ensures !Plain(Sanitized(name, maxLen))
  {
    DotNamePlain(name);
    if IsReservedName(Base(name)) {
      ReservedStart(Base(name));
    }
    CleanStays(name);
  }

  /** A name that is plain, ends in neither dot nor space, is no device and fits is kept as it is. */
  lemma GoodNameIsKept(name: string, maxLen: nat)
    requires Plain(name) && !Trailing(name[|name| - 1]) && !IsReservedName(Base(name)) && |name| <= maxLen
    ensures Sanitized(name, maxLen) == name
  {
    CleanStays(name);
  }

  /** While the cleaned name fits the limit, sanitizing again changes nothing, no dot or space trails and the base name
      is no device. */
  lemma FittingNameIsStable(name: string, maxLen: nat)
    requires |Cleaned(name)| <= maxLen
    ensures var s := Sanitized(name, maxLen);
            s != "" && Sanitized(s, maxLen) == s && !Trailing(s[|s| - 1]) && !IsReservedName(Base(s))
  {
    CleanedIsClean(name);
    CleanStays(Cleaned(name));
  }

  /** When truncation takes place, a dot or space trails exactly if no extension is kept and the cut is behind one. */
  lemma TruncatedTrailsIff(name: string, maxLen: nat)
    requires 1 <= maxLen < |Cleaned(name)|
    ensures var s, out := Sanitized(name, maxLen), Cleaned(name);
            |s| == maxLen && (Trailing(s[|s| - 1]) <==> Extension(out, maxLen) == "" && Trailing(out[maxLen - 1]))
  {
    CleanedIsClean(name);
    TruncatedEnd(Cleaned(name), maxLen);
  }

  lemma TruncatedEnd(out: string, maxLen: nat)
    requires 1 <= maxLen < |out|
    ensures var s, ext := Truncated(out, maxLen), Extension(out, maxLen);
            |s| == maxLen && s[maxLen - 1] == if ext == "" then out[maxLen - 1] else out[|out| - 1]
  {
    var ext := Extension(out, maxLen);
    if ext != "" {
      assert (out[..maxLen - |ext|] + ext)[maxLen - 1] == ext[|ext| - 1];
    }
  }

  lemma LastDotOfTail(front: string, tail: string)
    requires tail != "" && tail[0] == '.' && forall k :: 0 < k < |tail| ==> tail[k] != '.'
    ensures LastDot(front + tail) == |front|
  {
    assert (front + tail)[|front|] == '.';
    assert forall k :: 0 < k < |tail| ==> (front + tail)[|front| + k] == tail[k];
  }

  /** A kept extension stays the extension, so the editor picks the same language. */
  lemma TruncationKeepsExtension(name: string, maxLen: nat)
    requires maxLen < |Cleaned(name)| && Extension(Cleaned(name), maxLen) != ""
    ensures var s, out := Sanitized(name, maxLen), Cleaned(name); LastDot(s) >= 0 && s[LastDot(s)..] == out[LastDot(out)..]
  {
    ExtensionStays(Cleaned(name), maxLen);
  }

  lemma ExtensionStays(out: string, maxLen: nat)
    requires maxLen < |out| && Extension(out, maxLen) != ""
    ensures var s := Truncated(out, maxLen); LastDot(s) >= 0 && s[LastDot(s)..] == out[LastDot(out)..]
  {
    var ext := Extension(out, maxLen);
    var cut := maxLen - |ext|;
    LastDotOfTail(out[..cut], ext);
    assert (out[..cut] + ext)[cut..] == ext;
  }

  // ---------------------------------------------------------------- a whole key

  /** `widen` decodes UTF-8 and is any function here. */
  function Components(segments: seq<string>, widen: string -> string): (cs: seq<string>)
    ensures |cs| == |segments|
  {
    if segments == [] then []
    else Components(segments[..|segments| - 1], widen) + [Sanitized(widen(segments[|segments| - 1]), 100)]
  }

  function RelativePath(key: string, widen: string -> string): string {
    Join(Components(NonEmpty(Fields(key, '/')), widen), '\\')
  }

  /** The components are joined in a loop: a backslash goes before every one but the first. */
  method RelativePathForKey(key: string, widen: string -> string) returns (out: string)
    ensures out == RelativePath(key, widen)
  {
    var segments := SplitKey(key, '/');
    ghost var cs: seq<string> := [];
    out := "";
    var k := 0;
    while k < |segments|
      invariant 0 <= k <= |segments| && cs == Components(segments[..k], widen)
      invariant out == Join(cs, '\\') && (out == "" <==> cs == [])
    {
      var component := SanitizeComponent(widen(segments[k]), 100);
      SanitizedIsPlain(widen(segments[k]), 100);
      ComponentsOneMore(segments, widen, k);
      JoinOneMore(cs, component, '\\');
      if out != "" {
        out := out + "\\";
      }
      out := out + component;
      cs := cs + [component];
      k := k + 1;
    }
    assert segments[..|segments|] == segments;
  }

  lemma ComponentsOneMore(segments: seq<string>, widen: string -> string, k: nat)
    requires k < |segments|
    ensures Components(segments[..k + 1], widen) == Components(segments[..k], widen) + [Sanitized(widen(segments[k]), 100)]
  {
    assert segments[..k + 1][..k] == segments[..k];
  }

  lemma {:induction false} ComponentsArePlain(segments: seq<string>, widen: string -> string)
    ensures forall k :: 0 <= k < |segments| ==>
              var c := Components(segments, widen)[k]; Plain(c) && |c| <= 100 && '\\' !in c
  {
    if segments != [] {
      ComponentsArePlain(segments[..|segments| - 1], widen);
      SanitizedIsPlain(widen(segments[|segments| - 1]), 100);
    }
  }

  /** No key escapes its folder: cut at backslashes, the path of any key has exactly one component for each non-empty
      segment of the key, and every component is plain and at most 100 characters long. */
  lemma NoKeyEscapes(key: string, widen: string -> string)
    requires NonEmpty(Fields(key, '/')) != []
    ensures var cs := Fields(RelativePath(key, widen), '\\');
            |cs| == |NonEmpty(Fields(key, '/'))| && forall k :: 0 <= k < |cs| ==> Plain(cs[k]) && |cs[k]| <= 100
  {
    var segments := NonEmpty(Fields(key, '/'));
    ComponentsArePlain(segments, widen);
    JoinFields(Components(segments, widen), '\\');
  }

  lemma {:induction false} SomethingBetweenSlashes(key: string)
    ensures NonEmpty(Fields(key, '/')) == [] <==> forall k :: 0 <= k < |key| ==> key[k] == '/'
  {
    if key != "" {
      var before, c := key[..|key| - 1], key[|key| - 1];
      SomethingBetweenSlashes(before);
      var fs := Fields(before, '/');
      if c == '/' {
        NonEmptyOneMore(fs, "");
      } else {
        NonEmptyOneMore(fs[..|fs| - 1], fs[|fs| - 1] + [c]);
      }
    }
  }

  /** A key has no path exactly when it consists of slashes only. */
  lemma PathIsEmptyIff(key: string, widen: string -> string)
    ensures RelativePath(key, widen) == "" <==> forall k :: 0 <= k < |key| ==> key[k] == '/'
  {
    var segments := NonEmpty(Fields(key, '/'));
    SomethingBetweenSlashes(key);
    if segments != [] {
      SanitizedIsPlain(widen(segments[|segments| - 1]), 100);
    }
  }
}
