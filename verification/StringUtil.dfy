/** Cutting texts at separators, and reading them from a position on. */
module StringUtil {

  /** Text `e` stands at position `i`. */
  ghost predicate StandsAt(s: string, i: nat, e: string) {
    i + |e| <= |s| && forall k :: 0 <= k < |e| ==> s[i + k] == e[k]
  }

  /** What is in `s` from position `k` on, one by one. */
  function Tail<T>(s: seq<T>, k: nat): (t: seq<T>)
    requires k <= |s|
    ensures |t| == |s| - k && forall j :: 0 <= j < |t| ==> t[j] == s[k + j]
    decreases |s| - k
  {
    if k == |s| then [] else [s[k]] + Tail(s, k + 1)
  }

  /** All fields of a text between separators, empty ones included. */
  function Fields(s: string, sep: char): (fs: seq<string>)
    ensures |fs| >= 1
  {
    if s == "" then [""]
    else
      var fs, c := Fields(s[..|s| - 1], sep), s[|s| - 1];
      if c == sep then fs + [""] else fs[..|fs| - 1] + [fs[|fs| - 1] + [c]]
  }

  function Join(fs: seq<string>, sep: char): string {
    if fs == [] then ""
    else if |fs| == 1 then fs[0]
    else Join(fs[..|fs| - 1], sep) + [sep] + fs[|fs| - 1]
  }

  function NonEmpty(fs: seq<string>): seq<string> {
    if fs == [] then []
    else NonEmpty(fs[..|fs| - 1]) + if fs[|fs| - 1] == "" then [] else [fs[|fs| - 1]]
  }

  lemma JoinOneMore(fs: seq<string>, f: string, sep: char)
    ensures Join(fs + [f], sep) == if fs == [] then f else Join(fs, sep) + [sep] + f
  {
    assert (fs + [f])[..|fs|] == fs;
  }

  lemma JoinLonger(fs: seq<string>, f: string, c: char, sep: char)
    ensures Join(fs + [f + [c]], sep) == Join(fs + [f], sep) + [c]
  {
    JoinOneMore(fs, f, sep);
    JoinOneMore(fs, f + [c], sep);
  }

  lemma NonEmptyOneMore(fs: seq<string>, f: string)
    ensures NonEmpty(fs + [f]) == NonEmpty(fs) + if f == "" then [] else [f]
  {
    assert (fs + [f])[..|fs|] == fs;
  }

  lemma {:induction false} FieldsHoldNoSeparator(s: string, sep: char)
    ensures forall k :: 0 <= k < |Fields(s, sep)| ==> sep !in Fields(s, sep)[k]
  {
    if s != "" {
      FieldsHoldNoSeparator(s[..|s| - 1], sep);
    }
  }

  /** The fields are the only texts without separators that joined by separators give the text back; the other
      direction is `JoinFields`. */
  lemma {:induction false} FieldsJoin(s: string, sep: char)
    ensures Join(Fields(s, sep), sep) == s
  {
    if s != "" {
      var before, c := s[..|s| - 1], s[|s| - 1];
      var fs := Fields(before, sep);
      FieldsJoin(before, sep);
      var front, last := fs[..|fs| - 1], fs[|fs| - 1];
      assert before + [c] == s && front + [last] == fs;
      if c == sep {
        JoinOneMore(fs, "", sep);
      } else {
        JoinLonger(front, last, c, sep);
      }
    }
  }

  lemma OneMoreChar(s: string, c: char, sep: char)
    ensures var fs := Fields(s, sep);
            Fields(s + [c], sep) == if c == sep then fs + [""] else fs[..|fs| - 1] + [fs[|fs| - 1] + [c]]
  {
    assert (s + [c])[..|s|] == s;
  }

  lemma SplitLast(s: string, t: string)
    requires t != ""
    ensures s + t[..|t| - 1] + [t[|t| - 1]] == s + t
  {
  }

  /** Text without separators extends the last field. */
  lemma {:induction false} AppendField(s: string, t: string, sep: char)
    requires sep !in t
    ensures var fs := Fields(s, sep); Fields(s + t, sep) == fs[..|fs| - 1] + [fs[|fs| - 1] + t]
  {
    var fs := Fields(s, sep);
    var front, last := fs[..|fs| - 1], fs[|fs| - 1];
    if t == "" {
      assert s + t == s && last + t == last && front + [last] == fs;
    } else {
      var before, c := t[..|t| - 1], t[|t| - 1];
      AppendField(s, before, sep);
      OneMoreChar(s + before, c, sep);
      SplitLast(s, t);
      SplitLast(last, t);
      assert (front + [last + before])[..|front|] == front;
    }
  }

  /** A separator closes the last field. */
  lemma ClosedField(s: string, t: string, sep: char)
    requires sep !in t
    ensures Fields(s + [sep] + t, sep) == Fields(s, sep) + [t]
  {
    OneMoreChar(s, sep, sep);
    AppendField(s + [sep], t, sep);
    var fs := Fields(s, sep);
    assert (fs + [""])[..|fs|] == fs && "" + t == t;
  }

  lemma {:induction false} JoinFields(fs: seq<string>, sep: char)
    requires |fs| >= 1 && forall k :: 0 <= k < |fs| ==> sep !in fs[k]
    ensures Fields(Join(fs, sep), sep) == fs
  {
    if |fs| == 1 {
      AppendField("", fs[0], sep);
      assert "" + fs[0] == fs[0] && [""][..0] + [fs[0]] == fs;
    } else {
      var before, last := fs[..|fs| - 1], fs[|fs| - 1];
      JoinFields(before, sep);
      ClosedField(Join(before, sep), last, sep);
      assert before + [last] == fs;
    }
  }

  /** Position of the next separator from `start`, or the length. */
  function Find(s: string, sep: char, start: nat): (pos: nat)
    requires start <= |s|
    ensures start <= pos <= |s| && (pos < |s| ==> s[pos] == sep)
    ensures forall k :: start <= k < pos ==> s[k] != sep
    decreases |s| - start
  {
    if start == |s| || s[start] == sep then start else Find(s, sep, start + 1)
  }

  /** The closed fields before `start`, where a new one begins. */
  function Closed(s: string, sep: char, start: nat): seq<string>
    requires start <= |s|
  {
    if start == 0 then [] else Fields(s[..start - 1], sep)
  }

  lemma OnlyField(field: string, sep: char)
    requires sep !in field
    ensures Fields(field, sep) == [field]
  {
    AppendField("", field, sep);
    assert "" + field == field && [""][..0] + [field] == [field];
  }

  /** The field that begins at `start`, once its end is found. */
  lemma NextField(s: string, sep: char, start: nat)
    requires start <= |s| && (start == 0 || s[start - 1] == sep)
    ensures Fields(s[..Find(s, sep, start)], sep) == Closed(s, sep, start) + [s[start..Find(s, sep, start)]]
  {
    var pos := Find(s, sep, start);
    var field := s[start..pos];
    if start == 0 {
      OnlyField(field, sep);
      assert field == s[..pos];
    } else {
      ClosedField(s[..start - 1], field, sep);
      assert s[..start - 1] + [sep] + field == s[..pos];
    }
  }

  /** The next field joins the closed ones, unless it is empty. */
  lemma NextNonEmpty(s: string, sep: char, start: nat)
    requires start <= |s| && (start == 0 || s[start - 1] == sep)
    ensures var pos := Find(s, sep, start);
            NonEmpty(Fields(s[..pos], sep))
            == NonEmpty(Closed(s, sep, start)) + if pos == start then [] else [s[start..pos]]
  {
    var pos := Find(s, sep, start);
    NextField(s, sep, start);
    NonEmptyOneMore(Closed(s, sep, start), s[start..pos]);
  }

  /** One part for each non-empty field, in order. */
  method SplitKey(key: string, sep: char) returns (parts: seq<string>)
    ensures parts == NonEmpty(Fields(key, sep))
  {
    parts := [];
    var start := 0;
    while start <= |key|
      invariant 0 <= start <= |key| && (start == 0 || key[start - 1] == sep)
      invariant parts == NonEmpty(Closed(key, sep, start))
      decreases |key| - start
    {
      var pos := Find(key, sep, start);
      NextNonEmpty(key, sep, start);
      if pos == |key| {
        assert key[..pos] == key && key[start..] == key[start..pos];
        if start < |key| {
          parts := parts + [key[start..]];
        }
        return;
      }
      if pos > start {
        parts := parts + [key[start..pos]];
      }
      start := pos + 1;
    }
  }
}
