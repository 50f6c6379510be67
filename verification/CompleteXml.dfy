/** The body of the Complete request: part numbers and etags as XML text, and what can be read back from it. */
module CompleteXml {

  import opened StorageTypes
  import opened Decimal
  import opened StringUtil

  // ----------------------------------------------------------------- escaping

  function EscapedChar(c: char): string {
    if c == '&' then "&amp;"
    else if c == '<' then "&lt;"
    else if c == '>' then "&gt;"
    else if c == '"' then "&quot;"
    else if c == '\'' then "&apos;"
    else [c]
  }

  /** A text with every character spelled out. */
  function Spelled(s: string, spell: char -> string): string {
    if s == "" then "" else Spelled(s[..|s| - 1], spell) + spell(s[|s| - 1])
  }

  function Escaped(s: string): string {
    Spelled(s, EscapedChar)
  }

  method XmlEscape(text: string) returns (out: string)
    ensures out == Escaped(text)
  {
    out := "";
    var k := 0;
    while k < |text|
      invariant 0 <= k <= |text| && out == Escaped(text[..k])
    {
      assert text[..k + 1][..k] == text[..k];
      match text[k] {
        case '&' => out := out + "&amp;";
        case '<' => out := out + "&lt;";
        case '>' => out := out + "&gt;";
        case '"' => out := out + "&quot;";
        case '\'' => out := out + "&apos;";
        case c => out := out + [c];
      }
      k := k + 1;
    }
    assert text[..|text|] == text;
  }

  /** The predefined entity at position `i`, if any: its character, and how long it is. */
  function EntityAt(s: string, i: nat): (r: (char, nat))
    requires i < |s|
    ensures 1 <= r.1 <= |s| - i
  {
    if s[i] != '&' then (s[i], 1)
    else if i + 3 < |s| && s[i + 1] == 'l' && s[i + 2] == 't' && s[i + 3] == ';' then ('<', 4)
    else if i + 3 < |s| && s[i + 1] == 'g' && s[i + 2] == 't' && s[i + 3] == ';' then ('>', 4)
    else if i + 4 < |s| && s[i + 1] == 'a' && s[i + 2] == 'm' && s[i + 3] == 'p' && s[i + 4] == ';' then ('&', 5)
    else if i + 5 < |s| && s[i + 1] == 'q' && s[i + 2] == 'u' && s[i + 3] == 'o' && s[i + 4] == 't' && s[i + 5] == ';'
    then ('"', 6)
    else if i + 5 < |s| && s[i + 1] == 'a' && s[i + 2] == 'p' && s[i + 3] == 'o' && s[i + 4] == 's' && s[i + 5] == ';'
    then ('\'', 6)
    else ('&', 1)
  }

  /** What an XML reader makes of text from position `i` on. */
  function UnescapedFrom(s: string, i: nat): string
    requires i <= |s|
    decreases |s| - i
  {
    if i == |s| then ""
    else [EntityAt(s, i).0] + UnescapedFrom(s, i + EntityAt(s, i).1)
  }

  lemma EntityOf(s: string, i: nat, c: char)
    requires StandsAt(s, i, EscapedChar(c))
    ensures EntityAt(s, i) == (c, |EscapedChar(c)|)
  {
    var e := EscapedChar(c);
    assert s[i + 0] == e[0];
    if |e| > 1 {
      assert s[i + 1] == e[1] && s[i + 2] == e[2] && s[i + 3] == e[3];
      if |e| > 4 { assert s[i + 4] == e[4]; }
      if |e| > 5 { assert s[i + 5] == e[5]; }
    }
  }

  lemma UnescapeOne(s: string, i: nat, c: char)
    requires StandsAt(s, i, EscapedChar(c))
    ensures UnescapedFrom(s, i) == [c] + UnescapedFrom(s, i + |EscapedChar(c)|)
  {
    EntityOf(s, i, c);
  }

  lemma {:induction false} EscapedCharStands(s: string, k: nat)
    requires k < |s|
    ensures StandsAt(Escaped(s), |Escaped(s[..k])|, EscapedChar(s[k]))
  {
    var front := s[..|s| - 1];
    if k < |front| {
      assert front[..k] == s[..k];
      EscapedCharStands(front, k);
    }
  }

  lemma EscapedOneMore(s: string, k: nat)
    requires k < |s|
    ensures |Escaped(s[..k + 1])| == |Escaped(s[..k])| + |EscapedChar(s[k])|
  {
    assert s[..k + 1][..k] == s[..k];
  }

  lemma {:induction false} UnescapeRest(s: string, k: nat)
    requires k <= |s|
    ensures |Escaped(s[..k])| <= |Escaped(s)|
    ensures UnescapedFrom(Escaped(s), |Escaped(s[..k])|) == Tail(s, k)
    decreases |s| - k
  {
    if k == |s| {
      assert s[..k] == s;
      assert Tail(s, k) == "";
    } else {
      UnescapeRest(s, k + 1);
      EscapedCharStands(s, k);
      EscapedOneMore(s, k);
      UnescapeOne(Escaped(s), |Escaped(s[..k])|, s[k]);
    }
  }

  /** Reading undoes escaping. */
  lemma UnescapeEscaped(s: string)
    ensures UnescapedFrom(Escaped(s), 0) == s
  {
    UnescapeRest(s, 0);
    assert s[..0] == "" && Tail(s, 0) == s;
  }

  predicate IsText(s: string) {
    '<' !in s && '>' !in s && '"' !in s && '\'' !in s
  }

  /** No markup and no quote is left in escaped text. */
  lemma {:induction false} EscapedIsText(s: string)
    ensures IsText(Escaped(s))
  {
    if s != "" {
      EscapedIsText(s[..|s| - 1]);
      EscapedCharIsText(s[|s| - 1]);
      assert Escaped(s) == Escaped(s[..|s| - 1]) + EscapedChar(s[|s| - 1]);
    }
  }

  lemma EscapedCharIsText(c: char)
    ensures IsText(EscapedChar(c))
  {
  }

  // ------------------------------------------------------------------- quotes

  function StripQuotes(s: string): string {
    if |s| >= 2 && s[0] == '"' && s[|s| - 1] == '"' then s[1..|s| - 1] else s
  }

  function Quoted(s: string): string {
    "\"" + s + "\""
  }

  /** An etag goes out quoted and escaped; read and stripped of its quotes it is the etag again. */
  lemma EtagComesBack(etag: string)
    ensures StripQuotes(UnescapedFrom(Escaped(Quoted(etag)), 0)) == etag
    ensures Escaped(Quoted(etag)) == "&quot;" + Escaped(etag) + "&quot;"
  {
    UnescapeEscaped(Quoted(etag));
    assert Quoted(etag)[1..|Quoted(etag)| - 1] == etag;
    SpelledAppend("\"", etag, EscapedChar);
    SpelledLast("\"" + etag, '"', EscapedChar);
    SpelledLast("", '"', EscapedChar);
    assert "" + ['"'] == "\"" && "" + "&quot;" == "&quot;";
  }

  lemma {:induction false} SpelledAppend(a: string, b: string, spell: char -> string)
    ensures Spelled(a + b, spell) == Spelled(a, spell) + Spelled(b, spell)
  {
    if b == "" {
      assert a + b == a;
    } else {
      var front, c := b[..|b| - 1], b[|b| - 1];
      SpelledAppend(a, front, spell);
      SplitLast(a, b);
      SpelledLast(a + front, c, spell);
      Regroup(Spelled(a, spell), Spelled(front, spell), spell(c));
    }
  }

  lemma SpelledLast(s: string, c: char, spell: char -> string)
    ensures Spelled(s + [c], spell) == Spelled(s, spell) + spell(c)
  {
    assert (s + [c])[..|s|] == s;
  }

  lemma Regroup(a: string, b: string, c: string)
    ensures a + b + c == a + (b + c)
  {
  }

  // --------------------------------------------------------------------- body

  /** What follows an opening bracket: a tag's name, its closing bracket, and text. */
  function Piece(name: string, text: string): string {
    name + ">" + text
  }

  /** A tag, opening or closing, and the text behind it. */
  function Tag(name: string, text: string): string {
    "<" + Piece(name, text)
  }

  const ROOT := "CompleteMultipartUpload"

  function QuotedText(etag: string): string {
    "&quot;" + Escaped(etag) + "&quot;"
  }

  /** `<Part><PartNumber>n</PartNumber><ETag>&quot;etag&quot;</ETag></Part>` */
  function PartXml(p: Part): string {
    "" + Tag("Part", "") + Tag("PartNumber", IntToString(p.partNumber)) + Tag("/PartNumber", "")
    + Tag("ETag", QuotedText(p.etag)) + Tag("/ETag", "") + Tag("/Part", "")
  }

  function PartsXml(parts: seq<Part>): string {
    if parts == [] then "" else PartsXml(parts[..|parts| - 1]) + PartXml(parts[|parts| - 1])
  }

  function Body(parts: seq<Part>): string {
    Tag(ROOT, "") + PartsXml(parts) + Tag("/" + ROOT, "")
  }

  method BuildCompleteMultipartUploadXml(parts: seq<Part>) returns (xml: string)
    ensures xml == Body(parts)
  {
    xml := Tag(ROOT, "");
    ghost var written := "";
    var k := 0;
    while k < |parts|
      invariant 0 <= k <= |parts| && written == PartsXml(parts[..k]) && xml == Tag(ROOT, "") + written
    {
      var part := WritePart(parts[k]);
      PartsXmlOneMore(parts, k);
      Regroup(Tag(ROOT, ""), written, part);
      xml := xml + part;
      written := written + part;
      k := k + 1;
    }
    assert parts[..|parts|] == parts;
    xml := xml + Tag("/" + ROOT, "");
  }

  method WritePart(p: Part) returns (xml: string)
    ensures xml == PartXml(p)
  {
    var etag := XmlEscape(p.etag);
    xml := "" + Tag("Part", "") + Tag("PartNumber", IntToString(p.partNumber)) + Tag("/PartNumber", "");
    xml := xml + Tag("ETag", "&quot;" + etag + "&quot;") + Tag("/ETag", "") + Tag("/Part", "");
  }

  lemma PartsXmlOneMore(parts: seq<Part>, k: nat)
    requires k < |parts|
    ensures PartsXml(parts[..k + 1]) == PartsXml(parts[..k]) + PartXml(parts[k])
  {
    assert parts[..k + 1][..k] == parts[..k];
  }

  /** A part's text, cut at opening brackets. */
  function Pieces(p: Part): seq<string> {
    [Piece("Part", ""), Piece("PartNumber", IntToString(p.partNumber)), Piece("/PartNumber", ""),
     Piece("ETag", QuotedText(p.etag)), Piece("/ETag", ""), Piece("/Part", "")]
  }

  function PiecesOf(parts: seq<Part>): (fs: seq<string>)
    ensures |fs| == 6 * |parts|
  {
    if parts == [] then [] else PiecesOf(parts[..|parts| - 1]) + Pieces(parts[|parts| - 1])
  }

  function BodyPieces(parts: seq<Part>): seq<string> {
    [""] + ([Piece(ROOT, "")] + PiecesOf(parts) + [Piece("/" + ROOT, "")])
  }

  /** Every piece behind its bracket, one after the other. */
  function Bracketed(fs: seq<string>): string {
    if fs == [] then "" else Bracketed(fs[..|fs| - 1]) + ("<" + fs[|fs| - 1])
  }

  lemma BracketedLast(fs: seq<string>, f: string)
    ensures Bracketed(fs + [f]) == Bracketed(fs) + ("<" + f)
  {
    assert (fs + [f])[..|fs|] == fs;
  }

  lemma {:induction false} BracketedAppend(fs: seq<string>, gs: seq<string>)
    ensures Bracketed(fs + gs) == Bracketed(fs) + Bracketed(gs)
  {
    if gs == [] {
      assert fs + gs == fs;
    } else {
      var front, last := gs[..|gs| - 1], gs[|gs| - 1];
      BracketedAppend(fs, front);
      assert fs + gs == fs + front + [last];
      BracketedLast(fs + front, last);
      Regroup(Bracketed(fs), Bracketed(front), "<" + last);
    }
  }

  /** Brackets before every piece are brackets between the pieces and an empty one in front. */
  lemma {:induction false} BracketedIsJoin(fs: seq<string>)
    ensures Join([""] + fs, '<') == Bracketed(fs)
  {
    if fs == [] {
      assert [""] + fs == [""];
    } else {
      var front, last := fs[..|fs| - 1], fs[|fs| - 1];
      BracketedIsJoin(front);
      assert [""] + fs == [""] + front + [last];
      JoinOneMore([""] + front, last, '<');
      Regroup(Join([""] + front, '<'), "<", last);
    }
  }

  lemma {:induction false} SixBracketed(f1: string, f2: string, f3: string, f4: string, f5: string, f6: string)
    ensures Bracketed([f1, f2, f3, f4, f5, f6])
         == "" + ("<" + f1) + ("<" + f2) + ("<" + f3) + ("<" + f4) + ("<" + f5) + ("<" + f6)
  {
    BracketedLast([], f1);
    BracketedLast([f1], f2);
    BracketedLast([f1, f2], f3);
    BracketedLast([f1, f2, f3], f4);
    BracketedLast([f1, f2, f3, f4], f5);
    BracketedLast([f1, f2, f3, f4, f5], f6);
    assert [] + [f1] == [f1] && [f1] + [f2] == [f1, f2] && [f1, f2] + [f3] == [f1, f2, f3];
    assert [f1, f2, f3] + [f4] == [f1, f2, f3, f4] && [f1, f2, f3, f4] + [f5] == [f1, f2, f3, f4, f5];
    assert [f1, f2, f3, f4, f5] + [f6] == [f1, f2, f3, f4, f5, f6];
  }

  lemma PiecesAreXml(p: Part)
    ensures Bracketed(Pieces(p)) == PartXml(p)
  {
    SixBracketed(Piece("Part", ""), Piece("PartNumber", IntToString(p.partNumber)), Piece("/PartNumber", ""),
                 Piece("ETag", QuotedText(p.etag)), Piece("/ETag", ""), Piece("/Part", ""));
  }

  lemma {:induction false} PiecesOfAreXml(parts: seq<Part>)
    ensures Bracketed(PiecesOf(parts)) == PartsXml(parts)
  {
    if parts != [] {
      var front, last := parts[..|parts| - 1], parts[|parts| - 1];
      PiecesOfAreXml(front);
      BracketedAppend(PiecesOf(front), Pieces(last));
      PiecesAreXml(last);
    }
  }

  lemma Surrounded(open: string, fs: seq<string>, close: string)
    ensures Bracketed([open] + fs + [close]) == "<" + open + Bracketed(fs) + ("<" + close)
  {
    BracketedLast([open] + fs, close);
    BracketedAppend([open], fs);
    BracketedLast([], open);
    assert [] + [open] == [open] && "" + ("<" + open) == "<" + open;
  }

  /** The body, cut at opening brackets, is these pieces. */
  lemma BodyCut(parts: seq<Part>)
    ensures Body(parts) == Join(BodyPieces(parts), '<')
  {
    var open, close := Piece(ROOT, ""), Piece("/" + ROOT, "");
    BracketedIsJoin([open] + PiecesOf(parts) + [close]);
    Surrounded(open, PiecesOf(parts), close);
    PiecesOfAreXml(parts);
  }

  lemma NumberIsText(n: int)
    ensures '<' !in IntToString(n)
  {
  }

  lemma {:induction false} PiecesHoldNoBracket(parts: seq<Part>)
    ensures forall k :: 0 <= k < |PiecesOf(parts)| ==> '<' !in PiecesOf(parts)[k]
  {
    if parts != [] {
      var p := parts[|parts| - 1];
      PiecesHoldNoBracket(parts[..|parts| - 1]);
      NumberIsText(p.partNumber);
      EscapedIsText(p.etag);
      forall k | 0 <= k < 6 ensures '<' !in Pieces(p)[k] {
      }
    }
  }

  lemma BodyPiecesHoldNoBracket(parts: seq<Part>)
    ensures forall k :: 0 <= k < |BodyPieces(parts)| ==> '<' !in BodyPieces(parts)[k]
  {
    PiecesHoldNoBracket(parts);
  }

  /** What a part's pieces say. */
  lemma PiecesTell(p: Part, q: Part)
    requires Pieces(p) == Pieces(q)
    ensures p.partNumber == q.partNumber && p.etag == q.etag
  {
    assert Pieces(p)[1] == Pieces(q)[1] && Pieces(p)[3] == Pieces(q)[3];
    PieceTells("PartNumber", IntToString(p.partNumber), IntToString(q.partNumber));
    ReadBack(p.partNumber);
    ReadBack(q.partNumber);
    PieceTells("ETag", QuotedText(p.etag), QuotedText(q.etag));
    SameMiddle("&quot;", Escaped(p.etag), Escaped(q.etag), "&quot;");
    UnescapeEscaped(p.etag);
    UnescapeEscaped(q.etag);
  }

  lemma PieceTells(name: string, x: string, y: string)
    requires Piece(name, x) == Piece(name, y)
    ensures x == y
  {
    SameRest(name + ">", x, y);
  }

  lemma SameMiddle(a: string, x: string, y: string, b: string)
    requires a + x + b == a + y + b
    ensures x == y
  {
    SameFront(a + x, a + y, b);
    SameRest(a, x, y);
  }

  lemma SameRest(a: string, x: string, y: string)
    requires a + x == a + y
    ensures x == y
  {
    assert (a + x)[|a|..] == x && (a + y)[|a|..] == y;
  }

  lemma SameFront(x: string, y: string, a: string)
    requires x + a == y + a
    ensures x == y
  {
    assert |x| == |y|;
    assert (x + a)[..|x|] == x && (y + a)[..|y|] == y;
  }

  predicate SameParts(a: seq<Part>, b: seq<Part>) {
    |a| == |b| && forall k :: 0 <= k < |a| ==> a[k].partNumber == b[k].partNumber && a[k].etag == b[k].etag
  }

  lemma SameEnds(fs: seq<string>, xs: seq<string>, gs: seq<string>, ys: seq<string>)
    requires fs + xs == gs + ys && |fs| == |gs|
    ensures fs == gs && xs == ys
  {
    assert (fs + xs)[..|fs|] == fs && (gs + ys)[..|gs|] == gs;
    assert (fs + xs)[|fs|..] == xs && (gs + ys)[|gs|..] == ys;
  }

  lemma PiecesEnd(ps: seq<Part>)
    requires ps != []
    ensures PiecesOf(ps) == PiecesOf(ps[..|ps| - 1]) + Pieces(ps[|ps| - 1])
  {
  }

  /** The last part's pieces are the last six. */
  lemma LastPieces(a: seq<Part>, b: seq<Part>)
    requires a != [] && |a| == |b| && PiecesOf(a) == PiecesOf(b)
    ensures PiecesOf(a[..|a| - 1]) == PiecesOf(b[..|b| - 1]) && Pieces(a[|a| - 1]) == Pieces(b[|b| - 1])
  {
    PiecesEnd(a);
    PiecesEnd(b);
    SameEnds(PiecesOf(a[..|a| - 1]), Pieces(a[|a| - 1]), PiecesOf(b[..|b| - 1]), Pieces(b[|b| - 1]));
  }

  lemma {:induction false} PiecesOfTell(a: seq<Part>, b: seq<Part>)
    requires PiecesOf(a) == PiecesOf(b)
    ensures SameParts(a, b)
  {
    SameNumber(a, b);
    if a != [] {
      var before, others := a[..|a| - 1], b[..|b| - 1];
      LastPieces(a, b);
      PiecesOfTell(before, others);
      PiecesTell(a[|a| - 1], b[|b| - 1]);
      OneMoreSame(a, b);
    }
  }

  lemma SameNumber(a: seq<Part>, b: seq<Part>)
    requires PiecesOf(a) == PiecesOf(b)
    ensures |a| == |b|
  {
    assert 6 * |a| == |PiecesOf(a)| == |PiecesOf(b)| == 6 * |b|;
  }

  lemma OneMoreSame(a: seq<Part>, b: seq<Part>)
    requires a != [] && |a| == |b| && SameParts(a[..|a| - 1], b[..|b| - 1])
    requires a[|a| - 1].partNumber == b[|b| - 1].partNumber && a[|a| - 1].etag == b[|b| - 1].etag
    ensures SameParts(a, b)
  {
    forall k | 0 <= k < |a| - 1 ensures a[k].partNumber == b[k].partNumber && a[k].etag == b[k].etag {
      assert a[..|a| - 1][k] == a[k] && b[..|b| - 1][k] == b[k];
    }
  }

  lemma {:induction false} SamePartsSameXml(a: seq<Part>, b: seq<Part>)
    requires SameParts(a, b)
    ensures PartsXml(a) == PartsXml(b)
  {
    if a != [] {
      SamePartsSameXml(a[..|a| - 1], b[..|b| - 1]);
    }
  }

  /** The body says exactly which parts make up the object, in which order: two lists give the same text exactly if they
      agree in every number and etag, whatever characters the etags hold. */
  lemma BodyTellsParts(a: seq<Part>, b: seq<Part>)
    ensures Body(a) == Body(b) <==> SameParts(a, b)
  {
    if SameParts(a, b) {
      SamePartsSameXml(a, b);
    } else if Body(a) == Body(b) {
      BodyCut(a);
      BodyCut(b);
      BodyPiecesHoldNoBracket(a);
      BodyPiecesHoldNoBracket(b);
      JoinFields(BodyPieces(a), '<');
      JoinFields(BodyPieces(b), '<');
      InnerPieces(a);
      InnerPieces(b);
      PiecesOfTell(a, b);
    }
  }

  lemma InnerPieces(a: seq<Part>)
    ensures |BodyPieces(a)| >= 3 && BodyPieces(a)[2..|BodyPieces(a)| - 1] == PiecesOf(a)
  {
  }
}
