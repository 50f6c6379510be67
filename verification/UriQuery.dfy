/** Percent-encoding (sections 2.1 and 2.3 of RFC 3986) and the canonical query of AWS Signature Version 4. */
module UriQuery {

  import opened StorageTypes
  import opened StringUtil

  // -------------------------------------------------------------- one component

  /** Section 2.3 of RFC 3986: letters, digits, and "-", "_", ".", "~". */
  predicate Unreserved(c: byte) {
    || 65 <= c <= 90 || 97 <= c <= 122 || 48 <= c <= 57
    || c == 45 || c == 95 || c == 46 || c == 126
  }

  const SLASH: byte := 47

  function HexDigit(n: int): char
    requires 0 <= n < 16
  {
    if n < 10 then (48 + n) as char else (55 + n) as char
  }

  function EncodedByte(c: byte, keepSlash: bool): string {
    if Unreserved(c) || (c == SLASH && keepSlash) then [c as char]
    else ['%', HexDigit(c as int / 16), HexDigit(c as int % 16)]
  }

  function Encoded(value: Bytes, keepSlash: bool): string {
    if value == [] then ""
    else Encoded(value[..|value| - 1], keepSlash) + EncodedByte(value[|value| - 1], keepSlash)
  }

  method UriEncode(value: Bytes, keepSlash: bool) returns (out: string)
    ensures out == Encoded(value, keepSlash)
  {
    out := "";
    var k := 0;
    while k < |value|
      invariant 0 <= k <= |value| && out == Encoded(value[..k], keepSlash)
    {
      var c := value[k];
      assert value[..k + 1][..k] == value[..k];
      if Unreserved(c) {
        out := out + [c as char];
      } else if c == SLASH && keepSlash {
        out := out + "/";
      } else {
        out := out + ['%'] + [HexDigit(c as int / 16)] + [HexDigit(c as int % 16)];
      }
      k := k + 1;
    }
    assert value[..|value|] == value;
  }

  /** Section 2.1 of RFC 3986: the value of an upper-case hexadecimal digit, or -1. */
  function HexValue(c: char): (n: int)
    ensures -1 <= n < 16
  {
    if '0' <= c <= '9' then c as int - 48 else if 'A' <= c <= 'F' then c as int - 55 else -1
  }

  /** Percent-decoding from position `i` on: a percent sign with two digits is the byte it names, anything else stands
      for itself. */
  function DecodedFrom(s: string, i: nat): Bytes
    requires i <= |s|
    decreases |s| - i
  {
    if i == |s| then []
    else if s[i] == '%' && i + 2 < |s| && HexValue(s[i + 1]) >= 0 && HexValue(s[i + 2]) >= 0
    then [(16 * HexValue(s[i + 1]) + HexValue(s[i + 2])) as byte] + DecodedFrom(s, i + 3)
    else [(s[i] as int % 256) as byte] + DecodedFrom(s, i + 1)
  }

  function Decoded(s: string): Bytes {
    DecodedFrom(s, 0)
  }

  lemma DigitsAreRead(c: byte)
    ensures HexValue(HexDigit(c as int / 16)) == c as int / 16 && HexValue(HexDigit(c as int % 16)) == c as int % 16
    ensures 16 * (c as int / 16) + c as int % 16 == c as int
  {
  }

  /** Where one encoded byte stands, decoding gives the byte and goes on behind it. */
  lemma DecodeOne(s: string, i: nat, c: byte, keepSlash: bool)
    requires StandsAt(s, i, EncodedByte(c, keepSlash))
    ensures DecodedFrom(s, i) == [c] + DecodedFrom(s, i + |EncodedByte(c, keepSlash)|)
  {
    var e := EncodedByte(c, keepSlash);
    if |e| == 3 {
      DigitsAreRead(c);
      assert s[i] == e[0] && s[i + 1] == e[1] && s[i + 2] == e[2];
    } else {
      assert s[i] == e[0] == c as char && c as char as int % 256 == c as int;
    }
  }

  lemma {:induction false} EncodedByteStands(value: Bytes, keepSlash: bool, k: nat)
    requires k < |value|
    ensures StandsAt(Encoded(value, keepSlash), |Encoded(value[..k], keepSlash)|, EncodedByte(value[k], keepSlash))
  {
    var front := value[..|value| - 1];
    if k < |front| {
      assert front[..k] == value[..k];
      EncodedByteStands(front, keepSlash, k);
    }
  }

  lemma EncodedOneMore(value: Bytes, keepSlash: bool, k: nat)
    requires k < |value|
    ensures |Encoded(value[..k + 1], keepSlash)| == |Encoded(value[..k], keepSlash)| + |EncodedByte(value[k], keepSlash)|
  {
    assert value[..k + 1][..k] == value[..k];
  }

  lemma {:induction false} DecodeRest(value: Bytes, keepSlash: bool, k: nat)
    requires k <= |value|
    ensures |Encoded(value[..k], keepSlash)| <= |Encoded(value, keepSlash)|
    ensures DecodedFrom(Encoded(value, keepSlash), |Encoded(value[..k], keepSlash)|) == Tail(value, k)
    decreases |value| - k
  {
    if k == |value| {
      assert value[..k] == value;
    } else {
      DecodeRest(value, keepSlash, k + 1);
      EncodedByteStands(value, keepSlash, k);
      EncodedOneMore(value, keepSlash, k);
      DecodeOne(Encoded(value, keepSlash), |Encoded(value[..k], keepSlash)|, value[k], keepSlash);
    }
  }

  /** Decoding undoes encoding, in both slash modes. */
  lemma DecodeEncoded(value: Bytes, keepSlash: bool)
    ensures Decoded(Encoded(value, keepSlash)) == value
  {
    DecodeRest(value, keepSlash, 0);
    assert value[..0] == [] && Tail(value, 0) == value;
  }

  /** Section 2.3 of RFC 3986 again, for characters. */
  predicate UnreservedChar(c: char) {
    'A' <= c <= 'Z' || 'a' <= c <= 'z' || '0' <= c <= '9' || c == '-' || c == '.' || c == '_' || c == '~'
  }

  /** An encoded component is made of unreserved characters and percent signs, and slashes if they are kept. */
  lemma {:induction false} EncodedAlphabet(value: Bytes, keepSlash: bool)
    ensures forall k :: 0 <= k < |Encoded(value, keepSlash)| ==>
              var c := Encoded(value, keepSlash)[k]; UnreservedChar(c) || c == '%' || (c == '/' && keepSlash)
  {
    if value != [] {
      EncodedAlphabet(value[..|value| - 1], keepSlash);
      ByteAlphabet(value[|value| - 1], keepSlash);
    }
  }

  lemma ByteAlphabet(c: byte, keepSlash: bool)
    ensures forall k :: 0 <= k < |EncodedByte(c, keepSlash)| ==>
              var e := EncodedByte(c, keepSlash)[k]; UnreservedChar(e) || e == '%' || (e == '/' && keepSlash)
    ensures UnreservedChar(c as char) <==> Unreserved(c)
    ensures |EncodedByte(c, keepSlash)| == 1 <==> UnreservedChar(c as char) || (c == SLASH && keepSlash)
  {
  }

  // ------------------------------------------------------------------- the order

  /** `a <= b` as `std::string` compares: byte by byte. */
  predicate Below(a: string, b: string) {
    a == "" || (b != "" && (a[0] < b[0] || (a[0] == b[0] && Below(a[1..], b[1..]))))
  }

  lemma {:induction false} BelowTotal(a: string, b: string)
    ensures Below(a, b) || Below(b, a)
    ensures Below(a, b) && Below(b, a) ==> a == b
  {
    if a != "" && b != "" && a[0] == b[0] {
      BelowTotal(a[1..], b[1..]);
      assert a == [a[0]] + a[1..] && b == [b[0]] + b[1..];
    }
  }

  lemma {:induction false} BelowTransitive(a: string, b: string, c: string)
    requires Below(a, b) && Below(b, c)
    ensures Below(a, c)
  {
    if a != "" && a[0] == b[0] == c[0] {
      BelowTransitive(a[1..], b[1..], c[1..]);
    }
  }

  type Pair = (string, string)

  /** By name, then by value. */
  predicate PairBelow(a: Pair, b: Pair) {
    if a.0 == b.0 then Below(a.1, b.1) else Below(a.0, b.0)
  }

  lemma PairTotal(a: Pair, b: Pair)
    ensures PairBelow(a, b) || PairBelow(b, a)
    ensures PairBelow(a, b) && PairBelow(b, a) ==> a == b
  {
    BelowTotal(a.0, b.0);
    BelowTotal(a.1, b.1);
  }

  lemma PairTransitive(a: Pair, b: Pair, c: Pair)
    requires PairBelow(a, b) && PairBelow(b, c)
    ensures PairBelow(a, c)
  {
    if a.0 == b.0 == c.0 {
      BelowTransitive(a.1, b.1, c.1);
    } else {
      BelowTotal(a.0, b.0);
      BelowTotal(b.0, c.0);
      BelowTotal(a.0, c.0);
      if a.0 != b.0 && b.0 != c.0 {
        BelowTransitive(a.0, b.0, c.0);
      }
    }
  }

  ghost predicate Ordered(ps: seq<Pair>) {
    forall j, k :: 0 <= j < k < |ps| ==> PairBelow(ps[j], ps[k])
  }

  function Insert(p: Pair, ps: seq<Pair>): seq<Pair> {
    if ps == [] then [p]
    else if PairBelow(ps[|ps| - 1], p) then ps + [p]
    else Insert(p, ps[..|ps| - 1]) + [ps[|ps| - 1]]
  }

  /** What `std::sort` leaves: the order is total, so the algorithm does not matter. */
  function Sorted(ps: seq<Pair>): seq<Pair> {
    if ps == [] then [] else Insert(ps[|ps| - 1], Sorted(ps[..|ps| - 1]))
  }

  lemma SplitMultiset<T>(ps: seq<T>)
    requires ps != []
    ensures multiset(ps) == multiset(ps[..|ps| - 1]) + multiset{ps[|ps| - 1]}
    ensures multiset(ps[..|ps| - 1]) == multiset(ps) - multiset{ps[|ps| - 1]}
  {
    assert ps == ps[..|ps| - 1] + [ps[|ps| - 1]];
  }

  lemma {:induction false} InsertKeeps(p: Pair, ps: seq<Pair>)
    requires Ordered(ps)
    ensures multiset(Insert(p, ps)) == multiset(ps) + multiset{p} && Ordered(Insert(p, ps))
  {
    if ps != [] {
      var front, last := ps[..|ps| - 1], ps[|ps| - 1];
      SplitMultiset(ps);
      if PairBelow(last, p) {
        forall k | 0 <= k < |ps| ensures PairBelow(ps[k], p) {
          if k < |ps| - 1 { PairTransitive(ps[k], last, p); }
        }
      } else {
        PairTotal(last, p);
        InsertKeeps(p, front);
        var q := Insert(p, front);
        forall k | 0 <= k < |q| ensures PairBelow(q[k], last) {
          assert q[k] in multiset(q);
          assert q[k] == p || q[k] in front;
        }
      }
    }
  }

  lemma {:induction false} SortedIsOrdered(ps: seq<Pair>)
    ensures Ordered(Sorted(ps)) && multiset(Sorted(ps)) == multiset(ps)
  {
    if ps != [] {
      SortedIsOrdered(ps[..|ps| - 1]);
      InsertKeeps(ps[|ps| - 1], Sorted(ps[..|ps| - 1]));
      SplitMultiset(ps);
    }
  }

  /** The last of ordered pairs is the greatest of them. */
  lemma LastIsGreatest(ps: seq<Pair>, p: Pair)
    requires Ordered(ps) && p in multiset(ps)
    ensures PairBelow(p, ps[|ps| - 1])
  {
    var k :| 0 <= k < |ps| && ps[k] == p;
    PairTotal(p, p);
  }

  /** There is only one order of the same pairs. */
  lemma {:induction false} OrderIsUnique(ps: seq<Pair>, qs: seq<Pair>)
    requires Ordered(ps) && Ordered(qs) && multiset(ps) == multiset(qs)
    ensures ps == qs
  {
    if ps == [] || qs == [] {
      assert |multiset(ps)| == |ps| && |multiset(qs)| == |qs|;
    } else {
      var p, q := ps[|ps| - 1], qs[|qs| - 1];
      assert p in multiset(ps) && q in multiset(qs);
      LastIsGreatest(qs, p);
      LastIsGreatest(ps, q);
      PairTotal(p, q);
      var before, others := ps[..|ps| - 1], qs[..|qs| - 1];
      assert multiset(before) == multiset(others) by {
        SplitMultiset(ps);
        SplitMultiset(qs);
      }
      OrderIsUnique(before, others);
      assert ps == before + [p] && qs == others + [q];
    }
  }

  // ------------------------------------------------------------- canonical query

  type RawPair = (Bytes, Bytes)

  function EncodedPair(p: RawPair): Pair {
    (Encoded(p.0, false), Encoded(p.1, false))
  }

  function EncodedPairs(query: seq<RawPair>): (ps: seq<Pair>)
    ensures |ps| == |query| && forall k :: 0 <= k < |query| ==> ps[k] == EncodedPair(query[k])
  {
    if query == [] then [] else EncodedPairs(query[..|query| - 1]) + [EncodedPair(query[|query| - 1])]
  }

  function Field(p: Pair): string {
    p.0 + "=" + p.1
  }

  function FieldsOf(ps: seq<Pair>): (fs: seq<string>)
    ensures |fs| == |ps| && forall k :: 0 <= k < |ps| ==> fs[k] == Field(ps[k])
  {
    if ps == [] then [] else FieldsOf(ps[..|ps| - 1]) + [Field(ps[|ps| - 1])]
  }

  function JoinPairs(ps: seq<Pair>): string {
    Join(FieldsOf(ps), '&')
  }

  /** The query is given in the order the multimap is walked in. */
  function Canonical(query: seq<RawPair>): string {
    JoinPairs(Sorted(EncodedPairs(query)))
  }

  lemma JoinPairsOneMore(ps: seq<Pair>, k: nat)
    requires k < |ps|
    ensures JoinPairs(ps[..k + 1]) == if k == 0 then Field(ps[k]) else JoinPairs(ps[..k]) + "&" + Field(ps[k])
    ensures JoinPairs(ps[..k + 1]) != ""
  {
    assert ps[..k + 1][..k] == ps[..k];
    JoinOneMore(FieldsOf(ps[..k]), Field(ps[k]), '&');
  }

  /** A pair written piece by piece is its field, behind what is there. */
  lemma PieceByPiece(before: string, p: Pair)
    ensures before + p.0 + "=" + p.1 == before + Field(p)
  {
  }

  method EncodeQuery(query: seq<RawPair>) returns (encoded: seq<Pair>)
    ensures encoded == EncodedPairs(query)
  {
    encoded := [];
    var k := 0;
    while k < |query|
      invariant 0 <= k <= |query| && encoded == EncodedPairs(query[..k])
    {
      assert query[..k + 1][..k] == query[..k];
      var name := UriEncode(query[k].0, false);
      var value := UriEncode(query[k].1, false);
      encoded := encoded + [(name, value)];
      k := k + 1;
    }
    assert query[..|query|] == query;
  }

  /** The query part of `SigV4CanonicalRequest`. */
  method CanonicalQuery(query: seq<RawPair>) returns (canonical: string)
    ensures canonical == Canonical(query)
  {
    var encoded := EncodeQuery(query);
    encoded := Sorted(encoded);
    canonical := "";
    var k := 0;
    while k < |encoded|
      invariant 0 <= k <= |encoded| && canonical == JoinPairs(encoded[..k]) && (canonical == "" <==> k == 0)
    {
      JoinPairsOneMore(encoded, k);
      if canonical != "" {
        canonical := canonical + "&";
      }
      PieceByPiece(canonical, encoded[k]);
      assert "" + Field(encoded[k]) == Field(encoded[k]);
      canonical := canonical + encoded[k].0;
      canonical := canonical + "=";
      canonical := canonical + encoded[k].1;
      k := k + 1;
    }
    assert encoded[..|encoded|] == encoded;
  }

  /** The query `Send` puts on the wire: what is signed, behind a question mark, or nothing. */
  method WireQuery(query: seq<RawPair>) returns (wire: string)
    ensures wire == if query == [] then "" else "?" + Canonical(query)
  {
    var encoded := EncodeQuery(query);
    encoded := Sorted(encoded);
    SortedLength(EncodedPairs(query));
    wire := "";
    var k := 0;
    while k < |encoded|
      invariant 0 <= k <= |encoded| && (wire == "" <==> k == 0)
      invariant k > 0 ==> wire == "?" + JoinPairs(encoded[..k])
    {
      WireOneMore(encoded, k);
      wire := wire + if wire == "" then "?" else "&";
      wire := wire + (encoded[k].0 + "=" + encoded[k].1);
      k := k + 1;
    }
    assert encoded[..|encoded|] == encoded;
  }

  lemma WireOneMore(ps: seq<Pair>, k: nat)
    requires k < |ps|
    ensures "?" + JoinPairs(ps[..k + 1]) == (if k == 0 then "" + "?" else "?" + JoinPairs(ps[..k]) + "&") + Field(ps[k])
  {
    JoinPairsOneMore(ps, k);
    if k > 0 {
      assert "?" + (JoinPairs(ps[..k]) + "&" + Field(ps[k])) == "?" + JoinPairs(ps[..k]) + "&" + Field(ps[k]);
    }
  }

  lemma SortedLength(ps: seq<Pair>)
    ensures |Sorted(ps)| == |ps|
  {
    SortedIsOrdered(ps);
    assert |multiset(Sorted(ps))| == |Sorted(ps)| && |multiset(ps)| == |ps|;
  }

  // ----------------------------------------------------------- what it depends on

  lemma PairTells(p: RawPair, q: RawPair)
    requires EncodedPair(p) == EncodedPair(q)
    ensures p == q
  {
    DecodeEncoded(p.0, false);
    DecodeEncoded(q.0, false);
    DecodeEncoded(p.1, false);
    DecodeEncoded(q.1, false);
  }

  /** A pair occurs as often as its encoding does, since different pairs are encoded differently. */
  lemma {:induction false} SameCount(a: seq<RawPair>, p: RawPair)
    ensures multiset(EncodedPairs(a))[EncodedPair(p)] == multiset(a)[p]
  {
    if a != [] {
      var front, last := a[..|a| - 1], a[|a| - 1];
      SameCount(front, p);
      SplitMultiset(a);
      EncodedLast(a);
      if EncodedPair(last) == EncodedPair(p) {
        PairTells(last, p);
      }
    }
  }

  lemma EncodedLast(a: seq<RawPair>)
    requires a != []
    ensures multiset(EncodedPairs(a)) == multiset(EncodedPairs(a[..|a| - 1])) + multiset{EncodedPair(a[|a| - 1])}
  {
    SplitMultiset(EncodedPairs(a));
    assert EncodedPairs(a)[..|a| - 1] == EncodedPairs(a[..|a| - 1]);
  }

  lemma SameEncodedPairs(a: seq<RawPair>, b: seq<RawPair>)
    requires multiset(a) == multiset(b)
    ensures multiset(EncodedPairs(a)) == multiset(EncodedPairs(b))
  {
    forall q: Pair ensures multiset(EncodedPairs(a))[q] == multiset(EncodedPairs(b))[q] {
      NoMoreOften(a, b, q);
      NoMoreOften(b, a, q);
    }
  }

  lemma SamePairs(a: seq<RawPair>, b: seq<RawPair>)
    requires multiset(EncodedPairs(a)) == multiset(EncodedPairs(b))
    ensures multiset(a) == multiset(b)
  {
    forall p: RawPair ensures multiset(a)[p] == multiset(b)[p] {
      SameCount(a, p);
      SameCount(b, p);
    }
  }

  lemma NoMoreOften(a: seq<RawPair>, b: seq<RawPair>, q: Pair)
    requires multiset(a) == multiset(b)
    ensures multiset(EncodedPairs(a))[q] <= multiset(EncodedPairs(b))[q]
  {
    if q in multiset(EncodedPairs(a)) {
      var k :| 0 <= k < |a| && EncodedPairs(a)[k] == q;
      SameCount(a, a[k]);
      SameCount(b, a[k]);
    }
  }

  /** The order in which the pairs are given does not matter. */
  lemma CanonicalIgnoresOrder(a: seq<RawPair>, b: seq<RawPair>)
    requires multiset(a) == multiset(b)
    ensures Canonical(a) == Canonical(b)
  {
    SameEncodedPairs(a, b);
    SortedIsOrdered(EncodedPairs(a));
    SortedIsOrdered(EncodedPairs(b));
    OrderIsUnique(Sorted(EncodedPairs(a)), Sorted(EncodedPairs(b)));
  }

  // ----------------------------------------------------------- what it determines

  /** No ampersand or equals sign in a name or value. */
  predicate PlainPair(p: Pair) {
    '&' !in p.0 && '=' !in p.0 && '&' !in p.1 && '=' !in p.1
  }

  lemma EncodedIsPlain(p: RawPair)
    ensures PlainPair(EncodedPair(p))
  {
    EncodedAlphabet(p.0, false);
    EncodedAlphabet(p.1, false);
  }

  lemma FieldTells(p: Pair, q: Pair)
    requires PlainPair(p) && PlainPair(q) && Field(p) == Field(q)
    ensures p == q
  {
    FieldParts(p);
    FieldParts(q);
    assert [p.0, p.1][0] == [q.0, q.1][0] && [p.0, p.1][1] == [q.0, q.1][1];
  }

  lemma FieldParts(p: Pair)
    requires PlainPair(p)
    ensures Fields(Field(p), '=') == [p.0, p.1]
  {
    var fs := [p.0, p.1];
    assert fs[..1] == [p.0];
    assert Join(fs, '=') == p.0 + ['='] + p.1;
    JoinFields(fs, '=');
  }

  /** The pairs can be read off the joined text. */
  lemma JoinedTells(ps: seq<Pair>, qs: seq<Pair>)
    requires (forall k :: 0 <= k < |ps| ==> PlainPair(ps[k])) && (forall k :: 0 <= k < |qs| ==> PlainPair(qs[k]))
    requires JoinPairs(ps) == JoinPairs(qs)
    ensures ps == qs
  {
    if ps == [] || qs == [] {
      NothingJoined(ps);
      NothingJoined(qs);
    } else {
      JoinFields(FieldsOf(ps), '&');
      JoinFields(FieldsOf(qs), '&');
      forall k | 0 <= k < |ps| ensures ps[k] == qs[k] {
        assert FieldsOf(ps)[k] == FieldsOf(qs)[k];
        FieldTells(ps[k], qs[k]);
      }
    }
  }

  lemma NothingJoined(ps: seq<Pair>)
    ensures JoinPairs(ps) == "" <==> ps == []
  {
    if ps != [] {
      JoinPairsOneMore(ps, |ps| - 1);
      assert ps[..|ps| - 1 + 1] == ps;
    }
  }

  /** The canonical query stands for exactly one multiset of pairs: it depends on nothing else and loses nothing. */
  lemma CanonicalIffSamePairs(a: seq<RawPair>, b: seq<RawPair>)
    ensures Canonical(a) == Canonical(b) <==> multiset(a) == multiset(b)
  {
    if multiset(a) == multiset(b) {
      CanonicalIgnoresOrder(a, b);
    } else if Canonical(a) == Canonical(b) {
      SortedIsOrdered(EncodedPairs(a));
      SortedIsOrdered(EncodedPairs(b));
      SortedIsPlain(a);
      SortedIsPlain(b);
      JoinedTells(Sorted(EncodedPairs(a)), Sorted(EncodedPairs(b)));
      SamePairs(a, b);
    }
  }

  lemma SortedIsPlain(a: seq<RawPair>)
    ensures forall k :: 0 <= k < |Sorted(EncodedPairs(a))| ==> PlainPair(Sorted(EncodedPairs(a))[k])
  {
    var ps := Sorted(EncodedPairs(a));
    SortedIsOrdered(EncodedPairs(a));
    forall k | 0 <= k < |ps| ensures PlainPair(ps[k]) {
      assert ps[k] in multiset(ps);
      assert ps[k] in multiset(EncodedPairs(a));
      var j :| 0 <= j < |a| && EncodedPairs(a)[j] == ps[k];
      EncodedIsPlain(a[j]);
    }
  }
}
