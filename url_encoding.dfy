/** The query-string format `URLSearchParams` produces: the application/x-www-form-urlencoded
    serializer of section 5.2 of the WHATWG URL Standard, on top of UTF-8 (the WHATWG Encoding
    Standard). The parser of the same section is modelled as well, as the serializer's inverse. */
module UrlEncoding {
  import opened Wrappers

  type Byte = b: int | 0 <= b < 256

  const AMPERSAND: Byte := 0x26
  const EQUALS: Byte := 0x3D
  const PLUS: Byte := 0x2B
  const PERCENT: Byte := 0x25
  const SPACE: Byte := 0x20

  // ---------------------------------------------------------------- UTF-8

  /** The UTF-8 encoding of one scalar value. */
  function CharUtf8(c: char): (bs: seq<Byte>)
    ensures 1 <= |bs| <= 4
    ensures |bs| == 1 <==> c as int < 0x80
    ensures |bs| == 1 ==> bs[0] == c as int
  {
    var cp := c as int;
    if cp < 0x80 then [cp]
    else if cp < 0x800 then [0xC0 + cp / 64, 0x80 + cp % 64]
    else if cp < 0x10000 then [0xE0 + cp / 4096, 0x80 + (cp / 64) % 64, 0x80 + cp % 64]
    else [0xF0 + cp / 262144, 0x80 + (cp / 4096) % 64, 0x80 + (cp / 64) % 64, 0x80 + cp % 64]
  }

  function Utf8(s: string): (bs: seq<Byte>)
    ensures |bs| >= |s|
  {
    if s == [] then [] else CharUtf8(s[0]) + Utf8(s[1..])
  }

  predicate IsContinuation(b: Byte)
  {
    0x80 <= b < 0xC0
  }

  predicate IsScalar(cp: int)
  {
    (0 <= cp < 0xD800) || (0xE000 <= cp < 0x110000)
  }

  /** Decodes the first scalar value of `bs` and says how many bytes it took; fails on a byte
      sequence that is not well-formed UTF-8 (a stray continuation byte, an overlong form, a
      surrogate, a value past U+10FFFF or a truncated sequence). */
  function DecodeChar(bs: seq<Byte>): (r: Option<(char, nat)>)
    requires |bs| > 0
    ensures r.Some? ==> 1 <= r.value.1 <= |bs|
  {
    var b0 := bs[0] as int;
    if b0 < 0x80 then Some((b0 as char, 1))
    else if 0xC2 <= b0 < 0xE0 && |bs| >= 2 && IsContinuation(bs[1]) then
      var cp := (b0 - 0xC0) * 64 + (bs[1] as int - 0x80);
      Some((cp as char, 2))
    else if 0xE0 <= b0 < 0xF0 && |bs| >= 3 && IsContinuation(bs[1]) && IsContinuation(bs[2]) then
      var cp := (b0 - 0xE0) * 4096 + (bs[1] as int - 0x80) * 64 + (bs[2] as int - 0x80);
      if 0x800 <= cp && IsScalar(cp) then Some((cp as char, 3)) else None
    else if 0xF0 <= b0 < 0xF5 && |bs| >= 4 && IsContinuation(bs[1]) && IsContinuation(bs[2])
      && IsContinuation(bs[3]) then
      var cp := (b0 - 0xF0) * 262144 + (bs[1] as int - 0x80) * 4096 + (bs[2] as int - 0x80) * 64
        + (bs[3] as int - 0x80);
      if 0x10000 <= cp < 0x110000 then Some((cp as char, 4)) else None
    else None
  }

  function DecodeUtf8(bs: seq<Byte>): Option<string>
    decreases |bs|
  {
    if bs == [] then Some([])
    else
      match DecodeChar(bs)
      case None => None
      case Some((c, n)) =>
        match DecodeUtf8(bs[n..])
        case None => None
        case Some(s) => Some([c] + s)
  }

  lemma DecodeTwo(c: char, rest: seq<Byte>)
    requires 0x80 <= c as int < 0x800
    ensures DecodeChar(CharUtf8(c) + rest) == Some((c, 2))
  {
    var cp := c as int;
    var bs := CharUtf8(c) + rest;
    assert bs[0] == 0xC0 + cp / 64 && bs[1] == 0x80 + cp % 64;
  }

  lemma DecodeThree(c: char, rest: seq<Byte>)
    requires 0x800 <= c as int < 0x10000
    ensures DecodeChar(CharUtf8(c) + rest) == Some((c, 3))
  {
    var cp := c as int;
    var bs := CharUtf8(c) + rest;
    var hi, mid, lo := cp / 4096, (cp / 64) % 64, cp % 64;
    assert bs[0] == 0xE0 + hi && bs[1] == 0x80 + mid && bs[2] == 0x80 + lo;
    assert cp / 64 == hi * 64 + mid;
    assert cp == hi * 4096 + mid * 64 + lo;
  }

  lemma DecodeFour(c: char, rest: seq<Byte>)
    requires 0x10000 <= c as int
    ensures DecodeChar(CharUtf8(c) + rest) == Some((c, 4))
  {
    var cp := c as int;
    var bs := CharUtf8(c) + rest;
    var top, hi, mid, lo := cp / 262144, (cp / 4096) % 64, (cp / 64) % 64, cp % 64;
    assert bs[0] == 0xF0 + top && bs[1] == 0x80 + hi && bs[2] == 0x80 + mid && bs[3] == 0x80 + lo;
    assert cp / 4096 == top * 64 + hi;
    assert cp / 64 == (cp / 4096) * 64 + mid;
    assert cp == top * 262144 + hi * 4096 + mid * 64 + lo;
  }

  /** Decoding the encoding of one scalar value gives it back, whatever follows it. */
  lemma DecodeCharUtf8(c: char, rest: seq<Byte>)
    ensures DecodeChar(CharUtf8(c) + rest) == Some((c, |CharUtf8(c)|))
  {
    var cp := c as int;
    if cp < 0x80 {
      assert (CharUtf8(c) + rest)[0] == cp;
    } else if cp < 0x800 {
      DecodeTwo(c, rest);
    } else if cp < 0x10000 {
      DecodeThree(c, rest);
    } else {
      DecodeFour(c, rest);
    }
  }

  /** UTF-8 decoding inverts UTF-8 encoding. */
  lemma {:induction false} Utf8RoundTrip(s: string)
    ensures DecodeUtf8(Utf8(s)) == Some(s)
  {
    if s != [] {
      var head := CharUtf8(s[0]);
      var bs := Utf8(s);
      assert bs == head + Utf8(s[1..]);
      DecodeCharUtf8(s[0], Utf8(s[1..]));
      assert bs[|head|..] == Utf8(s[1..]);
      Utf8RoundTrip(s[1..]);
      assert [s[0]] + s[1..] == s;
    }
  }

  /** An ASCII string encodes to its own code units. */
  lemma {:induction false} Utf8Ascii(bs: seq<Byte>)
    requires forall i :: 0 <= i < |bs| ==> bs[i] < 0x80
    ensures Utf8(Chars(bs)) == bs
  {
    if bs != [] {
      assert Chars(bs) == [bs[0] as char] + Chars(bs[1..]);
      assert Chars(bs)[1..] == Chars(bs[1..]);
      Utf8Ascii(bs[1..]);
    }
  }

  /** The string whose code units are the given bytes. */
  function Chars(bs: seq<Byte>): (s: string)
    ensures |s| == |bs|
    ensures forall i :: 0 <= i < |bs| ==> s[i] as int == bs[i]
  {
    if bs == [] then [] else [bs[0] as char] + Chars(bs[1..])
  }

  // ------------------------------------------------ percent-encoding

  /** The bytes the application/x-www-form-urlencoded percent-encode set leaves as they are:
      ASCII alphanumerics and `*`, `-`, `.`, `_`. */
  predicate Unreserved(b: Byte)
  {
    (0x30 <= b <= 0x39) || (0x41 <= b <= 0x5A) || (0x61 <= b <= 0x7A) ||
    b == 0x2A || b == 0x2D || b == 0x2E || b == 0x5F
  }

  /** An upper-case hexadecimal digit. */
  function HexDigit(n: int): (b: Byte)
    requires 0 <= n < 16
    ensures Unreserved(b)
  {
    if n < 10 then 0x30 + n else 0x41 + (n - 10)
  }

  predicate IsHex(b: Byte)
  {
    (0x30 <= b <= 0x39) || (0x41 <= b <= 0x46) || (0x61 <= b <= 0x66)
  }

  function HexValue(b: Byte): (n: int)
    requires IsHex(b)
    ensures 0 <= n < 16
  {
    if b <= 0x39 then b - 0x30 else if b <= 0x46 then b - 0x41 + 10 else b - 0x61 + 10
  }

  /** One byte of a name or value: a space becomes `+`, an unreserved byte stays, every other
      byte becomes `%` and two upper-case hexadecimal digits. */
  function EncodeByte(b: Byte): (out: seq<Byte>)
    ensures forall i :: 0 <= i < |out| ==> Unreserved(out[i]) || out[i] == PLUS || out[i] == PERCENT
  {
    if b == SPACE then [PLUS]
    else if Unreserved(b) then [b]
    else [PERCENT, HexDigit(b / 16), HexDigit(b % 16)]
  }

  function EncodeBytes(bs: seq<Byte>): (out: seq<Byte>)
    ensures forall i :: 0 <= i < |out| ==> Unreserved(out[i]) || out[i] == PLUS || out[i] == PERCENT
  {
    if bs == [] then [] else EncodeByte(bs[0]) + EncodeBytes(bs[1..])
  }

  /** The urlencoded form of a name or a value (UTF-8, then percent-encoding with `+` for
      spaces). */
  function Encode(s: string): seq<Byte>
  {
    EncodeBytes(Utf8(s))
  }

  /** The parser's first step on a name or value: every `+` becomes a space. */
  function PlusToSpace(bs: seq<Byte>): (out: seq<Byte>)
    ensures |out| == |bs|
  {
    if bs == [] then [] else [if bs[0] == PLUS then SPACE else bs[0]] + PlusToSpace(bs[1..])
  }

  /** Percent-decoding: `%` and two hexadecimal digits become that byte; anything else,
      including a `%` not followed by two digits, is kept. */
  function PercentDecode(bs: seq<Byte>): seq<Byte>
  {
    if bs == [] then []
    else if bs[0] == PERCENT && |bs| >= 3 && IsHex(bs[1]) && IsHex(bs[2]) then
      [HexValue(bs[1]) * 16 + HexValue(bs[2])] + PercentDecode(bs[3..])
    else [bs[0]] + PercentDecode(bs[1..])
  }

  function DecodeComponent(bs: seq<Byte>): Option<string>
  {
    DecodeUtf8(PercentDecode(PlusToSpace(bs)))
  }

  lemma {:induction false} PlusToSpaceAppend(a: seq<Byte>, b: seq<Byte>)
    ensures PlusToSpace(a + b) == PlusToSpace(a) + PlusToSpace(b)
  {
    if a == [] {
      assert a + b == b;
    } else {
      assert (a + b)[0] == a[0];
      assert (a + b)[1..] == a[1..] + b;
      PlusToSpaceAppend(a[1..], b);
    }
  }

  lemma {:induction false} PlusToSpaceNoPlus(bs: seq<Byte>)
    requires Avoids(bs, PLUS)
    ensures PlusToSpace(bs) == bs
  {
    if bs != [] {
      PlusToSpaceNoPlus(bs[1..]);
    }
  }

  lemma DecodeEncodedByte(b: Byte, rest: seq<Byte>)
    ensures PercentDecode(PlusToSpace(EncodeByte(b)) + rest) == [b] + PercentDecode(rest)
  {
    var e := PlusToSpace(EncodeByte(b));
    if b == SPACE {
      assert e == [SPACE];
      assert (e + rest)[1..] == rest;
    } else if Unreserved(b) {
      assert e == [b];
      assert (e + rest)[1..] == rest;
    } else {
      PlusToSpaceNoPlus(EncodeByte(b));
      assert e == [PERCENT, HexDigit(b / 16), HexDigit(b % 16)];
      assert (e + rest)[3..] == rest;
    }
  }

  /** Decoding a component inverts encoding it, byte by byte. */
  lemma {:induction false} PercentRoundTrip(bs: seq<Byte>)
    ensures PercentDecode(PlusToSpace(EncodeBytes(bs))) == bs
  {
    if bs != [] {
      PlusToSpaceAppend(EncodeByte(bs[0]), EncodeBytes(bs[1..]));
      DecodeEncodedByte(bs[0], PlusToSpace(EncodeBytes(bs[1..])));
      PercentRoundTrip(bs[1..]);
    }
  }

  lemma ComponentRoundTrip(s: string)
    ensures DecodeComponent(Encode(s)) == Some(s)
  {
    PercentRoundTrip(Utf8(s));
    Utf8RoundTrip(s);
  }

  // ------------------------------------------------ serializer and parser

  /** `name=value` for one entry. */
  function EntryBytes(name: string, value: string): seq<Byte>
  {
    Encode(name) + [EQUALS] + Encode(value)
  }

  /** The entries joined with `&`. */
  function SerializeBytes(entries: seq<(string, string)>): seq<Byte>
  {
    if entries == [] then []
    else if |entries| == 1 then EntryBytes(entries[0].0, entries[0].1)
    else EntryBytes(entries[0].0, entries[0].1) + [AMPERSAND] + SerializeBytes(entries[1..])
  }

  /** The query string `URLSearchParams.toString()` gives for a list of entries. */
  function Serialize(entries: seq<(string, string)>): (r: string)
    ensures Utf8(r) == SerializeBytes(entries)
    ensures r == "" <==> entries == []
  {
    SerializedAscii(entries);
    Utf8Ascii(SerializeBytes(entries));
    SerializedEmpty(entries);
    Chars(SerializeBytes(entries))
  }

  lemma SerializedEmpty(entries: seq<(string, string)>)
    ensures SerializeBytes(entries) == [] <==> entries == []
  {
    if entries != [] {
      EntryAvoids(entries[0].0, entries[0].1);
    }
  }

  /** How many times `b` occurs in `bs`. */
  function Occurrences(bs: seq<Byte>, b: Byte): nat
  {
    if bs == [] then 0 else (if bs[0] == b then 1 else 0) + Occurrences(bs[1..], b)
  }

  /** The byte sequences between the separators (an empty input is one empty sequence). */
  function SplitOn(bs: seq<Byte>, sep: Byte): (parts: seq<seq<Byte>>)
    ensures |parts| == Occurrences(bs, sep) + 1
  {
    if bs == [] then [[]]
    else
      var rest := SplitOn(bs[1..], sep);
      if bs[0] == sep then [[]] + rest else [[bs[0]] + rest[0]] + rest[1..]
  }

  /** The bytes before the first separator and those after it. */
  function SplitFirst(bs: seq<Byte>, sep: Byte): (seq<Byte>, seq<Byte>)
  {
    if bs == [] then ([], [])
    else if bs[0] == sep then ([], bs[1..])
    else
      var (a, b) := SplitFirst(bs[1..], sep);
      ([bs[0]] + a, b)
  }

  function ParseSequences(parts: seq<seq<Byte>>): (r: Option<seq<(string, string)>>)
    ensures r.Some? ==> |r.value| <= |parts|
  {
    if parts == [] then Some([])
    else if parts[0] == [] then ParseSequences(parts[1..])
    else
      var (n, v) := SplitFirst(parts[0], EQUALS);
      match (DecodeComponent(n), DecodeComponent(v), ParseSequences(parts[1..]))
      case (Some(name), Some(value), Some(rest)) => Some([(name, value)] + rest)
      case _ => None
  }

  /** The application/x-www-form-urlencoded parser; `None` where the standard would insert
      replacement characters for malformed UTF-8. */
  function Parse(query: string): (r: Option<seq<(string, string)>>)
    ensures query == "" ==> r == Some([])
    ensures r.Some? ==> |r.value| <= Occurrences(Utf8(query), AMPERSAND) + 1
  {
    var parts := SplitOn(Utf8(query), AMPERSAND);
    assert query == "" ==> parts == [[]] && ParseSequences(parts) == ParseSequences([]);
    ParseSequences(parts)
  }

  predicate Avoids(bs: seq<Byte>, b: Byte)
  {
    forall i :: 0 <= i < |bs| ==> bs[i] != b
  }

  lemma {:induction false} SplitOnAvoiding(a: seq<Byte>, sep: Byte, tail: seq<Byte>)
    requires Avoids(a, sep)
    ensures SplitOn(a + tail, sep) ==
      [a + SplitOn(tail, sep)[0]] + SplitOn(tail, sep)[1..]
  {
    if a != [] {
      assert (a + tail)[1..] == a[1..] + tail;
      SplitOnAvoiding(a[1..], sep, tail);
      assert [a[0]] + (a[1..] + SplitOn(tail, sep)[0]) == a + SplitOn(tail, sep)[0];
    } else {
      var parts := SplitOn(tail, sep);
      assert a + tail == tail;
      assert a + parts[0] == parts[0];
      assert [parts[0]] + parts[1..] == parts;
    }
  }

  lemma {:induction false} SplitFirstAvoiding(a: seq<Byte>, sep: Byte, tail: seq<Byte>)
    requires Avoids(a, sep)
    ensures SplitFirst(a + [sep] + tail, sep) == (a, tail)
  {
    if a == [] {
      assert a + [sep] + tail == [sep] + tail;
    } else {
      assert (a + [sep] + tail)[1..] == a[1..] + [sep] + tail;
      SplitFirstAvoiding(a[1..], sep, tail);
      assert [a[0]] + a[1..] == a;
    }
  }

  lemma EncodedAvoids(s: string, b: Byte)
    requires !Unreserved(b) && b != PLUS && b != PERCENT
    ensures Avoids(Encode(s), b)
  {
  }

  lemma {:induction false} SerializedAscii(entries: seq<(string, string)>)
    ensures forall i :: 0 <= i < |SerializeBytes(entries)| ==> SerializeBytes(entries)[i] < 0x80
  {
    if |entries| > 1 {
      SerializedAscii(entries[1..]);
    }
  }

  lemma EntryAvoids(name: string, value: string)
    ensures Avoids(EntryBytes(name, value), AMPERSAND)
    ensures EntryBytes(name, value) != []
  {
    EncodedAvoids(name, AMPERSAND);
    EncodedAvoids(value, AMPERSAND);
    assert EntryBytes(name, value)[|Encode(name)|] == EQUALS;
  }

  lemma ParseEntry(name: string, value: string, parts: seq<seq<Byte>>, rest: seq<(string, string)>)
    requires ParseSequences(parts) == Some(rest)
    ensures ParseSequences([EntryBytes(name, value)] + parts) == Some([(name, value)] + rest)
  {
    var e := EntryBytes(name, value);
    EntryAvoids(name, value);
    EncodedAvoids(name, EQUALS);
    SplitFirstAvoiding(Encode(name), EQUALS, Encode(value));
    ComponentRoundTrip(name);
    ComponentRoundTrip(value);
    assert ([e] + parts)[0] == e && ([e] + parts)[1..] == parts;
  }

  lemma SplitSingle(e: seq<Byte>)
    requires Avoids(e, AMPERSAND)
    ensures SplitOn(e, AMPERSAND) == [e]
  {
    SplitOnAvoiding(e, AMPERSAND, []);
    assert e + [] == e;
  }

  lemma SplitJoined(e: seq<Byte>, tail: seq<Byte>)
    requires Avoids(e, AMPERSAND)
    ensures SplitOn(e + [AMPERSAND] + tail, AMPERSAND) == [e] + SplitOn(tail, AMPERSAND)
  {
    SplitOnAvoiding(e, AMPERSAND, [AMPERSAND] + tail);
    assert e + [AMPERSAND] + tail == e + ([AMPERSAND] + tail);
    assert ([AMPERSAND] + tail)[1..] == tail;
    var rest := SplitOn(tail, AMPERSAND);
    var after := SplitOn([AMPERSAND] + tail, AMPERSAND);
    assert after == [[]] + rest;
    assert after[0] == [] && after[1..] == rest;
    assert e + after[0] == e;
  }

  lemma {:induction false} ParseSerializedBytes(entries: seq<(string, string)>)
    ensures ParseSequences(SplitOn(SerializeBytes(entries), AMPERSAND)) == Some(entries)
  {
    if entries != [] {
      var (name, value) := entries[0];
      var e := EntryBytes(name, value);
      EntryAvoids(name, value);
      if |entries| == 1 {
        assert SerializeBytes(entries) == e;
        SplitSingle(e);
        ParseEntry(name, value, [], []);
        assert [e] + [] == [e];
        assert entries == [(name, value)] + [];
      } else {
        assert SerializeBytes(entries) == e + [AMPERSAND] + SerializeBytes(entries[1..]);
        SplitJoined(e, SerializeBytes(entries[1..]));
        ParseSerializedBytes(entries[1..]);
        ParseEntry(name, value, SplitOn(SerializeBytes(entries[1..]), AMPERSAND), entries[1..]);
        assert entries == [(name, value)] + entries[1..];
      }
    }
  }

  /** Parsing the serialized query gives back exactly the entries, in order. */
  lemma ParseSerialize(entries: seq<(string, string)>)
    ensures Parse(Serialize(entries)) == Some(entries)
  {
    ParseSerializedBytes(entries);
  }
}
