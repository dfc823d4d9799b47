/**
 * The pieces of Go's standard library that decide the bytes of a request:
 * the UTF-8 form of a string, base64 with the standard alphabet and padding
 * (RFC 4648 section 4, used by HTTP Basic credentials, RFC 7617 section 2),
 * url.QueryEscape and url.Values.Encode (keys in ascending byte order).
 */
module Encoding {
  import opened Wrappers

  type byte = x: int | 0 <= x < 256

  // ---------------------------------------------------------------------
  // UTF-8 (RFC 3629 section 3)
  // ---------------------------------------------------------------------

  predicate IsContinuation(b: byte) { 0x80 <= b < 0xC0 }

  /** The UTF-8 bytes of one Unicode scalar value. */
  function Utf8Char(c: char): (r: seq<byte>)
    ensures 1 <= |r| <= 4
    ensures |r| == 1 <==> c as int < 0x80
    ensures |r| == 1 ==> r[0] == c as int
    ensures !IsContinuation(r[0])
    ensures forall i :: 1 <= i < |r| ==> IsContinuation(r[i])
  {
    var n := c as int;
    if n < 0x80 then [n]
    else if n < 0x800 then [0xC0 + n / 64, 0x80 + n % 64]
    else if n < 0x10000 then [0xE0 + n / 4096, 0x80 + (n / 64) % 64, 0x80 + n % 64]
    else [0xF0 + n / 262144, 0x80 + (n / 4096) % 64, 0x80 + (n / 64) % 64, 0x80 + n % 64]
  }

  /** The UTF-8 bytes of a string, as Go's []byte(s). */
  function Utf8(s: string): (r: seq<byte>)
    ensures |r| >= |s|
  {
    if s == [] then [] else Utf8Char(s[0]) + Utf8(s[1..])
  }

  predicate IsAscii(s: string) { forall i :: 0 <= i < |s| ==> s[i] as int < 0x80 }

  /** On ASCII text the UTF-8 bytes are the character codes themselves. */
  lemma {:induction false} Utf8Ascii(s: string)
    requires IsAscii(s)
    ensures |Utf8(s)| == |s|
    ensures forall i :: 0 <= i < |s| ==> Utf8(s)[i] == s[i] as int
  {
    if s != [] {
      Utf8Ascii(s[1..]);
    }
  }

  // ---------------------------------------------------------------------
  // base64, standard alphabet with padding (RFC 4648 section 4)
  // ---------------------------------------------------------------------

  /** Table 1 of RFC 4648: the character for a 6-bit value. */
  function Sextet(i: int): (c: char)
    requires 0 <= i < 64
    ensures c != '='
  {
    if i < 26 then ('A' as int + i) as char
    else if i < 52 then ('a' as int + i - 26) as char
    else if i < 62 then ('0' as int + i - 52) as char
    else if i == 62 then '+'
    else '/'
  }

  /** The 6-bit value a character of the alphabet stands for; None off the alphabet. */
  function SextetValue(c: char): (r: Option<int>)
    ensures r.Some? ==> 0 <= r.value < 64 && Sextet(r.value) == c
  {
    if 'A' <= c <= 'Z' then Some(c as int - 'A' as int)
    else if 'a' <= c <= 'z' then Some(c as int - 'a' as int + 26)
    else if '0' <= c <= '9' then Some(c as int - '0' as int + 52)
    else if c == '+' then Some(62)
    else if c == '/' then Some(63)
    else None
  }

  lemma SextetValueOfSextet(i: int)
    requires 0 <= i < 64
    ensures SextetValue(Sextet(i)) == Some(i)
  {
  }

  /** Three bytes become four characters. */
  function EncodeBlock(b0: byte, b1: byte, b2: byte): string
  {
    [Sextet(b0 / 4), Sextet((b0 % 4) * 16 + b1 / 16), Sextet((b1 % 16) * 4 + b2 / 64), Sextet(b2 % 64)]
  }

  /** base64.StdEncoding.EncodeToString: full blocks, then a padded tail. */
  function Base64Encode(b: seq<byte>): string
    decreases |b|
  {
    if |b| == 0 then ""
    else if |b| == 1 then [Sextet(b[0] / 4), Sextet((b[0] % 4) * 16), '=', '=']
    else if |b| == 2 then [Sextet(b[0] / 4), Sextet((b[0] % 4) * 16 + b[1] / 16), Sextet((b[1] % 16) * 4), '=']
    else EncodeBlock(b[0], b[1], b[2]) + Base64Encode(b[3..])
  }

  /** Four characters of the alphabet become three bytes. */
  function DecodeBlock(c0: char, c1: char, c2: char, c3: char): Option<seq<byte>>
  {
    match (SextetValue(c0), SextetValue(c1), SextetValue(c2), SextetValue(c3))
    case (Some(i0), Some(i1), Some(i2), Some(i3)) =>
      Some([i0 * 4 + i1 / 16, (i1 % 16) * 16 + i2 / 4, (i2 % 4) * 64 + i3])
    case _ => None
  }

  /** The last block, which may end in one or two padding characters. */
  function DecodeLast(c0: char, c1: char, c2: char, c3: char): Option<seq<byte>>
  {
    if c2 == '=' && c3 == '=' then
      match (SextetValue(c0), SextetValue(c1))
      case (Some(i0), Some(i1)) => Some([i0 * 4 + i1 / 16])
      case _ => None
    else if c3 == '=' then
      match (SextetValue(c0), SextetValue(c1), SextetValue(c2))
      case (Some(i0), Some(i1), Some(i2)) => Some([i0 * 4 + i1 / 16, (i1 % 16) * 16 + i2 / 4])
      case _ => None
    else DecodeBlock(c0, c1, c2, c3)
  }

  /** Decoding of padded base64; None for text that is not in that form. */
  function Base64Decode(s: string): Option<seq<byte>>
    decreases |s|
  {
    if |s| == 0 then Some([])
    else if |s| < 4 then None
    else if |s| == 4 then DecodeLast(s[0], s[1], s[2], s[3])
    else match DecodeBlock(s[0], s[1], s[2], s[3])
      case None => None
      case Some(head) =>
        match Base64Decode(s[4..])
        case None => None
        case Some(tail) => Some(head + tail)
  }

  /** Regrouping three bytes into four sextets and back is the identity. */
  lemma RegroupBlock(b0: byte, b1: byte, b2: byte)
    ensures var i0, i1, i2, i3 := b0 / 4, (b0 % 4) * 16 + b1 / 16, (b1 % 16) * 4 + b2 / 64, b2 % 64;
      && 0 <= i0 < 64 && 0 <= i1 < 64 && 0 <= i2 < 64 && 0 <= i3 < 64
      && i0 * 4 + i1 / 16 == b0 && (i1 % 16) * 16 + i2 / 4 == b1 && (i2 % 4) * 64 + i3 == b2
  {
    var i1, i2 := (b0 % 4) * 16 + b1 / 16, (b1 % 16) * 4 + b2 / 64;
    assert i1 / 16 == b0 % 4 && i1 % 16 == b1 / 16;
    assert i2 / 4 == b1 % 16 && i2 % 4 == b2 / 64;
  }

  /** The same regrouping for the one or two bytes of a padded last block. */
  lemma RegroupShort(b0: byte, b1: byte)
    ensures var i0, i1 := b0 / 4, (b0 % 4) * 16;
      0 <= i0 < 64 && 0 <= i1 < 64 && i0 * 4 + i1 / 16 == b0
    ensures var i0, i1, i2 := b0 / 4, (b0 % 4) * 16 + b1 / 16, (b1 % 16) * 4;
      && 0 <= i0 < 64 && 0 <= i1 < 64 && 0 <= i2 < 64
      && i0 * 4 + i1 / 16 == b0 && (i1 % 16) * 16 + i2 / 4 == b1
  {
    var i1 := (b0 % 4) * 16 + b1 / 16;
    assert i1 / 16 == b0 % 4 && i1 % 16 == b1 / 16;
  }

  /** Characters that are all in the alphabet decode to the sextets they stand for. */
  lemma DecodeSextets(i0: int, i1: int, i2: int, i3: int)
    requires 0 <= i0 < 64 && 0 <= i1 < 64 && 0 <= i2 < 64 && 0 <= i3 < 64
    ensures DecodeBlock(Sextet(i0), Sextet(i1), Sextet(i2), Sextet(i3))
         == Some([i0 * 4 + i1 / 16, (i1 % 16) * 16 + i2 / 4, (i2 % 4) * 64 + i3])
    ensures DecodeLast(Sextet(i0), Sextet(i1), Sextet(i2), Sextet(i3))
         == Some([i0 * 4 + i1 / 16, (i1 % 16) * 16 + i2 / 4, (i2 % 4) * 64 + i3])
  {
    SextetValueOfSextet(i0);
    SextetValueOfSextet(i1);
    SextetValueOfSextet(i2);
    SextetValueOfSextet(i3);
  }

  /** A last block with one padding character carries two bytes. */
  lemma DecodeOnePad(i0: int, i1: int, i2: int)
    requires 0 <= i0 < 64 && 0 <= i1 < 64 && 0 <= i2 < 64
    ensures DecodeLast(Sextet(i0), Sextet(i1), Sextet(i2), '=') == Some([i0 * 4 + i1 / 16, (i1 % 16) * 16 + i2 / 4])
  {
    SextetValueOfSextet(i0);
    SextetValueOfSextet(i1);
    SextetValueOfSextet(i2);
  }

  /** A last block with two padding characters carries one byte. */
  lemma DecodeTwoPads(i0: int, i1: int)
    requires 0 <= i0 < 64 && 0 <= i1 < 64
    ensures DecodeLast(Sextet(i0), Sextet(i1), '=', '=') == Some([i0 * 4 + i1 / 16])
  {
    SextetValueOfSextet(i0);
    SextetValueOfSextet(i1);
  }

  lemma BlockRoundTrip(b0: byte, b1: byte, b2: byte)
    ensures var s := EncodeBlock(b0, b1, b2);
      DecodeBlock(s[0], s[1], s[2], s[3]) == Some([b0, b1, b2])
      && DecodeLast(s[0], s[1], s[2], s[3]) == Some([b0, b1, b2])
  {
    var i0, i1, i2, i3 := b0 / 4, (b0 % 4) * 16 + b1 / 16, (b1 % 16) * 4 + b2 / 64, b2 % 64;
    RegroupBlock(b0, b1, b2);
    DecodeSextets(i0, i1, i2, i3);
    var s := EncodeBlock(b0, b1, b2);
    assert s[0] == Sextet(i0) && s[1] == Sextet(i1) && s[2] == Sextet(i2) && s[3] == Sextet(i3);
    assert [i0 * 4 + i1 / 16, (i1 % 16) * 16 + i2 / 4, (i2 % 4) * 64 + i3] == [b0, b1, b2];
  }

  /** A text of one block decodes as a last block. */
  lemma DecodeOneBlock(s: string)
    requires |s| == 4
    ensures Base64Decode(s) == DecodeLast(s[0], s[1], s[2], s[3])
  {
  }

  /** The padded encodings of one and two bytes. */
  lemma EncodeShort(b: seq<byte>)
    requires 1 <= |b| <= 2
    ensures |b| == 1 ==> Base64Encode(b) == [Sextet(b[0] / 4), Sextet((b[0] % 4) * 16), '=', '=']
    ensures |b| == 2 ==> Base64Encode(b) == [Sextet(b[0] / 4), Sextet((b[0] % 4) * 16 + b[1] / 16), Sextet((b[1] % 16) * 4), '=']
  {
  }

  /** The three ways a text can end: one byte and "==", two bytes and "=", a full block. */
  lemma OneByteRoundTrip(b: seq<byte>)
    requires |b| == 1
    ensures Base64Decode(Base64Encode(b)) == Some(b)
  {
    var i0, i1 := b[0] / 4, (b[0] % 4) * 16;
    RegroupShort(b[0], 0);
    DecodeTwoPads(i0, i1);
    EncodeShort(b);
    DecodeOneBlock(Base64Encode(b));
    assert [i0 * 4 + i1 / 16] == b;
  }

  lemma TwoBytesRoundTrip(b: seq<byte>)
    requires |b| == 2
    ensures Base64Decode(Base64Encode(b)) == Some(b)
  {
    var i0, i1, i2 := b[0] / 4, (b[0] % 4) * 16 + b[1] / 16, (b[1] % 16) * 4;
    RegroupShort(b[0], b[1]);
    DecodeOnePad(i0, i1, i2);
    EncodeShort(b);
    DecodeOneBlock(Base64Encode(b));
    assert b == [b[0], b[1]];
    assert [i0 * 4 + i1 / 16, (i1 % 16) * 16 + i2 / 4] == b;
  }

  lemma ThreeBytesRoundTrip(b: seq<byte>)
    requires |b| == 3
    ensures Base64Decode(Base64Encode(b)) == Some(b)
  {
    var s := Base64Encode(b);
    assert s == EncodeBlock(b[0], b[1], b[2]) + Base64Encode(b[3..]);
    assert s == EncodeBlock(b[0], b[1], b[2]);
    BlockRoundTrip(b[0], b[1], b[2]);
    assert Base64Decode(s) == DecodeLast(s[0], s[1], s[2], s[3]);
    assert [b[0], b[1], b[2]] == b;
  }

  /** Four characters for every started group of three bytes. */
  lemma {:induction false} Base64Length(b: seq<byte>)
    ensures |Base64Encode(b)| == 4 * ((|b| + 2) / 3)
    decreases |b|
  {
    if |b| >= 3 {
      EncodeLonger(b);
      Base64Length(b[3..]);
      assert (|b| + 2) / 3 == (|b[3..]| + 2) / 3 + 1;
    }
  }

  /** A text longer than one block decodes as its first block followed by the rest. */
  lemma DecodeLonger(s: string, head: seq<byte>, tail: seq<byte>)
    requires |s| > 4
    requires DecodeBlock(s[0], s[1], s[2], s[3]) == Some(head)
    requires Base64Decode(s[4..]) == Some(tail)
    ensures Base64Decode(s) == Some(head + tail)
  {
  }

  lemma EncodeLonger(b: seq<byte>)
    requires |b| >= 3
    ensures Base64Encode(b) == EncodeBlock(b[0], b[1], b[2]) + Base64Encode(b[3..])
  {
  }

  /** Decoding undoes encoding: the base64 text carries exactly the bytes. */
  lemma {:induction false} Base64RoundTrip(b: seq<byte>)
    ensures Base64Decode(Base64Encode(b)) == Some(b)
    decreases |b|
  {
    if |b| == 1 {
      OneByteRoundTrip(b);
    } else if |b| == 2 {
      TwoBytesRoundTrip(b);
    } else if |b| == 3 {
      ThreeBytesRoundTrip(b);
    } else if |b| > 3 {
      var head := EncodeBlock(b[0], b[1], b[2]);
      var tail := Base64Encode(b[3..]);
      var s := head + tail;
      EncodeLonger(b);
      Base64Length(b[3..]);
      BlockRoundTrip(b[0], b[1], b[2]);
      assert s[0] == head[0] && s[1] == head[1] && s[2] == head[2] && s[3] == head[3];
      assert s[4..] == tail;
      Base64RoundTrip(b[3..]);
      DecodeLonger(s, [b[0], b[1], b[2]], b[3..]);
      assert b == [b[0], b[1], b[2]] + b[3..];
    }
  }

  // ---------------------------------------------------------------------
  // url.QueryEscape
  // ---------------------------------------------------------------------

  /** The bytes a query component keeps as they are: letters, digits and -._~ */
  predicate IsUnreserved(b: int)
  {
    ('A' as int <= b <= 'Z' as int) || ('a' as int <= b <= 'z' as int) || ('0' as int <= b <= '9' as int)
    || b == '-' as int || b == '_' as int || b == '.' as int || b == '~' as int
  }

  /** The characters an escaped component can hold. */
  predicate IsEscapedChar(c: char)
  {
    IsUnreserved(c as int) || c == '+' || c == '%'
  }

  /** Upper-case hexadecimal digit, as Go's escape uses. */
  function HexDigit(d: int): (c: char)
    requires 0 <= d < 16
    ensures IsUnreserved(c as int)
  {
    if d < 10 then ('0' as int + d) as char else ('A' as int + d - 10) as char
  }

  /** One byte of a query component: kept, a space as '+', or %XX. */
  function EscapeByte(b: byte): (r: string)
    ensures forall i :: 0 <= i < |r| ==> IsEscapedChar(r[i])
  {
    if IsUnreserved(b) then [b as char]
    else if b == ' ' as int then "+"
    else ['%', HexDigit(b / 16), HexDigit(b % 16)]
  }

  function EscapeBytes(bs: seq<byte>): (r: string)
    ensures forall i :: 0 <= i < |r| ==> IsEscapedChar(r[i])
  {
    if bs == [] then "" else EscapeByte(bs[0]) + EscapeBytes(bs[1..])
  }

  /**
   * url.QueryEscape: each UTF-8 byte of the string escaped. The result never
   * holds '&', '=' or '?', so escaped keys and values can be joined into a
   * query without ambiguity.
   */
  function QueryEscape(s: string): (r: string)
    ensures forall i :: 0 <= i < |r| ==> IsEscapedChar(r[i])
  {
    if s == [] then "" else EscapeBytes(Utf8Char(s[0])) + QueryEscape(s[1..])
  }

  /** Text made only of unreserved characters passes through escaping unchanged. */
  lemma {:induction false} QueryEscapeUnreserved(s: string)
    requires forall i :: 0 <= i < |s| ==> IsUnreserved(s[i] as int)
    ensures QueryEscape(s) == s
  {
    if s != [] {
      QueryEscapeUnreserved(s[1..]);
      assert Utf8Char(s[0]) == [s[0] as int];
      assert EscapeBytes([s[0] as int]) == [s[0]];
      assert s == [s[0]] + s[1..];
    }
  }

  // ---------------------------------------------------------------------
  // url.Values.Encode
  // ---------------------------------------------------------------------

  /** Byte-wise order of Go strings; on scalar values it is code-point order. */
  predicate LessEq(a: string, b: string)
    decreases |a|
  {
    |a| == 0 || (|b| > 0 && (a[0] < b[0] || (a[0] == b[0] && LessEq(a[1..], b[1..]))))
  }

  lemma {:induction false} LessEqReflexive(a: string)
    ensures LessEq(a, a)
    decreases |a|
  {
    if |a| > 0 {
      LessEqReflexive(a[1..]);
    }
  }

  lemma {:induction false} LessEqTotal(a: string, b: string)
    ensures LessEq(a, b) || LessEq(b, a)
    decreases |a|
  {
    if |a| > 0 && |b| > 0 && a[0] == b[0] {
      LessEqTotal(a[1..], b[1..]);
    }
  }

  lemma {:induction false} LessEqAntisymmetric(a: string, b: string)
    requires LessEq(a, b) && LessEq(b, a)
    ensures a == b
    decreases |a|
  {
    if |a| > 0 {
      LessEqAntisymmetric(a[1..], b[1..]);
      assert a == [a[0]] + a[1..] && b == [b[0]] + b[1..];
    }
  }

  lemma {:induction false} LessEqTransitive(a: string, b: string, c: string)
    requires LessEq(a, b) && LessEq(b, c)
    ensures LessEq(a, c)
    decreases |a|
  {
    if |a| > 0 && a[0] == b[0] && b[0] == c[0] {
      LessEqTransitive(a[1..], b[1..], c[1..]);
    }
  }

  predicate IsLeast(k: string, ks: set<string>)
  {
    k in ks && forall x :: x in ks ==> LessEq(k, x)
  }

  lemma {:induction false} LeastExists(ks: set<string>)
    requires ks != {}
    ensures exists k :: IsLeast(k, ks)
    decreases |ks|
  {
    var y :| y in ks;
    var rest := ks - {y};
    LessEqReflexive(y);
    if rest == {} {
      assert ks == {y};
      assert IsLeast(y, ks);
    } else {
      LeastExists(rest);
      var m :| IsLeast(m, rest);
      LessEqTotal(m, y);
      if LessEq(m, y) {
        assert IsLeast(m, ks);
      } else {
        forall x | x in ks ensures LessEq(y, x) {
          if x != y {
            LessEqTransitive(y, m, x);
          }
        }
        assert IsLeast(y, ks);
      }
    }
  }

  lemma LeastUnique(ks: set<string>)
    ensures forall k1, k2 :: IsLeast(k1, ks) && IsLeast(k2, ks) ==> k1 == k2
  {
    forall k1, k2 | IsLeast(k1, ks) && IsLeast(k2, ks) ensures k1 == k2 {
      LessEqAntisymmetric(k1, k2);
    }
  }

  /** The key url.Values.Encode writes first. */
  function LeastKey(ks: set<string>): (k: string)
    requires ks != {}
    ensures k in ks && forall x :: x in ks ==> LessEq(k, x)
  {
    LeastExists(ks);
    LeastUnique(ks);
    var k :| IsLeast(k, ks);
    k
  }

  /** url.Values.Encode of a query whose keys each hold one value. */
  function ValuesEncode(q: map<string, string>): (r: string)
    ensures |r| == 0 <==> |q| == 0
    decreases |q|
  {
    if |q| == 0 then ""
    else
      var k := LeastKey(q.Keys);
      var pair := QueryEscape(k) + "=" + QueryEscape(q[k]);
      if |q| == 1 then pair
      else
        assert |(q - {k}).Keys| == |q.Keys - {k}| == |q| - 1;
        pair + "&" + ValuesEncode(q - {k})
  }

  /** A one-key query is that key and its value, escaped and joined by '='. */
  lemma ValuesEncodeSingle(k: string, v: string)
    ensures ValuesEncode(map[k := v]) == QueryEscape(k) + "=" + QueryEscape(v)
  {
    assert map[k := v].Keys == {k};
  }
}
