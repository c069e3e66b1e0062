/**
 * UTF-8 as RFC 3629 defines it: the encoding a string is turned into when
 * it is sent as `Data`, and the strict decoding that turns `Data` back into
 * a string or fails on a byte sequence that is not well-formed.
 */
module Utf8 {
  import opened Text

  /** A continuation byte: 10xxxxxx. */
  predicate IsContinuation(b: byte) {
    0x80 <= b < 0xC0
  }

  /** A Unicode scalar value: a code point that is not a surrogate. */
  predicate IsScalar(n: int) {
    0 <= n < 0xD800 || 0xE000 <= n < 0x11_0000
  }

  /** The one to four bytes that encode one character. */
  function EncodeChar(c: char): (r: Data)
    ensures 1 <= |r| <= 4
    ensures forall i :: 1 <= i < |r| ==> IsContinuation(r[i])
  {
    var n := c as int;
    if n < 0x80 then [n as byte]
    else if n < 0x800 then [(0xC0 + n / 64) as byte, (0x80 + n % 64) as byte]
    else if n < 0x1_0000 then
      [(0xE0 + n / 4096) as byte, (0x80 + (n / 64) % 64) as byte, (0x80 + n % 64) as byte]
    else
      [(0xF0 + n / 262144) as byte, (0x80 + (n / 4096) % 64) as byte,
       (0x80 + (n / 64) % 64) as byte, (0x80 + n % 64) as byte]
  }

  /** `s.data(using: .utf8)`. */
  function Encode(s: string): Data {
    if s == [] then [] else EncodeChar(s[0]) + Encode(s[1..])
  }

  /** The code point of a well-formed sequence of `k` bytes at the start of `d`, if there is one. */
  function CodePointAt(d: Data, k: nat): (r: Option<int>)
    requires 1 <= k <= 4 && k <= |d|
  {
    if k == 1 then
      if d[0] < 0x80 then Some(d[0] as int) else None
    else if !(forall i :: 1 <= i < k ==> IsContinuation(d[i])) then None
    else if k == 2 then
      var n := (d[0] as int - 0xC0) * 64 + (d[1] as int - 0x80);
      if 0xC0 <= d[0] < 0xE0 && 0x80 <= n then Some(n) else None
    else if k == 3 then
      var n := (d[0] as int - 0xE0) * 4096 + (d[1] as int - 0x80) * 64 + (d[2] as int - 0x80);
      if 0xE0 <= d[0] < 0xF0 && 0x800 <= n && IsScalar(n) then Some(n) else None
    else
      var n := (d[0] as int - 0xF0) * 262144 + (d[1] as int - 0x80) * 4096
        + (d[2] as int - 0x80) * 64 + (d[3] as int - 0x80);
      if 0xF0 <= d[0] < 0xF8 && 0x1_0000 <= n < 0x11_0000 then Some(n) else None
  }

  /** How many bytes the sequence starting with lead byte `b` claims (0 for a byte that cannot lead). */
  function SequenceLength(b: byte): nat {
    if b < 0x80 then 1
    else if b < 0xC0 then 0
    else if b < 0xE0 then 2
    else if b < 0xF0 then 3
    else if b < 0xF8 then 4
    else 0
  }

  /** `String(data:encoding: .utf8)`: the decoded string, or nothing when `d` is not well-formed UTF-8. */
  function Decode(d: Data): Option<string>
    decreases |d|
  {
    if d == [] then Some("")
    else
      var k := SequenceLength(d[0]);
      if k == 0 || |d| < k then None
      else match CodePointAt(d, k)
        case None => None
        case Some(n) =>
          if !IsScalar(n) then None
          else match Decode(d[k..])
            case None => None
            case Some(rest) => Some([n as char] + rest)
  }

  /** The bytes of one character start a well-formed sequence of the claimed length that decodes back to it. */
  lemma DecodeEncodedChar(c: char, rest: Data)
    ensures var e := EncodeChar(c); var d := e + rest;
      && SequenceLength(d[0]) == |e|
      && CodePointAt(d, |e|) == Some(c as int)
  {
    var n := c as int;
    if n < 0x80 {
    } else if n < 0x800 {
      DecodeTwoBytes(c, rest);
    } else if n < 0x1_0000 {
      DecodeThreeBytes(c, rest);
    } else {
      DecodeFourBytes(c, rest);
    }
  }

  lemma DecodeTwoBytes(c: char, rest: Data)
    requires 0x80 <= c as int < 0x800
    ensures var e := EncodeChar(c); var d := e + rest;
      |e| == 2 && SequenceLength(d[0]) == 2 && CodePointAt(d, 2) == Some(c as int)
  {
    var n := c as int;
    assert n == (n / 64) * 64 + n % 64;
  }

  lemma DecodeThreeBytes(c: char, rest: Data)
    requires 0x800 <= c as int < 0x1_0000
    ensures var e := EncodeChar(c); var d := e + rest;
      |e| == 3 && SequenceLength(d[0]) == 3 && CodePointAt(d, 3) == Some(c as int)
  {
    var n := c as int;
    assert n / 64 == (n / 4096) * 64 + (n / 64) % 64;
    assert n == (n / 64) * 64 + n % 64;
  }

  lemma DecodeFourBytes(c: char, rest: Data)
    requires 0x1_0000 <= c as int
    ensures var e := EncodeChar(c); var d := e + rest;
      |e| == 4 && SequenceLength(d[0]) == 4 && CodePointAt(d, 4) == Some(c as int)
  {
    var n := c as int;
    assert n / 4096 == (n / 262144) * 64 + (n / 4096) % 64;
    assert n / 64 == (n / 4096) * 64 + (n / 64) % 64;
    assert n == (n / 64) * 64 + n % 64;
  }

  /** One step of decoding: a well-formed first sequence of `k` bytes, then the rest. */
  lemma DecodeStep(d: Data)
    requires d != [] && Decode(d).Some?
    ensures var k := SequenceLength(d[0]);
      && 1 <= k <= 4 && k <= |d| && CodePointAt(d, k).Some? && IsScalar(CodePointAt(d, k).value)
      && Decode(d[k..]).Some?
      && Decode(d).value == [CodePointAt(d, k).value as char] + Decode(d[k..]).value
  {
  }

  /** Decoding undoes encoding. */
  lemma {:induction false} DecodeEncode(s: string)
    ensures Decode(Encode(s)) == Some(s)
  {
    if s != [] {
      var e := EncodeChar(s[0]);
      var d := Encode(s);
      assert d == e + Encode(s[1..]);
      DecodeEncodedChar(s[0], Encode(s[1..]));
      assert d[|e|..] == Encode(s[1..]);
      DecodeEncode(s[1..]);
      assert [s[0]] + s[1..] == s;
    }
  }

  lemma DivMod64(n: int, hi: int, lo: int)
    requires 0 <= lo < 64 && n == hi * 64 + lo
    ensures n / 64 == hi && n % 64 == lo
  {
  }

  lemma EncodeTwo(d: Data)
    requires |d| >= 2 && SequenceLength(d[0]) == 2 && CodePointAt(d, 2).Some? && IsScalar(CodePointAt(d, 2).value)
    ensures EncodeChar(CodePointAt(d, 2).value as char) == d[..2]
  {
    var n := CodePointAt(d, 2).value;
    assert IsContinuation(d[1]);
    DivMod64(n, d[0] as int - 0xC0, d[1] as int - 0x80);
  }

  lemma EncodeThree(d: Data)
    requires |d| >= 3 && SequenceLength(d[0]) == 3 && CodePointAt(d, 3).Some? && IsScalar(CodePointAt(d, 3).value)
    ensures EncodeChar(CodePointAt(d, 3).value as char) == d[..3]
  {
    var n := CodePointAt(d, 3).value;
    assert IsContinuation(d[1]) && IsContinuation(d[2]);
    var hi := (d[0] as int - 0xE0) * 64 + (d[1] as int - 0x80);
    DivMod64(n, hi, d[2] as int - 0x80);
    DivMod64(hi, d[0] as int - 0xE0, d[1] as int - 0x80);
    assert n / 4096 == hi / 64;
  }

  lemma EncodeFour(d: Data)
    requires |d| >= 4 && SequenceLength(d[0]) == 4 && CodePointAt(d, 4).Some? && IsScalar(CodePointAt(d, 4).value)
    ensures EncodeChar(CodePointAt(d, 4).value as char) == d[..4]
  {
    var n := CodePointAt(d, 4).value;
    assert IsContinuation(d[1]) && IsContinuation(d[2]) && IsContinuation(d[3]);
    var top := (d[0] as int - 0xF0) * 64 + (d[1] as int - 0x80);
    var hi := top * 64 + (d[2] as int - 0x80);
    DivMod64(n, hi, d[3] as int - 0x80);
    DivMod64(hi, top, d[2] as int - 0x80);
    DivMod64(top, d[0] as int - 0xF0, d[1] as int - 0x80);
    assert n / 4096 == hi / 64;
    assert n / 262144 == top / 64;
  }

  /** A well-formed sequence of `k` bytes is the encoding of the character it decodes to. */
  lemma EncodeDecodedChar(d: Data, k: nat)
    requires 1 <= k <= 4 && k <= |d| && SequenceLength(d[0]) == k
    requires CodePointAt(d, k).Some? && IsScalar(CodePointAt(d, k).value)
    ensures EncodeChar(CodePointAt(d, k).value as char) == d[..k]
  {
    if k == 2 {
      EncodeTwo(d);
    } else if k == 3 {
      EncodeThree(d);
    } else if k == 4 {
      EncodeFour(d);
    }
  }

  /** Decoding succeeds only on the encoding of what it returns: no overlong form, surrogate or stray byte is accepted. */
  lemma {:induction false} EncodeDecode(d: Data)
    requires Decode(d).Some?
    ensures Encode(Decode(d).value) == d
    decreases |d|
  {
    if d != [] {
      DecodeStep(d);
      var k := SequenceLength(d[0]);
      EncodeDecodedChar(d, k);
      EncodeDecode(d[k..]);
      EncodeCons(CodePointAt(d, k).value as char, Decode(d[k..]).value, d, k);
    }
  }

  /** Encoding a character followed by a string that encode to the two parts of `d` gives `d`. */
  lemma EncodeCons(c: char, t: string, d: Data, k: nat)
    requires k <= |d| && EncodeChar(c) == d[..k] && Encode(t) == d[k..]
    ensures Encode([c] + t) == d
  {
    var s := [c] + t;
    assert s[0] == c && s[1..] == t;
    assert d == d[..k] + d[k..];
  }
}
