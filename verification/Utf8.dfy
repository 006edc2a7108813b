/** Bytes and well-formed UTF-8 (RFC 3629, section 4), as `std::str::from_utf8`
    accepts it. */
module Utf8 {

  type Byte = b: int | 0 <= b < 256

  type Bytes = seq<Byte>

  /** The pattern stands at position `i`. */
  predicate At(s: Bytes, pattern: Bytes, i: nat) {
    i + |pattern| <= |s| && s[i..i + |pattern|] == pattern
  }

  predicate Continuation(b: Byte) {
    0x80 <= b <= 0xBF
  }

  /** The second byte a three- or four-byte sequence allows after its first. */
  predicate Second(first: Byte, b: Byte) {
    if first == 0xE0 then 0xA0 <= b <= 0xBF
    else if first == 0xED then 0x80 <= b <= 0x9F
    else if first == 0xF0 then 0x90 <= b <= 0xBF
    else if first == 0xF4 then 0x80 <= b <= 0x8F
    else Continuation(b)
  }

  /** The length of the character that starts `s`, or zero. */
  function Width(s: Bytes): (n: nat)
    ensures n <= 4 && n <= |s|
  {
    if |s| >= 1 && s[0] < 0x80 then 1
    else if |s| >= 2 && 0xC2 <= s[0] <= 0xDF && Continuation(s[1]) then 2
    else if |s| >= 3 && 0xE0 <= s[0] <= 0xEF && Second(s[0], s[1]) && Continuation(s[2]) then 3
    else if |s| >= 4 && 0xF0 <= s[0] <= 0xF4 && Second(s[0], s[1]) && Continuation(s[2]) && Continuation(s[3]) then 4
    else 0
  }

  predicate Valid(s: Bytes) {
    s == [] || (Width(s) > 0 && Valid(s[Width(s)..]))
  }

  /** An ASCII byte is a character boundary on both sides. */
  lemma {:induction false} AsciiSplits(a: Bytes, c: Byte, b: Bytes)
    requires c < 0x80
    ensures Valid(a + [c] + b) <==> Valid(a) && Valid(b)
    decreases |a|
  {
    var s := a + [c] + b;
    if a == [] {
      assert s[1..] == b;
    } else {
      var n := Width(s);
      assert s[|a|] == c;
      assert n <= |a| && Width(a) == n;
      if n > 0 {
        assert s[n..] == a[n..] + [c] + b;
        AsciiSplits(a[n..], c, b);
      }
    }
  }

  lemma DropAscii(s: Bytes)
    requires s != [] && s[0] < 0x80
    ensures Valid(s) <==> Valid(s[1..])
  {
    AsciiSplits([], s[0], s[1..]);
    assert [] + [s[0]] + s[1..] == s;
  }

  lemma DropLastAscii(s: Bytes)
    requires s != [] && s[|s| - 1] < 0x80
    ensures Valid(s) <==> Valid(s[..|s| - 1])
  {
    AsciiSplits(s[..|s| - 1], s[|s| - 1], []);
    assert s[..|s| - 1] + [s[|s| - 1]] + [] == s;
  }

  /** An ASCII prefix neither adds nor removes validity. */
  lemma {:induction false} AsciiPrefix(p: Bytes, s: Bytes)
    requires forall i | 0 <= i < |p| :: p[i] < 0x80
    ensures Valid(p + s) <==> Valid(s)
    decreases |p|
  {
    if p == [] {
      assert p + s == s;
    } else {
      DropAscii(p + s);
      assert (p + s)[1..] == p[1..] + s;
      AsciiPrefix(p[1..], s);
    }
  }

  // ---- What well-formed text is ------------------------------------------------------

  /** Unicode scalar values: code points without the surrogates. */
  type Scalar = c: int | 0 <= c < 0xD800 || 0xE000 <= c <= 0x10FFFF

  /** One scalar value in the fewest bytes that hold it. */
  function Encode(c: Scalar): Bytes {
    if c < 0x80 then [c]
    else if c < 0x800 then [0xC0 + c / 64, 0x80 + c % 64]
    else if c < 0x10000 then [0xE0 + c / 4096, 0x80 + c / 64 % 64, 0x80 + c % 64]
    else [0xF0 + c / 262144, 0x80 + c / 4096 % 64, 0x80 + c / 64 % 64, 0x80 + c % 64]
  }

  function EncodeAll(text: seq<Scalar>): Bytes {
    if text == [] then [] else Encode(text[0]) + EncodeAll(text[1..])
  }

  lemma EncodedHasItsWidth(c: Scalar, rest: Bytes)
    ensures Width(Encode(c) + rest) == |Encode(c)|
  {
    var s := Encode(c) + rest;
    assert forall i | 0 <= i < |Encode(c)| :: s[i] == Encode(c)[i];
    if 0x800 <= c < 0x10000 {
      assert c / 4096 == 13 ==> c / 64 % 64 < 32;
      assert c / 4096 == 0 ==> c / 64 % 64 >= 32;
    } else if c >= 0x10000 {
      assert c / 262144 == 0 ==> c / 4096 % 64 >= 16;
      assert c / 262144 == 4 ==> c / 4096 % 64 < 16;
    }
  }

  /** Six bits at a time. */
  lemma Sextets(a: nat, b: nat, c: nat, d: nat)
    requires b < 64 && c < 64 && d < 64
    ensures (64 * a + b) / 64 == a && (64 * a + b) % 64 == b
    ensures var x := 4096 * a + 64 * b + c; x / 4096 == a && x / 64 % 64 == b && x % 64 == c
    ensures var x := 262144 * a + 4096 * b + 64 * c + d;
            x / 262144 == a && x / 4096 % 64 == b && x / 64 % 64 == c && x % 64 == d
  {
    var x := 4096 * a + 64 * b + c;
    assert x / 64 == 64 * a + b;
    var y := 262144 * a + 4096 * b + 64 * c + d;
    assert y / 64 == 4096 * a + 64 * b + c && y / 4096 == 64 * a + b;
  }

  lemma WidthsOfBytes(s: Bytes)
    requires Width(s) > 0
    ensures match Width(s)
            case 1 => s[0] < 0x80
            case 2 => 0xC2 <= s[0] <= 0xDF && 0 <= s[1] - 0x80 < 64
            case 3 => 0xE0 <= s[0] <= 0xEF && Second(s[0], s[1]) && 0 <= s[1] - 0x80 < 64 && 0 <= s[2] - 0x80 < 64
            case _ =>
              && |s| >= 4 && 0xF0 <= s[0] <= 0xF4 && Second(s[0], s[1]) && 0 <= s[1] - 0x80 < 64
              && 0 <= s[2] - 0x80 < 64 && 0 <= s[3] - 0x80 < 64
  {}

  /** The scalar value that starts `s`. */
  lemma FirstScalar(s: Bytes) returns (c: Scalar)
    requires Width(s) > 0
    ensures s[..Width(s)] == Encode(c)
  {
    hide Width;
    WidthsOfBytes(s);
    var n := Width(s);
    if n == 1 {
      c := s[0];
    } else if n == 2 {
      Sextets(s[0] - 0xC0, s[1] - 0x80, 0, 0);
      c := 64 * (s[0] as int - 0xC0) + (s[1] as int - 0x80);
    } else if n == 3 {
      Sextets(s[0] - 0xE0, s[1] - 0x80, s[2] - 0x80, 0);
      c := 4096 * (s[0] as int - 0xE0) + 64 * (s[1] as int - 0x80) + (s[2] as int - 0x80);
    } else {
      Sextets(s[0] - 0xF0, s[1] - 0x80, s[2] - 0x80, s[3] - 0x80);
      c := 262144 * (s[0] as int - 0xF0) + 4096 * (s[1] as int - 0x80) + 64 * (s[2] as int - 0x80)
           + (s[3] as int - 0x80);
    }
  }

  lemma {:induction false} EncodedIsValid(text: seq<Scalar>)
    ensures Valid(EncodeAll(text))
    decreases |text|
  {
    if text != [] {
      var rest := EncodeAll(text[1..]);
      EncodedHasItsWidth(text[0], rest);
      EncodedIsValid(text[1..]);
      assert (Encode(text[0]) + rest)[|Encode(text[0])|..] == rest;
    }
  }

  lemma {:induction false} ValidIsEncoded(s: Bytes) returns (text: seq<Scalar>)
    requires Valid(s)
    ensures EncodeAll(text) == s
    decreases |s|
  {
    hide Encode;
    if s == [] {
      text := [];
    } else {
      var n := Width(s);
      var rest := ValidIsEncoded(s[n..]);
      var first := FirstScalar(s);
      text := [first] + rest;
      assert text[1..] == rest && s[..n] + s[n..] == s;
    }
  }

  /** Bytes are well-formed exactly if they encode some text. */
  lemma ValidExactly(s: Bytes)
    ensures Valid(s) <==> exists text: seq<Scalar> :: EncodeAll(text) == s
  {
    if Valid(s) {
      var text := ValidIsEncoded(s);
    } else if text: seq<Scalar> :| EncodeAll(text) == s {
      EncodedIsValid(text);
    }
  }
}
