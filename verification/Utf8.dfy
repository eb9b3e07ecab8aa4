/** UTF-8 (section 3 of RFC 3629) over JavaScript strings, as `Buffer.from` and
    `Buffer.toString` apply it: a lone surrogate is encoded as U+FFFD. */
module Utf8 {
  import opened JsText

  type Byte = b: int | 0 <= b < 0x100

  const REPLACEMENT: Unit := 0xFFFD

  /** A byte that continues a sequence and never begins one. */
  predicate IsContinuation(b: Byte) { 0x80 <= b <= 0xBF }

  /** Whether a code unit starts a code point of its own, or is replaced by one. */
  predicate IsLone(s: JsString)
    requires s != []
  {
    !StartsPair(s) && IsSurrogate(s[0])
  }

  /** No lone surrogate: the string is a sequence of Unicode scalar values. */
  predicate WellFormed(s: JsString) {
    s == [] || (!IsLone(s) && WellFormed(s[HeadWidth(s)..]))
  }

  /** The scalar value the first code point is encoded as. */
  function HeadScalar(s: JsString): (p: nat)
    requires s != []
    ensures p < 0x11_0000 && !(0xD800 <= p <= 0xDFFF)
    ensures p >= 0x1_0000 <==> StartsPair(s)
  {
    if StartsPair(s) then 0x1_0000 + (s[0] - 0xD800) * 0x400 + (s[1] - 0xDC00)
    else if IsSurrogate(s[0]) then REPLACEMENT
    else s[0]
  }

  /** One scalar value's bytes. */
  function EncodeScalar(p: nat): (b: seq<Byte>)
    requires p < 0x11_0000
    ensures 1 <= |b| <= 4 && !IsContinuation(b[0])
    ensures forall i :: 1 <= i < |b| ==> IsContinuation(b[i])
  {
    if p < 0x80 then [p]
    else if p < 0x800 then [0xC0 + p / 0x40, 0x80 + p % 0x40]
    else if p < 0x1_0000 then [0xE0 + p / 0x1000, 0x80 + p / 0x40 % 0x40, 0x80 + p % 0x40]
    else [0xF0 + p / 0x4_0000, 0x80 + p / 0x1000 % 0x40, 0x80 + p / 0x40 % 0x40, 0x80 + p % 0x40]
  }

  function EncodeHead(s: JsString): (b: seq<Byte>)
    requires s != []
    ensures 1 <= |b| <= 4 && !IsContinuation(b[0])
    ensures forall i :: 1 <= i < |b| ==> IsContinuation(b[i])
  {
    EncodeScalar(HeadScalar(s))
  }

  function Encode(s: JsString): seq<Byte> {
    if s == [] then [] else EncodeHead(s) + Encode(s[HeadWidth(s)..])
  }

  /** How many bytes a first byte announces; zero where it announces none. */
  function Announced(b: Byte): (n: nat)
    ensures n <= 4
  {
    if b < 0x80 then 1
    else if 0xC2 <= b <= 0xDF then 2
    else if 0xE0 <= b <= 0xEF then 3
    else if 0xF0 <= b <= 0xF4 then 4
    else 0
  }

  /** The number the bits of one sequence spell. */
  function Spelled(b: seq<Byte>, n: nat): (p: int)
    requires 1 <= n <= 4 && n <= |b|
  {
    var b0: int, b1: int := b[0], if n > 1 then b[1] as int - 0x80 else 0;
    var b2: int, b3: int := if n > 2 then b[2] as int - 0x80 else 0, if n > 3 then b[3] as int - 0x80 else 0;
    if n == 1 then b0
    else if n == 2 then (b0 - 0xC0) * 0x40 + b1
    else if n == 3 then (b0 - 0xE0) * 0x1000 + b1 * 0x40 + b2
    else (b0 - 0xF0) * 0x4_0000 + b1 * 0x1000 + b2 * 0x40 + b3
  }

  /** A sequence is valid when it is the shortest spelling of a scalar value. */
  predicate ValidHead(b: seq<Byte>)
    requires b != []
  {
    var n := Announced(b[0]);
    && 1 <= n <= |b|
    && (forall i :: 1 <= i < n ==> IsContinuation(b[i]))
    && var p := Spelled(b, n);
    && 0 <= p < 0x11_0000
    && !(0xD800 <= p <= 0xDFFF)
    && (n == 2 ==> p >= 0x80) && (n == 3 ==> p >= 0x800) && (n == 4 ==> p >= 0x1_0000)
  }

  /** Whether a byte string is UTF-8 throughout. */
  predicate Valid(b: seq<Byte>) {
    b == [] || (ValidHead(b) && Valid(b[Announced(b[0])..]))
  }

  /** The text of a valid byte string. What a decoder substitutes in an invalid one
      is not modelled. */
  function Decode(b: seq<Byte>): JsString
    requires Valid(b)
  {
    if b == [] then [] else Units(Spelled(b, Announced(b[0]))) + Decode(b[Announced(b[0])..])
  }

  /** The string with every lone surrogate replaced. */
  function Sanitized(s: JsString): JsString {
    if s == [] then []
    else (if IsLone(s) then [REPLACEMENT] else s[..HeadWidth(s)]) + Sanitized(s[HeadWidth(s)..])
  }

  lemma {:induction false} SanitizedKeeps(s: JsString)
    ensures |Sanitized(s)| == |s|
    ensures Sanitized(s) == s <==> WellFormed(s)
  {
    if s != [] {
      var w := HeadWidth(s);
      SanitizedKeeps(s[w..]);
      assert s == s[..w] + s[w..];
      if Sanitized(s) == s {
        assert Sanitized(s)[..w] == s[..w] && Sanitized(s)[w..] == s[w..];
      }
    }
  }

  /** The bytes of one scalar value are valid, announce themselves and spell it. */
  lemma EncodeScalarSpells(p: nat, rest: seq<Byte>)
    requires p < 0x11_0000 && !(0xD800 <= p <= 0xDFFF)
    ensures var b := EncodeScalar(p) + rest;
      ValidHead(b) && Announced(b[0]) == |EncodeScalar(p)| && Spelled(b, Announced(b[0])) == p
      && b[Announced(b[0])..] == rest
  {
    var e := EncodeScalar(p);
    var b := e + rest;
    assert b[..|e|] == e;
    assert forall i :: 0 <= i < |e| ==> b[i] == e[i];
    assert b[|e|..] == rest;
    SixBits(p);
  }

  /** The arithmetic of splitting a number into groups of six bits. */
  lemma SixBits(p: nat)
    ensures p == (p / 0x40) * 0x40 + p % 0x40
    ensures p == (p / 0x1000) * 0x1000 + (p / 0x40 % 0x40) * 0x40 + p % 0x40
    ensures p == (p / 0x4_0000) * 0x4_0000 + (p / 0x1000 % 0x40) * 0x1000 + (p / 0x40 % 0x40) * 0x40 + p % 0x40
  {
    var a := p / 0x40;
    var b := a / 0x40;
    assert p / 0x1000 == b;
    assert p / 0x4_0000 == b / 0x40;
  }

  lemma UnitsOfHead(s: JsString)
    requires s != []
    ensures Units(HeadScalar(s)) == if IsLone(s) then [REPLACEMENT] else s[..HeadWidth(s)]
  {
    if StartsPair(s) {
      var x: int := (s[0] as int - 0xD800) * 0x400 + (s[1] as int - 0xDC00);
      assert x / 0x400 == s[0] - 0xD800 && x % 0x400 == s[1] - 0xDC00;
      assert s[..2] == [s[0], s[1]];
    } else {
      assert s[..1] == [s[0]];
    }
  }

  /** Encoding and decoding returns the text, with lone surrogates replaced. */
  lemma {:induction false} DecodeEncode(s: JsString)
    ensures Valid(Encode(s)) && Decode(Encode(s)) == Sanitized(s)
  {
    if s != [] {
      var rest := s[HeadWidth(s)..];
      DecodeEncode(rest);
      EncodeScalarSpells(HeadScalar(s), Encode(rest));
      UnitsOfHead(s);
    }
  }

  lemma HeadOfConcat(s: JsString, t: JsString)
    requires s != [] && (t == [] || !IsLow(t[0]))
    ensures HeadWidth(s + t) == HeadWidth(s) && HeadScalar(s + t) == HeadScalar(s)
    ensures (s + t)[HeadWidth(s)..] == s[HeadWidth(s)..] + t
  {
    assert (s + t)[0] == s[0];
    assert |s| > 1 ==> (s + t)[1] == s[1];
  }

  /** A code point boundary may only be cut where the right part does not open with
      the second half of a pair. */
  lemma {:induction false} EncodeConcat(s: JsString, t: JsString)
    requires t == [] || !IsLow(t[0])
    ensures Encode(s + t) == Encode(s) + Encode(t)
  {
    if s == [] {
      assert s + t == t;
    } else {
      var rest := s[HeadWidth(s)..];
      HeadOfConcat(s, t);
      EncodeConcat(rest, t);
      assert EncodeHead(s) + (Encode(rest) + Encode(t)) == (EncodeHead(s) + Encode(rest)) + Encode(t);
    }
  }

  lemma {:induction false} EncodeAscii(s: JsString)
    requires IsAscii(s)
    ensures |Encode(s)| == |s|
  {
    if s != [] {
      EncodeAscii(s[1..]);
    }
  }
}
