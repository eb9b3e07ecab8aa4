/** JavaScript strings as the sequences of UTF-16 code units they are, and the
    string form of `JSON.stringify` (section 7 of RFC 8259). */
module JsText {

  /** One UTF-16 code unit. */
  type Unit = u: int | 0 <= u < 0x1_0000

  type JsString = seq<Unit>

  const QUOTE: Unit := 0x22
  const BACKSLASH: Unit := 0x5C

  predicate IsHigh(u: Unit) { 0xD800 <= u <= 0xDBFF }

  predicate IsLow(u: Unit) { 0xDC00 <= u <= 0xDFFF }

  predicate IsSurrogate(u: Unit) { 0xD800 <= u <= 0xDFFF }

  /** Whether the string opens with a surrogate pair, which is one code point. */
  predicate StartsPair(s: JsString) { |s| >= 2 && IsHigh(s[0]) && IsLow(s[1]) }

  /** How many code units the first code point takes. */
  function HeadWidth(s: JsString): (n: nat)
    requires s != []
    ensures 1 <= n <= |s|
  {
    if StartsPair(s) then 2 else 1
  }

  predicate IsAscii(s: JsString) { forall i :: 0 <= i < |s| ==> s[i] < 0x80 }

  /** Text the program itself writes, which is ASCII throughout; anything else reads
      as a question mark. */
  function Ascii(s: string): (t: JsString)
    ensures |t| == |s| && IsAscii(t)
  {
    seq(|s|, i requires 0 <= i < |s| => if s[i] as int < 0x80 then s[i] as int else 0x3F)
  }

  /** One lower-case hexadecimal digit. */
  function Hex(d: nat): (u: Unit)
    requires d < 16
    ensures u < 0x80 && Unhex(u) == d
  {
    if d < 10 then 0x30 + d else 0x57 + d
  }

  /** The value of one lower-case hexadecimal digit. */
  function Unhex(u: Unit): (d: nat)
    ensures d < 16
  {
    if 0x30 <= u <= 0x39 then u - 0x30 else if 0x61 <= u <= 0x66 then u - 0x57 else 0
  }

  /** The `\uXXXX` spelling of a code unit. */
  function EscapeHex(u: Unit): (t: JsString)
    ensures |t| == 6 && t[0] == BACKSLASH && t[1] == 0x75
    ensures forall i :: 0 <= i < 6 ==> t[i] < 0x80
  {
    [BACKSLASH, 0x75, Hex(u / 0x1000), Hex(u / 0x100 % 16), Hex(u / 0x10 % 16), Hex(u % 16)]
  }

  /** The four digits after `\\u`, read back as a number. */
  function UnescapeHex(t: JsString): (u: Unit)
    requires |t| >= 6
  {
    Unhex(t[2]) * 0x1000 + Unhex(t[3]) * 0x100 + Unhex(t[4]) * 0x10 + Unhex(t[5])
  }

  lemma EscapeHexInverts(u: Unit)
    ensures UnescapeHex(EscapeHex(u)) == u
  {
    var a, b, c := u / 0x1000, u / 0x100, u / 0x10;
    assert b / 0x10 == a && c / 0x10 == b;
    assert u == c * 0x10 + u % 16 && c == b * 0x10 + c % 16 && b == a * 0x10 + b % 16;
  }

  /** The letter of a two-character escape, where the code unit has one. */
  function ShortEscape(u: Unit): (c: int)
    ensures c == 0 || c == 0x22 || c == 0x5C || 0x61 <= c <= 0x74
  {
    if u == QUOTE then QUOTE
    else if u == BACKSLASH then BACKSLASH
    else if u == 0x08 then 0x62
    else if u == 0x0C then 0x66
    else if u == 0x0A then 0x6E
    else if u == 0x0D then 0x72
    else if u == 0x09 then 0x74
    else 0
  }

  /** How the first code point of a string is written inside a JSON string. */
  function EscapeHead(s: JsString): (t: JsString)
    requires s != []
    ensures t != [] && t[0] != QUOTE
  {
    if StartsPair(s) then s[..2]
    else if ShortEscape(s[0]) != 0 then [BACKSLASH, ShortEscape(s[0])]
    else if s[0] < 0x20 || IsSurrogate(s[0]) then EscapeHex(s[0])
    else s[..1]
  }

  function Escape(s: JsString): JsString {
    if s == [] then [] else EscapeHead(s) + Escape(s[HeadWidth(s)..])
  }

  /** `JSON.stringify` of a string. */
  function Quoted(s: JsString): JsString {
    [QUOTE] + Escape(s) + [QUOTE]
  }

  /** Reads one escaped code point back, with the units it consumed. */
  function ReadHead(t: JsString): (JsString, nat)
    requires t != []
  {
    if t[0] == BACKSLASH && |t| >= 6 && t[1] == 0x75 then
      ([UnescapeHex(t)], 6)
    else if t[0] == BACKSLASH && |t| >= 2 then
      ([if t[1] == 0x62 then 0x08 else if t[1] == 0x66 then 0x0C else if t[1] == 0x6E then 0x0A
        else if t[1] == 0x72 then 0x0D else if t[1] == 0x74 then 0x09 else t[1]], 2)
    else if StartsPair(t) then (t[..2], 2)
    else (t[..1], 1)
  }

  /** What is written for a code point is read back as that code point, whatever follows. */
  lemma ReadHeadInverts(s: JsString, rest: JsString)
    requires s != []
    ensures ReadHead(EscapeHead(s) + rest) == (s[..HeadWidth(s)], |EscapeHead(s)|)
  {
    var head := EscapeHead(s);
    var t := head + rest;
    assert t[0] == head[0] && (|head| > 1 ==> t[1] == head[1]);
    if StartsPair(s) {
      assert t[..2] == s[..2];
    } else {
      assert s[..1] == [s[0]];
      if ShortEscape(s[0]) == 0 && (s[0] < 0x20 || IsSurrogate(s[0])) {
        EscapeHexInverts(s[0]);
        assert t[2] == head[2] && t[3] == head[3] && t[4] == head[4] && t[5] == head[5];
      } else if ShortEscape(s[0]) == 0 {
        assert t[..1] == s[..1];
      }
    }
  }

  lemma Regrouped(head: JsString, rest: JsString, r: JsString)
    ensures head + rest + [QUOTE] + r == head + (rest + [QUOTE] + r)
    ensures (head + rest + [QUOTE] + r)[|head|..] == rest + [QUOTE] + r
  {
  }

  /** An escaped string ends at the first quote that is not part of an escape, so
      two JSON strings with a common spelling are one string with one remainder. */
  lemma {:induction false} EscapeUnambiguous(s: JsString, r: JsString, s': JsString, r': JsString)
    requires Escape(s) + [QUOTE] + r == Escape(s') + [QUOTE] + r'
    ensures s == s' && r == r'
    decreases |s| + |s'|
  {
    var t := Escape(s) + [QUOTE] + r;
    if s == [] || s' == [] {
      assert s == [] ==> t[0] == QUOTE;
      assert s' == [] ==> t[0] == QUOTE;
      assert s == s' == [];
      assert r == t[1..] == r';
    } else {
      var tail := Escape(s[HeadWidth(s)..]) + [QUOTE] + r;
      var tail' := Escape(s'[HeadWidth(s')..]) + [QUOTE] + r';
      Regrouped(EscapeHead(s), Escape(s[HeadWidth(s)..]), r);
      Regrouped(EscapeHead(s'), Escape(s'[HeadWidth(s')..]), r');
      ReadHeadInverts(s, tail);
      ReadHeadInverts(s', tail');
      EscapeUnambiguous(s[HeadWidth(s)..], r, s'[HeadWidth(s')..], r');
      assert s == s[..HeadWidth(s)] + s[HeadWidth(s)..];
      assert s' == s'[..HeadWidth(s')] + s'[HeadWidth(s')..];
    }
  }

  /** The same, for the quoted form in front of any text. */
  lemma QuotedUnambiguous(s: JsString, r: JsString, s': JsString, r': JsString)
    requires Quoted(s) + r == Quoted(s') + r'
    ensures s == s' && r == r'
  {
    var t := Quoted(s) + r;
    assert t[1..] == Escape(s) + [QUOTE] + r;
    assert t[1..] == Escape(s') + [QUOTE] + r';
    EscapeUnambiguous(s, r, s', r');
  }

  /** One scalar value as code units. */
  function Units(p: nat): (s: JsString)
    requires p < 0x11_0000
    ensures s != []
  {
    if p < 0x1_0000 then [p] else [0xD800 + (p - 0x1_0000) / 0x400, 0xDC00 + (p - 0x1_0000) % 0x400]
  }

  /** Text as the code units JavaScript compares it by. */
  function Codes(s: string): JsString {
    if s == [] then [] else Units(s[0] as int) + Codes(s[1..])
  }

  lemma {:induction false} CodesInjective(a: string, b: string)
    requires Codes(a) == Codes(b)
    ensures a == b
  {
    if a != [] && b != [] {
      var x, y := Units(a[0] as int), Units(b[0] as int);
      assert Codes(a)[..|x|] == x && Codes(b)[..|y|] == y;
      assert x[0] == Codes(a)[0] == y[0];
      assert |x| == |y|;
      UnitsInjective(a[0] as int, b[0] as int);
      assert Codes(a)[|x|..] == Codes(a[1..]) && Codes(b)[|y|..] == Codes(b[1..]);
      CodesInjective(a[1..], b[1..]);
      assert a == [a[0]] + a[1..] && b == [b[0]] + b[1..];
    }
  }

  lemma UnitsInjective(p: nat, q: nat)
    requires p < 0x11_0000 && q < 0x11_0000 && Units(p) == Units(q)
    ensures p == q
  {
    if p >= 0x1_0000 {
      var m, n := p - 0x1_0000, q - 0x1_0000;
      assert m == m / 0x400 * 0x400 + m % 0x400 && n == n / 0x400 * 0x400 + n % 0x400;
      assert Units(p)[0] == Units(q)[0] && Units(p)[1] == Units(q)[1];
    }
  }
}
