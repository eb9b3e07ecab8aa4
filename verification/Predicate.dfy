/** The normal form two deparsers agree on (packages/control-plane/src/db/predicate.ts). */
module Predicate {
  import opened JsText

  const SPACE: Unit := 0x20
  const DOLLAR: Unit := 0x24
  const TICK: Unit := 0x27
  const OPEN: Unit := 0x28
  const CLOSE: Unit := 0x29
  const DOT: Unit := 0x2E
  const COLON: Unit := 0x3A
  const UNDERSCORE: Unit := 0x5F

  // --- character classes ---------------------------------------------------------------

  predicate IsUpper(u: Unit) { 0x41 <= u <= 0x5A }

  predicate IsLower(u: Unit) { 0x61 <= u <= 0x7A }

  predicate IsDigit(u: Unit) { 0x30 <= u <= 0x39 }

  predicate IsWordStart(u: Unit) { IsUpper(u) || IsLower(u) || IsDigit(u) || u == UNDERSCORE }

  predicate IsWordBody(u: Unit) { IsWordStart(u) || u == DOLLAR }

  /** JavaScript's `\s`. */
  predicate IsWhite(u: Unit) {
    || 0x09 <= u <= 0x0D || u == SPACE || u == 0xA0 || u == 0x1680 || 0x2000 <= u <= 0x200A
    || u == 0x2028 || u == 0x2029 || u == 0x202F || u == 0x205F || u == 0x3000 || u == 0xFEFF
  }

  /** What the tokenizer drops. */
  predicate IsGap(u: Unit) { IsWhite(u) || u == OPEN || u == CLOSE }

  predicate AllGap(s: JsString) { forall i :: 0 <= i < |s| ==> IsGap(s[i]) }

  // --- identifier folding --------------------------------------------------------------

  function Lower(s: JsString): (t: JsString)
    ensures |t| == |s| && forall i :: 0 <= i < |s| ==> t[i] == if IsUpper(s[i]) then s[i] + 0x20 else s[i]
  {
    seq(|s|, i requires 0 <= i < |s| => if IsUpper(s[i]) then s[i] + 0x20 else s[i])
  }

  /** A name that needs no quotes: lower-case, digits, `_` and `$`, and no digit or `$` first. */
  predicate Bare(s: JsString) {
    && s != [] && (IsLower(s[0]) || s[0] == UNDERSCORE)
    && forall i :: 0 <= i < |s| ==> IsLower(s[i]) || IsDigit(s[i]) || s[i] == UNDERSCORE || s[i] == DOLLAR
  }

  /** `replaceAll('""', '"')`. */
  function Undoubled(s: JsString): JsString {
    if s == [] then []
    else if |s| > 1 && s[0] == QUOTE && s[1] == QUOTE then [QUOTE] + Undoubled(s[2..])
    else s[..1] + Undoubled(s[1..])
  }

  /** `slice(1, -1)`. */
  function Inner(raw: JsString): JsString { if |raw| < 2 then [] else raw[1..|raw| - 1] }

  function FoldIdentifier(raw: JsString): JsString {
    if raw == [] || raw[0] != QUOTE then Lower(raw)
    else
      var inner := Undoubled(Inner(raw));
      if Bare(inner) then inner else [QUOTE] + inner + [QUOTE]
  }

  // --- the scanner -----------------------------------------------------------------------

  /** How much of the text after an opening quote the quoted run takes, the closing quote
      included. A doubled quote does not close it; the end of the text does. */
  function BodyLength(t: JsString, quote: Unit): (n: nat)
    ensures n <= |t| && (t != [] ==> n > 0)
  {
    if t == [] then 0
    else if t[0] != quote then 1 + BodyLength(t[1..], quote)
    else if |t| > 1 && t[1] == quote then 2 + BodyLength(t[2..], quote)
    else 1
  }

  function WordLength(s: JsString): (n: nat)
    ensures n <= |s| && (forall i :: 0 <= i < n ==> IsWordBody(s[i])) && (n < |s| ==> !IsWordBody(s[n]))
  {
    if s == [] || !IsWordBody(s[0]) then 0 else 1 + WordLength(s[1..])
  }

  /** How much of the text its first lexeme takes. */
  function HeadLength(s: JsString): (n: nat)
    requires s != []
    ensures 1 <= n <= |s|
  {
    if IsGap(s[0]) then 1
    else if s[0] == TICK || s[0] == QUOTE then 1 + BodyLength(s[1..], s[0])
    else if IsWordStart(s[0]) then WordLength(s)
    else if s[0] == COLON && |s| > 1 && s[1] == COLON then 2
    else 1
  }

  /** The token a lexeme is: a literal verbatim, an identifier folded, a gap none. */
  function TokenOf(lexeme: JsString): seq<JsString>
    requires lexeme != []
  {
    if IsGap(lexeme[0]) then []
    else if lexeme[0] == QUOTE || IsWordStart(lexeme[0]) then [FoldIdentifier(lexeme)]
    else [lexeme]
  }

  function Tokenize(s: JsString): seq<JsString> {
    if s == [] then [] else TokenOf(s[..HeadLength(s)]) + Tokenize(s[HeadLength(s)..])
  }

  method ReadQuoted(expression: JsString, start: nat) returns (raw: JsString, next: nat)
    requires start < |expression|
    ensures var n := 1 + BodyLength(expression[start..][1..], expression[start]);
      raw == expression[start..start + n] && (next == start + n || next == start + n + 1 == |expression| + 1)
  {
    var quote := expression[start];
    var end := start + 1;
    assert expression[start..][1..] == expression[start + 1..];
    while end < |expression|
      invariant start < end <= |expression|
      invariant BodyLength(expression[start + 1..], quote) == end - start - 1 + BodyLength(expression[end..], quote)
    {
      if expression[end] == quote {
        if end + 1 < |expression| && expression[end + 1] == quote {
          assert expression[end..][2..] == expression[end + 2..];
          end := end + 2;
          continue;
        }
        break;
      }
      assert expression[end..][1..] == expression[end + 1..];
      end := end + 1;
    }
    raw := expression[start..if end + 1 < |expression| then end + 1 else |expression|];
    next := end + 1;
  }

  method ReadWord(expression: JsString, start: nat) returns (end: nat)
    requires start < |expression|
    ensures end == start + WordLength(expression[start..])
  {
    end := start;
    while end < |expression| && IsWordBody(expression[end])
      invariant start <= end <= |expression|
      invariant WordLength(expression[start..]) == end - start + WordLength(expression[end..])
    {
      assert expression[end..][1..] == expression[end + 1..];
      end := end + 1;
    }
  }

  /** The first lexeme of a text, and what follows it. */
  function Lexeme(s: JsString): JsString
    requires s != []
  {
    s[..HeadLength(s)]
  }

  /** The branches of the scanner's loop: the token the lexeme at an index is, if it is
      one, and the index to go on from. */
  method ReadLexeme(expression: JsString, index: nat) returns (token: seq<JsString>, next: nat)
    requires index < |expression|
    ensures var n := HeadLength(expression[index..]);
      && token == TokenOf(Lexeme(expression[index..]))
      && (next == index + n || next == index + n + 1 == |expression| + 1)
  {
    var character := expression[index];
    if IsGap(character) {
      return [], index + 1;
    } else if character == TICK {
      var raw;
      raw, next := ReadQuoted(expression, index);
      LexemeAt(expression, index, raw);
      token := [raw];
    } else if character == QUOTE {
      var raw;
      raw, next := ReadQuoted(expression, index);
      LexemeAt(expression, index, raw);
      token := [FoldIdentifier(raw)];
    } else if IsWordStart(character) {
      next := ReadWord(expression, index);
      LexemeAt(expression, index, expression[index..next]);
      token := [FoldIdentifier(expression[index..next])];
    } else if index + 1 < |expression| && character == COLON && expression[index + 1] == COLON {
      LexemeAt(expression, index, [COLON, COLON]);
      return [[COLON, COLON]], index + 2;
    } else {
      LexemeAt(expression, index, [character]);
      return [[character]], index + 1;
    }
  }

  lemma LexemeAt(s: JsString, index: nat, raw: JsString)
    requires index < |s| && raw != [] && index + |raw| <= |s| && raw == s[index..index + |raw|]
    requires |raw| == HeadLength(s[index..])
    ensures Lexeme(s[index..]) == raw
  {
  }

  lemma TokenizeAt(s: JsString, index: nat, next: nat)
    requires index < |s| && next == index + HeadLength(s[index..])
    ensures Tokenize(s[index..]) == TokenOf(Lexeme(s[index..])) + Tokenize(s[next..])
  {
    assert s[index..][next - index..] == s[next..];
  }

  /** The text not yet scanned. */
  function Rest(s: JsString, index: nat): JsString { if index < |s| then s[index..] else [] }

  lemma Scanned(s: JsString, index: nat, token: seq<JsString>, next: nat)
    requires index < |s| && token == TokenOf(Lexeme(s[index..]))
    requires var n := HeadLength(s[index..]); next == index + n || next == index + n + 1 == |s| + 1
    ensures Tokenize(Rest(s, index)) == token + Tokenize(Rest(s, next))
  {
    TokenizeAt(s, index, index + HeadLength(s[index..]));
  }

  lemma Regroup<T>(a: seq<T>, b: seq<T>, c: seq<T>)
    ensures a + (b + c) == (a + b) + c
  {
  }

  method TokenizeExpression(expression: JsString) returns (tokens: seq<JsString>)
    ensures tokens == Tokenize(expression)
  {
    tokens := [];
    var index := 0;
    while index < |expression|
      invariant tokens + Tokenize(Rest(expression, index)) == Tokenize(expression)
    {
      var token, next := ReadLexeme(expression, index);
      Scanned(expression, index, token, next);
      Regroup(tokens, token, Tokenize(Rest(expression, next)));
      tokens := tokens + token;
      index := next;
    }
  }
}
