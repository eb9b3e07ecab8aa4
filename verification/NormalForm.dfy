/** What the normal form tells apart. Tokens are joined by a space, so the form is sound
    only where the joined text can be read one way. */
module NormalForm {
  import opened JsText
  import opened Predicate

  // --- the normalizer --------------------------------------------------------------------

  const DOUBLE_COLON: JsString := [COLON, COLON]
  const TEXT: JsString := [0x74, 0x65, 0x78, 0x74]
  const AND: JsString := [0x61, 0x6E, 0x64]
  const OR: JsString := [0x6F, 0x72]
  const CASE: JsString := [0x63, 0x61, 0x73, 0x65]

  predicate IsConnective(token: JsString) { token == AND || token == OR || token == CASE }

  datatype Reduction = Reduced(tokens: seq<JsString>) | Connective(token: JsString)

  /** The two tokens a cast to text or a table qualifier takes. */
  predicate Dropped(tokens: seq<JsString>, table: JsString) {
    && |tokens| > 1
    && ((tokens[0] == DOUBLE_COLON && tokens[1] == TEXT) || (tokens[0] == table && tokens[1] == [DOT]))
  }

  function Reduce(tokens: seq<JsString>, table: JsString): Reduction
    decreases tokens
  {
    if tokens == [] then Reduced([])
    else if IsConnective(tokens[0]) then Connective(tokens[0])
    else if Dropped(tokens, table) then Reduce(tokens[2..], table)
    else match Reduce(tokens[1..], table)
      case Reduced(rest) => Reduced(tokens[..1] + rest)
      case Connective(token) => Connective(token)
  }

  function Joined(tokens: seq<JsString>): JsString {
    if tokens == [] then []
    else if |tokens| == 1 then tokens[0]
    else tokens[0] + [SPACE] + Joined(tokens[1..])
  }

  datatype Normal = Normalized(text: JsString) | Refused(connective: JsString)

  function Normalize(expression: JsString, table: JsString): Normal {
    match Reduce(Tokenize(expression), table)
    case Reduced(tokens) => Normalized(Joined(tokens))
    case Connective(token) => Refused(token)
  }

  method NormalizePredicate(expression: JsString, table: JsString) returns (normal: Normal)
    ensures normal == Normalize(expression, table)
  {
    var tokens := TokenizeExpression(expression);
    var reduced: seq<JsString> := [];
    var index := 0;
    while index < |tokens|
      invariant index <= |tokens|
      invariant Resumed(reduced, Reduce(tokens[index..], table)) == Reduce(tokens, table)
    {
      var token := tokens[index];
      ReduceAt(tokens, index, table, reduced);
      if IsConnective(token) {
        return Refused(token);
      }
      if token == DOUBLE_COLON && index + 1 < |tokens| && tokens[index + 1] == TEXT {
        index := index + 2;
        continue;
      }
      if token == table && index + 1 < |tokens| && tokens[index + 1] == [DOT] {
        index := index + 2;
        continue;
      }
      reduced := reduced + [token];
      index := index + 1;
    }
    assert tokens[index..] == [] && reduced + [] == reduced;
    normal := Normalized(Joined(reduced));
  }

  /** The tokens kept so far, before the reduction of what is left. */
  function Resumed(kept: seq<JsString>, rest: Reduction): Reduction {
    match rest
    case Reduced(tokens) => Reduced(kept + tokens)
    case Connective(token) => Connective(token)
  }

  /** One step of the loop. */
  lemma ReduceAt(tokens: seq<JsString>, index: nat, table: JsString, kept: seq<JsString>)
    requires index < |tokens|
    ensures var rest := Reduce(tokens[index..], table);
      if IsConnective(tokens[index]) then rest == Connective(tokens[index])
      else if index + 1 < |tokens| && ((tokens[index] == DOUBLE_COLON && tokens[index + 1] == TEXT)
                                       || (tokens[index] == table && tokens[index + 1] == [DOT]))
      then rest == Reduce(tokens[index + 2..], table)
      else Resumed(kept, rest) == Resumed(kept + [tokens[index]], Reduce(tokens[index + 1..], table))
  {
    var rest := tokens[index..];
    assert rest[1..] == tokens[index + 1..];
    assert index + 1 < |tokens| ==> rest[2..] == tokens[index + 2..];
    var reduced := Reduce(tokens[index + 1..], table);
    if reduced.Reduced? {
      Regroup(kept, [tokens[index]], reduced.tokens);
      assert rest[..1] == [tokens[index]];
    }
  }

  predicate HoldsConnective(tokens: seq<JsString>) { exists i :: 0 <= i < |tokens| && IsConnective(tokens[i]) }

  /** A predicate is refused exactly when one of its tokens is a connective, the
      dropped ones included, and the refusal names the first of them. */
  lemma {:induction false} RefusedExactly(tokens: seq<JsString>, table: JsString)
    ensures Reduce(tokens, table).Connective? <==> HoldsConnective(tokens)
    ensures Reduce(tokens, table).Connective? ==>
      exists i :: 0 <= i < |tokens| && tokens[i] == Reduce(tokens, table).token && !HoldsConnective(tokens[..i])
    decreases tokens
  {
    if tokens != [] {
      if IsConnective(tokens[0]) {
        assert !HoldsConnective(tokens[..0]);
      } else {
        var n := if Dropped(tokens, table) then 2 else 1;
        var rest := tokens[n..];
        RefusedExactly(rest, table);
        assert forall k :: 0 <= k < n ==> !IsConnective(tokens[k]);
        assert forall k :: 0 <= k < |rest| ==> rest[k] == tokens[k + n];
        assert forall k :: n <= k < |tokens| ==> tokens[k] == rest[k - n];
        if Reduce(rest, table).Connective? {
          var i :| 0 <= i < |rest| && rest[i] == Reduce(rest, table).token && !HoldsConnective(rest[..i]);
          assert tokens[i + n] == rest[i];
          assert forall k :: n <= k < i + n ==> tokens[k] == rest[..i][k - n];
          assert !HoldsConnective(tokens[..i + n]);
        }
      }
    }
  }

  // --- quoted runs -----------------------------------------------------------------------

  /** A closing quote ends the run, rather than the end of the text. */
  predicate Closes(t: JsString, quote: Unit) {
    if t == [] then false
    else if t[0] != quote then Closes(t[1..], quote)
    else if |t| > 1 && t[1] == quote then Closes(t[2..], quote)
    else true
  }

  lemma {:induction false} RunOfPrefix(t: JsString, quote: Unit)
    ensures var n := BodyLength(t, quote);
      && BodyLength(t[..n], quote) == n && (Closes(t[..n], quote) <==> Closes(t, quote))
      && (!Closes(t, quote) ==> n == |t|)
  {
    var n := BodyLength(t, quote);
    if t != [] {
      if t[0] != quote {
        RunOfPrefix(t[1..], quote);
        assert t[..n][1..] == t[1..][..n - 1];
      } else if |t| > 1 && t[1] == quote {
        RunOfPrefix(t[2..], quote);
        assert t[..n][2..] == t[2..][..n - 2];
      }
    }
  }

  lemma {:induction false} RunBefore(t: JsString, quote: Unit, r: JsString)
    requires BodyLength(t, quote) == |t| && Closes(t, quote) && (r == [] || r[0] != quote)
    ensures BodyLength(t + r, quote) == |t|
  {
    if t[0] != quote {
      RunBefore(t[1..], quote, r);
      assert (t + r)[1..] == t[1..] + r;
    } else if |t| > 1 && t[1] == quote {
      RunBefore(t[2..], quote, r);
      assert (t + r)[2..] == t[2..] + r;
    }
  }

  lemma {:induction false} WordBefore(t: JsString, r: JsString)
    requires forall i :: 0 <= i < |t| ==> IsWordBody(t[i])
    requires r == [] || !IsWordBody(r[0])
    ensures WordLength(t + r) == |t|
  {
    if t == [] {
      assert t + r == r;
    } else {
      WordBefore(t[1..], r);
      assert (t + r)[1..] == t[1..] + r;
    }
  }

  // --- what the tokenizer makes -------------------------------------------------------------

  predicate IsWord(t: JsString) {
    t != [] && IsWordStart(t[0]) && forall i :: 0 <= i < |t| ==> IsWordBody(t[i]) && !IsUpper(t[i])
  }

  predicate IsQuoted(t: JsString) { |t| >= 2 && t[0] == QUOTE == t[|t| - 1] && !Bare(t[1..|t| - 1]) }

  predicate IsLiteral(t: JsString) { t != [] && t[0] == TICK && BodyLength(t[1..], TICK) == |t| - 1 }

  predicate IsMark(t: JsString) {
    || t == DOUBLE_COLON
    || (|t| == 1 && !IsGap(t[0]) && t[0] != TICK && t[0] != QUOTE && !IsWordStart(t[0]))
  }

  predicate IsToken(t: JsString) { IsWord(t) || IsQuoted(t) || IsLiteral(t) || IsMark(t) }

  predicate IsOpen(t: JsString) { t != [] && t[0] == TICK && !Closes(t[1..], TICK) }

  /** Token by token, and nothing after a literal the text does not close. */
  predicate AreTokens(tokens: seq<JsString>) {
    && (forall i :: 0 <= i < |tokens| ==> IsToken(tokens[i]))
    && (forall i :: 0 <= i < |tokens| - 1 ==> !IsOpen(tokens[i]))
  }

  lemma FoldedIsToken(raw: JsString)
    requires raw != [] && (raw[0] == QUOTE || (IsWordStart(raw[0]) && forall i :: 0 <= i < |raw| ==> IsWordBody(raw[i])))
    ensures IsWord(FoldIdentifier(raw)) || IsQuoted(FoldIdentifier(raw))
  {
    if raw[0] == QUOTE {
      var inner := Undoubled(Inner(raw));
      var quoted := [QUOTE] + inner + [QUOTE];
      assert quoted[1..|quoted| - 1] == inner;
    }
  }

  lemma HeadIsToken(s: JsString)
    requires s != [] && !IsGap(s[0])
    ensures |TokenOf(Lexeme(s))| == 1 && IsToken(TokenOf(Lexeme(s))[0])
    ensures IsOpen(TokenOf(Lexeme(s))[0]) ==> HeadLength(s) == |s|
  {
    var lexeme := Lexeme(s);
    if s[0] == TICK {
      RunOfPrefix(s[1..], TICK);
      assert lexeme[1..] == s[1..][..HeadLength(s) - 1];
    } else if s[0] == QUOTE || IsWordStart(s[0]) {
      FoldedIsToken(lexeme);
    }
  }

  lemma {:induction false} TokenizeMakesTokens(s: JsString)
    ensures AreTokens(Tokenize(s))
  {
    if s != [] {
      TokenizeMakesTokens(s[HeadLength(s)..]);
      if !IsGap(s[0]) {
        HeadIsToken(s);
      }
    }
  }
}
