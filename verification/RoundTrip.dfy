/** When the joined tokens read back as the tokens that were joined. */
module RoundTrip {
  import opened JsText
  import opened Predicate
  import opened NormalForm

  predicate NoQuote(s: JsString) { forall i :: 0 <= i < |s| ==> s[i] != QUOTE }

  /** A token that reads back as itself before a space or at the end. Un-doubling is not
      undone when a quoted identifier is printed, so a quote inside one is read as its
      end. The one exception is a final `"x""`, read as a run the text does not close. */
  predicate Survives(t: JsString, last: bool) {
    IsQuoted(t) ==> NoQuote(t[1..|t| - 1]) || (last && |t| >= 3 && NoQuote(t[1..|t| - 2]) && t[|t| - 2] == QUOTE)
  }

  predicate AllSurvive(tokens: seq<JsString>) {
    forall i :: 0 <= i < |tokens| ==> Survives(tokens[i], i == |tokens| - 1)
  }

  /** What may follow a token in the joined text. */
  predicate Follows(r: JsString) { r == [] || (|r| >= 2 && r[0] == SPACE) }

  // --- un-doubling -----------------------------------------------------------------------

  /** Reading a quoted run and folding it, as one pass over the text after the opening
      quote: the last character read is dropped, whether or not it is the quote. */
  function Scan(t: JsString): JsString {
    if |t| < 2 then []
    else if t[0] != QUOTE then t[..1] + Scan(t[1..])
    else if t[1] == QUOTE then [QUOTE] + Scan(t[2..])
    else []
  }

  lemma {:induction false} ScanIsFold(t: JsString)
    requires t != []
    ensures Undoubled(t[..BodyLength(t, QUOTE) - 1]) == Scan(t)
  {
    var n := BodyLength(t, QUOTE);
    if |t| >= 2 {
      if t[0] != QUOTE {
        ScanIsFold(t[1..]);
        assert t[..n - 1][1..] == t[1..][..n - 2];
      } else if t[1] == QUOTE {
        if |t| > 2 {
          ScanIsFold(t[2..]);
          assert t[..n - 1][2..] == t[2..][..n - 3];
        } else {
          assert t[..1][1..] == [];
        }
      }
    }
  }

  lemma {:induction false} UndoubledPlain(s: JsString)
    requires NoQuote(s)
    ensures Undoubled(s) == s && Undoubled(s + [QUOTE]) == s + [QUOTE]
  {
    if s != [] {
      UndoubledPlain(s[1..]);
      assert (s + [QUOTE])[1..] == s[1..] + [QUOTE];
    }
  }

  lemma {:induction false} PlainRun(s: JsString, r: JsString)
    requires NoQuote(s) && Follows(r)
    ensures BodyLength(s + ([QUOTE] + r), QUOTE) == |s| + 1
    ensures BodyLength(s + [QUOTE, QUOTE], QUOTE) == |s| + 2
  {
    if s == [] {
      assert s + ([QUOTE] + r) == [QUOTE] + r && s + [QUOTE, QUOTE] == [QUOTE, QUOTE];
      assert r != [] ==> ([QUOTE] + r)[1] == SPACE;
    } else {
      PlainRun(s[1..], r);
      assert (s + ([QUOTE] + r))[1..] == s[1..] + ([QUOTE] + r);
      assert (s + [QUOTE, QUOTE])[1..] == s[1..] + [QUOTE, QUOTE];
    }
  }

  /** `m` quotes and then `y`. */
  function Quotes(m: nat, y: JsString): (s: JsString)
    ensures |s| == m + |y| && (m > 0 ==> s[0] == QUOTE)
  {
    if m == 0 then y else [QUOTE] + Quotes(m - 1, y)
  }

  lemma {:induction false} QuotesShift(m: nat, y: JsString)
    ensures Quotes(m + 1, y) == Quotes(m, [QUOTE] + y)
  {
    if m > 0 {
      QuotesShift(m - 1, y);
    }
  }

  lemma ScanAfterSpace(r: JsString)
    requires Follows(r)
    ensures Scan([QUOTE] + r) == [] && Scan(r) == (if r == [] then [] else [SPACE] + Scan(r[1..]))
    ensures Scan([QUOTE, QUOTE] + r) == [QUOTE] + Scan(r)
  {
    assert ([QUOTE, QUOTE] + r)[2..] == r;
    assert r != [] ==> r[..1] == [SPACE];
  }

  /** Once a quote has been swallowed the reading lags behind, and never catches up. */
  lemma {:induction false} ScanLags(m: nat, y: JsString, r: JsString)
    requires m > 0 && Follows(r)
    ensures Scan(y + ([QUOTE] + r)) != Quotes(m, y)
    decreases |y|
  {
    if y == [] {
      ScanAfterSpace(r);
      assert y + ([QUOTE] + r) == [QUOTE] + r;
    } else if |y| == 1 {
      LagOne(m, y, r);
    } else if y[0] == QUOTE && y[1] == QUOTE {
      var z := y[2..];
      ScanLags(m + 1, z, r);
      LagStep(m, y, z);
      LagTwo(y, z, [QUOTE] + r);
    } else {
      LagApart(m, y, [QUOTE] + r);
    }
  }

  lemma LagOne(m: nat, y: JsString, r: JsString)
    requires m > 0 && |y| == 1 && Follows(r)
    ensures Scan(y + ([QUOTE] + r)) != Quotes(m, y)
  {
    ScanAfterSpace(r);
    var t := y + ([QUOTE] + r);
    if y[0] == QUOTE {
      assert t == [QUOTE, QUOTE] + r;
      assert Quotes(m, y)[1..] == Quotes(m - 1, y);
      assert Scan(t)[1..] == Scan(r);
    } else {
      assert t[0] == y[0];
    }
  }

  lemma LagTwo(y: JsString, z: JsString, rest: JsString)
    requires y == [QUOTE, QUOTE] + z
    ensures Scan(y + rest) != [] && Scan(y + rest)[1..] == Scan(z + rest)
  {
    var t := y + rest;
    assert t[0] == QUOTE && t[1] == QUOTE && t[2..] == z + rest;
  }

  lemma LagApart(m: nat, y: JsString, rest: JsString)
    requires m > 0 && |y| >= 2 && !(y[0] == QUOTE && y[1] == QUOTE)
    ensures Scan(y + rest) != Quotes(m, y)
  {
    var t := y + rest;
    assert t[0] == y[0] && t[1] == y[1];
  }

  lemma LagStep(m: nat, y: JsString, z: JsString)
    requires m > 0 && y == [QUOTE, QUOTE] + z
    ensures Quotes(m, y)[1..] == Quotes(m + 1, z)
  {
    QuotesShift(m, z);
    QuotesShift(m - 1, [QUOTE] + z);
    assert [QUOTE] + ([QUOTE] + z) == y;
    assert Quotes(m, [QUOTE] + z) == Quotes(m - 1, y);
  }

  /** The reading of an identifier's inside is that inside exactly when no quote is in it,
      or when its only quote is its last character and nothing follows. */
  lemma {:induction false} ScanFixed(y: JsString, r: JsString)
    requires Follows(r) && Scan(y + ([QUOTE] + r)) == y
    ensures NoQuote(y) || (r == [] && NoQuote(y[..|y| - 1]) && y[|y| - 1] == QUOTE)
  {
    if !NoQuote(y) {
      var t := y + ([QUOTE] + r);
      if y[0] != QUOTE {
        assert t[1..] == y[1..] + ([QUOTE] + r);
        assert Scan(t)[1..] == Scan(t[1..]);
        assert exists i :: 0 <= i < |y| && y[i] == QUOTE;
        assert !NoQuote(y[1..]) by {
          var i :| 0 <= i < |y| && y[i] == QUOTE;
          assert y[1..][i - 1] == QUOTE;
        }
        ScanFixed(y[1..], r);
        assert forall i :: 0 < i < |y| - 1 ==> y[i] == y[1..][..|y| - 2][i - 1];
      } else if |y| == 1 {
        assert t == [QUOTE, QUOTE] + r;
        ScanAfterSpace(r);
      } else {
        if t[1] == QUOTE {
          var z := y[2..];
          assert t[2..] == z + ([QUOTE] + r);
          assert y[1..] == Quotes(1, z);
          assert Scan(t)[1..] == Scan(t[2..]);
          ScanLags(1, z, r);
        }
      }
    }
  }

  // --- one token -------------------------------------------------------------------------

  /** Reads back as itself, and as no more than itself. */
  predicate ReadsBack(t: JsString, r: JsString)
    requires t != []
  {
    HeadLength(t + r) == |t| && TokenOf(t) == [t]
  }

  lemma QuotedFold(t: JsString, r: JsString)
    requires IsQuoted(t)
    ensures (t + r)[1..] == t[1..|t| - 1] + ([QUOTE] + r)
    ensures HeadLength(t + r) == 1 + BodyLength((t + r)[1..], QUOTE)
    ensures TokenOf(Lexeme(t + r)) == [FoldIdentifier(Lexeme(t + r))]
    ensures Undoubled(Inner(Lexeme(t + r))) == Scan((t + r)[1..])
  {
    var u := (t + r)[1..];
    ScanIsFold(u);
    assert Lexeme(t + r)[1..|Lexeme(t + r)| - 1] == u[..BodyLength(u, QUOTE) - 1];
  }

  lemma PlainQuotedReadsBack(t: JsString, r: JsString)
    requires IsQuoted(t) && Follows(r) && NoQuote(t[1..|t| - 1])
    ensures ReadsBack(t, r)
  {
    var inner := t[1..|t| - 1];
    QuotedFold(t, r);
    PlainRun(inner, r);
    UndoubledPlain(inner);
    assert t == [QUOTE] + inner + [QUOTE];
  }

  lemma FinalQuotedReadsBack(t: JsString)
    requires IsQuoted(t) && |t| >= 3 && NoQuote(t[1..|t| - 2]) && t[|t| - 2] == QUOTE
    ensures ReadsBack(t, [])
  {
    var x := t[1..|t| - 2];
    var inner := t[1..|t| - 1];
    assert t + [] == t && t[1..] == x + [QUOTE, QUOTE] && inner == x + [QUOTE];
    PlainRun(x, []);
    UndoubledPlain(x);
    assert t == [QUOTE] + inner + [QUOTE];
  }

  lemma LiteralReadsBack(t: JsString, r: JsString)
    requires IsLiteral(t) && Follows(r) && (IsOpen(t) ==> r == [])
    ensures ReadsBack(t, r)
  {
    assert (t + r)[1..] == t[1..] + r;
    if r == [] {
      assert t + r == t;
    } else {
      RunBefore(t[1..], TICK, r);
    }
  }

  lemma WordReadsBack(t: JsString, r: JsString)
    requires IsWord(t) && Follows(r)
    ensures ReadsBack(t, r)
  {
    WordBefore(t, r);
    assert Lower(t) == t;
    assert (t + r)[0] == t[0];
  }

  lemma MarkReadsBack(t: JsString, r: JsString)
    requires IsMark(t) && Follows(r)
    ensures ReadsBack(t, r)
  {
    assert t + r == t || (t + r)[|t|] == SPACE;
  }

  lemma SurvivorReadsBack(t: JsString, r: JsString)
    requires IsToken(t) && Follows(r) && (IsOpen(t) ==> r == []) && Survives(t, r == [])
    ensures ReadsBack(t, r)
  {
    if IsQuoted(t) {
      if NoQuote(t[1..|t| - 1]) {
        PlainQuotedReadsBack(t, r);
      } else {
        FinalQuotedReadsBack(t);
      }
    } else if IsLiteral(t) {
      LiteralReadsBack(t, r);
    } else if IsWord(t) {
      WordReadsBack(t, r);
    } else {
      MarkReadsBack(t, r);
    }
  }

  /** A quoted token is no bare name. */
  lemma NotBare(name: JsString, t: JsString)
    requires t != [] && t[0] == QUOTE
    ensures Bare(name) ==> name != t
  {
  }

  lemma OnlySurvivorsReadBack(t: JsString, r: JsString)
    requires IsToken(t) && Follows(r) && TokenOf(Lexeme(t + r)) == [t]
    ensures Survives(t, r == [])
  {
    if IsQuoted(t) {
      var inner := t[1..|t| - 1];
      QuotedFold(t, r);
      var scanned := Scan((t + r)[1..]);
      NotBare(scanned, t);
      if !Bare(scanned) {
        assert ([QUOTE] + scanned + [QUOTE])[1..|scanned| + 1] == scanned;
        assert scanned == inner;
        ScanFixed(inner, r);
        if !NoQuote(inner) {
          assert t[1..|t| - 2] == inner[..|inner| - 1];
        }
      }
    }
  }

  // --- token lists -------------------------------------------------------------------------

  function Tail(tokens: seq<JsString>): JsString { if tokens == [] then [] else [SPACE] + Joined(tokens) }

  lemma TailOfTokens(tokens: seq<JsString>)
    requires tokens != [] && AreTokens(tokens)
    ensures AreTokens(tokens[1..]) && tokens[0] != [] && (|tokens| > 1 ==> tokens[1] != [])
  {
    var rest := tokens[1..];
    assert forall i :: 0 <= i < |rest| ==> rest[i] == tokens[i + 1];
  }

  lemma JoinedSplits(tokens: seq<JsString>)
    requires tokens != [] && tokens[0] != [] && (|tokens| > 1 ==> tokens[1] != [])
    ensures Joined(tokens) == tokens[0] + Tail(tokens[1..])
    ensures Follows(Tail(tokens[1..])) && (Tail(tokens[1..]) == [] <==> |tokens| == 1)
  {
    if |tokens| > 1 {
      Regroup(tokens[0], [SPACE], Joined(tokens[1..]));
      assert tokens[1..][0] == tokens[1];
    }
  }

  lemma TailTokens(tokens: seq<JsString>)
    ensures Tokenize(Tail(tokens)) == Tokenize(if tokens == [] then [] else Joined(tokens))
  {
    if tokens != [] {
      assert ([SPACE] + Joined(tokens))[1..] == Joined(tokens);
    }
  }

  /** Printed with spaces between them, the tokens read back as themselves exactly when
      every one of them survives. */
  lemma {:induction false} RoundTripsExactly(tokens: seq<JsString>)
    requires AreTokens(tokens)
    ensures Tokenize(Joined(tokens)) == tokens <==> AllSurvive(tokens)
    decreases tokens
  {
    if tokens != [] {
      var t, rest := tokens[0], tokens[1..];
      var r := Tail(rest);
      var s := Joined(tokens);
      TailOfTokens(tokens);
      JoinedSplits(tokens);
      TailTokens(rest);
      RoundTripsExactly(rest);
      assert tokens == [t] + rest;
      AllSurviveTail(tokens);
      if Survives(t, r == []) {
        SurvivorReadsBack(t, r);
        assert s[..|t|] == t && s[|t|..] == r;
        assert Tokenize(s) == [t] + Tokenize(r);
      } else {
        if TokenOf(Lexeme(t + r)) == [t] {
          OnlySurvivorsReadBack(t, r);
        }
        TokenFirst(s, t);
      }
    }
  }

  lemma AllSurviveTail(tokens: seq<JsString>)
    requires tokens != []
    ensures AllSurvive(tokens) <==> Survives(tokens[0], |tokens| == 1) && AllSurvive(tokens[1..])
  {
    var rest := tokens[1..];
    if Survives(tokens[0], |tokens| == 1) && AllSurvive(rest) {
      forall i | 0 <= i < |tokens| ensures Survives(tokens[i], i == |tokens| - 1) {
        if i > 0 {
          assert Survives(rest[i - 1], i - 1 == |rest| - 1);
        }
      }
    }
    if AllSurvive(tokens) {
      forall i | 0 <= i < |rest| ensures Survives(rest[i], i == |rest| - 1) {
        assert Survives(tokens[i + 1], i + 1 == |tokens| - 1);
      }
    }
  }

  lemma TokenFirst(s: JsString, t: JsString)
    requires s != [] && IsToken(t) && s[0] == t[0] && TokenOf(Lexeme(s)) != [t]
    ensures Tokenize(s) == [] || Tokenize(s)[0] != t
  {
  }

  /** The same of an expression: its normal spelling reads back as its tokens exactly when
      no quoted identifier of it holds a quote, a final one excepted. */
  lemma ExpressionRoundTrips(expression: JsString)
    ensures Tokenize(Joined(Tokenize(expression))) == Tokenize(expression) <==> AllSurvive(Tokenize(expression))
  {
    TokenizeMakesTokens(expression);
    RoundTripsExactly(Tokenize(expression));
  }

  // --- what equal normal forms mean --------------------------------------------------------

  /** No quoted identifier among the tokens holds a quote. */
  predicate NoneHoldsQuote(tokens: seq<JsString>) {
    forall i :: 0 <= i < |tokens| && IsQuoted(tokens[i]) ==> NoQuote(tokens[i][1..|tokens[i]| - 1])
  }

  lemma {:induction false} ReducedAreTokens(tokens: seq<JsString>, table: JsString)
    requires AreTokens(tokens) && NoneHoldsQuote(tokens) && Reduce(tokens, table).Reduced?
    ensures AreTokens(Reduce(tokens, table).tokens) && NoneHoldsQuote(Reduce(tokens, table).tokens)
    decreases tokens
  {
    if tokens != [] {
      var n := if Dropped(tokens, table) then 2 else 1;
      assert forall i :: 0 <= i < |tokens[n..]| ==> tokens[n..][i] == tokens[i + n];
      ReducedAreTokens(tokens[n..], table);
    }
  }

  /** Equal normal forms come of equal reduced token sequences, whatever the tables. */
  lemma EqualFormsEqualTokens(a: JsString, table: JsString, b: JsString, table': JsString)
    requires NoneHoldsQuote(Tokenize(a)) && NoneHoldsQuote(Tokenize(b))
    requires Normalize(a, table).Normalized?
    ensures Normalize(a, table) == Normalize(b, table') <==>
      Reduce(Tokenize(a), table) == Reduce(Tokenize(b), table')
  {
    if Normalize(a, table) == Normalize(b, table') {
      FormTellsTokens(a, table);
      FormTellsTokens(b, table');
    }
  }

  /** The tokens a normal form was joined from can be read off it, and none of them is a
      connective. */
  lemma FormTellsTokens(expression: JsString, table: JsString)
    requires NoneHoldsQuote(Tokenize(expression)) && Normalize(expression, table).Normalized?
    ensures Reduced(Tokenize(Normalize(expression, table).text)) == Reduce(Tokenize(expression), table)
    ensures !HoldsConnective(Tokenize(Normalize(expression, table).text))
  {
    var reduced := Reduce(Tokenize(expression), table).tokens;
    TokenizeMakesTokens(expression);
    ReducedAreTokens(Tokenize(expression), table);
    RoundTripsExactly(reduced);
    RefusedExactly(Tokenize(expression), table);
    ReducedComesFrom(Tokenize(expression), table);
    assert AllSurvive(reduced);
    forall i | 0 <= i < |reduced| ensures !IsConnective(reduced[i]) {
      assert reduced[i] in Tokenize(expression);
    }
  }

  lemma {:induction false} ReducedComesFrom(tokens: seq<JsString>, table: JsString)
    requires Reduce(tokens, table).Reduced?
    ensures forall t :: t in Reduce(tokens, table).tokens ==> t in tokens
    decreases tokens
  {
    if tokens != [] {
      var n := if Dropped(tokens, table) then 2 else 1;
      ReducedComesFrom(tokens[n..], table);
      assert forall t :: t in tokens[n..] ==> t in tokens;
      assert forall t :: t in tokens[..1] ==> t in tokens;
    }
  }

  /** A name as SQL quotes it, its own quotes doubled. */
  function Doubled(name: JsString): JsString {
    if name == [] then [] else (if name[0] == QUOTE then [QUOTE, QUOTE] else name[..1]) + Doubled(name[1..])
  }

  lemma {:induction false} DoubledScans(name: JsString)
    ensures var t := Doubled(name) + [QUOTE]; BodyLength(t, QUOTE) == |t| && Scan(t) == name
  {
    if name != [] {
      var t, rest := Doubled(name) + [QUOTE], Doubled(name[1..]) + [QUOTE];
      DoubledScans(name[1..]);
      assert name == name[..1] + name[1..];
      if name[0] == QUOTE {
        assert t == [QUOTE, QUOTE] + rest && t[2..] == rest;
      } else {
        assert t == name[..1] + rest && t[1..] == rest;
      }
    }
  }

  /** However many quotes a name holds, its quoted spelling is one token: the bare name
      where Postgres would print it bare, and otherwise the name between quotes. */
  lemma QuotedSpelling(name: JsString)
    ensures Tokenize([QUOTE] + Doubled(name) + [QUOTE]) == [if Bare(name) then name else [QUOTE] + name + [QUOTE]]
  {
    var s := [QUOTE] + Doubled(name) + [QUOTE];
    var t := Doubled(name) + [QUOTE];
    DoubledScans(name);
    ScanIsFold(t);
    assert s[1..] == t && HeadLength(s) == |s| && s[..|s|] == s;
    assert Inner(s) == t[..|t| - 1];
    assert Tokenize(s) == [FoldIdentifier(s)] + Tokenize(s[|s|..]);
  }

  function Between(name: JsString): JsString { [QUOTE] + name + [QUOTE] }

  function Sided(a: JsString, b: JsString): JsString { a + [QUOTE, SPACE, QUOTE] + b }

  lemma SidedText(a: JsString, b: JsString)
    ensures Between(Sided(a, b)) == Between(a) + [SPACE] + Between(b) == Joined([Between(a), Between(b)])
    ensures !Bare(Sided(a, b))
  {
    assert Sided(a, b)[|a|] == QUOTE;
    assert [Between(a), Between(b)][1..] == [Between(b)];
  }

  lemma TwoNames(a: JsString, b: JsString)
    requires NoQuote(a) && NoQuote(b) && !Bare(a) && !Bare(b)
    ensures Tokenize(Joined([Between(a), Between(b)])) == [Between(a), Between(b)]
  {
    assert Between(a)[1..|a| + 1] == a && Between(b)[1..|b| + 1] == b;
    RoundTripsExactly([Between(a), Between(b)]);
  }

  /** The condition is needed. The one identifier `a" "b` and the two identifiers `a` and
      `b` side by side have one normal form, for all names that take quoting. */
  lemma DoubledQuotesForge(a: JsString, b: JsString)
    requires NoQuote(a) && NoQuote(b) && !Bare(a) && !Bare(b)
    ensures var one, two := Between(Doubled(Sided(a, b))), Between(a) + [SPACE] + Between(b);
      && |Tokenize(one)| == 1 && |Tokenize(two)| == 2
      && Normalize(one, []) == Normalize(two, []) == Normalized(two)
  {
    SidedText(a, b);
    QuotedSpelling(Sided(a, b));
    TwoNames(a, b);
    Kept1(Between(Sided(a, b)));
    Kept2(Between(a), Between(b));
  }

  lemma Kept1(t: JsString)
    requires t != [] && t[0] == QUOTE
    ensures Reduce([t], []) == Reduced([t]) && Joined([t]) == t
  {
  }

  lemma Kept2(t: JsString, u: JsString)
    requires t != [] && t[0] == QUOTE && u != [] && u[0] == QUOTE
    ensures Reduce([t, u], []) == Reduced([t, u])
  {
    Kept1(u);
    assert [t, u][1..] == [u] && [t, u][..1] == [t];
  }

  // --- spelling --------------------------------------------------------------------------

  /** The text can be cut here without cutting a lexeme, and what is before it is closed. */
  predicate AtBoundary(s: JsString, n: nat)
    requires n <= |s|
    decreases |s|
  {
    || n == 0
    || (HeadLength(s) <= n && !OpenHead(s) && AtBoundary(s[HeadLength(s)..], n - HeadLength(s)))
  }

  predicate OpenHead(s: JsString)
    requires s != []
  {
    (s[0] == TICK || s[0] == QUOTE) && !Closes(s[1..], s[0])
  }

  lemma GapHead(s: JsString)
    requires s != [] && IsGap(s[0])
    ensures Tokenize(s) == Tokenize(s[1..])
  {
    assert TokenOf(Lexeme(s)) == [];
  }

  lemma {:induction false} GapsAreDropped(gap: JsString, s: JsString)
    requires AllGap(gap)
    ensures Tokenize(gap + s) == Tokenize(s)
  {
    if gap == [] {
      assert gap + s == s;
    } else {
      GapHead(gap + s);
      assert (gap + s)[1..] == gap[1..] + s;
      GapsAreDropped(gap[1..], s);
    }
  }

  /** A closed lexeme ends where it ended, whatever gap comes next. */
  lemma HeadBeforeGap(s: JsString, gap: JsString, rest: JsString)
    requires s != [] && HeadLength(s) == |s| && !OpenHead(s) && gap != [] && AllGap(gap)
    ensures HeadLength(s + (gap + rest)) == |s|
  {
    var r := gap + rest;
    assert r[0] == gap[0] && IsGap(r[0]);
    assert (s + r)[1..] == s[1..] + r;
    if !IsGap(s[0]) {
      if s[0] == TICK || s[0] == QUOTE {
        RunBefore(s[1..], s[0], r);
      } else if IsWordStart(s[0]) {
        WordBefore(s, r);
      }
    }
  }

  lemma HeadCloses(s: JsString)
    requires s != [] && !OpenHead(s)
    ensures HeadLength(Lexeme(s)) == |Lexeme(s)| && !OpenHead(Lexeme(s))
  {
    var n := HeadLength(s);
    if s[0] == TICK || s[0] == QUOTE {
      RunOfPrefix(s[1..], s[0]);
      assert Lexeme(s)[1..] == s[1..][..n - 1];
    } else if IsWordStart(s[0]) {
      WordBefore(s[..n], []);
      assert s[..n] + [] == s[..n];
    }
  }

  function Spaced(s: JsString, n: nat, gap: JsString): JsString
    requires n <= |s|
  {
    s[..n] + gap + s[n..]
  }

  lemma SpacedTail(s: JsString, n: nat, gap: JsString, h: nat)
    requires h <= n <= |s|
    ensures Spaced(s, n, gap)[..h] == s[..h] && Spaced(s, n, gap)[h..] == Spaced(s[h..], n - h, gap)
  {
  }

  lemma SpacedAtStart(s: JsString, gap: JsString)
    ensures Spaced(s, 0, gap) == gap + s
  {
  }

  lemma SpacedByNothing(s: JsString, n: nat)
    requires n <= |s|
    ensures Spaced(s, n, []) == s
  {
  }

  lemma SameHead(s: JsString, u: JsString, h: nat)
    requires s != [] && u != [] && h == HeadLength(s) == HeadLength(u) && s[..h] == u[..h]
    requires Tokenize(s[h..]) == Tokenize(u[h..])
    ensures Tokenize(s) == Tokenize(u)
  {
    assert Lexeme(s) == Lexeme(u);
  }

  /** Whitespace and parentheses between lexemes, more or less of them, change nothing. */
  lemma {:induction false} SpacingIsDropped(s: JsString, n: nat, gap: JsString)
    requires n <= |s| && AtBoundary(s, n) && AllGap(gap)
    ensures Tokenize(Spaced(s, n, gap)) == Tokenize(s)
    decreases |s|
  {
    if gap == [] {
      SpacedByNothing(s, n);
    } else if n == 0 {
      SpacedAtStart(s, gap);
      GapsAreDropped(gap, s);
    } else {
      var h := HeadLength(s);
      SpacingIsDropped(s[h..], n - h, gap);
      SpacedTail(s, n, gap, h);
      SpacedHead(s, n, gap);
      SameHead(Spaced(s, n, gap), s, h);
    }
  }

  /** A lexeme before the cut still ends where it did. */
  lemma SpacedHead(s: JsString, n: nat, gap: JsString)
    requires 0 < n <= |s| && HeadLength(s) <= n && !OpenHead(s) && gap != [] && AllGap(gap)
    ensures HeadLength(Spaced(s, n, gap)) == HeadLength(s)
  {
    var h := HeadLength(s);
    var spaced := Spaced(s, n, gap);
    HeadCloses(s);
    if h == n {
      HeadBeforeGap(s[..h], gap, s[n..]);
      assert spaced == s[..h] + (gap + s[n..]);
    } else {
      HeadBefore(s, s[h..n] + gap + s[n..]);
      assert spaced == s[..h] + (s[h..n] + gap + s[n..]);
    }
  }

  /** A closed lexeme ends where it ended, if what comes next starts the same. */
  lemma HeadBefore(s: JsString, r: JsString)
    requires s != [] && HeadLength(s) < |s| && !OpenHead(s) && r != [] && r[0] == s[HeadLength(s)]
    ensures HeadLength(s[..HeadLength(s)] + r) == HeadLength(s)
  {
    var h := HeadLength(s);
    var t := s[..h];
    HeadCloses(s);
    assert (t + r)[1..] == t[1..] + r;
    if !IsGap(s[0]) {
      if s[0] == TICK || s[0] == QUOTE {
        NextIsNotQuote(s[1..], s[0]);
        RunBefore(t[1..], s[0], r);
      } else if IsWordStart(s[0]) {
        WordBefore(t, r);
      }
    }
  }

  lemma {:induction false} NextIsNotQuote(t: JsString, quote: Unit)
    requires Closes(t, quote) && BodyLength(t, quote) < |t|
    ensures t[BodyLength(t, quote)] != quote
  {
    if t[0] != quote {
      NextIsNotQuote(t[1..], quote);
    } else if |t| > 1 && t[1] == quote {
      NextIsNotQuote(t[2..], quote);
    }
  }

  /** So two spellings that differ only there normalize alike, refusals included. */
  lemma SpacingNormalizesAlike(s: JsString, n: nat, gap: JsString, table: JsString)
    requires n <= |s| && AtBoundary(s, n) && AllGap(gap)
    ensures Normalize(Spaced(s, n, gap), table) == Normalize(s, table)
  {
    SpacingIsDropped(s, n, gap);
  }
}
