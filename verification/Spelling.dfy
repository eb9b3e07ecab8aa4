/** What a text is to the scanner: lexemes, and gaps around and between them that do not
    matter (packages/control-plane/src/db/predicate.ts). */
module Spelling {
  import opened JsText
  import opened Predicate
  import opened NormalForm
  import opened RoundTrip

  /** A whole lexeme, and no gap. */
  predicate Whole(l: JsString) { l != [] && !IsGap(l[0]) && HeadLength(l) == |l| }

  /** Two lexemes that stay two without a gap between them. */
  predicate MayTouch(a: JsString, b: JsString)
    requires a != [] && b != []
  {
    HeadLength(a + [b[0]]) == |a|
  }

  function Spelled(lexemes: seq<JsString>, gaps: seq<JsString>): JsString
    requires |gaps| == |lexemes| + 1
  {
    if lexemes == [] then gaps[0] else gaps[0] + (lexemes[0] + Spelled(lexemes[1..], gaps[1..]))
  }

  /** Any gaps at all, save that lexemes which would run together need one, and that nothing
      can come after a literal that is never closed. */
  predicate Spells(lexemes: seq<JsString>, gaps: seq<JsString>) {
    && |gaps| == |lexemes| + 1
    && (forall i :: 0 <= i < |gaps| ==> AllGap(gaps[i]))
    && (forall i :: 0 <= i < |lexemes| ==> Whole(lexemes[i]))
    && (forall i :: 0 < i < |lexemes| && gaps[i] == [] ==> MayTouch(lexemes[i - 1], lexemes[i]))
    && (forall i :: 0 <= i < |lexemes| && OpenHead(lexemes[i]) ==> i == |lexemes| - 1 && gaps[|lexemes|] == [])
  }

  function TokensOf(lexemes: seq<JsString>): seq<JsString>
    requires forall i :: 0 <= i < |lexemes| ==> Whole(lexemes[i])
  {
    if lexemes == [] then []
    else
      assert Whole(lexemes[0]);
      TokenOf(lexemes[0]) + TokensOf(lexemes[1..])
  }

  lemma RestSpells(lexemes: seq<JsString>, gaps: seq<JsString>)
    requires Spells(lexemes, gaps) && lexemes != []
    ensures Spells(lexemes[1..], gaps[1..])
  {
    var l, g := lexemes[1..], gaps[1..];
    forall i | 0 < i < |l| && g[i] == [] ensures MayTouch(l[i - 1], l[i]) {
      assert l[i - 1] == lexemes[i] && l[i] == lexemes[i + 1] && gaps[i + 1] == [];
      assert MayTouch(lexemes[(i + 1) - 1], lexemes[i + 1]);
    }
  }

  /** What follows a lexeme in a spelling never lengthens it. */
  lemma HeadStands(lexemes: seq<JsString>, gaps: seq<JsString>)
    requires Spells(lexemes, gaps) && lexemes != []
    ensures HeadLength(lexemes[0] + Spelled(lexemes[1..], gaps[1..])) == |lexemes[0]|
  {
    var l, g := lexemes[1..], gaps[1..];
    var rest := Spelled(l, g);
    var a := lexemes[0];
    if l == [] && g[0] == [] {
      assert a + rest == a;
    } else if g[0] != [] {
      var after := if l == [] then [] else l[0] + Spelled(l[1..], g[1..]);
      assert rest == g[0] + after;
      HeadBeforeGap(a, g[0], after);
    } else {
      var b := l[0];
      assert rest == b + Spelled(l[1..], g[1..]);
      assert gaps[1] == [] && MayTouch(lexemes[0], lexemes[1]);
      TouchingStands(a, b, rest);
    }
  }

  lemma TouchingStands(a: JsString, b: JsString, rest: JsString)
    requires Whole(a) && !OpenHead(a) && b != [] && MayTouch(a, b) && rest != [] && rest[0] == b[0]
    ensures HeadLength(a + rest) == |a|
  {
    var s := a + [b[0]];
    assert s[..|a|] == a;
    StaysClosed(a, b[0]);
    HeadBefore(s, rest);
  }

  /** A quoted run that another character does not extend was closed before it. */
  lemma StaysClosed(a: JsString, c: Unit)
    requires a != [] && !OpenHead(a) && HeadLength(a + [c]) == |a|
    ensures !OpenHead(a + [c])
  {
    var t := a[1..];
    assert (a + [c])[1..] == t + [c];
    if a[0] == TICK || a[0] == QUOTE {
      ClosesStill(t, c, a[0]);
    }
  }

  lemma {:induction false} ClosesStill(t: JsString, c: Unit, quote: Unit)
    requires Closes(t, quote) && BodyLength(t + [c], quote) == |t|
    ensures Closes(t + [c], quote)
  {
    if t[0] != quote {
      assert (t + [c])[1..] == t[1..] + [c];
      ClosesStill(t[1..], c, quote);
    } else if |t| > 1 && t[1] == quote {
      assert (t + [c])[2..] == t[2..] + [c];
      ClosesStill(t[2..], c, quote);
    }
  }

  /** The tokens of a text are those of its lexemes, whatever the gaps. */
  lemma {:induction false} SpelledTokens(lexemes: seq<JsString>, gaps: seq<JsString>)
    requires Spells(lexemes, gaps)
    ensures Tokenize(Spelled(lexemes, gaps)) == TokensOf(lexemes)
    decreases |lexemes|
  {
    if lexemes == [] {
      assert gaps[0] + [] == gaps[0];
      GapsAreDropped(gaps[0], []);
    } else {
      var rest := Spelled(lexemes[1..], gaps[1..]);
      RestSpells(lexemes, gaps);
      SpelledTokens(lexemes[1..], gaps[1..]);
      GapsAreDropped(gaps[0], lexemes[0] + rest);
      HeadStands(lexemes, gaps);
      FirstToken(lexemes[0], rest);
    }
  }

  lemma FirstToken(a: JsString, rest: JsString)
    requires a != [] && HeadLength(a + rest) == |a|
    ensures Tokenize(a + rest) == TokenOf(a) + Tokenize(rest)
  {
    assert (a + rest)[..|a|] == a && (a + rest)[|a|..] == rest;
  }

  /** So two spellings of the same lexemes normalize alike, refusals included, however many
      of their gaps differ. */
  lemma SpellingsNormalizeAlike(lexemes: seq<JsString>, gaps: seq<JsString>, others: seq<JsString>, table: JsString)
    requires Spells(lexemes, gaps) && Spells(lexemes, others)
    ensures Normalize(Spelled(lexemes, gaps), table) == Normalize(Spelled(lexemes, others), table)
  {
    SpelledTokens(lexemes, gaps);
    SpelledTokens(lexemes, others);
  }

  /** And every text is a spelling of its lexemes. */
  lemma {:induction false} EveryTextSpells(s: JsString) returns (lexemes: seq<JsString>, gaps: seq<JsString>)
    ensures Spells(lexemes, gaps) && Spelled(lexemes, gaps) == s
    decreases |s|
  {
    if s == [] {
      lexemes, gaps := [], [[]];
      return;
    }
    var h := HeadLength(s);
    var l, g := EveryTextSpells(s[h..]);
    if IsGap(s[0]) {
      lexemes, gaps := l, [[s[0]] + g[0]] + g[1..];
      WiderGap(l, g, s[0]);
      assert s == [s[0]] + s[1..];
    } else {
      lexemes, gaps := [s[..h]] + l, [[]] + g;
      assert s == s[..h] + s[h..];
      OneLexemeMore(s, l, g);
    }
  }

  lemma WiderGap(l: seq<JsString>, g: seq<JsString>, c: Unit)
    requires Spells(l, g) && IsGap(c)
    ensures var wider := [[c] + g[0]] + g[1..]; Spells(l, wider) && Spelled(l, wider) == [c] + Spelled(l, g)
  {
    var wider := [[c] + g[0]] + g[1..];
    assert wider[1..] == g[1..];
  }

  lemma OneLexemeMore(s: JsString, l: seq<JsString>, g: seq<JsString>)
    requires s != [] && !IsGap(s[0]) && Spells(l, g) && Spelled(l, g) == s[HeadLength(s)..]
    ensures var a := s[..HeadLength(s)];
      Spells([a] + l, [[]] + g) && Spelled([a] + l, [[]] + g) == a + Spelled(l, g)
  {
    var h := HeadLength(s);
    var a := s[..h];
    var lexemes, gaps := [a] + l, [[]] + g;
    assert lexemes[1..] == l && gaps[1..] == g;
    FirstIsWhole(s);
    if OpenHead(s) {
      OpenTakesAll(s);
      NothingSpelled(l, g);
    } else {
      HeadCloses(s);
      if l != [] && g[0] == [] {
        assert Spelled(l, g)[0] == l[0][0];
        HeadBefore(s, [l[0][0]]);
      }
    }
    forall i | 0 < i < |lexemes| && gaps[i] == [] ensures MayTouch(lexemes[i - 1], lexemes[i]) {
      assert i > 1 ==> MayTouch(l[i - 2], l[i - 1]);
    }
  }

  lemma FirstIsWhole(s: JsString)
    requires s != [] && !IsGap(s[0])
    ensures Whole(s[..HeadLength(s)])
  {
    if OpenHead(s) {
      OpenTakesAll(s);
      assert s[..|s|] == s;
    } else {
      HeadCloses(s);
    }
  }

  lemma OpenTakesAll(s: JsString)
    requires s != [] && OpenHead(s)
    ensures HeadLength(s) == |s|
  {
    UnclosedRuns(s[1..], s[0]);
  }

  lemma {:induction false} UnclosedRuns(t: JsString, quote: Unit)
    requires !Closes(t, quote)
    ensures BodyLength(t, quote) == |t|
  {
    if t != [] {
      if t[0] != quote {
        UnclosedRuns(t[1..], quote);
      } else if |t| > 1 && t[1] == quote {
        UnclosedRuns(t[2..], quote);
      }
    }
  }

  lemma NothingSpelled(l: seq<JsString>, g: seq<JsString>)
    requires Spells(l, g) && Spelled(l, g) == []
    ensures l == [] && g == [[]]
  {
    SpelledLength(l, g);
    assert forall i :: 0 <= i < |l| ==> Whole(l[i]);
  }

  lemma SpelledLength(l: seq<JsString>, g: seq<JsString>)
    requires |g| == |l| + 1
    ensures |Spelled(l, g)| >= |g[0]| + if l == [] then 0 else |l[0]|
  {
  }
}
