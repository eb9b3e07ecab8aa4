/** The grammar of a generator-owned migration (packages/control-plane/src/db/force.ts). */
module Force {
  import opened Basics
  import opened Lines

  const MARKER: string := "-- reprove:force-row-level-security"

  datatype ForceOperation = ForceOperation(table: string, forced: bool)

  // --- printing --------------------------------------------------------------------

  const ALTER: string := "ALTER TABLE \""
  const FORCE: string := "\" FORCE ROW LEVEL SECURITY;"
  const NO_FORCE: string := "\" NO FORCE ROW LEVEL SECURITY;"

  function Clause(forced: bool): string { if forced then FORCE else NO_FORCE }

  function Statement(operation: ForceOperation): string {
    ALTER + operation.table + Clause(operation.forced)
  }

  function Statements(operations: seq<ForceOperation>): (lines: seq<string>)
    ensures |lines| == |operations| && forall i :: 0 <= i < |lines| ==> lines[i] == Statement(operations[i])
  {
    seq(|operations|, i requires 0 <= i < |operations| => Statement(operations[i]))
  }

  function Render(operations: seq<ForceOperation>): string {
    Join([MARKER] + Statements(operations)) + "\n"
  }

  // --- parsing ---------------------------------------------------------------------

  /** Where the first double quote is, or the length where there is none. */
  function QuoteAt(s: string): (n: nat)
    ensures n <= |s| && '"' !in s[..n] && (n < |s| ==> s[n] == '"')
  {
    if s == [] || s[0] == '"' then 0
    else
      var n := 1 + QuoteAt(s[1..]);
      assert s[..n] == s[..1] + s[1..][..n - 1];
      n
  }

  /** The one statement form: a quoted, non-empty name, and one of two clauses. */
  function ReadStatement(line: string): Option<ForceOperation> {
    if !(ALTER <= line) then None
    else
      var rest := line[|ALTER|..];
      var n := QuoteAt(rest);
      if n == 0 then None
      else if rest[n..] == FORCE then Some(ForceOperation(rest[..n], true))
      else if rest[n..] == NO_FORCE then Some(ForceOperation(rest[..n], false))
      else None
  }

  datatype Parsed =
    | Operations(operations: seq<ForceOperation>)
    | NoMarker(line: string)
    | NotEmitted(number: nat, line: string)
    | NoStatement

  /** Each line read on its own. */
  function Readings(lines: seq<string>): (r: seq<Option<ForceOperation>>)
    ensures |r| == |lines| && forall i :: 0 <= i < |r| ==> r[i] == ReadStatement(lines[i])
  {
    seq(|lines|, i requires 0 <= i < |lines| => ReadStatement(lines[i]))
  }

  /** The lines under the marker and their readings, from one offset on, after the
      operations read so far. */
  function ReadLines(lines: seq<string>, readings: seq<Option<ForceOperation>>, offset: nat,
                     operations: seq<ForceOperation>): Parsed
    requires offset <= |lines| == |readings|
    decreases |lines| - offset
  {
    if offset == |lines| then (if operations == [] then NoStatement else Operations(operations))
    else if lines[offset] == "" && offset == |lines| - 1 then ReadLines(lines, readings, offset + 1, operations)
    else match readings[offset]
      case None => NotEmitted(offset + 2, lines[offset])
      case Some(operation) => ReadLines(lines, readings, offset + 1, operations + [operation])
  }

  function Parse(sql: string): Parsed {
    var lines := Trimmed(Split(sql));
    if lines[0] != MARKER then NoMarker(lines[0])
    else ReadLines(lines[1..], Readings(lines[1..]), 0, [])
  }

  method ParseForceMigration(sql: string) returns (parsed: Parsed)
    ensures parsed == Parse(sql)
  {
    var lines := Trimmed(Split(sql));
    var rest := lines[1..];
    if lines[0] != MARKER {
      return NoMarker(lines[0]);
    }
    ghost var readings := Readings(rest);
    var operations: seq<ForceOperation> := [];
    for offset := 0 to |rest|
      invariant Parse(sql) == ReadLines(rest, readings, offset, operations)
    {
      if rest[offset] == "" && offset == |rest| - 1 {
        continue;
      }
      var reading := ReadStatement(rest[offset]);
      assert reading == readings[offset];
      match reading
      case None =>
        return NotEmitted(offset + 2, rest[offset]);
      case Some(operation) =>
        operations := operations + [operation];
    }
    parsed := if operations == [] then NoStatement else Operations(operations);
  }

  // --- the two are inverse -----------------------------------------------------------

  /** A table name the grammar can carry. */
  predicate Carriable(table: string) { table != "" && '"' !in table && IsLine(table) }

  predicate AllCarriable(operations: seq<ForceOperation>) {
    forall i :: 0 <= i < |operations| ==> Carriable(operations[i].table)
  }

  lemma Literals()
    ensures FORCE[0] == NO_FORCE[0] == '"' && FORCE != NO_FORCE
    ensures IsLine(ALTER) && IsLine(FORCE) && IsLine(NO_FORCE) && IsLine(MARKER)
    ensures TrimEnd(MARKER) == MARKER && MARKER != ""
    ensures !IsSpace(FORCE[|FORCE| - 1]) && !IsSpace(NO_FORCE[|NO_FORCE| - 1])
  {
    assert FORCE[2] != NO_FORCE[2];
  }

  lemma {:induction false} QuoteAtEnd(name: string, rest: string)
    requires '"' !in name && rest != [] && rest[0] == '"'
    ensures QuoteAt(name + rest) == |name|
  {
    if name == [] {
      assert name + rest == rest;
    } else {
      QuoteAtEnd(name[1..], rest);
      assert (name + rest)[1..] == name[1..] + rest;
    }
  }

  /** A printed statement reads back as what was printed. */
  lemma StatementReads(operation: ForceOperation)
    requires operation.table != "" && '"' !in operation.table
    ensures ReadStatement(Statement(operation)) == Some(operation)
  {
    Literals();
    var rest := operation.table + Clause(operation.forced);
    assert Statement(operation) == ALTER + rest;
    assert Statement(operation)[|ALTER|..] == rest;
    QuoteAtEnd(operation.table, Clause(operation.forced));
    assert rest[|operation.table|..] == Clause(operation.forced);
    assert rest[..|operation.table|] == operation.table;
  }

  lemma AfterPrefix(line: string, prefix: string, n: nat)
    requires prefix <= line && |prefix| + n <= |line|
    ensures line == prefix + line[|prefix|..][..n] + line[|prefix|..][n..]
    ensures IsLine(line) ==> IsLine(line[|prefix|..][..n])
  {
    var rest := line[|prefix|..];
    assert rest == rest[..n] + rest[n..];
    assert forall i :: 0 <= i < n ==> rest[i] == line[|prefix| + i];
  }

  /** Whatever reads as a statement is the statement that would be printed. */
  lemma ReadIsStatement(line: string)
    requires ReadStatement(line).Some?
    ensures line == Statement(ReadStatement(line).value)
    ensures ReadStatement(line).value.table != "" && '"' !in ReadStatement(line).value.table
    ensures IsLine(line) ==> Carriable(ReadStatement(line).value.table)
  {
    AfterPrefix(line, ALTER, QuoteAt(line[|ALTER|..]));
  }

  lemma StatementIsLine(operation: ForceOperation)
    requires IsLine(operation.table)
    ensures IsLine(Statement(operation)) && TrimEnd(Statement(operation)) == Statement(operation) != ""
  {
    Literals();
    var s, c := Statement(operation), Clause(operation.forced);
    assert s[|s| - 1] == c[|c| - 1];
  }

  /** The lines of a rendering: the marker, one statement each, and the last newline. */
  lemma RenderedLines(operations: seq<ForceOperation>)
    requires forall i :: 0 <= i < |operations| ==> IsLine(operations[i].table)
    ensures Split(Render(operations)) == [MARKER] + Statements(operations) + [""]
    ensures Trimmed(Split(Render(operations))) == Split(Render(operations))
  {
    Literals();
    var lines := [MARKER] + Statements(operations);
    forall i | 0 <= i < |lines| ensures IsLine(lines[i]) && TrimEnd(lines[i]) == lines[i] {
      if i > 0 {
        StatementIsLine(operations[i - 1]);
      }
    }
    JoinNewline(lines);
    SplitJoin(lines + [""]);
  }

  lemma {:induction false} JoinNewline(lines: seq<string>)
    requires lines != []
    ensures Join(lines) + "\n" == Join(lines + [""])
  {
    if |lines| > 1 {
      JoinNewline(lines[1..]);
      assert (lines + [""])[1..] == lines[1..] + [""];
      assert lines[0] + "\n" + Join(lines[1..]) + "\n" == lines[0] + "\n" + (Join(lines[1..]) + "\n");
    } else {
      assert (lines + [""])[1..] == [""];
    }
  }

  /** The first readings are these operations. */
  predicate ReadAs(readings: seq<Option<ForceOperation>>, operations: seq<ForceOperation>) {
    |operations| <= |readings| && forall i :: 0 <= i < |operations| ==> readings[i] == Some(operations[i])
  }

  /** All the lines are statements, save at most one last blank. */
  predicate Covers(lines: seq<string>, count: nat) {
    count == |lines| || (count + 1 == |lines| && lines[count] == "")
  }

  /** An accepted file was read line by line, to the end or to one last blank. */
  lemma {:induction false} ReadLinesAccepts(
      lines: seq<string>, readings: seq<Option<ForceOperation>>, offset: nat, read: seq<ForceOperation>)
    requires offset <= |lines| == |readings| && |read| == offset && ReadAs(readings, read)
    requires ReadLines(lines, readings, offset, read).Operations?
    ensures var operations := ReadLines(lines, readings, offset, read).operations;
      operations != [] && ReadAs(readings, operations) && Covers(lines, |operations|)
    decreases |lines| - offset
  {
    if offset < |lines| && !(lines[offset] == "" && offset == |lines| - 1) {
      ReadLinesAccepts(lines, readings, offset + 1, read + [readings[offset].value]);
    }
  }

  /** A refused file is refused for its first line that is not a statement. */
  lemma {:induction false} ReadLinesRefuses(
      lines: seq<string>, readings: seq<Option<ForceOperation>>, offset: nat, read: seq<ForceOperation>)
    requires offset <= |lines| == |readings| && ReadLines(lines, readings, offset, read).NotEmitted?
    ensures var p := ReadLines(lines, readings, offset, read);
      && offset + 2 <= p.number < |lines| + 2 && p.line == lines[p.number - 2] && readings[p.number - 2] == None
      && (p.line == "" ==> p.number - 2 < |lines| - 1)
      && forall i :: offset <= i < p.number - 2 ==> readings[i].Some?
    decreases |lines| - offset
  {
    if !(lines[offset] == "" && offset == |lines| - 1) && readings[offset].Some? {
      ReadLinesRefuses(lines, readings, offset + 1, read + [readings[offset].value]);
    }
  }

  /** Statements, and at most one last blank, are read through. */
  lemma {:induction false} ReadLinesThrough(
      lines: seq<string>, readings: seq<Option<ForceOperation>>, operations: seq<ForceOperation>, offset: nat)
    requires |lines| == |readings| && operations != [] && ReadAs(readings, operations) && Covers(lines, |operations|)
    requires offset <= |operations| && forall i :: 0 <= i < |operations| ==> lines[i] != ""
    ensures ReadLines(lines, readings, offset, operations[..offset]) == Operations(operations)
    decreases |operations| - offset
  {
    assert operations[..|operations|] == operations;
    if offset < |operations| {
      assert operations[..offset] + [operations[offset]] == operations[..offset + 1];
      ReadLinesThrough(lines, readings, operations, offset + 1);
    }
  }

  /** The lines of a rendering read as what was rendered. */
  lemma RenderedReads(lines: seq<string>, operations: seq<ForceOperation>)
    requires AllCarriable(operations) && operations != []
    requires lines == Statements(operations) || lines == Statements(operations) + [""]
    ensures ReadLines(lines, Readings(lines), 0, []) == Operations(operations)
  {
    forall i | 0 <= i < |operations|
      ensures lines[i] != "" && ReadStatement(lines[i]) == Some(operations[i])
    {
      StatementReads(operations[i]);
      StatementIsLine(operations[i]);
    }
    ReadLinesThrough(lines, Readings(lines), operations, 0);
  }

  /** The parser is the printer's exact inverse. A text is accepted, as some list of
      operations, exactly when that list is not empty, the grammar can carry its
      names, and the text's right-trimmed lines are those of its rendering, the last
      newline optional. */
  lemma ParseInvertsRender(sql: string, operations: seq<ForceOperation>)
    ensures Parse(sql) == Operations(operations) <==>
      && operations != [] && AllCarriable(operations)
      && var lines := Trimmed(Split(sql));
        lines == Split(Render(operations)) || lines + [""] == Split(Render(operations))
  {
    var lines := Trimmed(Split(sql));
    if Parse(sql) == Operations(operations) {
      AcceptedIsRendering(sql, operations);
    }
    if operations != [] && AllCarriable(operations) {
      RenderedLines(operations);
      if lines == Split(Render(operations)) || lines + [""] == Split(Render(operations)) {
        MarkerAbove(lines, MARKER, Statements(operations));
        RenderedReads(lines[1..], operations);
      }
    }
  }

  lemma MarkerAbove(lines: seq<string>, marker: string, statements: seq<string>)
    requires var rendered := [marker] + statements + [""]; lines == rendered || lines + [""] == rendered
    requires lines != []
    ensures lines[0] == marker && (lines[1..] == statements || lines[1..] == statements + [""])
  {
    if lines + [""] == [marker] + statements + [""] {
      assert lines == (lines + [""])[..|lines|] == ([marker] + statements + [""])[..|lines|];
      assert lines == [marker] + statements;
    }
  }

  predicate Prints(line: string, o: ForceOperation) { line == Statement(o) }

  lemma LineReadsAs(line: string, o: ForceOperation)
    requires IsLine(line) && ReadStatement(line) == Some(o)
    ensures Carriable(o.table) && Prints(line, o)
  {
    ReadIsStatement(line);
  }

  /** The first lines, each printed as its operation, are the statements. */
  lemma PrintedLines(lines: seq<string>, operations: seq<ForceOperation>)
    requires Covers(lines, |operations|) && forall i :: 0 <= i < |operations| ==> Prints(lines[i], operations[i])
    ensures lines == Statements(operations) || lines == Statements(operations) + [""]
  {
    CoveredLines(lines, Statements(operations));
  }

  lemma ReadLineAt(lines: seq<string>, operations: seq<ForceOperation>, i: nat)
    requires ReadAs(Readings(lines), operations) && i < |operations| && IsLine(lines[i])
    ensures Carriable(operations[i].table) && Prints(lines[i], operations[i])
  {
    assert Readings(lines)[i] == Some(operations[i]);
    LineReadsAs(lines[i], operations[i]);
  }

  /** The lines under an accepted marker, read one by one. */
  lemma AcceptedLines(lines: seq<string>, operations: seq<ForceOperation>)
    requires ReadAs(Readings(lines), operations) && Covers(lines, |operations|)
    requires forall i :: 0 <= i < |lines| ==> IsLine(lines[i])
    ensures AllCarriable(operations)
    ensures lines == Statements(operations) || lines == Statements(operations) + [""]
  {
    forall i | 0 <= i < |operations| ensures Carriable(operations[i].table) && Prints(lines[i], operations[i]) {
      ReadLineAt(lines, operations, i);
    }
    PrintedLines(lines, operations);
  }

  lemma TrimmedLines(sql: string)
    ensures forall i :: 0 <= i < |Trimmed(Split(sql))| ==> IsLine(Trimmed(Split(sql))[i])
  {
    forall i | 0 <= i < |Split(sql)| ensures IsLine(Trimmed(Split(sql))[i]) {
      TrimmedLine(Split(sql)[i]);
    }
  }

  lemma AcceptedIsRendering(sql: string, operations: seq<ForceOperation>)
    requires Parse(sql) == Operations(operations)
    ensures operations != [] && AllCarriable(operations)
    ensures var lines := Trimmed(Split(sql));
      lines == Split(Render(operations)) || lines + [""] == Split(Render(operations))
  {
    var lines := Trimmed(Split(sql));
    TrimmedLines(sql);
    ReadLinesAccepts(lines[1..], Readings(lines[1..]), 0, []);
    AcceptedLines(lines[1..], operations);
    RenderedLines(operations);
    UnderMarker(lines, MARKER, Statements(operations));
  }

  lemma UnderMarker(lines: seq<string>, marker: string, statements: seq<string>)
    requires lines != [] && lines[0] == marker && (lines[1..] == statements || lines[1..] == statements + [""])
    ensures var rendered := [marker] + statements + [""]; lines == rendered || lines + [""] == rendered
  {
    assert lines == [marker] + lines[1..];
  }

  lemma CoveredLines(lines: seq<string>, statements: seq<string>)
    requires Covers(lines, |statements|) && forall i :: 0 <= i < |statements| ==> lines[i] == statements[i]
    ensures lines == statements || lines == statements + [""]
  {
  }

  lemma TrimmedLine(line: string)
    requires IsLine(line)
    ensures IsLine(TrimEnd(line))
  {
    assert forall i :: 0 <= i < |TrimEnd(line)| ==> TrimEnd(line)[i] == line[i];
  }

  /** In particular, a rendering parses as what it renders. */
  lemma RenderedParses(operations: seq<ForceOperation>)
    requires operations != [] && AllCarriable(operations)
    ensures Parse(Render(operations)) == Operations(operations)
    ensures MARKER <= Render(operations)
  {
    RenderedLines(operations);
    ParseInvertsRender(Render(operations), operations);
    assert |operations| > 0;
    assert Join([MARKER] + Statements(operations)) == MARKER + "\n" + Join(([MARKER] + Statements(operations))[1..]);
  }
}
