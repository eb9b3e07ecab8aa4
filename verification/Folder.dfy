/** The generator at work on a folder of files: it reads the history in one pass, folds
    it, and writes the SQL file, the snapshot and the journal. */
module MigrationFolder {
  import opened Basics
  import opened JsText
  import opened Canonical
  import opened Force
  import opened History
  import opened Generator

  /** What the pass remembers on reaching an entry. */
  function ContentBefore(h: Migrations, i: nat): Option<JsString>
    requires Readable(h) && i <= |h.journal|
  {
    if i == 0 then None else Some(Content(SnapshotAt(h, i - 1)))
  }

  method ReadMigrationSources(h: Migrations) returns (sources: seq<Source>)
    requires Readable(h)
    ensures sources == Sources(h)
  {
    var previous: Option<JsString> := None;
    sources := [];
    ghost var all := Sources(h);
    for i := 0 to |h.journal|
      invariant sources == all[..i]
      invariant previous == ContentBefore(h, i)
    {
      var source;
      source, previous := ReadSource(h, i, previous);
      OneMore(all, i);
      sources := sources + [source];
    }
  }

  lemma OneMore<T>(s: seq<T>, i: nat)
    requires i < |s|
    ensures s[..i + 1] == s[..i] + [s[i]] && s[..|s|] == s
  {
  }

  /** One journal entry, against the content of the snapshot before it. */
  method ReadSource(h: Migrations, i: nat, previous: Option<JsString>)
    returns (source: Source, content: Option<JsString>)
    requires Readable(h) && i < |h.journal| && previous == ContentBefore(h, i)
    ensures source == Sources(h)[i] && content == ContentBefore(h, i + 1)
  {
    var entry := h.journal[i];
    var sql := h.sql[entry.tag];
    content := Some(Content(SnapshotAt(h, i)));
    var custom := previous != None && content == previous;
    assert custom == Custom(h, i);
    source := Source(entry.idx, entry.tag, sql, KindOf(custom, sql));
    SourcesAt(h, i);
  }

  method ApplyOperations(before: ForceState, operations: seq<ForceOperation>) returns (state: ForceState)
    ensures state == Apply(before, operations)
  {
    state := before;
    for k := 0 to |operations|
      invariant Apply(state, operations[k..]) == Apply(before, operations)
    {
      assert operations[k..][1..] == operations[k + 1..];
      state := state[operations[k].table := operations[k].forced];
    }
  }

  /** One migration of the walk: only a generator's file the grammar accepts counts. */
  method FoldMigration(before: ForceState, source: Source) returns (state: ForceState)
    ensures state == Step(before, source)
  {
    if source.kind != Generator {
      return before;
    }
    var parsed := ParseForceMigration(source.sql);
    if !parsed.Operations? {
      return before;
    }
    state := ApplyOperations(before, parsed.operations);
  }

  method FoldMigrations(sources: seq<Source>) returns (state: ForceState)
    ensures state == StateAfter(sources)
  {
    state := map[];
    for i := 0 to |sources|
      invariant state == StateAfter(sources[..i])
    {
      assert sources[..i + 1][..i] == sources[..i];
      state := FoldMigration(state, sources[i]);
    }
    assert sources[..|sources|] == sources;
  }

  method EffectiveForceState(h: Migrations) returns (state: ForceState)
    requires Readable(h)
    ensures state == Effective(h)
  {
    var sources := ReadMigrationSources(h);
    state := FoldMigrations(sources);
  }

  class Folder {
    var journal: seq<History.Entry>
    var sql: map<string, string>
    var snapshots: map<string, Json>

    ghost function Contents(): Migrations
      reads this
    {
      Migrations(journal, sql, snapshots)
    }

    /** Appends one migration carrying the delta, or writes nothing at all. */
    method EmitForceMigration(c: Classification, now: int, id: JsString) returns (emitted: Emission)
      modifies this
      ensures (emitted, Contents()) == Emit(old(Contents()), c, now, id)
    {
      var h := Migrations(journal, sql, snapshots);
      if !Readable(h) {
        return Unreadable;
      }
      var state := EffectiveForceState(h);
      var operations := Delta(c, state);
      if operations == [] {
        return Nothing;
      }
      if journal == [] {
        return NothingToChain;
      }
      var previous := SnapshotAt(h, |journal| - 1);
      if !previous.Object? {
        return NotAnObject;
      }
      var entry := NextEntry(Last(h), now);
      EmitIsAppend(h, c, now, id);
      WriteMigration(entry, Render(operations), NextSnapshot(previous, id));
      return Appended(entry.tag, operations);
    }

    /** The three files, in the order they are written. */
    method WriteMigration(entry: History.Entry, text: string, snapshot: Json)
      modifies this
      ensures Contents() == Append(old(Contents()), entry, text, snapshot)
    {
      sql := sql[entry.tag := text];
      snapshots := snapshots[SnapshotFile(entry.idx) := snapshot];
      journal := journal + [entry];
    }
  }
}
