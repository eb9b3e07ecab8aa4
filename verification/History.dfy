/** The migration history: attribution, the fold over it, and the append-only
    generator (packages/control-plane/src/db/force.ts and force-generate.ts). */
module History {
  import opened JsText
  import opened KeyOrder
  import opened Canonical
  import opened Decimal
  import opened Force

  datatype Entry = Entry(idx: nat, tag: string, when: int)

  /** A migration folder: the journal, the SQL files by tag, and the snapshots by file
      name, parsed. */
  datatype Migrations = Migrations(journal: seq<Entry>, sql: map<string, string>, snapshots: map<string, Json>)

  function SnapshotFile(idx: nat): string { Padded(idx) + "_snapshot.json" }

  /** Every file the journal names is there. */
  predicate Readable(h: Migrations) {
    forall i :: 0 <= i < |h.journal| ==> h.journal[i].tag in h.sql && SnapshotFile(h.journal[i].idx) in h.snapshots
  }

  predicate IsSnapshot(v: Json) { v.Object? && WellFormed(v) }

  /** Every snapshot the journal names is an object. */
  predicate Snapshots(h: Migrations)
    requires Readable(h)
  {
    forall i :: 0 <= i < |h.journal| ==> IsSnapshot(SnapshotAt(h, i))
  }

  // --- attribution -------------------------------------------------------------------

  datatype Kind = Drizzle | Generator | HandAuthored

  datatype Source = Source(idx: nat, tag: string, sql: string, kind: Kind)

  const ID: JsString := [0x69, 0x64]
  const PREV_ID: JsString := [0x70, 0x72, 0x65, 0x76, 0x49, 0x64]

  function OtherMembers(members: seq<Member>): seq<Member> {
    if members == [] then []
    else (if members[0].key == ID || members[0].key == PREV_ID then [] else members[..1]) + OtherMembers(members[1..])
  }

  /** The snapshot with the two identity members of its root gone. */
  function WithoutIdentity(snapshot: Json): Json {
    if snapshot.Object? then Object(OtherMembers(snapshot.members)) else snapshot
  }

  function Content(snapshot: Json): JsString { Text(WithoutIdentity(snapshot)) }

  predicate SameContent(a: Json, b: Json) { Content(a) == Content(b) }

  function SnapshotAt(h: Migrations, i: nat): Json
    requires Readable(h) && i < |h.journal|
  {
    h.snapshots[SnapshotFile(h.journal[i].idx)]
  }

  /** A migration whose snapshot has the content of the one before it. */
  predicate Custom(h: Migrations, i: nat)
    requires Readable(h) && i < |h.journal|
  {
    i > 0 && SameContent(SnapshotAt(h, i), SnapshotAt(h, i - 1))
  }

  function KindOf(custom: bool, sql: string): Kind {
    if !custom then Drizzle else if MARKER <= sql then Generator else HandAuthored
  }

  function SourceAt(h: Migrations, i: nat): Source
    requires Readable(h) && i < |h.journal|
  {
    var e := h.journal[i];
    Source(e.idx, e.tag, h.sql[e.tag], KindOf(Custom(h, i), h.sql[e.tag]))
  }

  function Sources(h: Migrations): (sources: seq<Source>)
    requires Readable(h)
    ensures |sources| == |h.journal|
  {
    seq(|h.journal|, i requires 0 <= i < |h.journal| => SourceAt(h, i))
  }

  lemma SourcesAt(h: Migrations, i: nat)
    requires Readable(h) && i < |h.journal|
    ensures Sources(h)[i] == SourceAt(h, i)
  {
  }

  // --- the fold ----------------------------------------------------------------------

  type ForceState = map<string, bool>

  function Apply(state: ForceState, operations: seq<ForceOperation>): ForceState
    decreases operations
  {
    if operations == [] then state
    else Apply(state[operations[0].table := operations[0].forced], operations[1..])
  }

  /** What one migration does to the state: nothing, unless it is the generator's and
      the grammar accepts it. */
  function Step(state: ForceState, source: Source): ForceState {
    if source.kind == Generator && Parse(source.sql).Operations? then Apply(state, Parse(source.sql).operations)
    else state
  }

  function StateAfter(sources: seq<Source>): ForceState {
    if sources == [] then map[] else Step(StateAfter(sources[..|sources| - 1]), sources[|sources| - 1])
  }

  function Effective(h: Migrations): ForceState
    requires Readable(h)
  {
    StateAfter(Sources(h))
  }

  predicate Forced(state: ForceState, table: string) { table in state && state[table] }

  // --- the delta ---------------------------------------------------------------------

  datatype Classification = Classification(tenant: seq<string>, nonTenant: seq<string>)

  /** `Map.set` on a map that keeps insertion order. */
  function Put(wanted: seq<ForceOperation>, table: string, forced: bool): seq<ForceOperation> {
    if wanted == [] then [ForceOperation(table, forced)]
    else if wanted[0].table == table then [ForceOperation(table, forced)] + wanted[1..]
    else wanted[..1] + Put(wanted[1..], table, forced)
  }

  function PutAll(wanted: seq<ForceOperation>, tables: seq<string>, forced: bool): seq<ForceOperation>
    decreases tables
  {
    if tables == [] then wanted else PutAll(Put(wanted, tables[0], forced), tables[1..], forced)
  }

  function Wanted(c: Classification): seq<ForceOperation> {
    PutAll(PutAll([], c.nonTenant, false), c.tenant, true)
  }

  function Differing(wanted: seq<ForceOperation>, state: ForceState): seq<Keyed<ForceOperation>> {
    if wanted == [] then []
    else (if Forced(state, wanted[0].table) != wanted[0].forced then [Keyed(Codes(wanted[0].table), wanted[0])] else []) + Differing(wanted[1..], state)
  }

  function Values(entries: seq<Keyed<ForceOperation>>): (operations: seq<ForceOperation>)
    ensures |operations| == |entries| && forall i :: 0 <= i < |operations| ==> operations[i] == entries[i].value
  {
    seq(|entries|, i requires 0 <= i < |entries| => entries[i].value)
  }

  /** The operations a new migration would carry, sorted by table name. */
  function Delta(c: Classification, state: ForceState): seq<ForceOperation> {
    Values(Sorted(Differing(Wanted(c), state)))
  }

  /** The history says of every classified table what the classification says. */
  predicate Agrees(c: Classification, state: ForceState) {
    && (forall i :: 0 <= i < |c.tenant| ==> Forced(state, c.tenant[i]))
    && (forall i :: 0 <= i < |c.nonTenant| && c.nonTenant[i] !in c.tenant ==> !Forced(state, c.nonTenant[i]))
  }

  // --- the generator -----------------------------------------------------------------

  const MIGRATION_NAME: string := "force_row_level_security"

  function TagOf(idx: nat): string { Padded(idx) + "_" + MIGRATION_NAME }

  function SetMember(members: seq<Member>, key: JsString, held: Held): seq<Member> {
    if members == [] then [Member(key, held)]
    else if members[0].key == key then [Member(key, held)] + members[1..]
    else members[..1] + SetMember(members[1..], key, held)
  }

  function MemberOf(members: seq<Member>, key: JsString): Held {
    if members == [] then Undefined
    else if members[0].key == key then members[0].held
    else MemberOf(members[1..], key)
  }

  /** The previous snapshot under a new identity, chained to the old one. */
  function NextSnapshot(previous: Json, id: JsString): Json
    requires previous.Object?
  {
    Object(SetMember(SetMember(previous.members, ID, Defined(String(id))), PREV_ID, MemberOf(previous.members, ID)))
  }

  datatype Emission =
    | Appended(tag: string, operations: seq<ForceOperation>)
    | Nothing
    | Unreadable
    | NothingToChain
    | NotAnObject

  function Max(a: int, b: int): int { if a >= b then a else b }

  /** The next entry: the next index, and strictly later than the last entry whatever
      the clock says. */
  function NextEntry(last: Entry, now: int): Entry {
    Entry(last.idx + 1, TagOf(last.idx + 1), Max(now, last.when + 1))
  }

  /** The folder with one more migration in it. */
  function Append(h: Migrations, entry: Entry, sql: string, snapshot: Json): Migrations {
    Migrations(h.journal + [entry], h.sql[entry.tag := sql], h.snapshots[SnapshotFile(entry.idx) := snapshot])
  }

  /** One run of the generator over a folder, with the clock and the fresh id it reads. */
  function Emit(h: Migrations, c: Classification, now: int, id: JsString): (Emission, Migrations) {
    if !Readable(h) then (Unreadable, h)
    else
      var operations := Delta(c, Effective(h));
      if operations == [] then (Nothing, h)
      else if h.journal == [] then (NothingToChain, h)
      else if !SnapshotAt(h, |h.journal| - 1).Object? then (NotAnObject, h)
      else
        var last := h.journal[|h.journal| - 1];
        var entry := NextEntry(last, now);
        (Appended(entry.tag, operations),
         Append(h, entry, Render(operations), NextSnapshot(SnapshotAt(h, |h.journal| - 1), id)))
  }

  // --- what the delta holds ------------------------------------------------------------

  predicate Distinct(operations: seq<ForceOperation>) {
    forall i, j :: 0 <= i < j < |operations| ==> operations[i].table != operations[j].table
  }

  lemma {:induction false} PutHolds(wanted: seq<ForceOperation>, table: string, forced: bool)
    requires Distinct(wanted)
    ensures Distinct(Put(wanted, table, forced))
    ensures forall o :: o in Put(wanted, table, forced) <==>
      o == ForceOperation(table, forced) || (o in wanted && o.table != table)
  {
    if wanted != [] {
      var rest := wanted[1..];
      assert wanted == [wanted[0]] + rest;
      if wanted[0].table == table {
        assert forall o :: o in rest ==> o.table != table;
      } else {
        PutHolds(rest, table, forced);
        var put := Put(rest, table, forced);
        forall j | 0 <= j < |put| ensures put[j].table != wanted[0].table {
          assert put[j] in put;
        }
      }
    }
  }

  lemma {:induction false} PutAllHolds(wanted: seq<ForceOperation>, tables: seq<string>, forced: bool)
    requires Distinct(wanted)
    ensures Distinct(PutAll(wanted, tables, forced))
    ensures forall o :: o in PutAll(wanted, tables, forced) <==>
      (o.table in tables && o.forced == forced) || (o in wanted && o.table !in tables)
    decreases tables
  {
    if tables != [] {
      PutHolds(wanted, tables[0], forced);
      PutAllHolds(Put(wanted, tables[0], forced), tables[1..], forced);
      assert tables == [tables[0]] + tables[1..];
    }
  }

  /** The later table list wins: a table classified both ways is wanted forced. */
  lemma WantedHolds(c: Classification)
    ensures Distinct(Wanted(c))
    ensures forall o :: o in Wanted(c) <==>
      if o.forced then o.table in c.tenant else o.table in c.nonTenant && o.table !in c.tenant
  {
    PutAllHolds([], c.nonTenant, false);
    PutAllHolds(PutAll([], c.nonTenant, false), c.tenant, true);
  }

  lemma {:induction false} DifferingHolds(wanted: seq<ForceOperation>, state: ForceState)
    requires Distinct(wanted)
    ensures UniqueKeys(Differing(wanted, state))
    ensures forall e :: e in Differing(wanted, state) <==>
      e.value in wanted && e.key == Codes(e.value.table) && Forced(state, e.value.table) != e.value.forced
  {
    if wanted != [] {
      var rest := wanted[1..];
      var first := wanted[0];
      DifferingHolds(rest, state);
      assert wanted == [first] + rest;
      var others := Differing(rest, state);
      forall j | 0 <= j < |others| ensures others[j].key != Codes(first.table) {
        assert others[j] in others;
        if others[j].key == Codes(first.table) {
          CodesInjective(others[j].value.table, first.table);
        }
      }
    }
  }

  /** The sorted entries under their keys. */
  lemma DeltaSorted(c: Classification, state: ForceState)
    ensures var sorted := Sorted(Differing(Wanted(c), state));
      && Ascending(sorted)
      && forall e :: e in sorted <==>
        e.value in Wanted(c) && e.key == Codes(e.value.table) && Forced(state, e.value.table) != e.value.forced
  {
    WantedHolds(c);
    var entries := Differing(Wanted(c), state);
    DifferingHolds(Wanted(c), state);
    SortedAscends(entries);
    SameMembers(Sorted(entries), entries);
    SameMembers(entries, Sorted(entries));
  }

  lemma ValuesOf(sorted: seq<Keyed<ForceOperation>>)
    requires Ascending(sorted) && forall e :: e in sorted ==> e.key == Codes(e.value.table)
    ensures forall o: ForceOperation :: o in Values(sorted) <==> Keyed(Codes(o.table), o) in sorted
    ensures forall i, j :: 0 <= i < j < |sorted| ==> Before(Codes(Values(sorted)[i].table), Codes(Values(sorted)[j].table))
  {
    var values := Values(sorted);
    forall i | 0 <= i < |sorted| ensures sorted[i] == Keyed(Codes(values[i].table), values[i]) {
      assert sorted[i] in sorted;
    }
    forall o: ForceOperation | Keyed(Codes(o.table), o) in sorted ensures o in values {
      var i :| 0 <= i < |sorted| && sorted[i] == Keyed(Codes(o.table), o);
      assert values[i] == o;
    }
  }

  /** The delta holds, sorted by table name and once each, exactly the wanted
      operations the state does not meet already. */
  lemma DeltaHolds(c: Classification, state: ForceState)
    ensures Distinct(Delta(c, state))
    ensures forall o :: o in Delta(c, state) <==> o in Wanted(c) && Forced(state, o.table) != o.forced
    ensures forall i, j :: 0 <= i < j < |Delta(c, state)| ==>
      Before(Codes(Delta(c, state)[i].table), Codes(Delta(c, state)[j].table))
  {
    DeltaSorted(c, state);
    ValuesOf(Sorted(Differing(Wanted(c), state)));
    var delta := Delta(c, state);
    forall i, j | 0 <= i < j < |delta| ensures delta[i].table != delta[j].table {
      BeforeStrict(Codes(delta[i].table), Codes(delta[j].table));
    }
  }

  /** Nothing to emit exactly when the history agrees with the classification. */
  lemma EmptyDelta(c: Classification, state: ForceState)
    ensures Delta(c, state) == [] <==> Agrees(c, state)
  {
    WantedHolds(c);
    DeltaHolds(c, state);
    var delta := Delta(c, state);
    if delta == [] {
      forall i | 0 <= i < |c.tenant| ensures Forced(state, c.tenant[i]) {
        assert ForceOperation(c.tenant[i], true) in Wanted(c);
        assert ForceOperation(c.tenant[i], true) !in delta;
      }
      forall i | 0 <= i < |c.nonTenant| && c.nonTenant[i] !in c.tenant ensures !Forced(state, c.nonTenant[i]) {
        assert ForceOperation(c.nonTenant[i], false) in Wanted(c);
        assert ForceOperation(c.nonTenant[i], false) !in delta;
      }
    } else {
      assert delta[0] in delta;
    }
  }

  /** `forceStateProblems`: the tables it has a message for. */
  function Problems(c: Classification, state: ForceState): (tables: seq<string>) {
    Selected(c.tenant, state, false) + Selected(c.nonTenant, state, true)
  }

  function Selected(tables: seq<string>, state: ForceState, forced: bool): (selected: seq<string>)
    ensures selected == [] <==> forall t :: t in tables ==> Forced(state, t) != forced
  {
    if tables == [] then []
    else if Forced(state, tables[0]) == forced then [tables[0]] + Selected(tables[1..], state, forced)
    else Selected(tables[1..], state, forced)
  }

  /** The check is silent exactly when the delta is empty and no table is classified
      both ways. With one that is, the check cannot be satisfied at all. */
  lemma ProblemsAndDelta(c: Classification, state: ForceState)
    ensures Problems(c, state) == [] <==>
      Delta(c, state) == [] && forall t :: t in c.tenant ==> t !in c.nonTenant
  {
    EmptyDelta(c, state);
    assert Problems(c, state) == [] <==> Selected(c.tenant, state, false) == [] && Selected(c.nonTenant, state, true) == [];
    assert Agrees(c, state) ==> forall t :: t in c.tenant ==> Forced(state, t);
    assert Agrees(c, state) ==> forall t :: t in c.nonTenant && t !in c.tenant ==> !Forced(state, t);
  }

  // --- applying it ---------------------------------------------------------------------

  predicate Names(operations: seq<ForceOperation>, table: string) {
    exists i :: 0 <= i < |operations| && operations[i].table == table
  }

  lemma {:induction false} ApplySets(state: ForceState, operations: seq<ForceOperation>)
    requires Distinct(operations)
    ensures forall o :: o in operations ==> Forced(Apply(state, operations), o.table) == o.forced
    ensures forall t :: !Names(operations, t) ==>
      (t in Apply(state, operations) <==> t in state) && Forced(Apply(state, operations), t) == Forced(state, t)
    decreases operations
  {
    if operations != [] {
      var first, rest := operations[0], operations[1..];
      var next := state[first.table := first.forced];
      ApplySets(next, rest);
      assert operations == [first] + rest;
      assert !Names(rest, first.table);
      forall t | !Names(operations, t) ensures !Names(rest, t) && t != first.table {
        assert operations[0].table != t;
        assert forall i :: 0 <= i < |rest| ==> rest[i] == operations[i + 1];
      }
    }
  }

  /** Applying the delta settles every classified table, and touches no other. */
  lemma DeltaSettles(c: Classification, state: ForceState)
    ensures Agrees(c, Apply(state, Delta(c, state)))
    ensures forall t :: t !in c.tenant && t !in c.nonTenant ==>
      Forced(Apply(state, Delta(c, state)), t) == Forced(state, t)
  {
    var delta := Delta(c, state);
    var after := Apply(state, delta);
    WantedHolds(c);
    DeltaHolds(c, state);
    ApplySets(state, delta);
    forall o | o in Wanted(c) ensures Forced(after, o.table) == o.forced {
      assert forall i :: 0 <= i < |delta| && delta[i].table == o.table ==> delta[i] == o;
    }
    forall i | 0 <= i < |c.tenant| ensures Forced(after, c.tenant[i]) {
      assert ForceOperation(c.tenant[i], true) in Wanted(c);
    }
    forall i | 0 <= i < |c.nonTenant| && c.nonTenant[i] !in c.tenant ensures !Forced(after, c.nonTenant[i]) {
      assert ForceOperation(c.nonTenant[i], false) in Wanted(c);
    }
    forall t | t !in c.tenant && t !in c.nonTenant ensures !Names(delta, t) {
      assert forall i :: 0 <= i < |delta| ==> delta[i] in Wanted(c);
    }
  }

  // --- only carriable names ever reach the state ----------------------------------------

  predicate AllNamesCarriable(state: ForceState) { forall t :: t in state ==> Carriable(t) }

  lemma {:induction false} ApplyCarriable(state: ForceState, operations: seq<ForceOperation>)
    requires AllNamesCarriable(state) && AllCarriable(operations)
    ensures AllNamesCarriable(Apply(state, operations))
    decreases operations
  {
    if operations != [] {
      ApplyCarriable(state[operations[0].table := operations[0].forced], operations[1..]);
    }
  }

  lemma {:induction false} StateCarriable(sources: seq<Source>)
    ensures AllNamesCarriable(StateAfter(sources))
  {
    if sources != [] {
      var last := sources[|sources| - 1];
      var before := StateAfter(sources[..|sources| - 1]);
      StateCarriable(sources[..|sources| - 1]);
      if last.kind == Generator && Parse(last.sql).Operations? {
        AcceptedIsRendering(last.sql, Parse(last.sql).operations);
        ApplyCarriable(before, Parse(last.sql).operations);
      }
    }
  }
}
