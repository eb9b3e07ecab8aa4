/** The append-only generator over a migration folder
    (packages/control-plane/src/db/force-generate.ts). */
module Generator {
  import opened JsText
  import opened Canonical
  import opened Decimal
  import opened Force
  import opened History

  // --- the new snapshot is the old one under a new identity ------------------------------

  lemma {:induction false} IdentityUnseen(members: seq<Member>, key: JsString, held: Held)
    requires key == ID || key == PREV_ID
    ensures OtherMembers(SetMember(members, key, held)) == OtherMembers(members)
  {
    if members != [] && members[0].key != key {
      IdentityUnseen(members[1..], key, held);
      assert SetMember(members, key, held)[1..] == SetMember(members[1..], key, held);
      assert SetMember(members, key, held)[..1] == members[..1];
    } else if members != [] {
      assert SetMember(members, key, held)[1..] == members[1..];
    }
  }

  predicate WritableHeld(held: Held) { held.Defined? ==> WellFormed(held.value) }

  /** What `WellFormed` asks of an object's members. */
  predicate GoodMembers(members: seq<Member>) {
    && (forall i :: 0 <= i < |members| ==> WritableHeld(members[i].held))
    && (forall i, j :: 0 <= i < j < |members| ==> members[i].key != members[j].key)
  }

  lemma GoodObject(members: seq<Member>)
    ensures WellFormed(Object(members)) <==> GoodMembers(members)
  {
  }

  lemma {:induction false} SetMemberGood(members: seq<Member>, key: JsString, held: Held)
    requires GoodMembers(members) && WritableHeld(held)
    ensures GoodMembers(SetMember(members, key, held))
    ensures forall i :: 0 <= i < |SetMember(members, key, held)| && SetMember(members, key, held)[i].key != key ==>
      SetMember(members, key, held)[i] in members
  {
    if members != [] && members[0].key != key {
      SetMemberGood(members[1..], key, held);
    }
  }

  lemma {:induction false} MemberOfGood(members: seq<Member>, key: JsString)
    requires GoodMembers(members)
    ensures WritableHeld(MemberOf(members, key))
  {
    if members != [] && members[0].key != key {
      MemberOfGood(members[1..], key);
    }
  }

  /** The new snapshot says what the old one said. */
  lemma NextSnapshotKeepsContent(previous: Json, id: JsString)
    requires previous.Object?
    ensures Content(NextSnapshot(previous, id)) == Content(previous)
  {
    var identified := SetMember(previous.members, ID, Defined(String(id)));
    IdentityUnseen(previous.members, ID, Defined(String(id)));
    IdentityUnseen(identified, PREV_ID, MemberOf(previous.members, ID));
  }

  lemma NextSnapshotIsSnapshot(previous: Json, id: JsString)
    requires IsSnapshot(previous)
    ensures IsSnapshot(NextSnapshot(previous, id))
  {
    var members := previous.members;
    var identified := SetMember(members, ID, Defined(String(id)));
    GoodObject(members);
    MemberOfGood(members, ID);
    SetMemberGood(members, ID, Defined(String(id)));
    SetMemberGood(identified, PREV_ID, MemberOf(members, ID));
    GoodObject(SetMember(identified, PREV_ID, MemberOf(members, ID)));
  }

  /** Attribution reads content and not text: two snapshots compare equal exactly when
      they are the same value, up to key order at every depth, once the root's own
      identity is set aside. */
  lemma ContentIdentifies(a: Json, b: Json)
    requires IsSnapshot(a) && IsSnapshot(b)
    ensures Content(a) == Content(b) <==> Same(WithoutIdentity(a), WithoutIdentity(b))
  {
    GoodObject(a.members);
    GoodObject(b.members);
    OtherMembersGood(a.members);
    OtherMembersGood(b.members);
    GoodObject(OtherMembers(a.members));
    GoodObject(OtherMembers(b.members));
    TextIdentifies(WithoutIdentity(a), WithoutIdentity(b));
  }

  lemma {:induction false} OtherMembersGood(members: seq<Member>)
    requires GoodMembers(members)
    ensures GoodMembers(OtherMembers(members))
    ensures forall i :: 0 <= i < |OtherMembers(members)| ==> OtherMembers(members)[i] in members
  {
    if members != [] {
      OtherMembersGood(members[1..]);
    }
  }

  // --- appending -----------------------------------------------------------------------

  /** No entry's files are the ones this entry's migration will be written to. */
  predicate Fresh(journal: seq<History.Entry>, entry: History.Entry) {
    forall i :: 0 <= i < |journal| ==> journal[i].idx != entry.idx && journal[i].tag != entry.tag
  }

  /** drizzle-kit's own numbering: the entries count up, each tag opens with its entry's
      padded index, and the timestamps strictly increase. */
  predicate Numbered(journal: seq<History.Entry>) { CountsUp(journal) && TagsOpen(journal) }

  predicate CountsUp(journal: seq<History.Entry>) {
    forall i, j :: 0 <= i < j < |journal| ==> journal[i].idx < journal[j].idx && journal[i].when < journal[j].when
  }

  predicate TagsOpen(journal: seq<History.Entry>) { forall e :: e in journal ==> TagOpens(e.tag, e.idx) }

  predicate TagOpens(tag: string, idx: nat) { Padded(idx) + "_" <= tag }

  /** A tag tells its index: the digits end at the first underscore. */
  lemma TagTellsIndex(m: nat, n: nat, tag: string)
    requires TagOpens(tag, m) && TagOpens(tag, n)
    ensures m == n
  {
    var a, b := Padded(m), Padded(n);
    assert (a + "_")[|a|] == '_' == tag[|a|] && (b + "_")[|b|] == '_' == tag[|b|];
    assert forall k :: 0 <= k < |a| ==> tag[k] == (a + "_")[k] == a[k];
    assert forall k :: 0 <= k < |b| ==> tag[k] == (b + "_")[k] == b[k];
    assert |a| == |b|;
    assert a == tag[..|a|] == b;
    PaddedInjective(m, n);
  }

  lemma TagOfOpens(n: nat)
    ensures TagOpens(TagOf(n), n)
  {
    assert TagOf(n)[..|Padded(n)| + 1] == Padded(n) + "_";
  }

  lemma TagsDiffer(a: History.Entry, b: History.Entry)
    requires TagOpens(a.tag, a.idx) && TagOpens(b.tag, b.idx)
    ensures a.tag == b.tag ==> a.idx == b.idx
  {
    if a.tag == b.tag {
      TagTellsIndex(a.idx, b.idx, b.tag);
    }
  }

  lemma CountsOn(journal: seq<History.Entry>, entry: History.Entry)
    requires journal != [] && CountsUp(journal)
    requires entry.idx == journal[|journal| - 1].idx + 1 && entry.when > journal[|journal| - 1].when
    ensures CountsUp(journal + [entry]) && forall i :: 0 <= i < |journal| ==> journal[i].idx < entry.idx
  {
  }

  lemma NextTagFits(journal: seq<History.Entry>, entry: History.Entry)
    requires TagsOpen(journal) && TagOpens(entry.tag, entry.idx)
    requires forall i :: 0 <= i < |journal| ==> journal[i].idx < entry.idx
    ensures Fresh(journal, entry) && TagsOpen(journal + [entry])
  {
    forall i | 0 <= i < |journal| ensures journal[i].tag != entry.tag {
      assert journal[i] in journal;
      TagsDiffer(journal[i], entry);
    }
  }

  /** A numbered journal always has room for the next entry, and stays numbered. */
  lemma NextEntryFits(journal: seq<History.Entry>, last: History.Entry, now: int)
    requires journal != [] && last == journal[|journal| - 1] && Numbered(journal)
    ensures Fresh(journal, NextEntry(last, now)) && Numbered(journal + [NextEntry(last, now)])
  {
    TagOfOpens(last.idx + 1);
    CountsOn(journal, NextEntry(last, now));
    NextTagFits(journal, NextEntry(last, now));
  }

  lemma SnapshotFilesDiffer(m: nat, n: nat)
    requires m != n
    ensures SnapshotFile(m) != SnapshotFile(n)
  {
    if SnapshotFile(m) == SnapshotFile(n) {
      var a, b := SnapshotFile(m), SnapshotFile(n);
      assert |Padded(m)| == |Padded(n)|;
      assert Padded(m) == a[..|Padded(m)|] == b[..|Padded(n)|] == Padded(n);
      PaddedInjective(m, n);
    }
  }

  /** A fresh migration leaves the earlier entries' files as they were. */
  lemma EarlierFilesKept(h: Migrations, entry: History.Entry, sql: string, snapshot: Json, i: nat)
    requires Readable(h) && Fresh(h.journal, entry) && i < |h.journal|
    ensures var h' := Append(h, entry, sql, snapshot);
      && h'.journal[i] == h.journal[i]
      && h'.sql.Keys == h.sql.Keys + {entry.tag} && h'.sql[h.journal[i].tag] == h.sql[h.journal[i].tag]
      && SnapshotFile(h.journal[i].idx) in h'.snapshots
      && h'.snapshots[SnapshotFile(h.journal[i].idx)] == SnapshotAt(h, i)
  {
    SnapshotFilesDiffer(h.journal[i].idx, entry.idx);
  }

  lemma AppendReadable(h: Migrations, entry: History.Entry, sql: string, snapshot: Json)
    requires Readable(h) && Fresh(h.journal, entry)
    ensures Readable(Append(h, entry, sql, snapshot))
  {
    var h' := Append(h, entry, sql, snapshot);
    forall i | 0 <= i < |h'.journal|
      ensures h'.journal[i].tag in h'.sql && SnapshotFile(h'.journal[i].idx) in h'.snapshots
    {
      if i < |h.journal| {
        EarlierFilesKept(h, entry, sql, snapshot, i);
      }
    }
  }

  lemma AppendSnapshots(h: Migrations, entry: History.Entry, sql: string, snapshot: Json)
    requires Readable(h) && Snapshots(h) && Fresh(h.journal, entry) && IsSnapshot(snapshot)
    requires Readable(Append(h, entry, sql, snapshot))
    ensures Snapshots(Append(h, entry, sql, snapshot))
  {
    var h' := Append(h, entry, sql, snapshot);
    forall i | 0 <= i < |h'.journal| ensures IsSnapshot(SnapshotAt(h', i)) {
      if i < |h.journal| {
        EarlierFilesKept(h, entry, sql, snapshot, i);
        assert IsSnapshot(SnapshotAt(h, i));
      }
    }
  }

  lemma CustomKept(h: Migrations, entry: History.Entry, sql: string, snapshot: Json, i: nat)
    requires Readable(h) && Fresh(h.journal, entry) && 0 < i < |h.journal|
    requires Readable(Append(h, entry, sql, snapshot))
    ensures Custom(Append(h, entry, sql, snapshot), i) == Custom(h, i)
  {
    EarlierFilesKept(h, entry, sql, snapshot, i);
    EarlierFilesKept(h, entry, sql, snapshot, i - 1);
  }

  lemma SourceKept(h: Migrations, entry: History.Entry, sql: string, snapshot: Json, i: nat)
    requires Readable(h) && Fresh(h.journal, entry) && i < |h.journal|
    requires Readable(Append(h, entry, sql, snapshot))
    ensures Sources(Append(h, entry, sql, snapshot))[i] == Sources(h)[i]
  {
    EarlierFilesKept(h, entry, sql, snapshot, i);
    SourcesAt(h, i);
    SourcesAt(Append(h, entry, sql, snapshot), i);
    if i > 0 {
      CustomKept(h, entry, sql, snapshot, i);
    }
  }

  lemma NewSource(h: Migrations, entry: History.Entry, sql: string, snapshot: Json)
    requires Readable(h) && h.journal != [] && Fresh(h.journal, entry)
    requires Readable(Append(h, entry, sql, snapshot))
    requires Content(snapshot) == Content(SnapshotAt(h, |h.journal| - 1))
    ensures Sources(Append(h, entry, sql, snapshot))[|h.journal|] == Source(entry.idx, entry.tag, sql, KindOf(true, sql))
  {
    EarlierFilesKept(h, entry, sql, snapshot, |h.journal| - 1);
    SourcesAt(Append(h, entry, sql, snapshot), |h.journal|);
    assert Custom(Append(h, entry, sql, snapshot), |h.journal|);
  }

  lemma Extends<T>(a: seq<T>, b: seq<T>, last: T)
    requires |b| == |a| + 1 && b[|a|] == last && forall i :: 0 <= i < |a| ==> b[i] == a[i]
    ensures b == a + [last]
  {
  }

  /** A fresh migration whose snapshot did not advance is read back as custom, and the
      earlier ones as whatever they were. */
  lemma AppendedSource(h: Migrations, entry: History.Entry, sql: string, snapshot: Json)
    requires Readable(h) && h.journal != [] && Fresh(h.journal, entry)
    requires Content(snapshot) == Content(SnapshotAt(h, |h.journal| - 1))
    ensures Readable(Append(h, entry, sql, snapshot))
    ensures Sources(Append(h, entry, sql, snapshot)) ==
      Sources(h) + [Source(entry.idx, entry.tag, sql, KindOf(true, sql))]
  {
    AppendReadable(h, entry, sql, snapshot);
    NewSource(h, entry, sql, snapshot);
    var before, after := Sources(h), Sources(Append(h, entry, sql, snapshot));
    forall i | 0 <= i < |before| ensures after[i] == before[i] {
      SourceKept(h, entry, sql, snapshot, i);
    }
    Extends(before, after, Source(entry.idx, entry.tag, sql, KindOf(true, sql)));
  }

  // --- the fixpoint ----------------------------------------------------------------------

  predicate Appends(h: Migrations, c: Classification) {
    && Readable(h) && h.journal != [] && SnapshotAt(h, |h.journal| - 1).Object?
    && Delta(c, Effective(h)) != []
  }

  function Last(h: Migrations): History.Entry
    requires h.journal != []
  {
    h.journal[|h.journal| - 1]
  }

  lemma EmitIsAppend(h: Migrations, c: Classification, now: int, id: JsString)
    requires Appends(h, c)
    ensures var operations, entry := Delta(c, Effective(h)), NextEntry(Last(h), now);
      Emit(h, c, now, id) == (Appended(entry.tag, operations),
        Append(h, entry, Render(operations), NextSnapshot(SnapshotAt(h, |h.journal| - 1), id)))
  {
  }

  lemma MarkerFirst(operations: seq<ForceOperation>)
    requires operations != []
    ensures MARKER <= Render(operations)
  {
    var lines := [MARKER] + Force.Statements(operations);
    assert |Force.Statements(operations)| > 0;
    assert Lines.Join(lines) == MARKER + "\n" + Lines.Join(lines[1..]);
  }

  /** The appended file is read back as the generator's own, so its operations, if the
      grammar accepts them, are one more step of the fold. */
  lemma EmittedIsFolded(h: Migrations, c: Classification, now: int, id: JsString)
    requires Appends(h, c) && Fresh(h.journal, NextEntry(Last(h), now))
    ensures var h' := Emit(h, c, now, id).1;
      && Readable(h')
      && Effective(h') == Step(Effective(h), Source(Last(h).idx + 1, TagOf(Last(h).idx + 1), Render(Delta(c, Effective(h))), Generator))
  {
    var operations, entry := Delta(c, Effective(h)), NextEntry(Last(h), now);
    var last := SnapshotAt(h, |h.journal| - 1);
    EmitIsAppend(h, c, now, id);
    NextSnapshotKeepsContent(last, id);
    AppendedSource(h, entry, Render(operations), NextSnapshot(last, id));
    MarkerFirst(operations);
    Folded(Sources(h), Source(entry.idx, entry.tag, Render(operations), Generator));
  }

  lemma Folded(sources: seq<Source>, last: Source)
    ensures StateAfter(sources + [last]) == Step(StateAfter(sources), last)
  {
    assert (sources + [last])[..|sources|] == sources;
  }

  predicate TenantsCarriable(c: Classification) { forall t :: t in c.tenant ==> Carriable(t) }

  /** Only a tenant table's name can be one the grammar cannot carry: a table to be
      unforced is one an accepted file named. */
  lemma DeltaCarriable(c: Classification, sources: seq<Source>)
    requires TenantsCarriable(c)
    ensures AllCarriable(Delta(c, StateAfter(sources)))
  {
    var state := StateAfter(sources);
    StateCarriable(sources);
    WantedHolds(c);
    DeltaHolds(c, state);
    var delta := Delta(c, state);
    forall i | 0 <= i < |delta| ensures Carriable(delta[i].table) {
      assert delta[i] in delta;
    }
  }

  lemma AgreesCarriable(c: Classification, state: ForceState)
    requires AllNamesCarriable(state) && Agrees(c, state)
    ensures TenantsCarriable(c)
  {
    forall t | t in c.tenant ensures Carriable(t) {
      var i :| 0 <= i < |c.tenant| && c.tenant[i] == t;
      assert Forced(state, c.tenant[i]);
    }
  }

  predicate Ran(e: Emission) { e.Appended? || e.Nothing? }

  /** The generator's fixpoint. After a run the history agrees with the classification
      exactly when the grammar can carry every tenant table's name. */
  lemma EmitReachesAgreement(h: Migrations, c: Classification, now: int, id: JsString)
    requires h.journal != [] ==> Fresh(h.journal, NextEntry(Last(h), now))
    requires Ran(Emit(h, c, now, id).0)
    ensures var h' := Emit(h, c, now, id).1;
      Readable(h') && (Agrees(c, Effective(h')) <==> TenantsCarriable(c))
  {
    var h' := Emit(h, c, now, id).1;
    EmptyDelta(c, Effective(h));
    if Appends(h, c) {
      EmittedIsFolded(h, c, now, id);
      if TenantsCarriable(c) {
        EmitSettles(h, c, now, id);
      }
    }
    StateCarriable(Sources(h'));
    if Agrees(c, Effective(h')) {
      AgreesCarriable(c, Effective(h'));
    }
  }

  /** An append settles what is classified and leaves every other table alone. */
  lemma EmitSettles(h: Migrations, c: Classification, now: int, id: JsString)
    requires Appends(h, c) && Fresh(h.journal, NextEntry(Last(h), now)) && TenantsCarriable(c)
    ensures var h' := Emit(h, c, now, id).1;
      && Readable(h') && Agrees(c, Effective(h'))
      && forall t :: t !in c.tenant && t !in c.nonTenant ==> Forced(Effective(h'), t) == Forced(Effective(h), t)
  {
    var operations := Delta(c, Effective(h));
    EmittedIsFolded(h, c, now, id);
    DeltaCarriable(c, Sources(h));
    RenderedParses(operations);
    DeltaSettles(c, Effective(h));
  }

  /** Run again, the generator emits nothing, and again exactly when the names can be
      carried. Otherwise it would append one refused file after another. */
  lemma SecondEmitIsNothing(h: Migrations, c: Classification, now: int, id: JsString, now': int, id': JsString)
    requires h.journal != [] ==> Fresh(h.journal, NextEntry(Last(h), now))
    requires Ran(Emit(h, c, now, id).0)
    ensures var h' := Emit(h, c, now, id).1;
      Emit(h', c, now', id') == (Nothing, h') <==> TenantsCarriable(c)
  {
    var h' := Emit(h, c, now, id).1;
    EmitReachesAgreement(h, c, now, id);
    EmptyDelta(c, Effective(h'));
  }

  // --- whole histories -------------------------------------------------------------------

  /** What came before is what it was: the journal is a prefix, and no file it names has
      changed. */
  predicate AppendOnly(h: Migrations, h': Migrations) {
    && h.journal <= h'.journal
    && forall e :: e in h.journal ==> Kept(h.sql, h'.sql, e.tag) && Kept(h.snapshots, h'.snapshots, SnapshotFile(e.idx))
  }

  predicate Kept<V(==)>(before: map<string, V>, after: map<string, V>, name: string) {
    name in before ==> name in after && after[name] == before[name]
  }

  /** A run over a numbered folder appends, and leaves it numbered. */
  lemma EmitAppendsOnly(h: Migrations, c: Classification, now: int, id: JsString)
    requires Numbered(h.journal)
    ensures var h' := Emit(h, c, now, id).1; AppendOnly(h, h') && Numbered(h'.journal)
  {
    if Appends(h, c) {
      EmitIsAppend(h, c, now, id);
      NextEntryFits(h.journal, Last(h), now);
      FreshAppendsOnly(h, NextEntry(Last(h), now), Render(Delta(c, Effective(h))),
                       NextSnapshot(SnapshotAt(h, |h.journal| - 1), id));
    }
  }

  lemma FreshAppendsOnly(h: Migrations, entry: History.Entry, sql: string, snapshot: Json)
    requires Readable(h) && Fresh(h.journal, entry)
    ensures AppendOnly(h, Append(h, entry, sql, snapshot))
  {
    var h' := Append(h, entry, sql, snapshot);
    forall e | e in h.journal
      ensures Kept(h.sql, h'.sql, e.tag) && Kept(h.snapshots, h'.snapshots, SnapshotFile(e.idx))
    {
      var i :| 0 <= i < |h.journal| && h.journal[i] == e;
      EarlierFilesKept(h, entry, sql, snapshot, i);
    }
  }

  datatype Run = Run(classification: Classification, now: int, id: JsString)

  /** One run after another. */
  function EmitAll(h: Migrations, runs: seq<Run>): Migrations
    decreases runs
  {
    if runs == [] then h
    else EmitAll(Emit(h, runs[0].classification, runs[0].now, runs[0].id).1, runs[1..])
  }

  predicate InOrder(h: Migrations) {
    Readable(h) && Snapshots(h) && h.journal != [] && Numbered(h.journal)
  }

  /** What a run leaves: an ordered folder that only grew and agrees. */
  predicate Advanced(h: Migrations, next: Migrations, c: Classification) {
    InOrder(next) && AppendOnly(h, next) && Agrees(c, Effective(next))
  }

  lemma NumberedReachesAgreement(h: Migrations, run: Run)
    requires InOrder(h) && TenantsCarriable(run.classification)
    ensures var h' := Emit(h, run.classification, run.now, run.id).1;
      Readable(h') && Agrees(run.classification, Effective(h'))
  {
    NextEntryFits(h.journal, Last(h), run.now);
    EmitRuns(h, run);
    EmitReachesAgreement(h, run.classification, run.now, run.id);
  }

  lemma EmitRuns(h: Migrations, run: Run)
    requires Readable(h) && Snapshots(h) && h.journal != []
    ensures Ran(Emit(h, run.classification, run.now, run.id).0)
  {
  }

  lemma EmitSnapshots(h: Migrations, c: Classification, now: int, id: JsString)
    requires InOrder(h)
    ensures Readable(Emit(h, c, now, id).1) && Snapshots(Emit(h, c, now, id).1)
  {
    if Appends(h, c) {
      var previous := SnapshotAt(h, |h.journal| - 1);
      var written := Render(Delta(c, Effective(h)));
      EmitIsAppend(h, c, now, id);
      NextEntryFits(h.journal, Last(h), now);
      NextSnapshotIsSnapshot(previous, id);
      AppendReadable(h, NextEntry(Last(h), now), written, NextSnapshot(previous, id));
      AppendSnapshots(h, NextEntry(Last(h), now), written, NextSnapshot(previous, id));
    }
  }

  lemma RunStep(h: Migrations, run: Run, next: Migrations)
    requires InOrder(h) && TenantsCarriable(run.classification)
    requires next == Emit(h, run.classification, run.now, run.id).1
    ensures Advanced(h, next, run.classification)
  {
    NumberedReachesAgreement(h, run);
    EmitSnapshots(h, run.classification, run.now, run.id);
    EmitAppendsOnly(h, run.classification, run.now, run.id);
  }

  /** Whatever the history and whatever is asked of it: a sequence of runs only appends,
      keeps the timestamps strictly increasing, and ends in agreement with the last
      classification. */
  lemma {:induction false} RunsReachAgreement(h: Migrations, runs: seq<Run>)
    requires InOrder(h) && forall i :: 0 <= i < |runs| ==> TenantsCarriable(runs[i].classification)
    ensures runs != [] ==> Advanced(h, EmitAll(h, runs), runs[|runs| - 1].classification)
    decreases runs
  {
    if runs != [] {
      var next := Emit(h, runs[0].classification, runs[0].now, runs[0].id).1;
      var end := EmitAll(next, runs[1..]);
      RunStep(h, runs[0], next);
      RunsReachAgreement(next, runs[1..]);
      if |runs| > 1 {
        AdvancedTwice(h, next, end, runs[0].classification, runs[|runs| - 1].classification);
      }
    }
  }

  lemma AdvancedTwice(h: Migrations, next: Migrations, end: Migrations, c: Classification, c': Classification)
    requires Advanced(h, next, c) && Advanced(next, end, c')
    ensures Advanced(h, end, c')
  {
    AppendOnlyTrans(h, next, end);
  }

  lemma AppendOnlyTrans(a: Migrations, b: Migrations, c: Migrations)
    requires AppendOnly(a, b) && AppendOnly(b, c)
    ensures AppendOnly(a, c)
  {
    forall e | e in a.journal
      ensures Kept(a.sql, c.sql, e.tag) && Kept(a.snapshots, c.snapshots, SnapshotFile(e.idx))
    {
      assert e in b.journal;
    }
  }

  // --- folders drizzle-kit did not number --------------------------------------------------

  lemma {:induction false} SetMemberSets(members: seq<Member>, key: JsString, held: Held, other: JsString)
    ensures MemberOf(SetMember(members, key, held), other) == if other == key then held else MemberOf(members, other)
  {
    if members != [] && members[0].key != key {
      SetMemberSets(members[1..], key, held, other);
    }
  }

  /** The new snapshot is told from every older one by its id. */
  lemma NextSnapshotIdentity(previous: Json, id: JsString)
    requires previous.Object?
    ensures MemberOf(NextSnapshot(previous, id).members, ID) == Defined(String(id))
    ensures MemberOf(NextSnapshot(previous, id).members, PREV_ID) == MemberOf(previous.members, ID)
  {
    var identified := SetMember(previous.members, ID, Defined(String(id)));
    SetMemberSets(previous.members, ID, Defined(String(id)), ID);
    SetMemberSets(identified, PREV_ID, MemberOf(previous.members, ID), ID);
    SetMemberSets(identified, PREV_ID, MemberOf(previous.members, ID), PREV_ID);
  }

  predicate NewId(h: Migrations, id: JsString)
    requires Readable(h) && Snapshots(h)
  {
    forall i :: 0 <= i < |h.journal| ==> MemberOf(SnapshotAt(h, i).members, ID) != Defined(String(id))
  }

  lemma OverwritesSnapshot(h: Migrations, entry: History.Entry, sql: string, snapshot: Json, i: nat)
    requires Readable(h) && i < |h.journal| && snapshot.Object? && SnapshotAt(h, i).Object?
    requires MemberOf(snapshot.members, ID) != MemberOf(SnapshotAt(h, i).members, ID)
    ensures Kept(h.snapshots, Append(h, entry, sql, snapshot).snapshots, SnapshotFile(h.journal[i].idx)) <==>
      h.journal[i].idx != entry.idx
  {
    if h.journal[i].idx != entry.idx {
      SnapshotFilesDiffer(h.journal[i].idx, entry.idx);
    }
  }

  /** Exactly when an append changes nothing older, numbered or not: no entry has the
      next index, and none has the next tag unless its file already read the same. */
  lemma AppendOnlyExactly(h: Migrations, c: Classification, now: int, id: JsString)
    requires Appends(h, c) && Snapshots(h) && NewId(h, id)
    ensures var entry, written := NextEntry(Last(h), now), Render(Delta(c, Effective(h)));
      AppendOnly(h, Emit(h, c, now, id).1) <==>
        forall e :: e in h.journal ==> e.idx != entry.idx && (e.tag == entry.tag ==> h.sql[e.tag] == written)
  {
    var entry, written := NextEntry(Last(h), now), Render(Delta(c, Effective(h)));
    var snapshot := NextSnapshot(SnapshotAt(h, |h.journal| - 1), id);
    EmitIsAppend(h, c, now, id);
    NextSnapshotIdentity(SnapshotAt(h, |h.journal| - 1), id);
    AppendOnlyWhen(h, entry, written, snapshot);
  }

  lemma AppendOnlyWhen(h: Migrations, entry: History.Entry, sql: string, snapshot: Json)
    requires Readable(h) && Snapshots(h) && snapshot.Object?
    requires forall i :: 0 <= i < |h.journal| ==>
      MemberOf(snapshot.members, ID) != MemberOf(SnapshotAt(h, i).members, ID)
    ensures AppendOnly(h, Append(h, entry, sql, snapshot)) <==>
      forall e :: e in h.journal ==> e.idx != entry.idx && (e.tag == entry.tag ==> h.sql[e.tag] == sql)
  {
    forall e | e in h.journal
      ensures Kept(h.sql, Append(h, entry, sql, snapshot).sql, e.tag) <==> (e.tag == entry.tag ==> h.sql[e.tag] == sql)
      ensures Kept(h.snapshots, Append(h, entry, sql, snapshot).snapshots, SnapshotFile(e.idx)) <==> e.idx != entry.idx
    {
      var i :| 0 <= i < |h.journal| && h.journal[i] == e;
      OverwritesSnapshot(h, entry, sql, snapshot, i);
    }
  }
}
