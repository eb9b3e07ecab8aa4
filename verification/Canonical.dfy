/** The canonical serialization under `configDigest`
    (packages/control-plane/src/github/profile.ts). */
module Canonical {
  import opened JsText
  import opened KeyOrder

  /** A JavaScript value as JSON sees it. A number is the text `JSON.stringify`
      prints for it; a member may hold `undefined`. */
  datatype Json =
    | Null
    | Bool(b: bool)
    | Number(text: JsString)
    | String(s: JsString)
    | Array(items: seq<Json>)
    | Object(members: seq<Member>)

  datatype Member = Member(key: JsString, held: Held)

  datatype Held = Undefined | Defined(value: Json)

  /** The characters of a printed number. */
  predicate IsNumberUnit(u: Unit) {
    0x30 <= u <= 0x39 || u == 0x2B || u == 0x2D || u == 0x2E || u == 0x45 || u == 0x65
  }

  predicate IsNumberText(t: JsString) {
    t != [] && (t[0] == 0x2D || 0x30 <= t[0] <= 0x39) && forall i :: 0 <= i < |t| ==> IsNumberUnit(t[i])
  }

  /** A value `JSON.parse` could have produced: printed numbers, and unique keys. */
  predicate WellFormed(v: Json) {
    match v
    case Number(text) => IsNumberText(text)
    case Array(items) => forall i :: 0 <= i < |items| ==> WellFormed(items[i])
    case Object(members) =>
      && (forall i :: 0 <= i < |members| && members[i].held.Defined? ==> WellFormed(members[i].held.value))
      && (forall i, j :: 0 <= i < j < |members| ==> members[i].key != members[j].key)
    case _ => true
  }

  type Entry = Keyed<JsString>

  /** Each defined member's key, with the text its value takes. */
  function Entries(members: seq<Member>): seq<Entry> {
    if members == [] then []
    else (match members[0].held
          case Undefined => []
          case Defined(value) => [Keyed(members[0].key, Text(value))]) + Entries(members[1..])
  }

  // --- the text ----------------------------------------------------------------------

  const COMMA: Unit := 0x2C
  const COLON: Unit := 0x3A

  /** `canonicalize`. The entries are sorted by key alone, so sorting them before or
      after their values are written is the same. */
  function Text(v: Json): JsString {
    match v
    case Null => [0x6E, 0x75, 0x6C, 0x6C]
    case Bool(b) => if b then [0x74, 0x72, 0x75, 0x65] else [0x66, 0x61, 0x6C, 0x73, 0x65]
    case Number(text) => text
    case String(s) => Quoted(s)
    case Array(items) => [0x5B] + ItemsText(items) + [0x5D]
    case Object(members) => [0x7B] + EntriesText(Sorted(Entries(members))) + [0x7D]
  }

  function ItemsText(items: seq<Json>): JsString {
    if items == [] then []
    else if |items| == 1 then Text(items[0])
    else Text(items[0]) + [COMMA] + ItemsText(items[1..])
  }

  function EntryText(e: Entry): JsString { Quoted(e.key) + [COLON] + e.value }

  function EntriesText(entries: seq<Entry>): JsString {
    if entries == [] then []
    else if |entries| == 1 then EntryText(entries[0])
    else EntryText(entries[0]) + [COMMA] + EntriesText(entries[1..])
  }

  // --- equality up to key order --------------------------------------------------------

  predicate Holds(members: seq<Member>, key: JsString) {
    exists i :: 0 <= i < |members| && members[i].key == key && members[i].held.Defined?
  }

  /** Two defined members under one key. */
  predicate Matching(x: Member, y: Member) { x.key == y.key && x.held.Defined? && y.held.Defined? }

  /** Equal up to the order of object keys, at every depth. A member holding
      `undefined` is no member. */
  predicate Same(v: Json, w: Json) {
    match (v, w)
    case (Array(a), Array(b)) => |a| == |b| && forall i :: 0 <= i < |a| ==> Same(a[i], b[i])
    case (Object(a), Object(b)) =>
      && (forall i :: 0 <= i < |a| && a[i].held.Defined? ==> Holds(b, a[i].key))
      && (forall j :: 0 <= j < |b| && b[j].held.Defined? ==> Holds(a, b[j].key))
      && (forall i, j | 0 <= i < |a| && 0 <= j < |b| && Matching(a[i], b[j]) :: Same(a[i].held.value, b[j].held.value))
    case _ => v == w
  }

  // --- where entries come from ---------------------------------------------------------

  lemma {:induction false} EntriesAre(members: seq<Member>)
    ensures forall x :: x in Entries(members) <==>
      exists i :: 0 <= i < |members| && members[i].held.Defined? && x == Keyed(members[i].key, Text(members[i].held.value))
  {
    if members != [] {
      var rest := members[1..];
      EntriesAre(rest);
      var head := match members[0].held case Undefined => [] case Defined(value) => [Keyed(members[0].key, Text(value))];
      assert Entries(members) == head + Entries(rest);
      forall x
        ensures x in Entries(members) <==>
          exists i :: 0 <= i < |members| && members[i].held.Defined? && x == Keyed(members[i].key, Text(members[i].held.value))
      {
        if x in head {
          assert x == Keyed(members[0].key, Text(members[0].held.value));
        } else if x in Entries(rest) {
          var i :| 0 <= i < |rest| && rest[i].held.Defined? && x == Keyed(rest[i].key, Text(rest[i].held.value));
          assert members[i + 1] == rest[i];
        }
        if i :| 0 <= i < |members| && members[i].held.Defined? && x == Keyed(members[i].key, Text(members[i].held.value)) {
          if i > 0 {
            assert rest[i - 1] == members[i];
          }
        }
      }
    }
  }

  lemma {:induction false} EntriesUnique(members: seq<Member>)
    requires forall i, j :: 0 <= i < j < |members| ==> members[i].key != members[j].key
    ensures UniqueKeys(Entries(members))
  {
    if members != [] {
      var rest := members[1..];
      EntriesUnique(rest);
      EntriesAre(rest);
      forall j | 0 <= j < |Entries(rest)| ensures Entries(rest)[j].key != members[0].key {
        assert Entries(rest)[j] in Entries(rest);
        var i :| 0 <= i < |rest| && rest[i].held.Defined? && Entries(rest)[j] == Keyed(rest[i].key, Text(rest[i].held.value));
        assert members[i + 1] == rest[i];
      }
    }
  }

  // --- one direction: equal up to key order, so the same text ------------------------------

  lemma {:induction false} SameGivesText(v: Json, w: Json)
    requires WellFormed(v) && WellFormed(w) && Same(v, w)
    ensures Text(v) == Text(w)
    decreases v
  {
    match (v, w)
    case (Array(a), Array(b)) =>
      forall i | 0 <= i < |a| ensures Text(a[i]) == Text(b[i]) {
        SameGivesText(a[i], b[i]);
      }
      ItemsTextEqual(a, b);
    case (Object(a), Object(b)) =>
      EntriesAre(a);
      EntriesAre(b);
      forall i, j | 0 <= i < |a| && 0 <= j < |b| && Matching(a[i], b[j])
        ensures Text(a[i].held.value) == Text(b[j].held.value)
      {
        SameGivesText(a[i].held.value, b[j].held.value);
      }
      SameEntries(a, b);
      SameEntries(b, a);
      EntriesUnique(a);
      EntriesUnique(b);
      SortedAscends(Entries(a));
      SortedAscends(Entries(b));
      SortedMembers(Entries(a));
      SortedMembers(Entries(b));
      AscendingUnique(Sorted(Entries(a)), Sorted(Entries(b)));
    case _ =>
  }

  lemma SortedMembers(entries: seq<Entry>)
    requires UniqueKeys(entries)
    ensures forall x :: x in Sorted(entries) <==> x in entries
  {
    SortedKeeps(entries);
    SameMembers(Sorted(entries), entries);
    SameMembers(entries, Sorted(entries));
  }

  lemma SameEntries(a: seq<Member>, b: seq<Member>)
    requires forall i :: 0 <= i < |a| && a[i].held.Defined? ==> Holds(b, a[i].key)
    requires forall i, j | 0 <= i < |a| && 0 <= j < |b| && Matching(a[i], b[j]) :: Text(a[i].held.value) == Text(b[j].held.value)
    ensures forall x :: x in Entries(a) ==> x in Entries(b)
  {
    EntriesAre(a);
    EntriesAre(b);
    forall x | x in Entries(a) ensures x in Entries(b) {
      var i :| 0 <= i < |a| && a[i].held.Defined? && x == Keyed(a[i].key, Text(a[i].held.value));
      assert Holds(b, a[i].key);
      var j :| 0 <= j < |b| && b[j].key == a[i].key && b[j].held.Defined?;
      assert Matching(a[i], b[j]);
      assert x == Keyed(b[j].key, Text(b[j].held.value));
    }
  }

  lemma {:induction false} ItemsTextEqual(a: seq<Json>, b: seq<Json>)
    requires |a| == |b| && forall i :: 0 <= i < |a| ==> Text(a[i]) == Text(b[i])
    ensures ItemsText(a) == ItemsText(b)
  {
    if |a| > 1 {
      ItemsTextEqual(a[1..], b[1..]);
    }
  }

  // --- the other: the same text, so equal up to key order -------------------------------------

  /** What may follow a value: nothing, or the punctuation of the value it sits in. */
  predicate Delimits(r: JsString) {
    r == [] || r[0] == COMMA || r[0] == 0x5D || r[0] == 0x7D
  }

  /** Every value's text opens with a unit that says which kind it is. */
  lemma TextOpens(v: Json)
    requires WellFormed(v)
    ensures Text(v) != []
    ensures v.Null? <==> Text(v)[0] == 0x6E
    ensures v == Bool(true) <==> Text(v)[0] == 0x74
    ensures v == Bool(false) <==> Text(v)[0] == 0x66
    ensures v.String? <==> Text(v)[0] == QUOTE
    ensures v.Array? <==> Text(v)[0] == 0x5B
    ensures v.Object? <==> Text(v)[0] == 0x7B
    ensures Text(v)[0] != 0x5D && Text(v)[0] != COMMA
  {
  }

  lemma {:induction false} NumberEnds(t: JsString, r: JsString, t': JsString, r': JsString)
    requires forall i :: 0 <= i < |t| ==> IsNumberUnit(t[i])
    requires forall i :: 0 <= i < |t'| ==> IsNumberUnit(t'[i])
    requires Delimits(r) && Delimits(r') && t + r == t' + r'
    ensures t == t' && r == r'
  {
    NotShorter(t, r, t', r');
    NotShorter(t', r', t, r);
    assert t == (t + r)[..|t|] && t' == (t' + r')[..|t|];
    assert r == (t + r)[|t|..] && r' == (t' + r')[|t|..];
  }

  lemma NotShorter(t: JsString, r: JsString, t': JsString, r': JsString)
    requires forall i :: 0 <= i < |t'| ==> IsNumberUnit(t'[i])
    requires Delimits(r) && t + r == t' + r'
    ensures |t'| <= |t|
  {
    var x := t + r;
    assert |t| < |t'| ==> |t| < |x| && IsNumberUnit(x[|t|]);
    assert |t| < |x| ==> x[|t|] == r[0];
  }

  /** Bracketed text, past its bracket. */
  lemma Unwrapped(open: Unit, body: JsString, close: Unit, r: JsString)
    ensures ([open] + body + [close] + r)[1..] == body + ([close] + r)
    ensures ([open] + body + [close] + r)[0] == open
  {
  }

  /** Two texts that agree up to what follows them are one text, and are followed by
      the same thing. */
  lemma {:induction false} TextUnambiguous(v: Json, r: JsString, w: Json, r': JsString)
    requires WellFormed(v) && WellFormed(w) && Delimits(r) && Delimits(r')
    requires Text(v) + r == Text(w) + r'
    ensures Text(v) == Text(w) && r == r'
    decreases v, 0
  {
    var x := Text(v) + r;
    TextOpens(v);
    TextOpens(w);
    assert x[0] == Text(v)[0] == Text(w)[0];
    match v
    case Null =>
      assert r == x[4..] == r';
    case Bool(b) =>
      assert r == x[|Text(v)|..] == r';
    case Number(text) =>
      NumberEnds(text, r, w.text, r');
    case String(s) =>
      QuotedUnambiguous(s, r, w.s, r');
    case Array(items) =>
      Unwrapped(0x5B, ItemsText(items), 0x5D, r);
      Unwrapped(0x5B, ItemsText(w.items), 0x5D, r');
      ItemsUnambiguous(items, r, w.items, r');
    case Object(members) =>
      var a, b := Sorted(Entries(members)), Sorted(Entries(w.members));
      Unwrapped(0x7B, EntriesText(a), 0x7D, r);
      Unwrapped(0x7B, EntriesText(b), 0x7D, r');
      SortedSourced(members);
      SortedSourced(w.members);
      EntriesUnambiguous(a, members, r, b, w.members, r');
  }

  lemma {:induction false} ItemsUnambiguous(a: seq<Json>, r: JsString, b: seq<Json>, r': JsString)
    requires forall i :: 0 <= i < |a| ==> WellFormed(a[i])
    requires forall i :: 0 <= i < |b| ==> WellFormed(b[i])
    requires ItemsText(a) + ([0x5D] + r) == ItemsText(b) + ([0x5D] + r')
    ensures |a| == |b| && (forall i :: 0 <= i < |a| ==> Text(a[i]) == Text(b[i])) && ItemsText(a) == ItemsText(b) && r == r'
    decreases a, 1
  {
    ItemsOpen(a, [0x5D] + r);
    ItemsOpen(b, [0x5D] + r');
    if a == [] {
      assert r == (ItemsText(a) + ([0x5D] + r))[1..];
      assert r' == (ItemsText(b) + ([0x5D] + r'))[1..];
    } else {
      var more, more' := AfterFirst(a, r), AfterFirst(b, r');
      ItemsSplit(a, r);
      ItemsSplit(b, r');
      TextUnambiguous(a[0], more, b[0], more');
      if |a| > 1 && |b| > 1 {
        ItemsUnambiguous(a[1..], r, b[1..], r');
        assert forall i :: 1 <= i < |a| ==> a[i] == a[1..][i - 1];
        assert forall i :: 1 <= i < |b| ==> b[i] == b[1..][i - 1];
      }
    }
  }

  function AfterFirst(a: seq<Json>, r: JsString): JsString
    requires a != []
  {
    if |a| == 1 then [0x5D] + r else [COMMA] + (ItemsText(a[1..]) + ([0x5D] + r))
  }

  lemma ItemsSplit(a: seq<Json>, r: JsString)
    requires a != []
    ensures ItemsText(a) + ([0x5D] + r) == Text(a[0]) + AfterFirst(a, r)
    ensures Delimits(AfterFirst(a, r)) && (AfterFirst(a, r)[0] == COMMA <==> |a| > 1)
    ensures AfterFirst(a, r)[1..] == if |a| > 1 then ItemsText(a[1..]) + ([0x5D] + r) else r
  {
    Regrouped(Text(a[0]), ItemsText(a[1..]), [0x5D] + r);
  }

  lemma ItemsOpen(a: seq<Json>, r: JsString)
    requires forall i :: 0 <= i < |a| ==> WellFormed(a[i])
    requires r != [] && r[0] == 0x5D
    ensures (ItemsText(a) + r)[0] == 0x5D <==> a == []
  {
    if a != [] {
      TextOpens(a[0]);
      assert ItemsText(a)[0] == Text(a[0])[0];
    }
  }

  /** The entry is a defined member, written. */
  predicate SourcedEntry(e: Entry, members: seq<Member>) {
    exists i :: 0 <= i < |members| && members[i].held.Defined? && e == Keyed(members[i].key, Text(members[i].held.value))
  }

  predicate Writable(members: seq<Member>) {
    forall i :: 0 <= i < |members| && members[i].held.Defined? ==> WellFormed(members[i].held.value)
  }

  predicate Sourced(entries: seq<Entry>, members: seq<Member>) {
    forall i :: 0 <= i < |entries| ==> SourcedEntry(entries[i], members)
  }

  lemma SortedSourced(members: seq<Member>)
    requires WellFormed(Object(members))
    ensures Sourced(Sorted(Entries(members)), members)
    ensures Ascending(Sorted(Entries(members)))
    ensures forall e :: e in Sorted(Entries(members)) <==> SourcedEntry(e, members)
    ensures Writable(members)
  {
    EntriesUnique(members);
    SortedAscends(Entries(members));
    SortedMembers(Entries(members));
    EntriesAre(members);
    var sorted := Sorted(Entries(members));
    forall i | 0 <= i < |sorted| ensures SourcedEntry(sorted[i], members) {
      assert sorted[i] in Entries(members);
    }
  }

  lemma {:induction false} EntriesUnambiguous(
      a: seq<Entry>, from: seq<Member>, r: JsString, b: seq<Entry>, from': seq<Member>, r': JsString)
    requires Writable(from) && Writable(from')
    requires Sourced(a, from) && Sourced(b, from')
    requires EntriesText(a) + ([0x7D] + r) == EntriesText(b) + ([0x7D] + r')
    ensures a == b && r == r'
    decreases from, 2, |a|
  {
    EntriesOpen(a, [0x7D] + r);
    EntriesOpen(b, [0x7D] + r');
    if a == [] {
      assert r == (EntriesText(a) + ([0x7D] + r))[1..];
      assert r' == (EntriesText(b) + ([0x7D] + r'))[1..];
    } else {
      EntryHeads(a, from, r, b, from', r');
      if |a| > 1 {
        EntriesUnambiguous(a[1..], from, r, b[1..], from', r');
        assert a == a[..1] + a[1..] && b == b[..1] + b[1..];
      }
    }
  }

  lemma EntryHeads(a: seq<Entry>, from: seq<Member>, r: JsString, b: seq<Entry>, from': seq<Member>, r': JsString)
    requires Writable(from) && Writable(from')
    requires a != [] && b != [] && SourcedEntry(a[0], from) && SourcedEntry(b[0], from')
    requires EntriesText(a) + ([0x7D] + r) == EntriesText(b) + ([0x7D] + r')
    ensures a[..1] == b[..1] && (|a| > 1 <==> |b| > 1)
    ensures if |a| > 1 then EntriesText(a[1..]) + ([0x7D] + r) == EntriesText(b[1..]) + ([0x7D] + r') else r == r'
    decreases from, 1
  {
    EntriesSplit(a, r);
    EntriesSplit(b, r');
    FirstEntry(a[0], from, AfterFirstEntry(a, r), b[0], from', AfterFirstEntry(b, r'));
  }

  function AfterFirstEntry(a: seq<Entry>, r: JsString): JsString
    requires a != []
  {
    if |a| == 1 then [0x7D] + r else [COMMA] + (EntriesText(a[1..]) + ([0x7D] + r))
  }

  lemma EntriesSplit(a: seq<Entry>, r: JsString)
    requires a != []
    ensures EntriesText(a) + ([0x7D] + r) == EntryText(a[0]) + AfterFirstEntry(a, r)
    ensures Delimits(AfterFirstEntry(a, r)) && (AfterFirstEntry(a, r)[0] == COMMA <==> |a| > 1)
    ensures AfterFirstEntry(a, r)[1..] == if |a| > 1 then EntriesText(a[1..]) + ([0x7D] + r) else r
  {
    Regrouped(EntryText(a[0]), EntriesText(a[1..]), [0x7D] + r);
  }

  lemma Regrouped(head: JsString, tail: JsString, r: JsString)
    ensures head + [COMMA] + tail + r == head + ([COMMA] + (tail + r))
    ensures ([COMMA] + (tail + r))[1..] == tail + r
  {
  }

  lemma EntriesOpen(a: seq<Entry>, r: JsString)
    requires r != [] && r[0] == 0x7D
    ensures (EntriesText(a) + r)[0] == 0x7D <==> a == []
  {
    if a != [] {
      assert EntriesText(a)[0] == EntryText(a[0])[0] == QUOTE;
    }
  }

  lemma EntrySplit(e: Entry, r: JsString)
    ensures EntryText(e) + r == Quoted(e.key) + ([COLON] + (e.value + r))
    ensures ([COLON] + (e.value + r))[1..] == e.value + r
  {
  }

  lemma FirstEntry(e: Entry, from: seq<Member>, r: JsString, e': Entry, from': seq<Member>, r': JsString)
    requires Writable(from) && Writable(from')
    requires SourcedEntry(e, from) && SourcedEntry(e', from')
    requires Delimits(r) && Delimits(r') && EntryText(e) + r == EntryText(e') + r'
    ensures e == e' && r == r'
    decreases from, 0
  {
    EntrySplit(e, r);
    EntrySplit(e', r');
    QuotedUnambiguous(e.key, [COLON] + (e.value + r), e'.key, [COLON] + (e'.value + r'));
    var i :| 0 <= i < |from| && from[i].held.Defined? && e == Keyed(from[i].key, Text(from[i].held.value));
    var j :| 0 <= j < |from'| && from'[j].held.Defined? && e' == Keyed(from'[j].key, Text(from'[j].held.value));
    TextUnambiguous(from[i].held.value, r, from'[j].held.value, r');
  }

  /** A text names one value, up to key order. */
  lemma {:induction false} TextGivesSame(v: Json, w: Json)
    requires WellFormed(v) && WellFormed(w) && Text(v) == Text(w)
    ensures Same(v, w)
    decreases v
  {
    TextOpens(v);
    TextOpens(w);
    match v
    case Null =>
    case Bool(b) =>
    case Number(text) =>
    case String(s) =>
      QuotedUnambiguous(s, [], w.s, []);
    case Array(items) =>
      Unwrapped(0x5B, ItemsText(items), 0x5D, []);
      Unwrapped(0x5B, ItemsText(w.items), 0x5D, []);
      assert Text(v) + [] == Text(v) && Text(w) + [] == Text(w);
      ItemsUnambiguous(items, [], w.items, []);
      forall i | 0 <= i < |items| ensures Same(items[i], w.items[i]) {
        TextGivesSame(items[i], w.items[i]);
      }
    case Object(members) =>
      ObjectTextGivesEntries(v, w);
      forall i, j | 0 <= i < |members| && 0 <= j < |w.members| && Matching(members[i], w.members[j])
        ensures Same(members[i].held.value, w.members[j].held.value)
      {
        TextGivesSame(members[i].held.value, w.members[j].held.value);
      }
  }

  lemma ObjectTextGivesEntries(v: Json, w: Json)
    requires v.Object? && w.Object? && WellFormed(v) && WellFormed(w) && Text(v) == Text(w)
    ensures forall i, j | 0 <= i < |v.members| && 0 <= j < |w.members| && Matching(v.members[i], w.members[j]) ::
      Text(v.members[i].held.value) == Text(w.members[j].held.value)
    ensures forall i :: 0 <= i < |v.members| && v.members[i].held.Defined? ==> Holds(w.members, v.members[i].key)
    ensures forall j :: 0 <= j < |w.members| && w.members[j].held.Defined? ==> Holds(v.members, w.members[j].key)
  {
    var a, b := Sorted(Entries(v.members)), Sorted(Entries(w.members));
    Unwrapped(0x7B, EntriesText(a), 0x7D, []);
    Unwrapped(0x7B, EntriesText(b), 0x7D, []);
    assert Text(v) + [] == Text(v) && Text(w) + [] == Text(w);
    SortedSourced(v.members);
    SortedSourced(w.members);
    EntriesUnambiguous(a, v.members, [], b, w.members, []);
    forall i, j | 0 <= i < |v.members| && 0 <= j < |w.members| && Matching(v.members[i], w.members[j])
      ensures Text(v.members[i].held.value) == Text(w.members[j].held.value)
    {
      SharedKey(a, v.members, w.members, i, j);
    }
    AllHeld(a, v.members, w.members);
    AllHeld(a, w.members, v.members);
  }

  lemma AllHeld(entries: seq<Entry>, a: seq<Member>, b: seq<Member>)
    requires forall e :: e in entries <==> SourcedEntry(e, a)
    requires forall e :: e in entries <==> SourcedEntry(e, b)
    ensures forall i :: 0 <= i < |a| && a[i].held.Defined? ==> Holds(b, a[i].key)
  {
    forall i | 0 <= i < |a| && a[i].held.Defined? ensures Holds(b, a[i].key) {
      var e := Keyed(a[i].key, Text(a[i].held.value));
      assert SourcedEntry(e, a);
      assert SourcedEntry(e, b);
    }
  }

  /** In one list of entries, two objects hold a key under the same text. */
  lemma SharedKey(entries: seq<Entry>, a: seq<Member>, b: seq<Member>, i: nat, j: nat)
    requires i < |a| && j < |b| && a[i].held.Defined? && b[j].held.Defined? && a[i].key == b[j].key
    requires Ascending(entries)
    requires forall e :: e in entries <==> SourcedEntry(e, a)
    requires forall e :: e in entries <==> SourcedEntry(e, b)
    ensures Text(a[i].held.value) == Text(b[j].held.value)
  {
    var x, y := Keyed(a[i].key, Text(a[i].held.value)), Keyed(b[j].key, Text(b[j].held.value));
    assert SourcedEntry(x, a) && SourcedEntry(y, b);
    assert x in entries && y in entries;
    var m :| 0 <= m < |entries| && entries[m] == x;
    var n :| 0 <= n < |entries| && entries[n] == y;
    BeforeStrict(x.key, x.key);
    assert m == n;
  }

  /** The digest's input identifies a configuration rather than a serialization: two
      values have the same canonical text exactly when they are equal up to the order
      of object keys at every depth. */
  lemma TextIdentifies(v: Json, w: Json)
    requires WellFormed(v) && WellFormed(w)
    ensures Text(v) == Text(w) <==> Same(v, w)
  {
    if Text(v) == Text(w) {
      TextGivesSame(v, w);
    } else if Same(v, w) {
      SameGivesText(v, w);
    }
  }

  /** Array order, by contrast, is part of the value. */
  lemma ArrayOrderMatters(a: Json, b: Json)
    requires WellFormed(a) && WellFormed(b)
    ensures Text(Array([a, b])) == Text(Array([b, a])) <==> Same(a, b)
  {
    TextIdentifies(Array([a, b]), Array([b, a]));
    TextIdentifies(a, b);
    TextIdentifies(b, a);
  }
}
