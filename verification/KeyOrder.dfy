/** Sorting by a string key, as JavaScript compares strings. */
module KeyOrder {
  import opened JsText

  /** JavaScript's `<` on strings: lexicographic by code unit. */
  predicate Before(a: JsString, b: JsString) {
    b != [] && (a == [] || a[0] < b[0] || (a[0] == b[0] && Before(a[1..], b[1..])))
  }

  /** A value under the key it is sorted by. */
  datatype Keyed<V> = Keyed(key: JsString, value: V)

  function Insert<V>(e: Keyed<V>, sorted: seq<Keyed<V>>): seq<Keyed<V>> {
    if sorted == [] || Before(e.key, sorted[0].key) then [e] + sorted
    else [sorted[0]] + Insert(e, sorted[1..])
  }

  /** `toSorted` by key: insertion, which is stable and leaves the keys ascending. */
  function Sorted<V>(entries: seq<Keyed<V>>): seq<Keyed<V>> {
    if entries == [] then [] else Insert(entries[0], Sorted(entries[1..]))
  }

  lemma {:induction false} BeforeTotal(a: JsString, b: JsString)
    ensures a == b || Before(a, b) || Before(b, a)
  {
    if a != [] && b != [] && a[0] == b[0] {
      BeforeTotal(a[1..], b[1..]);
      assert a == [a[0]] + a[1..] && b == [b[0]] + b[1..];
    }
  }

  lemma {:induction false} BeforeStrict(a: JsString, b: JsString)
    ensures !(Before(a, b) && Before(b, a)) && !Before(a, a)
  {
    if a != [] {
      BeforeStrict(a[1..], if b == [] then [] else b[1..]);
    }
  }

  lemma {:induction false} BeforeTransitive(a: JsString, b: JsString, c: JsString)
    requires Before(a, b) && Before(b, c)
    ensures Before(a, c)
  {
    if a != [] && a[0] == b[0] == c[0] {
      BeforeTransitive(a[1..], b[1..], c[1..]);
    }
  }

  predicate Ascending<V>(entries: seq<Keyed<V>>) {
    forall i, j :: 0 <= i < j < |entries| ==> Before(entries[i].key, entries[j].key)
  }

  predicate UniqueKeys<V>(entries: seq<Keyed<V>>) {
    forall i, j :: 0 <= i < j < |entries| ==> entries[i].key != entries[j].key
  }

  lemma {:induction false} InsertKeeps<V>(e: Keyed<V>, sorted: seq<Keyed<V>>)
    ensures multiset(Insert(e, sorted)) == multiset(sorted) + multiset{e}
  {
    if sorted != [] && !Before(e.key, sorted[0].key) {
      InsertKeeps(e, sorted[1..]);
      assert sorted == [sorted[0]] + sorted[1..];
    }
  }

  lemma {:induction false} InsertAscends<V>(e: Keyed<V>, sorted: seq<Keyed<V>>)
    requires Ascending(sorted) && forall i :: 0 <= i < |sorted| ==> sorted[i].key != e.key
    ensures Ascending(Insert(e, sorted))
  {
    if sorted != [] {
      BeforeTotal(e.key, sorted[0].key);
      if Before(e.key, sorted[0].key) {
        forall j | 0 < j < |sorted| ensures Before(e.key, sorted[j].key) {
          BeforeTransitive(e.key, sorted[0].key, sorted[j].key);
        }
      } else {
        var rest := Insert(e, sorted[1..]);
        InsertAscends(e, sorted[1..]);
        InsertKeeps(e, sorted[1..]);
        forall j | 0 <= j < |rest| ensures Before(sorted[0].key, rest[j].key) {
          assert rest[j] in multiset(rest);
          assert rest[j] == e || rest[j] in sorted[1..];
        }
      }
    }
  }

  lemma {:induction false} SortedKeeps<V>(entries: seq<Keyed<V>>)
    ensures multiset(Sorted(entries)) == multiset(entries)
  {
    if entries != [] {
      SortedKeeps(entries[1..]);
      InsertKeeps(entries[0], Sorted(entries[1..]));
      assert entries == [entries[0]] + entries[1..];
    }
  }

  lemma SameMembers<V>(a: seq<Keyed<V>>, b: seq<Keyed<V>>)
    requires multiset(a) == multiset(b)
    ensures forall i :: 0 <= i < |a| ==> a[i] in b
  {
    forall i | 0 <= i < |a| ensures a[i] in b {
      assert a[i] in multiset(a);
    }
  }

  /** Sorting by unique keys rearranges the entries and leaves the keys ascending. */
  lemma {:induction false} SortedAscends<V>(entries: seq<Keyed<V>>)
    requires UniqueKeys(entries)
    ensures Ascending(Sorted(entries))
    ensures multiset(Sorted(entries)) == multiset(entries)
  {
    SortedKeeps(entries);
    if entries != [] {
      var rest := entries[1..];
      SortedAscends(rest);
      SameMembers(Sorted(rest), rest);
      assert forall i :: 0 <= i < |rest| ==> rest[i] == entries[i + 1];
      InsertAscends(entries[0], Sorted(rest));
    }
  }

  lemma FirstIsMember<T>(s: seq<T>)
    requires s != []
    ensures s[0] in s
  {
  }

  /** Two ascending lists of the same entries are one list. */
  lemma {:induction false} AscendingUnique<V>(a: seq<Keyed<V>>, b: seq<Keyed<V>>)
    requires Ascending(a) && Ascending(b) && forall x: Keyed<V> :: x in a <==> x in b
    ensures a == b
  {
    if a == [] {
      if b != [] {
        FirstIsMember(b);
        assert false;
      }
    } else {
      assert a[0] in b;
      assert b[0] in a;
      var i :| 0 <= i < |b| && b[i] == a[0];
      var j :| 0 <= j < |a| && a[j] == b[0];
      BeforeStrict(a[0].key, b[0].key);
      assert i == 0;
      forall x: Keyed<V> ensures x in a[1..] <==> x in b[1..] {
        OthersRemain(a, x);
        OthersRemain(b, x);
      }
      AscendingUnique(a[1..], b[1..]);
      assert a == [a[0]] + a[1..] && b == [b[0]] + b[1..];
    }
  }

  lemma OthersRemain<V>(a: seq<Keyed<V>>, x: Keyed<V>)
    requires a != [] && Ascending(a)
    ensures x in a[1..] <==> x in a && x != a[0]
  {
    BeforeStrict(a[0].key, a[0].key);
    if x in a && x != a[0] {
      var i :| 0 <= i < |a| && a[i] == x;
      assert a[1..][i - 1] == x;
    }
    if x in a[1..] {
      var i :| 0 <= i < |a[1..]| && a[1..][i] == x;
      assert a[i + 1] == x;
    }
  }
}
