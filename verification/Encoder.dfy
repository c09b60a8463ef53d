/**
 The encoder itself (internal/canonical/canonical.go): an output buffer that grows while
 the encoder recurses, and the set of keys of the references it is inside of. On success it has
 appended exactly the canonical form of what the value stands for.
 */
module Encoder {
  import opened Common
  import opened Strings
  import opened CanonicalJson
  import opened CanonicalEncoder

  // ----- sorting entries, which Go takes from its library

  function InsertEntry(e: Entry, s: seq<Entry>): seq<Entry> {
    if s == [] || Before(e.key.runes, s[0].key.runes) then [e] + s else [s[0]] + InsertEntry(e, s[1..])
  }

  function SortEntries(s: seq<Entry>): seq<Entry> {
    if s == [] then [] else InsertEntry(s[0], SortEntries(s[1..]))
  }

  predicate InKeyOrder(s: seq<Entry>) { forall i, j :: 0 <= i < j < |s| ==> Before(s[i].key.runes, s[j].key.runes) }

  predicate KeyAbsent(k: Runes, s: seq<Entry>) { forall i :: 0 <= i < |s| ==> s[i].key.runes != k }

  lemma {:induction false} InsertEntryMembers(e: Entry, s: seq<Entry>)
    ensures multiset(InsertEntry(e, s)) == multiset{e} + multiset(s)
  {
    if s != [] {
      assert s == [s[0]] + s[1..];
      if !Before(e.key.runes, s[0].key.runes) { InsertEntryMembers(e, s[1..]); }
    }
  }

  lemma {:induction false} SortMembers(s: seq<Entry>)
    ensures multiset(SortEntries(s)) == multiset(s)
  {
    if s != [] {
      SortMembers(s[1..]);
      InsertEntryMembers(s[0], SortEntries(s[1..]));
      assert s == [s[0]] + s[1..];
    }
  }

  lemma {:induction false} InsertEntryOrders(e: Entry, s: seq<Entry>)
    requires InKeyOrder(s) && KeyAbsent(e.key.runes, s)
    ensures InKeyOrder(InsertEntry(e, s))
  {
    if s != [] {
      var k, first := e.key.runes, s[0].key.runes;
      KeysAreTotallyOrdered(k, first, first);
      if Before(k, first) {
        forall j | 0 <= j < |s| ensures Before(k, s[j].key.runes) { KeysAreTotallyOrdered(k, first, s[j].key.runes); }
      } else {
        InsertEntryOrders(e, s[1..]);
        InsertEntryMembers(e, s[1..]);
        var r := InsertEntry(e, s[1..]);
        forall j | 0 <= j < |r| ensures Before(first, r[j].key.runes) {
          assert r[j] in multiset(r);
          assert r[j] == e || r[j] in s[1..];
        }
      }
    }
  }

  lemma {:induction false} SortOrders(s: seq<Entry>)
    requires DistinctKeys(s)
    ensures InKeyOrder(SortEntries(s))
  {
    if s != [] {
      var rest := SortEntries(s[1..]);
      SortOrders(s[1..]);
      SortMembers(s[1..]);
      forall i | 0 <= i < |rest| ensures rest[i].key.runes != s[0].key.runes {
        assert rest[i] in multiset(rest);
        assert rest[i] in s[1..];
      }
      InsertEntryOrders(s[0], rest);
    }
  }

  // ----- entries written so far

  ghost predicate GoodUpTo(heap: Heap, active: set<Visit>, s: seq<Entry>, n: nat)
    requires n <= |s|
  {
    forall i :: 0 <= i < n ==> Good(heap, active, s[i])
  }

  ghost function WrittenEntry(heap: Heap, active: set<Visit>, e: Entry): seq<byte>
    requires Good(heap, active, e)
  {
    Quote(e.key.runes) + [COLON] + CanonicalJson.Write(Plain(heap, active, e.value).value)
  }

  ghost function WrittenEntries(heap: Heap, active: set<Visit>, s: seq<Entry>, n: nat): seq<byte>
    requires n <= |s| && GoodUpTo(heap, active, s, n)
  {
    if n == 0 then [OPEN_OBJECT]
    else WrittenEntries(heap, active, s, n - 1) + Separator(n - 1) + WrittenEntry(heap, active, s[n - 1])
  }

  lemma WrittenMore(heap: Heap, active: set<Visit>, s: seq<Entry>, n: nat)
    requires n < |s| && GoodUpTo(heap, active, s, n) && Good(heap, active, s[n])
    ensures GoodUpTo(heap, active, s, n + 1)
    ensures WrittenEntries(heap, active, s, n + 1)
         == WrittenEntries(heap, active, s, n) + Separator(n) + WrittenEntry(heap, active, s[n])
  {
  }

  function KeysOf(s: seq<Entry>): seq<Runes> { seq(|s|, i requires 0 <= i < |s| => s[i].key.runes) }

  lemma KeysAreHeld(heap: Heap, active: set<Visit>, s: seq<Entry>, m: map<Runes, Json>)
    requires Holds(heap, active, m, s)
    ensures Present(Object(m), KeysOf(s))
  {
    forall k | k in KeysOf(s) ensures k in m {
      var i :| 0 <= i < |s| && KeysOf(s)[i] == k;
      assert s[i] in s;
    }
  }

  /** Sorted entries are written as the members of the map they hold, in key order. */
  lemma {:induction false} EntriesAreMembers(heap: Heap, active: set<Visit>, s: seq<Entry>, m: map<Runes, Json>, n: nat)
    requires n <= |s| && GoodUpTo(heap, active, s, n) && Holds(heap, active, m, s) && Present(Object(m), KeysOf(s))
    ensures WrittenEntries(heap, active, s, n) == WriteMembers(Object(m), KeysOf(s), n)
  {
    if n > 0 {
      EntriesAreMembers(heap, active, s, m, n - 1);
      EntryIsMember(heap, active, s, m, n - 1);
    }
  }

  lemma EntryIsMember(heap: Heap, active: set<Visit>, s: seq<Entry>, m: map<Runes, Json>, i: nat)
    requires i < |s| && Good(heap, active, s[i]) && Holds(heap, active, m, s)
    ensures s[i].key.runes in m && WrittenEntry(heap, active, s[i]) == WriteMember(Object(m), s[i].key.runes)
  {
    assert s[i] in s;
  }

  lemma SortedKeysAreKeys(heap: Heap, active: set<Visit>, s: seq<Entry>, m: map<Runes, Json>)
    requires InKeyOrder(s) && Holds(heap, active, m, s)
    ensures KeysOf(s) == Keys(m.Keys)
  {
    var keys := KeysOf(s);
    forall i, j | 0 <= i < j < |keys| ensures Before(keys[i], keys[j]) {
      assert Before(s[i].key.runes, s[j].key.runes);
    }
    forall k ensures k in keys <==> k in m.Keys {
      if k in keys {
        var i :| 0 <= i < |keys| && keys[i] == k;
        assert s[i] in s;
      }
      if k in m {
        var e :| e in s && e.key.runes == k;
        var i :| 0 <= i < |s| && s[i] == e;
        assert keys[i] == k;
      }
    }
    OrderIsUnique(keys, Keys(m.Keys));
  }

  /** What a record with distinct keys stands for, read off its sorted entries. */
  lemma SortedRecord(heap: Heap, active: set<Visit>, v: Value, s: seq<Entry>)
    requires v.Record? && DistinctKeys(v.entries) && s == SortEntries(v.entries)
    ensures Plain(heap, active, v).Some? <==> GoodUpTo(heap, active, s, |s|)
    ensures GoodUpTo(heap, active, s, |s|) ==>
              CanonicalJson.Write(Plain(heap, active, v).value) == WrittenEntries(heap, active, s, |s|) + [CLOSE_OBJECT]
  {
    EntriesMeaning(heap, active, v, |v.entries|);
    assert v.entries[..|v.entries|] == v.entries;
    SortMembers(v.entries);
    SameEntries(v.entries, s);
    GoodEntries(heap, active, v.entries, s);
    if GoodUpTo(heap, active, s, |s|) {
      var m := PlainEntries(heap, active, v, |v.entries|).value;
      SortOrders(v.entries);
      HoldsSorted(heap, active, m, v.entries, s);
      SortedMap(heap, active, m, s);
    }
  }

  lemma GoodEntries(heap: Heap, active: set<Visit>, a: seq<Entry>, s: seq<Entry>)
    requires forall e :: e in a <==> e in s
    ensures AllGood(heap, active, a) <==> GoodUpTo(heap, active, s, |s|)
  {
  }

  lemma SortedMap(heap: Heap, active: set<Visit>, m: map<Runes, Json>, s: seq<Entry>)
    requires InKeyOrder(s) && Holds(heap, active, m, s) && GoodUpTo(heap, active, s, |s|)
    ensures CanonicalJson.Write(Object(m)) == WrittenEntries(heap, active, s, |s|) + [CLOSE_OBJECT]
  {
    SortedKeysAreKeys(heap, active, s, m);
    KeysAreHeld(heap, active, s, m);
    EntriesAreMembers(heap, active, s, m, |s|);
  }

  lemma HoldsSorted(heap: Heap, active: set<Visit>, m: map<Runes, Json>, a: seq<Entry>, b: seq<Entry>)
    requires Holds(heap, active, m, a) && forall e :: e in a <==> e in b
    ensures Holds(heap, active, m, b)
  {
    forall k | k in m ensures exists e :: e in b && e.key.runes == k {
      var e :| e in a && e.key.runes == k;
    }
  }

  lemma {:induction false} ItemsFail(heap: Heap, active: set<Visit>, v: Value, k: nat, n: nat)
    requires v.List? && k <= n <= |v.items| && PlainItems(heap, active, v, k).None?
    ensures PlainItems(heap, active, v, n).None?
    decreases n
  {
    if k < n { ItemsFail(heap, active, v, k, n - 1); }
  }

  lemma {:induction false} ItemsLocal(a: Json, b: Json, n: nat)
    requires a.Array? && b.Array? && n <= |a.items| && n <= |b.items| && a.items[..n] == b.items[..n]
    ensures WriteItems(a, n) == WriteItems(b, n)
  {
    if n > 0 {
      assert a.items[..n - 1] == a.items[..n][..n - 1] && b.items[..n - 1] == b.items[..n][..n - 1];
      assert a.items[n - 1] == a.items[..n][n - 1] && b.items[n - 1] == b.items[..n][n - 1];
      ItemsLocal(a, b, n - 1);
    }
  }

  lemma OneMoreItem(js: seq<Json>, j: Json)
    ensures WriteItems(Array(js + [j]), |js| + 1)
            == WriteItems(Array(js), |js|) + Separator(|js|) + CanonicalJson.Write(j)
  {
    var more := Array(js + [j]);
    assert more.items[..|js|] == js == Array(js).items[..|js|];
    ItemsLocal(more, Array(js), |js|);
  }

  lemma {:induction false} ItemsCounted(heap: Heap, active: set<Visit>, v: Value, k: nat)
    requires v.List? && k <= |v.items| && PlainItems(heap, active, v, k).Some?
    ensures |PlainItems(heap, active, v, k).value| == k
  {
    if k > 0 { ItemsCounted(heap, active, v, k - 1); }
  }

  // ----- regrouping appended bytes

  lemma Appended(o: seq<byte>, w: seq<byte>, s: seq<byte>, e: seq<byte>)
    ensures (o + w) + (s + e) == o + (w + s + e)
  {
  }

  lemma EntryAppended(o: seq<byte>, s: seq<byte>, q: seq<byte>, c: seq<byte>, w: seq<byte>)
    ensures o + s + q + c + w == o + (s + (q + c + w))
  {
  }

  // ----- the machine

  class Machine {
    const heap: Heap
    var output: seq<byte>
    var active: set<Visit>

    constructor (heap: Heap)
      ensures this.heap == heap && output == [] && active == {}
    {
      this.heap := heap;
      output := [];
      active := {};
    }

    method WriteString(s: GoString) returns (ok: bool)
      modifies this`output
      ensures ok <==> s.Wellformed?
      ensures ok ==> output == old(output) + Quote(s.runes)
    {
      if s.Malformed? { return false; }
      output := output + [QUOTE];
      for i := 0 to |s.runes|
        invariant output == old(output) + ([QUOTE] + Body(s.runes[..i]))
      {
        assert s.runes[..i + 1][..i] == s.runes[..i];
        Assoc(old(output), [QUOTE] + Body(s.runes[..i]), Escape(s.runes[i]));
        Assoc([QUOTE], Body(s.runes[..i]), Escape(s.runes[i]));
        output := output + Escape(s.runes[i]);
      }
      assert s.runes[..|s.runes|] == s.runes;
      Assoc(old(output), [QUOTE] + Body(s.runes), [QUOTE]);
      output := output + [QUOTE];
      return true;
    }

    /** Go's `write`: appends the canonical form, or reports that there is none. */
    method Write(v: Value) returns (ok: bool)
      modifies this
      ensures active == old(active)
      ensures ok <==> Plain(heap, active, v).Some?
      ensures ok ==> output == old(output) + CanonicalJson.Write(Plain(heap, active, v).value)
      decreases Visits(heap) - active, v, 4
    {
      match v
      case Nil =>
        output := output + NULL_WORD;
        return true;
      case Flag(b) =>
        output := output + if b then TRUE_WORD else FALSE_WORD;
        return true;
      case Str(s) =>
        ok := WriteString(s);
      case Shared(r) =>
        if r !in heap {
          output := output + NULL_WORD;
          return true;
        }
        if r.key in active { return false; }
        active := active + {r.key};
        ok := Write(heap[r]);
        active := active - {r.key};
      case List(_) =>
        ok := WriteArray(v);
      case Record(_) =>
        ok := WriteMap(v);
      case Unsupported =>
        return false;
    }

    method WriteItem(v: Value, i: nat) returns (ok: bool)
      requires v.List? && i < |v.items|
      modifies this
      ensures active == old(active)
      ensures ok <==> Plain(heap, active, v.items[i]).Some?
      ensures ok ==>
                output == old(output) + (Separator(i) + CanonicalJson.Write(Plain(heap, active, v.items[i]).value))
      decreases Visits(heap) - active, v, 1
    {
      if i > 0 { output := output + [COMMA]; }
      assert output == old(output) + Separator(i);
      ok := Write(v.items[i]);
      if ok { Assoc(old(output), Separator(i), CanonicalJson.Write(Plain(heap, active, v.items[i]).value)); }
    }

    method WriteArray(v: Value) returns (ok: bool)
      requires v.List?
      modifies this
      ensures active == old(active)
      ensures ok <==> Plain(heap, active, v).Some?
      ensures ok ==> output == old(output) + CanonicalJson.Write(Plain(heap, active, v).value)
      decreases Visits(heap) - active, v, 2
    {
      output := output + [OPEN_ARRAY];
      ghost var js: seq<Json> := [];
      for i := 0 to |v.items|
        invariant active == old(active) && PlainItems(heap, active, v, i) == Some(js) && |js| == i
        invariant output == old(output) + WriteItems(Array(js), i)
      {
        ok := WriteItem(v, i);
        if !ok {
          ItemsFail(heap, active, v, i + 1, |v.items|);
          return false;
        }
        ghost var j := Plain(heap, active, v.items[i]).value;
        OneMoreItem(js, j);
        Appended(old(output), WriteItems(Array(js), i), Separator(i), CanonicalJson.Write(j));
        js := js + [j];
      }
      Assoc(old(output), WriteItems(Array(js), |v.items|), [CLOSE_ARRAY]);
      output := output + [CLOSE_ARRAY];
      return true;
    }

    method WriteEntry(v: Value, e: Entry, i: nat) returns (ok: bool)
      requires v.Record? && e in v.entries
      modifies this
      ensures active == old(active)
      ensures ok <==> Good(heap, active, e)
      ensures ok ==> output == old(output) + (Separator(i) + WrittenEntry(heap, active, e))
      decreases Visits(heap) - active, v, 1
    {
      ghost var home :| 0 <= home < |v.entries| && v.entries[home] == e;
      if i > 0 { output := output + [COMMA]; }
      assert output == old(output) + Separator(i);
      ok := WriteString(e.key);
      if !ok { return false; }
      output := output + [COLON];
      ok := Write(e.value);
      if ok {
        EntryAppended(old(output), Separator(i), Quote(e.key.runes), [COLON],
                      CanonicalJson.Write(Plain(heap, active, e.value).value));
      }
    }

    method WriteMap(v: Value) returns (ok: bool)
      requires v.Record?
      modifies this
      ensures active == old(active)
      ensures ok <==> Plain(heap, active, v).Some?
      ensures ok ==> output == old(output) + CanonicalJson.Write(Plain(heap, active, v).value)
      decreases Visits(heap) - active, v, 3
    {
      if !DistinctKeys(v.entries) {
        EntriesMeaning(heap, active, v, |v.entries|);
        assert v.entries[..|v.entries|] == v.entries;
        return false;
      }
      var sorted := SortEntries(v.entries);
      SortedRecord(heap, active, v, sorted);
      SortMembers(v.entries);
      SameEntries(v.entries, sorted);
      ok := WriteSorted(v, sorted);
    }

    method WriteSorted(v: Value, sorted: seq<Entry>) returns (ok: bool)
      requires v.Record? && forall e :: e in v.entries <==> e in sorted
      modifies this
      ensures active == old(active)
      ensures ok <==> GoodUpTo(heap, active, sorted, |sorted|)
      ensures ok ==> output == old(output) + (WrittenEntries(heap, active, sorted, |sorted|) + [CLOSE_OBJECT])
      decreases Visits(heap) - active, v, 2
    {
      output := output + [OPEN_OBJECT];
      for i := 0 to |sorted|
        invariant active == old(active) && GoodUpTo(heap, active, sorted, i)
        invariant output == old(output) + WrittenEntries(heap, active, sorted, i)
      {
        assert sorted[i] in sorted;
        ghost var written := WrittenEntries(heap, active, sorted, i);
        ok := WriteEntry(v, sorted[i], i);
        if !ok { return false; }
        ghost var entry := WrittenEntry(heap, active, sorted[i]);
        Appended(old(output), written, Separator(i), entry);
        WrittenMore(heap, active, sorted, i);
      }
      Assoc(old(output), WrittenEntries(heap, active, sorted, |sorted|), [CLOSE_OBJECT]);
      output := output + [CLOSE_OBJECT];
      return true;
    }
  }

  /** Go's `Marshal`: succeeds exactly when the value is a finite supported tree that enters
      no key inside itself, and then returns that tree's encoding. */
  method Marshal(heap: Heap, v: Value) returns (r: Option<seq<byte>>)
    ensures r.Some? <==> NeverReenters(heap, v) && exists t :: Denotes(heap, v, t)
    ensures forall t :: Denotes(heap, v, t) && r.Some? ==> r.value == CanonicalJson.Write(t)
  {
    var encoder := new Machine(heap);
    var ok := encoder.Write(v);
    forall t ensures Denotes(heap, v, t) && NeverReenters(heap, v) <==> Plain(heap, {}, v) == Some(t) {
      PlainIsDenoted(heap, v, t);
    }
    if !ok { return None; }
    ghost var tree := Plain(heap, {}, v).value;
    assert Plain(heap, {}, v) == Some(tree) && encoder.output == CanonicalJson.Write(tree);
    return Some(encoder.output);
  }

  /** Go's `Sum` up to the hash: the bytes it feeds to SHA-256. */
  method Sum(kind: seq<byte>, schema: seq<byte>, heap: Heap, v: Value) returns (hashed: Option<seq<byte>>)
    ensures hashed.Some? <==>
              Token(kind) && Token(schema) && NeverReenters(heap, v) && exists t :: Denotes(heap, v, t)
    ensures forall t :: Denotes(heap, v, t) && hashed.Some? ==> hashed == Preimage(kind, schema, t)
  {
    if !Token(kind) || !Token(schema) { return None; }
    var payload := Marshal(heap, v);
    if payload.None? { return None; }
    return Some(DOMAIN + kind + [COLON] + schema + [0] + payload.value);
  }

  /** Equal hashed bytes come from equal kinds, equal schemas and values that stand for the
      same tree, however the two values share or order their parts. */
  lemma SumIdentifies(k: seq<byte>, s: seq<byte>, heapA: Heap, a: Value, t: Json,
                      l: seq<byte>, u: seq<byte>, heapB: Heap, b: Value, w: Json)
    requires Denotes(heapA, a, t) && Denotes(heapB, b, w)
    requires Preimage(k, s, t).Some? && Preimage(l, u, w).Some?
    ensures Preimage(k, s, t) == Preimage(l, u, w) <==>
              k == l && s == u && forall j :: Denotes(heapA, a, j) <==> Denotes(heapB, b, j)
  {
    forall j ensures (Denotes(heapA, a, j) <==> j == t) && (Denotes(heapB, b, j) <==> j == w) {
      if Denotes(heapA, a, j) { DenotationIsUnique(heapA, a, j, t); }
      if Denotes(heapB, b, j) { DenotationIsUnique(heapB, b, j, w); }
    }
    if Preimage(k, s, t) == Preimage(l, u, w) { PreimageIsInjective(k, s, t, l, u, w); }
    if forall j :: Denotes(heapA, a, j) <==> Denotes(heapB, b, j) {
      assert Denotes(heapB, b, t);
    }
  }
}
