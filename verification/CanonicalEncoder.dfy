/**
 The canonical encoder over Go values (internal/canonical/canonical.go): values that may
 share and even contain themselves, object entries in any iteration order, and the set of
 references being visited. It is proved against plain unfolding followed by
 `CanonicalJson.Write`.
 */
module CanonicalEncoder {
  import opened Common
  import opened Strings
  import opened CanonicalJson

  /** A Go string: valid UTF-8, or not (then with the runes Go's conversion shows). */
  datatype GoString = Wellformed(runes: Runes) | Malformed(runes: Runes)

  datatype Entry = Entry(key: GoString, value: Value)

  datatype Kind = Pointer | Slice | Mapping

  /** What the encoder remembers of a reference it is inside of. */
  datatype Visit = Visit(kind: Kind, address: nat)

  /** References to different values may have one key: a pointer to a struct and one to its
      first field, a slice and a shorter slice of the same array. The view tells them apart. */
  datatype Reference = Reference(key: Visit, view: nat)

  /** `List` and `Record` are held in place (arrays, structs); pointers, slices and maps are
      references to such values. A reference that is not on the heap is nil; any other has a
      nonzero address, so the encoder's guard against zero addresses never matters. */
  datatype Value =
    | Nil
    | Flag(flag: bool)
    | Str(text: GoString)
    | Shared(ref: Reference)
    | List(items: seq<Value>)
    | Record(entries: seq<Entry>)
    | Unsupported

  type Heap = map<Reference, Value>

  function Visits(heap: Heap): set<Visit> { set r | r in heap :: r.key }

  // ----- what a value stands for: plain unfolding, at most `n` references deep

  ghost function Unfold(heap: Heap, v: Value, n: nat): Option<Json>
    decreases n, v, 1, 0
  {
    match v
    case Nil => Some(Null)
    case Flag(b) => Some(Boolean(b))
    case Str(s) => if s.Wellformed? then Some(Text(s.runes)) else None
    case Shared(r) => if r !in heap then Some(Null) else if n == 0 then None else Unfold(heap, heap[r], n - 1)
    case List(items) => (match UnfoldItems(heap, v, n, |items|) case Some(js) => Some(Array(js)) case None => None)
    case Record(entries) =>
      (match UnfoldEntries(heap, v, n, |entries|) case Some(m) => Some(Object(m)) case None => None)
    case Unsupported => None
  }

  ghost function UnfoldItems(heap: Heap, v: Value, n: nat, k: nat): Option<seq<Json>>
    requires v.List? && k <= |v.items|
    decreases n, v, 0, k
  {
    if k == 0 then Some([])
    else
      match (UnfoldItems(heap, v, n, k - 1), Unfold(heap, v.items[k - 1], n))
      case (Some(js), Some(j)) => Some(js + [j])
      case _ => None
  }

  ghost function UnfoldEntries(heap: Heap, v: Value, n: nat, k: nat): Option<map<Runes, Json>>
    requires v.Record? && k <= |v.entries|
    decreases n, v, 0, k
  {
    if k == 0 then Some(map[])
    else AddMember(UnfoldEntries(heap, v, n, k - 1), v.entries[k - 1].key, Unfold(heap, v.entries[k - 1].value, n))
  }

  /** One more member; a malformed or repeated key is an error. */
  function AddMember(m: Option<map<Runes, Json>>, key: GoString, j: Option<Json>): Option<map<Runes, Json>> {
    if m.Some? && j.Some? && key.Wellformed? && key.runes !in m.value then Some(m.value[key.runes := j.value]) else None
  }

  /** The value is a finite tree of supported parts, namely `t`. */
  ghost predicate Denotes(heap: Heap, v: Value, t: Json) { exists n :: Unfold(heap, v, n) == Some(t) }

  // ----- the encoder's recursion: unbounded, but never into a key being visited

  ghost function Plain(heap: Heap, active: set<Visit>, v: Value): Option<Json>
    decreases Visits(heap) - active, v, 1, 0
  {
    match v
    case Nil => Some(Null)
    case Flag(b) => Some(Boolean(b))
    case Str(s) => if s.Wellformed? then Some(Text(s.runes)) else None
    case Shared(r) =>
      if r !in heap then Some(Null)
      else if r.key in active then None
      else Plain(heap, active + {r.key}, heap[r])
    case List(items) => (match PlainItems(heap, active, v, |items|) case Some(js) => Some(Array(js)) case None => None)
    case Record(entries) =>
      (match PlainEntries(heap, active, v, |entries|) case Some(m) => Some(Object(m)) case None => None)
    case Unsupported => None
  }

  ghost function PlainItems(heap: Heap, active: set<Visit>, v: Value, k: nat): Option<seq<Json>>
    requires v.List? && k <= |v.items|
    decreases Visits(heap) - active, v, 0, k
  {
    if k == 0 then Some([])
    else
      match (PlainItems(heap, active, v, k - 1), Plain(heap, active, v.items[k - 1]))
      case (Some(js), Some(j)) => Some(js + [j])
      case _ => None
  }

  ghost function PlainEntries(heap: Heap, active: set<Visit>, v: Value, k: nat): Option<map<Runes, Json>>
    requires v.Record? && k <= |v.entries|
    decreases Visits(heap) - active, v, 0, k
  {
    if k == 0 then Some(map[])
    else AddMember(PlainEntries(heap, active, v, k - 1), v.entries[k - 1].key, Plain(heap, active, v.entries[k - 1].value))
  }

  // ----- the visited set rejects what has no finite unfolding or meets a key again

  lemma OneLeft(all: set<Visit>, active: set<Visit>, k: Visit)
    requires k in all && k !in active
    ensures |all - active| == |all - (active + {k})| + 1
  {
    assert all - active == (all - (active + {k})) + {k};
  }

  /** Everything the encoder accepts unfolds within as many keys as are left. */
  lemma {:induction false} PlainUnfolds(heap: Heap, active: set<Visit>, v: Value)
    requires Plain(heap, active, v).Some?
    ensures Unfold(heap, v, |Visits(heap) - active|) == Plain(heap, active, v)
    decreases Visits(heap) - active, v, 1, 0
  {
    match v
    case Shared(r) =>
      if r in heap {
        OneLeft(Visits(heap), active, r.key);
        PlainUnfolds(heap, active + {r.key}, heap[r]);
      }
    case List(items) => ItemsUnfold(heap, active, v, |items|);
    case Record(entries) => EntriesUnfold(heap, active, v, |entries|);
    case _ =>
  }

  lemma {:induction false} ItemsUnfold(heap: Heap, active: set<Visit>, v: Value, k: nat)
    requires v.List? && k <= |v.items| && PlainItems(heap, active, v, k).Some?
    ensures UnfoldItems(heap, v, |Visits(heap) - active|, k) == PlainItems(heap, active, v, k)
    decreases Visits(heap) - active, v, 0, k
  {
    if k > 0 {
      ItemsUnfold(heap, active, v, k - 1);
      PlainUnfolds(heap, active, v.items[k - 1]);
    }
  }

  lemma {:induction false} EntriesUnfold(heap: Heap, active: set<Visit>, v: Value, k: nat)
    requires v.Record? && k <= |v.entries| && PlainEntries(heap, active, v, k).Some?
    ensures UnfoldEntries(heap, v, |Visits(heap) - active|, k) == PlainEntries(heap, active, v, k)
    decreases Visits(heap) - active, v, 0, k
  {
    if k > 0 {
      EntriesUnfold(heap, active, v, k - 1);
      PlainUnfolds(heap, active, v.entries[k - 1].value);
    }
  }

  /** A deeper unfolding finds the same tree. */
  lemma {:induction false} UnfoldsDeeper(heap: Heap, v: Value, n: nat, m: nat)
    requires n <= m && Unfold(heap, v, n).Some?
    ensures Unfold(heap, v, m) == Unfold(heap, v, n)
    decreases n, v, 1, 0
  {
    match v
    case Shared(r) => if r in heap { UnfoldsDeeper(heap, heap[r], n - 1, m - 1); }
    case List(items) => ItemsDeeper(heap, v, n, m, |items|);
    case Record(entries) => EntriesDeeper(heap, v, n, m, |entries|);
    case _ =>
  }

  lemma {:induction false} ItemsDeeper(heap: Heap, v: Value, n: nat, m: nat, k: nat)
    requires n <= m && v.List? && k <= |v.items| && UnfoldItems(heap, v, n, k).Some?
    ensures UnfoldItems(heap, v, m, k) == UnfoldItems(heap, v, n, k)
    decreases n, v, 0, k
  {
    if k > 0 {
      ItemsDeeper(heap, v, n, m, k - 1);
      UnfoldsDeeper(heap, v.items[k - 1], n, m);
    }
  }

  lemma {:induction false} EntriesDeeper(heap: Heap, v: Value, n: nat, m: nat, k: nat)
    requires n <= m && v.Record? && k <= |v.entries| && UnfoldEntries(heap, v, n, k).Some?
    ensures UnfoldEntries(heap, v, m, k) == UnfoldEntries(heap, v, n, k)
    decreases n, v, 0, k
  {
    if k > 0 {
      EntriesDeeper(heap, v, n, m, k - 1);
      UnfoldsDeeper(heap, v.entries[k - 1].value, n, m);
    }
  }

  /** The reference occurs in the value itself, not behind another reference. */
  predicate Within(r: Reference, v: Value) {
    match v
    case Shared(q) => q == r
    case List(items) => exists i :: 0 <= i < |items| && Within(r, items[i])
    case Record(entries) => exists i :: 0 <= i < |entries| && Within(r, entries[i].value)
    case _ => false
  }

  /** The references `path` are entered one inside the other, from `v` on. */
  predicate Path(heap: Heap, v: Value, path: seq<Reference>)
    decreases |path|
  {
    path != [] ==> path[0] in heap && Within(path[0], v) && Path(heap, heap[path[0]], path[1..])
  }

  /** No key of the path is in `active` or occurs twice. */
  predicate Fresh(active: set<Visit>, path: seq<Reference>) {
    && (forall i :: 0 <= i < |path| ==> path[i].key !in active)
    && (forall i, j :: 0 <= i < j < |path| ==> path[i].key != path[j].key)
  }

  ghost predicate AllFresh(heap: Heap, active: set<Visit>, v: Value) {
    forall path :: Path(heap, v, path) ==> Fresh(active, path)
  }

  /** No key is entered again inside itself. */
  ghost predicate NeverReenters(heap: Heap, v: Value) { AllFresh(heap, {}, v) }

  lemma FreshMore(active: set<Visit>, r: Reference, path: seq<Reference>)
    ensures Fresh(active, [r] + path) <==> r.key !in active && Fresh(active + {r.key}, path)
  {
    var longer := [r] + path;
    assert longer[0] == r && forall i :: 0 <= i < |path| ==> longer[i + 1] == path[i];
    if r.key !in active && Fresh(active + {r.key}, path) {
      forall i, j | 0 <= i < j < |longer| ensures longer[i].key != longer[j].key {
        assert longer[j] == path[j - 1] && (i > 0 ==> longer[i] == path[i - 1]);
      }
    }
  }

  lemma {:induction false} ItemIsPlain(heap: Heap, active: set<Visit>, v: Value, k: nat, i: nat)
    requires v.List? && i < k <= |v.items| && PlainItems(heap, active, v, k).Some?
    ensures Plain(heap, active, v.items[i]).Some?
    decreases k
  {
    if i < k - 1 { ItemIsPlain(heap, active, v, k - 1, i); }
  }

  lemma {:induction false} EntryIsPlain(heap: Heap, active: set<Visit>, v: Value, k: nat, i: nat)
    requires v.Record? && i < k <= |v.entries| && PlainEntries(heap, active, v, k).Some?
    ensures Plain(heap, active, v.entries[i].value).Some?
    decreases k
  {
    if i < k - 1 { EntryIsPlain(heap, active, v, k - 1, i); }
  }

  /** An accepted value is accepted at each reference in it. */
  lemma {:induction false} WithinIsPlain(heap: Heap, active: set<Visit>, v: Value, r: Reference)
    requires Plain(heap, active, v).Some? && Within(r, v)
    ensures Plain(heap, active, Shared(r)).Some?
    decreases v
  {
    match v
    case Shared(_) =>
    case List(items) =>
      var i :| 0 <= i < |items| && Within(r, items[i]);
      ItemIsPlain(heap, active, v, |items|, i);
      WithinIsPlain(heap, active, items[i], r);
    case Record(entries) =>
      var i :| 0 <= i < |entries| && Within(r, entries[i].value);
      EntryIsPlain(heap, active, v, |entries|, i);
      WithinIsPlain(heap, active, entries[i].value, r);
  }

  lemma {:induction false} PlainIsFresh(heap: Heap, active: set<Visit>, v: Value, path: seq<Reference>)
    requires Plain(heap, active, v).Some? && Path(heap, v, path)
    ensures Fresh(active, path)
    decreases |path|
  {
    if path != [] {
      var r := path[0];
      WithinIsPlain(heap, active, v, r);
      PlainIsFresh(heap, active + {r.key}, heap[r], path[1..]);
      FreshMore(active, r, path[1..]);
      assert path == [r] + path[1..];
    }
  }

  /** Inside a reference its own key counts as visited. */
  lemma FreshInside(heap: Heap, active: set<Visit>, r: Reference)
    requires r in heap && AllFresh(heap, active, Shared(r))
    ensures r.key !in active && AllFresh(heap, active + {r.key}, heap[r])
  {
    assert [r][1..] == [];
    assert Path(heap, Shared(r), [r]);
    forall path | Path(heap, heap[r], path) ensures Fresh(active + {r.key}, path) {
      assert ([r] + path)[1..] == path;
      assert Path(heap, Shared(r), [r] + path);
      FreshMore(active, r, path);
    }
  }

  lemma FreshInItem(heap: Heap, active: set<Visit>, v: Value, i: nat)
    requires v.List? && i < |v.items| && AllFresh(heap, active, v)
    ensures AllFresh(heap, active, v.items[i])
  {
    forall path | Path(heap, v.items[i], path) ensures Fresh(active, path) { assert Path(heap, v, path); }
  }

  lemma FreshInEntry(heap: Heap, active: set<Visit>, v: Value, i: nat)
    requires v.Record? && i < |v.entries| && AllFresh(heap, active, v)
    ensures AllFresh(heap, active, v.entries[i].value)
  {
    forall path | Path(heap, v.entries[i].value, path) ensures Fresh(active, path) { assert Path(heap, v, path); }
  }

  lemma {:induction false} UnfoldedIsPlain(heap: Heap, active: set<Visit>, v: Value, n: nat)
    requires Unfold(heap, v, n).Some? && AllFresh(heap, active, v)
    ensures Plain(heap, active, v) == Unfold(heap, v, n)
    decreases n, v, 1, 0
  {
    match v
    case Shared(r) =>
      if r in heap {
        FreshInside(heap, active, r);
        UnfoldedIsPlain(heap, active + {r.key}, heap[r], n - 1);
      }
    case List(items) => UnfoldedItems(heap, active, v, n, |items|);
    case Record(entries) => UnfoldedEntries(heap, active, v, n, |entries|);
    case _ =>
  }

  lemma {:induction false} UnfoldedItems(heap: Heap, active: set<Visit>, v: Value, n: nat, k: nat)
    requires v.List? && k <= |v.items| && UnfoldItems(heap, v, n, k).Some? && AllFresh(heap, active, v)
    ensures PlainItems(heap, active, v, k) == UnfoldItems(heap, v, n, k)
    decreases n, v, 0, k
  {
    if k > 0 {
      UnfoldedItems(heap, active, v, n, k - 1);
      FreshInItem(heap, active, v, k - 1);
      UnfoldedIsPlain(heap, active, v.items[k - 1], n);
    }
  }

  lemma {:induction false} UnfoldedEntries(heap: Heap, active: set<Visit>, v: Value, n: nat, k: nat)
    requires v.Record? && k <= |v.entries| && UnfoldEntries(heap, v, n, k).Some? && AllFresh(heap, active, v)
    ensures PlainEntries(heap, active, v, k) == UnfoldEntries(heap, v, n, k)
    decreases n, v, 0, k
  {
    if k > 0 {
      UnfoldedEntries(heap, active, v, n, k - 1);
      FreshInEntry(heap, active, v, k - 1);
      UnfoldedIsPlain(heap, active, v.entries[k - 1].value, n);
    }
  }

  /** The encoder accepts exactly the values that stand for a finite tree and enter no key
      inside itself, and encodes them as that tree. */
  lemma PlainIsDenoted(heap: Heap, v: Value, t: Json)
    ensures Plain(heap, {}, v) == Some(t) <==> Denotes(heap, v, t) && NeverReenters(heap, v)
  {
    if Plain(heap, {}, v) == Some(t) {
      PlainUnfolds(heap, {}, v);
      forall path | Path(heap, v, path) ensures Fresh({}, path) { PlainIsFresh(heap, {}, v, path); }
    }
    if Denotes(heap, v, t) && NeverReenters(heap, v) {
      var n :| Unfold(heap, v, n) == Some(t);
      UnfoldedIsPlain(heap, {}, v, n);
    }
  }

  /** One value denotes at most one tree. */
  lemma DenotationIsUnique(heap: Heap, v: Value, t: Json, u: Json)
    requires Denotes(heap, v, t) && Denotes(heap, v, u)
    ensures t == u
  {
    var n :| Unfold(heap, v, n) == Some(t);
    var m :| Unfold(heap, v, m) == Some(u);
    if n <= m { UnfoldsDeeper(heap, v, n, m); } else { UnfoldsDeeper(heap, v, m, n); }
  }

  // ----- what a value stands for, part by part

  lemma {:induction false} ItemsUnfoldTo(heap: Heap, v: Value, n: nat, k: nat)
    requires v.List? && k <= |v.items| && UnfoldItems(heap, v, n, k).Some?
    ensures |UnfoldItems(heap, v, n, k).value| == k
    ensures forall i :: 0 <= i < k ==> Unfold(heap, v.items[i], n) == Some(UnfoldItems(heap, v, n, k).value[i])
    decreases k
  {
    if k > 0 { ItemsUnfoldTo(heap, v, n, k - 1); }
  }

  /** Items that unfold one by one unfold together, at the greatest of their depths. */
  lemma {:induction false} ItemsTogether(heap: Heap, v: Value, js: seq<Json>, k: nat) returns (n: nat)
    requires v.List? && k <= |v.items| && |js| == |v.items|
    requires forall i :: 0 <= i < k ==> Denotes(heap, v.items[i], js[i])
    ensures UnfoldItems(heap, v, n, k) == Some(js[..k])
    decreases k
  {
    if k == 0 {
      n := 0;
    } else {
      var before := ItemsTogether(heap, v, js, k - 1);
      assert Denotes(heap, v.items[k - 1], js[k - 1]);
      var own :| Unfold(heap, v.items[k - 1], own) == Some(js[k - 1]);
      n := if before < own then own else before;
      ItemsDeeper(heap, v, before, n, k - 1);
      UnfoldsDeeper(heap, v.items[k - 1], own, n);
      assert js[..k] == js[..k - 1] + [js[k - 1]];
    }
  }

  /** A list stands for the array of what its items stand for, in their order. */
  lemma ListMeaning(heap: Heap, v: Value, t: Json)
    requires v.List?
    ensures Denotes(heap, v, t) <==>
              t.Array? && |t.items| == |v.items| && forall i :: 0 <= i < |v.items| ==> Denotes(heap, v.items[i], t.items[i])
  {
    if Denotes(heap, v, t) {
      var n :| Unfold(heap, v, n) == Some(t);
      ItemsUnfoldTo(heap, v, n, |v.items|);
    }
    if t.Array? && |t.items| == |v.items| && forall i :: 0 <= i < |v.items| ==> Denotes(heap, v.items[i], t.items[i]) {
      var n := ItemsTogether(heap, v, t.items, |v.items|);
      assert t.items[..|v.items|] == t.items;
      assert Unfold(heap, v, n) == Some(t);
    }
  }

  /** The members hold what the first `k` entries say, and nothing else. */
  ghost predicate MembersAre(heap: Heap, entries: seq<Entry>, k: nat, m: map<Runes, Json>)
    requires k <= |entries|
  {
    && (forall i :: 0 <= i < k ==> entries[i].key.Wellformed? && entries[i].key.runes in m)
    && (forall i, j :: 0 <= i < j < k ==> entries[i].key.runes != entries[j].key.runes)
    && (forall key :: key in m ==> exists i :: 0 <= i < k && entries[i].key.runes == key)
    && forall i :: 0 <= i < k ==> Denotes(heap, entries[i].value, m[entries[i].key.runes])
  }

  lemma MoreMembers(heap: Heap, entries: seq<Entry>, k: nat, m: map<Runes, Json>, j: Json)
    requires 0 < k <= |entries| && MembersAre(heap, entries, k - 1, m)
    requires entries[k - 1].key.Wellformed? && entries[k - 1].key.runes !in m && Denotes(heap, entries[k - 1].value, j)
    ensures MembersAre(heap, entries, k, m[entries[k - 1].key.runes := j])
  {
  }

  lemma EntriesUnfoldOne(heap: Heap, v: Value, n: nat, k: nat) returns (m: map<Runes, Json>, j: Json)
    requires v.Record? && 0 < k <= |v.entries| && UnfoldEntries(heap, v, n, k).Some?
    ensures UnfoldEntries(heap, v, n, k - 1) == Some(m) && Unfold(heap, v.entries[k - 1].value, n) == Some(j)
    ensures v.entries[k - 1].key.Wellformed? && v.entries[k - 1].key.runes !in m
    ensures UnfoldEntries(heap, v, n, k) == Some(m[v.entries[k - 1].key.runes := j])
  {
    m, j := UnfoldEntries(heap, v, n, k - 1).value, Unfold(heap, v.entries[k - 1].value, n).value;
  }

  lemma {:induction false} EntriesUnfoldTo(heap: Heap, v: Value, n: nat, k: nat)
    requires v.Record? && k <= |v.entries| && UnfoldEntries(heap, v, n, k).Some?
    ensures MembersAre(heap, v.entries, k, UnfoldEntries(heap, v, n, k).value)
    decreases k
  {
    if k > 0 {
      var m, j := EntriesUnfoldOne(heap, v, n, k);
      EntriesUnfoldTo(heap, v, n, k - 1);
      MoreMembers(heap, v.entries, k, m, j);
    }
  }

  lemma FewerMembers(heap: Heap, entries: seq<Entry>, k: nat, m: map<Runes, Json>)
    requires 0 < k <= |entries| && MembersAre(heap, entries, k, m)
    ensures MembersAre(heap, entries, k - 1, m - {entries[k - 1].key.runes})
  {
  }

  /** Entries up to the last one, and the last one, unfold together. */
  lemma EntryOn(heap: Heap, v: Value, k: nat, before: nat, own: nat, m: map<Runes, Json>, j: Json) returns (n: nat)
    requires v.Record? && 0 < k <= |v.entries| && UnfoldEntries(heap, v, before, k - 1) == Some(m)
    requires Unfold(heap, v.entries[k - 1].value, own) == Some(j)
    requires v.entries[k - 1].key.Wellformed? && v.entries[k - 1].key.runes !in m
    ensures UnfoldEntries(heap, v, n, k) == Some(m[v.entries[k - 1].key.runes := j])
  {
    n := if before < own then own else before;
    EntriesDeeper(heap, v, before, n, k - 1);
    UnfoldsDeeper(heap, v.entries[k - 1].value, own, n);
  }

  /** The members, taken off one by one from the last entry on. */
  ghost predicate Peels(heap: Heap, entries: seq<Entry>, k: nat, m: map<Runes, Json>)
    requires k <= |entries|
    decreases k
  {
    if k == 0 then m == map[]
    else
      var key := entries[k - 1].key;
      && key.Wellformed? && key.runes in m && Denotes(heap, entries[k - 1].value, m[key.runes])
      && Peels(heap, entries, k - 1, m - {key.runes})
  }

  lemma {:induction false} MembersPeel(heap: Heap, entries: seq<Entry>, k: nat, m: map<Runes, Json>)
    requires k <= |entries| && MembersAre(heap, entries, k, m)
    ensures Peels(heap, entries, k, m)
    decreases k
  {
    if k > 0 {
      FewerMembers(heap, entries, k, m);
      MembersPeel(heap, entries, k - 1, m - {entries[k - 1].key.runes});
    }
  }

  lemma {:induction false} EntriesTogether(heap: Heap, v: Value, m: map<Runes, Json>, k: nat) returns (n: nat)
    requires v.Record? && k <= |v.entries| && Peels(heap, v.entries, k, m)
    ensures UnfoldEntries(heap, v, n, k) == Some(m)
    decreases k
  {
    if k == 0 {
      n := 0;
    } else {
      var key := v.entries[k - 1].key.runes;
      var before := EntriesTogether(heap, v, m - {key}, k - 1);
      var own := DepthOf(heap, v.entries[k - 1].value, m[key]);
      n := EntryOn(heap, v, k, before, own, m - {key}, m[key]);
      assert (m - {key})[key := m[key]] == m;
    }
  }

  lemma DepthOf(heap: Heap, v: Value, t: Json) returns (n: nat)
    requires Denotes(heap, v, t)
    ensures Unfold(heap, v, n) == Some(t)
  {
    var d: nat :| Unfold(heap, v, d) == Some(t);
    n := d;
  }

  /** A record stands for the object of its entries' keys and what their values stand for. */
  lemma RecordMeaning(heap: Heap, v: Value, t: Json)
    requires v.Record?
    ensures Denotes(heap, v, t) <==> t.Object? && MembersAre(heap, v.entries, |v.entries|, t.members)
  {
    if Denotes(heap, v, t) {
      var n :| Unfold(heap, v, n) == Some(t);
      EntriesUnfoldTo(heap, v, n, |v.entries|);
    }
    if t.Object? && MembersAre(heap, v.entries, |v.entries|, t.members) {
      MembersPeel(heap, v.entries, |v.entries|, t.members);
      var n := EntriesTogether(heap, v, t.members, |v.entries|);
      assert Unfold(heap, v, n) == Some(t);
    }
  }

  /** A scalar stands for itself, and a reference for what it refers to; nil stands for null. */
  lemma SimpleMeaning(heap: Heap, v: Value, t: Json)
    requires !v.List? && !v.Record?
    ensures Denotes(heap, v, t) <==>
              match v
              case Nil => t == Null
              case Flag(b) => t == Boolean(b)
              case Str(s) => s.Wellformed? && t == Text(s.runes)
              case Shared(r) => if r in heap then Denotes(heap, heap[r], t) else t == Null
              case _ => false
  {
    if v.Shared? && v.ref in heap {
      if Denotes(heap, v, t) {
        var n: nat :| Unfold(heap, v, n) == Some(t);
        assert n > 0 && Unfold(heap, heap[v.ref], n - 1) == Some(t);
      }
      if Denotes(heap, heap[v.ref], t) {
        var n: nat :| Unfold(heap, heap[v.ref], n) == Some(t);
        assert Unfold(heap, v, n + 1) == Unfold(heap, heap[v.ref], n);
      }
    } else {
      assert Unfold(heap, v, 0) == Unfold(heap, v, 0);
    }
  }

  // ----- when a finite unfolding is enough, and when it is not

  /** Different references have different keys. */
  predicate KeysIdentify(heap: Heap) { forall q, r :: q in heap && r in heap && q.key == r.key ==> q == r }

  lemma {:induction false} ItemUnfolds(heap: Heap, v: Value, n: nat, k: nat, i: nat)
    requires v.List? && i < k <= |v.items| && UnfoldItems(heap, v, n, k).Some?
    ensures Unfold(heap, v.items[i], n).Some?
    decreases k
  {
    if i < k - 1 { ItemUnfolds(heap, v, n, k - 1, i); }
  }

  lemma {:induction false} EntryUnfolds(heap: Heap, v: Value, n: nat, k: nat, i: nat)
    requires v.Record? && i < k <= |v.entries| && UnfoldEntries(heap, v, n, k).Some?
    ensures Unfold(heap, v.entries[i].value, n).Some?
    decreases k
  {
    if i < k - 1 { EntryUnfolds(heap, v, n, k - 1, i); }
  }

  lemma {:induction false} WithinUnfolds(heap: Heap, v: Value, n: nat, r: Reference)
    requires Unfold(heap, v, n).Some? && Within(r, v)
    ensures Unfold(heap, Shared(r), n).Some?
    decreases v
  {
    match v
    case Shared(_) =>
    case List(items) =>
      var i :| 0 <= i < |items| && Within(r, items[i]);
      ItemUnfolds(heap, v, n, |items|, i);
      WithinUnfolds(heap, items[i], n, r);
    case Record(entries) =>
      var i :| 0 <= i < |entries| && Within(r, entries[i].value);
      EntryUnfolds(heap, v, n, |entries|, i);
      WithinUnfolds(heap, entries[i].value, n, r);
  }

  /** What lies deeper unfolds within less. */
  lemma {:induction false} PathUnfolds(heap: Heap, v: Value, n: nat, path: seq<Reference>, i: nat)
    requires Unfold(heap, v, n).Some? && Path(heap, v, path) && i < |path|
    ensures path[i] in heap && Unfold(heap, Shared(path[i]), n).Some?
    ensures Path(heap, heap[path[i]], path[i + 1..])
    decreases |path|
  {
    WithinUnfolds(heap, v, n, path[0]);
    if i > 0 {
      PathUnfolds(heap, heap[path[0]], n - 1, path[1..], i - 1);
      assert path[1..][i..] == path[i + 1..];
      UnfoldsDeeper(heap, Shared(path[i]), n - 1, n);
    }
  }

  /** The least depth at which a reference unfolds. */
  lemma {:induction false} LeastDepth(heap: Heap, r: Reference, n: nat) returns (m: nat)
    requires r in heap && Unfold(heap, Shared(r), n).Some?
    ensures Unfold(heap, heap[r], m).Some? && Unfold(heap, Shared(r), m).None?
  {
    if Unfold(heap, Shared(r), n - 1).None? {
      m := n - 1;
    } else {
      m := LeastDepth(heap, r, n - 1);
    }
  }

  lemma FinitePathsDoNotRepeat(heap: Heap, v: Value, n: nat, path: seq<Reference>, i: nat, j: nat)
    requires Unfold(heap, v, n).Some? && Path(heap, v, path) && i < j < |path|
    ensures path[i] != path[j]
  {
    PathUnfolds(heap, v, n, path, i);
    var m := LeastDepth(heap, path[i], n);
    PathUnfolds(heap, heap[path[i]], m, path[i + 1..], j - i - 1);
  }

  /** When different references have different keys, every finite value is accepted. */
  lemma FiniteIsEnough(heap: Heap, v: Value, t: Json)
    requires KeysIdentify(heap)
    ensures Denotes(heap, v, t) ==> NeverReenters(heap, v)
    ensures Plain(heap, {}, v) == Some(t) <==> Denotes(heap, v, t)
  {
    if Denotes(heap, v, t) {
      var n :| Unfold(heap, v, n) == Some(t);
      forall path: seq<Reference> | Path(heap, v, path) ensures Fresh({}, path) {
        forall i, j | 0 <= i < j < |path| ensures path[i].key != path[j].key {
          FinitePathsDoNotRepeat(heap, v, n, path, i, j);
          PathUnfolds(heap, v, n, path, i);
          PathUnfolds(heap, v, n, path, j);
        }
      }
    }
    PlainIsDenoted(heap, v, t);
  }

  /** A struct that holds a pointer to its own first field: the pointer to the struct and the
      pointer to the field have one address. */
  function Whole(): Reference { Reference(Visit(Pointer, 1), 0) }
  function FirstField(): Reference { Reference(Visit(Pointer, 1), 1) }

  function SelfPointing(field: Runes, pointer: Runes): Heap {
    map[Whole() := Record([Entry(Wellformed(field), Flag(true)), Entry(Wellformed(pointer), Shared(FirstField()))]),
        FirstField() := Flag(true)]
  }

  lemma SelfPointingUnfolds(field: Runes, pointer: Runes)
    requires field != pointer
    ensures Denotes(SelfPointing(field, pointer), Shared(Whole()),
                    Object(map[field := Boolean(true), pointer := Boolean(true)]))
  {
    var heap := SelfPointing(field, pointer);
    var record := heap[Whole()];
    assert Unfold(heap, record.entries[1].value, 1) == Some(Boolean(true));
    assert UnfoldEntries(heap, record, 1, 0) == Some(map[]);
    assert UnfoldEntries(heap, record, 1, 1) == Some(map[field := Boolean(true)]);
    assert UnfoldEntries(heap, record, 1, 2) == Some(map[field := Boolean(true), pointer := Boolean(true)]);
    assert Unfold(heap, Shared(Whole()), 2).Some?;
  }

  /** A finite value that the encoder refuses as a cycle. */
  lemma FiniteButRefused(field: Runes, pointer: Runes)
    requires field != pointer
    ensures exists t :: Denotes(SelfPointing(field, pointer), Shared(Whole()), t)
    ensures !NeverReenters(SelfPointing(field, pointer), Shared(Whole()))
    ensures Plain(SelfPointing(field, pointer), {}, Shared(Whole())).None?
  {
    SelfPointingUnfolds(field, pointer);
    var heap, v := SelfPointing(field, pointer), Shared(Whole());
    var record := heap[Whole()];
    var path := [Whole(), FirstField()];
    assert path[1..] == [FirstField()] && path[1..][1..] == [];
    assert Within(FirstField(), record.entries[1].value);
    assert Path(heap, record, path[1..]);
    assert Path(heap, v, path) && path[0].key == path[1].key;
    if Plain(heap, {}, v).Some? { PlainIsFresh(heap, {}, v, path); }
  }

  // ----- entries in any order

  ghost predicate Good(heap: Heap, active: set<Visit>, e: Entry) {
    e.key.Wellformed? && Plain(heap, active, e.value).Some?
  }

  predicate DistinctKeys(entries: seq<Entry>) {
    forall i, j :: 0 <= i < j < |entries| ==> entries[i].key.runes != entries[j].key.runes
  }

  ghost predicate AllGood(heap: Heap, active: set<Visit>, entries: seq<Entry>) {
    forall e :: e in entries ==> Good(heap, active, e)
  }

  /** The map has exactly the entries' members. */
  ghost predicate Holds(heap: Heap, active: set<Visit>, m: map<Runes, Json>, entries: seq<Entry>) {
    && (forall k :: k in m ==> exists e :: e in entries && e.key.runes == k)
    && (forall e :: e in entries ==> e.key.runes in m && Plain(heap, active, e.value) == Some(m[e.key.runes]))
  }

  lemma {:induction false} EntriesMeaning(heap: Heap, active: set<Visit>, v: Value, k: nat)
    requires v.Record? && k <= |v.entries|
    ensures PlainEntries(heap, active, v, k).Some? <==>
              AllGood(heap, active, v.entries[..k]) && DistinctKeys(v.entries[..k])
    ensures PlainEntries(heap, active, v, k).Some? ==>
              Holds(heap, active, PlainEntries(heap, active, v, k).value, v.entries[..k])
  {
    if k > 0 {
      EntriesMeaning(heap, active, v, k - 1);
      var before, e := v.entries[..k - 1], v.entries[k - 1];
      assert v.entries[..k] == before + [e];
      OneMoreEntry(heap, active, PlainEntries(heap, active, v, k - 1), before, e);
    }
  }

  lemma OneMoreEntry(heap: Heap, active: set<Visit>, m: Option<map<Runes, Json>>, before: seq<Entry>, e: Entry)
    requires m.Some? <==> AllGood(heap, active, before) && DistinctKeys(before)
    requires m.Some? ==> Holds(heap, active, m.value, before)
    ensures var n := AddMember(m, e.key, Plain(heap, active, e.value));
            && (n.Some? <==> AllGood(heap, active, before + [e]) && DistinctKeys(before + [e]))
            && (n.Some? ==> Holds(heap, active, n.value, before + [e]))
  {
    var all := before + [e];
    assert forall x :: x in all <==> x in before || x == e;
    assert DistinctKeys(all) <==> DistinctKeys(before) && forall x :: x in before ==> x.key.runes != e.key.runes by {
      assert forall i :: 0 <= i < |before| ==> all[i] == before[i];
      assert all[|before|] == e;
    }
  }

  /** The iteration order of a map does not change what it stands for, nor its encoding. */
  lemma IterationOrderIsIrrelevant(heap: Heap, active: set<Visit>, a: seq<Entry>, b: seq<Entry>)
    requires multiset(a) == multiset(b)
    ensures Plain(heap, active, Record(a)) == Plain(heap, active, Record(b))
  {
    EntriesMeaning(heap, active, Record(a), |a|);
    EntriesMeaning(heap, active, Record(b), |b|);
    assert a[..|a|] == a && b[..|b|] == b;
    SameEntries(a, b);
    var m, n := PlainEntries(heap, active, Record(a), |a|), PlainEntries(heap, active, Record(b), |b|);
    if m.Some? { SameMap(heap, active, m.value, n.value, a, b); }
  }

  lemma SameEntries(a: seq<Entry>, b: seq<Entry>)
    requires multiset(a) == multiset(b)
    ensures forall e :: e in a <==> e in b
    ensures DistinctKeys(a) <==> DistinctKeys(b)
  {
    forall e ensures e in a <==> e in b { assert e in multiset(a) <==> e in multiset(b); }
    if DistinctKeys(a) { DistinctIgnoresOrder(a, b); }
    if DistinctKeys(b) { DistinctIgnoresOrder(b, a); }
  }

  lemma SameMap(heap: Heap, active: set<Visit>, m: map<Runes, Json>, n: map<Runes, Json>, a: seq<Entry>, b: seq<Entry>)
    requires Holds(heap, active, m, a) && Holds(heap, active, n, b) && forall e :: e in a <==> e in b
    ensures m == n
  {
    forall k ensures k in m <==> k in n {
      if k in m { var e :| e in a && e.key.runes == k; }
      if k in n { var e :| e in b && e.key.runes == k; }
    }
    forall k | k in m ensures m[k] == n[k] {
      var e :| e in a && e.key.runes == k;
    }
  }

  lemma DistinctIgnoresOrder(a: seq<Entry>, b: seq<Entry>)
    requires multiset(a) == multiset(b) && DistinctKeys(a)
    ensures DistinctKeys(b)
  {
    forall i, j | 0 <= i < j < |b| ensures b[i].key.runes != b[j].key.runes {
      if b[i] == b[j] {
        TwiceInside(b, i, j);
        OnceInside(a, b[i]);
      } else {
        assert b[i] in multiset(a) && b[j] in multiset(a);
        var k :| 0 <= k < |a| && a[k] == b[i];
        var l :| 0 <= l < |a| && a[l] == b[j];
        assert k < l || l < k;
      }
    }
  }

  lemma TwiceInside(s: seq<Entry>, i: nat, j: nat)
    requires i < j < |s| && s[i] == s[j]
    ensures multiset(s)[s[i]] >= 2
  {
    assert s == s[..j] + s[j..];
    assert s[..j][i] == s[i] && s[j..][0] == s[j];
    assert s[i] in multiset(s[..j]) && s[j] in multiset(s[j..]);
  }

  lemma {:induction false} OnceInside(s: seq<Entry>, e: Entry)
    requires DistinctKeys(s)
    ensures multiset(s)[e] <= 1
  {
    if s != [] {
      var n := |s| - 1;
      assert s == s[..n] + [s[n]];
      OnceInside(s[..n], e);
      if s[n] == e {
        assert e !in s[..n];
      }
    }
  }
}
