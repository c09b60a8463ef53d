/**
 What a resolved variable map is, said without resolving anything: an assignment under which
 every variable equals its own source with each reference replaced by what it is assigned.
 */
module VariableMeaning {
  import opened Common
  import opened Graph
  import opened Variables

  // ----- an assignment read against its sources

  /** The reference is assigned a scalar, or the part is literal text. */
  predicate Shows(values: map<string, Value>, part: Part) {
    part.Ref? ==> part.name in values && Scalar(values[part.name])
  }

  function Shown(values: map<string, Value>, part: Part): string
    requires Shows(values, part)
  {
    if part.Literal? then part.text else Show(values[part.name])
  }

  predicate AllShow(values: map<string, Value>, parts: seq<Part>) {
    forall i :: 0 <= i < |parts| ==> Shows(values, parts[i])
  }

  /** Where the `k`th part starts: after all the text of the parts before it. */
  function Offset(values: map<string, Value>, parts: seq<Part>, k: nat): nat
    requires AllShow(values, parts) && k <= |parts|
  {
    if k == 0 then 0 else Offset(values, parts, k - 1) + |Shown(values, parts[k - 1])|
  }

  /** The text holds each part, in the order of the source, at its offset, and nothing else. */
  ghost predicate Glued(values: map<string, Value>, parts: seq<Part>, text: string) {
    && AllShow(values, parts) && |text| == Offset(values, parts, |parts|)
    && forall k :: 0 <= k < |parts| ==> PartAt(values, parts, text, k)
  }

  ghost predicate PartAt(values: map<string, Value>, parts: seq<Part>, text: string, k: nat)
    requires AllShow(values, parts) && k < |parts|
  {
    var from := Offset(values, parts, k);
    from + |Shown(values, parts[k])| <= |text| && text[from..from + |Shown(values, parts[k])|] == Shown(values, parts[k])
  }

  predicate HasKey(fields: seq<Field>, key: string) { exists i :: 0 <= i < |fields| && fields[i].key == key }

  /** No later field has the same key. */
  predicate LastOfKey(fields: seq<Field>, i: nat)
    requires i < |fields|
  {
    forall j :: i < j < |fields| ==> fields[j].key != fields[i].key
  }

  ghost predicate Means(values: map<string, Value>, src: Source, v: Value)
    decreases src
  {
    match src
    case Constant(shown) => v == Other(shown)
    case Whole(n) => n in values && v == values[n]
    case Pieces(parts) => v.Str? && Glued(values, parts, v.text)
    case Listing(items) =>
      v.List? && |v.items| == |items| && forall i :: 0 <= i < |items| ==> Means(values, items[i], v.items[i])
    case Fields(fields) =>
      && v.Map?
      && (forall key :: key in v.fields <==> HasKey(fields, key))
      && forall i :: 0 <= i < |fields| && LastOfKey(fields, i) ==> Means(values, fields[i].value, v.fields[fields[i].key])
  }

  /** Every variable equals its own source, read with the assignment itself. */
  ghost predicate Assignment(env: Env, values: map<string, Value>) {
    values.Keys == env.Keys && forall n :: n in env ==> Means(values, env[n], values[n])
  }

  // ----- substitution yields an assignment

  /** The references of a source are assigned what substitution finds for them. */
  ghost predicate Agrees(env: Env, path: set<string>, values: map<string, Value>, refs: set<string>) {
    forall r :: r in refs ==> r in values && Resolve(env, path, r) == Some(values[r])
  }

  lemma OffsetOfPrefix(values: map<string, Value>, parts: seq<Part>, n: nat, k: nat)
    requires AllShow(values, parts) && k <= n <= |parts|
    ensures AllShow(values, parts[..n]) && Offset(values, parts[..n], k) == Offset(values, parts, k)
  {
    if k > 0 {
      OffsetOfPrefix(values, parts, n, k - 1);
      assert parts[..n][k - 1] == parts[k - 1];
    }
  }

  lemma {:induction false} OffsetGrows(values: map<string, Value>, parts: seq<Part>, j: nat, k: nat)
    requires AllShow(values, parts) && j <= k <= |parts|
    ensures Offset(values, parts, j) <= Offset(values, parts, k)
    decreases k
  {
    if j < k { OffsetGrows(values, parts, j, k - 1); }
  }

  /** A part before the last one stands where it stood without the last one. */
  lemma PartEarlier(values: map<string, Value>, parts: seq<Part>, text: string, n: nat, k: nat)
    requires k < n <= |parts| && AllShow(values, parts) && Offset(values, parts, n) <= |text|
    ensures AllShow(values, parts[..n])
    ensures PartAt(values, parts, text, k) <==> PartAt(values, parts[..n], text[..Offset(values, parts, n)], k)
  {
    OffsetOfPrefix(values, parts, n, k);
    OffsetGrows(values, parts, k + 1, n);
    var start, from := Offset(values, parts, k), Offset(values, parts, n);
    var shown := Shown(values, parts[k]);
    assert parts[..n][k] == parts[k];
    assert text[..from][start..start + |shown|] == text[start..start + |shown|];
  }

  predicate EndsWith(text: string, from: nat, shown: string) { |text| == from + |shown| && text[from..] == shown }

  /** Text with one more part is the text before followed by that part. */
  lemma GluedMore(values: map<string, Value>, parts: seq<Part>, text: string)
    requires parts != [] && AllShow(values, parts)
    ensures var n := |parts| - 1;
            var from := Offset(values, parts, n);
            Glued(values, parts, text) <==>
              EndsWith(text, from, Shown(values, parts[n])) && Glued(values, parts[..n], text[..from])
  {
    var n := |parts| - 1;
    var from := Offset(values, parts, n);
    OffsetOfPrefix(values, parts, n, n);
    if |text| == from + |Shown(values, parts[n])| {
      forall k | 0 <= k < n
        ensures PartAt(values, parts, text, k) <==> PartAt(values, parts[..n], text[..from], k)
      {
        PartEarlier(values, parts, text, n, k);
      }
      assert text[from..] == text[from..from + |Shown(values, parts[n])|];
      assert PartAt(values, parts, text, n) <==> text[from..] == Shown(values, parts[n]);
    }
  }

  /** One more part glued on. */
  lemma GlueOn(values: map<string, Value>, parts: seq<Part>, before: string)
    requires parts != [] && Shows(values, parts[|parts| - 1]) && Glued(values, parts[..|parts| - 1], before)
    ensures Glued(values, parts, before + Shown(values, parts[|parts| - 1]))
  {
    var n := |parts| - 1;
    assert forall i :: 0 <= i < n ==> parts[i] == parts[..n][i];
    assert AllShow(values, parts);
    OffsetOfPrefix(values, parts, n, n);
    var text := before + Shown(values, parts[n]);
    assert text[..|before|] == before && text[|before|..] == Shown(values, parts[n]);
    GluedMore(values, parts, text);
  }

  lemma PartIsShown(env: Env, path: set<string>, values: map<string, Value>, part: Part)
    requires part.Ref? ==> part.name in values && Resolve(env, path, part.name) == Some(values[part.name])
    requires ResolvePart(env, path, part).Some?
    ensures Shows(values, part) && ResolvePart(env, path, part) == Some(Shown(values, part))
  {
  }

  lemma {:induction false} TextIsGlued(env: Env, path: set<string>, values: map<string, Value>, parts: seq<Part>)
    requires Agrees(env, path, values, PartRefs(parts)) && ResolveText(env, path, parts).Some?
    ensures Glued(values, parts, ResolveText(env, path, parts).value)
    decreases |parts|
  {
    if parts != [] {
      var n := |parts| - 1;
      assert PartRefs(parts[..n]) <= PartRefs(parts);
      TextIsGlued(env, path, values, parts[..n]);
      if parts[n].Ref? { assert parts[n].name in PartRefs(parts); }
      PartIsShown(env, path, values, parts[n]);
      GlueOn(values, parts, ResolveText(env, path, parts[..n]).value);
    }
  }

  lemma {:induction false} ItemsResolved(env: Env, path: set<string>, src: Source, k: nat)
    requires src.Listing? && k <= |src.items| && ResolveItems(env, path, src, k).Some?
    ensures var vs := ResolveItems(env, path, src, k).value;
            |vs| == k && forall i :: 0 <= i < k ==> ResolveValue(env, path, src.items[i]) == Some(vs[i])
    decreases k
  {
    if k > 0 { ItemsResolved(env, path, src, k - 1); }
  }

  lemma HasKeyMore(fields: seq<Field>, f: Field, key: string)
    ensures HasKey(fields + [f], key) <==> HasKey(fields, key) || f.key == key
  {
    var longer := fields + [f];
    assert longer[|fields|] == f && forall i :: 0 <= i < |fields| ==> longer[i] == fields[i];
  }

  /** After `k` fields exactly the keys so far are there ... */
  lemma {:induction false} KeysResolved(env: Env, path: set<string>, src: Source, k: nat)
    requires src.Fields? && k <= |src.fields| && ResolveFields(env, path, src, k).Some?
    ensures forall key :: key in ResolveFields(env, path, src, k).value <==> HasKey(src.fields[..k], key)
    decreases k
  {
    if k > 0 {
      KeysResolved(env, path, src, k - 1);
      assert src.fields[..k] == src.fields[..k - 1] + [src.fields[k - 1]];
      forall key ensures key in ResolveFields(env, path, src, k).value <==> HasKey(src.fields[..k], key) {
        HasKeyMore(src.fields[..k - 1], src.fields[k - 1], key);
      }
    }
  }

  /** ... and each has the value of its last field. */
  lemma {:induction false} FieldResolved(env: Env, path: set<string>, src: Source, k: nat, i: nat)
    requires src.Fields? && i < k <= |src.fields| && ResolveFields(env, path, src, k).Some?
    requires forall j :: i < j < k ==> src.fields[j].key != src.fields[i].key
    ensures src.fields[i].key in ResolveFields(env, path, src, k).value
    ensures ResolveValue(env, path, src.fields[i].value)
         == Some(ResolveFields(env, path, src, k).value[src.fields[i].key])
    decreases k
  {
    if i < k - 1 { FieldResolved(env, path, src, k - 1, i); }
  }

  lemma {:induction false} ValueMeans(env: Env, path: set<string>, values: map<string, Value>, src: Source)
    requires Agrees(env, path, values, Refs(src)) && ResolveValue(env, path, src).Some?
    ensures Means(values, src, ResolveValue(env, path, src).value)
    decreases src
  {
    match src
    case Constant(_) =>
    case Whole(n) => assert n in Refs(src);
    case Pieces(parts) => TextIsGlued(env, path, values, parts);
    case Listing(items) =>
      ItemsResolved(env, path, src, |items|);
      forall i | 0 <= i < |items| ensures Means(values, items[i], ResolveItems(env, path, src, |items|).value[i]) {
        assert Refs(items[i]) <= Refs(src);
        ValueMeans(env, path, values, items[i]);
      }
    case Fields(fields) =>
      KeysResolved(env, path, src, |fields|);
      assert fields[..|fields|] == fields;
      var m := ResolveFields(env, path, src, |fields|).value;
      forall i | 0 <= i < |fields| && LastOfKey(fields, i) ensures Means(values, fields[i].value, m[fields[i].key]) {
        assert Refs(fields[i].value) <= Refs(src);
        FieldResolved(env, path, src, |fields|, i);
        ValueMeans(env, path, values, fields[i].value);
      }
  }

  // ----- and there is no other

  lemma {:induction false} TextIsOnly(env: Env, path: set<string>, values: map<string, Value>, parts: seq<Part>, text: string)
    requires Agrees(env, path, values, PartRefs(parts)) && ResolveText(env, path, parts).Some?
    requires Glued(values, parts, text)
    ensures ResolveText(env, path, parts) == Some(text)
    decreases |parts|
  {
    if parts != [] {
      var n := |parts| - 1;
      GluedMore(values, parts, text);
      var from := Offset(values, parts, n);
      assert PartRefs(parts[..n]) <= PartRefs(parts);
      TextIsOnly(env, path, values, parts[..n], text[..from]);
      if parts[n].Ref? { assert parts[n].name in PartRefs(parts); }
      assert text == text[..from] + text[from..];
    }
  }

  lemma {:induction false} LastIndex(fields: seq<Field>, key: string) returns (i: nat)
    requires HasKey(fields, key)
    ensures i < |fields| && fields[i].key == key && LastOfKey(fields, i)
  {
    var n := |fields| - 1;
    if fields[n].key == key {
      i := n;
    } else {
      var j :| 0 <= j < |fields| && fields[j].key == key;
      assert fields[..n][j].key == key;
      i := LastIndex(fields[..n], key);
    }
  }

  lemma {:induction false} ValueIsOnly(env: Env, path: set<string>, values: map<string, Value>, src: Source, v: Value)
    requires Agrees(env, path, values, Refs(src)) && ResolveValue(env, path, src).Some? && Means(values, src, v)
    ensures ResolveValue(env, path, src) == Some(v)
    decreases src
  {
    match src
    case Constant(_) =>
    case Whole(n) => assert n in Refs(src);
    case Pieces(parts) => TextIsOnly(env, path, values, parts, v.text);
    case Listing(items) =>
      ItemsResolved(env, path, src, |items|);
      var vs := ResolveItems(env, path, src, |items|).value;
      forall i | 0 <= i < |items| ensures vs[i] == v.items[i] {
        assert Refs(items[i]) <= Refs(src);
        ValueIsOnly(env, path, values, items[i], v.items[i]);
      }
      assert vs == v.items;
    case Fields(fields) =>
      KeysResolved(env, path, src, |fields|);
      assert fields[..|fields|] == fields;
      var m := ResolveFields(env, path, src, |fields|).value;
      forall key | key in m ensures m[key] == v.fields[key] {
        var i := LastIndex(fields, key);
        assert Refs(fields[i].value) <= Refs(src);
        FieldResolved(env, path, src, |fields|, i);
        ValueIsOnly(env, path, values, fields[i].value, v.fields[key]);
      }
      assert m.Keys == v.fields.Keys;
      assert m == v.fields;
  }

  /** Whatever substitution finds is what every assignment assigns. */
  lemma {:induction false} AssignedIsFound(env: Env, path: set<string>, values: map<string, Value>, n: string)
    requires Assignment(env, values) && Resolve(env, path, n).Some?
    ensures n in values && Resolve(env, path, n) == Some(values[n])
    decreases env.Keys - path
  {
    var inside := path + {n};
    forall r | r in Refs(env[n]) ensures r in values && Resolve(env, inside, r) == Some(values[r]) {
      RefsResolve(env, inside, env[n], r);
      AssignedIsFound(env, inside, values, r);
    }
    ValueIsOnly(env, inside, values, env[n], values[n]);
  }

  /** The value of every variable, by plain substitution. */
  ghost predicate Resolution(env: Env, values: map<string, Value>) {
    values.Keys == env.Keys && forall n :: n in env ==> Resolve(env, {}, n) == Some(values[n])
  }

  lemma VariableMeans(env: Env, values: map<string, Value>, path: set<string>, n: string)
    requires Resolution(env, values) && n in env && path == {} + {n}
    ensures Means(values, env[n], values[n])
  {
    assert Resolve(env, {}, n) == ResolveValue(env, path, env[n]) == Some(values[n]);
    forall r | r in Refs(env[n]) ensures r in values && Resolve(env, path, r) == Some(values[r]) {
      RefsResolve(env, path, env[n], r);
      FewerBlocked(env, path, {}, r);
    }
    ValueMeans(env, path, values, env[n]);
  }

  lemma ResolutionAssigns(env: Env, values: map<string, Value>)
    requires Resolution(env, values)
    ensures Assignment(env, values)
  {
    forall n | n in env ensures Means(values, env[n], values[n]) { VariableMeans(env, values, {} + {n}, n); }
  }

  /** A resolution is an assignment, and the only one. */
  lemma ResolutionIsTheAssignment(env: Env, values: map<string, Value>)
    requires Resolution(env, values)
    ensures Assignment(env, values) && forall other :: Assignment(env, other) ==> other == values
  {
    ResolutionAssigns(env, values);
    forall other | Assignment(env, other) ensures other == values {
      forall n | n in env ensures other[n] == values[n] { AssignedIsFound(env, {}, other, n); }
      assert other.Keys == values.Keys;
    }
  }
}
