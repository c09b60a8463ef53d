/**
 Canonical JSON (internal/canonical/canonical.go): the encoding of a value tree, and why
 it identifies the tree. Objects are maps here, so nothing depends on iteration order.
 */
module CanonicalJson {
  import opened Common
  import opened Strings

  datatype Json =
    | Null
    | Boolean(value: bool)
    | Text(runes: Runes)
    | Array(items: seq<Json>)
    | Object(members: map<Runes, Json>)

  // ----- keys in order

  predicate Ordered(keys: seq<Runes>) { forall i, j :: 0 <= i < j < |keys| ==> Before(keys[i], keys[j]) }

  ghost predicate Lists(keys: seq<Runes>, ks: set<Runes>) {
    Ordered(keys) && forall k :: k in keys <==> k in ks
  }

  lemma {:induction false} OrderIsUnique(a: seq<Runes>, b: seq<Runes>)
    requires Ordered(a) && Ordered(b) && forall k :: k in a <==> k in b
    ensures a == b
  {
    if a != [] && b != [] {
      assert a[0] in b && b[0] in a;
      FirstIsLeast(a, b[0]);
      FirstIsLeast(b, a[0]);
      KeysAreTotallyOrdered(a[0], b[0], a[0]);
      forall k ensures k in a[1..] <==> k in b[1..] {
        RestKeys(a, k);
        RestKeys(b, k);
      }
      OrderIsUnique(a[1..], b[1..]);
      assert a == [a[0]] + a[1..] && b == [b[0]] + b[1..];
    } else {
      NonemptyHasMember(a);
      NonemptyHasMember(b);
    }
  }

  lemma NonemptyHasMember<T>(s: seq<T>)
    ensures s != [] ==> exists k :: k in s
  {
    if s != [] { assert s[0] in s; }
  }

  lemma FirstIsLeast(a: seq<Runes>, k: Runes)
    requires Ordered(a) && k in a
    ensures k == a[0] || Before(a[0], k)
  {
  }

  lemma RestKeys(a: seq<Runes>, k: Runes)
    requires Ordered(a) && a != []
    ensures k in a[1..] <==> k in a && k != a[0]
  {
    assert a == [a[0]] + a[1..];
    if k in a[1..] {
      var i :| 0 <= i < |a[1..]| && a[1..][i] == k;
      assert a[i + 1] == k && Before(a[0], k);
      KeysAreTotallyOrdered(a[0], k, k);
    }
  }

  function Insert(k: Runes, keys: seq<Runes>): seq<Runes> {
    if keys == [] || Before(k, keys[0]) then [k] + keys else [keys[0]] + Insert(k, keys[1..])
  }

  lemma {:induction false} InsertOrders(k: Runes, keys: seq<Runes>)
    requires Ordered(keys) && k !in keys
    ensures Ordered(Insert(k, keys)) && forall x :: x in Insert(k, keys) <==> x == k || x in keys
  {
    if keys != [] {
      KeysAreTotallyOrdered(k, keys[0], keys[0]);
      assert keys == [keys[0]] + keys[1..];
      if Before(k, keys[0]) {
        forall j | 0 <= j < |keys| ensures Before(k, keys[j]) { KeysAreTotallyOrdered(k, keys[0], keys[j]); }
      } else {
        InsertOrders(k, keys[1..]);
        var r := Insert(k, keys[1..]);
        forall j | 0 <= j < |r| ensures Before(keys[0], r[j]) {
          assert r[j] in r;
          if r[j] != k { FirstIsLeast(keys, r[j]); RestKeys(keys, r[j]); }
        }
      }
    }
  }

  lemma {:induction false} KeysCanBeListed(ks: set<Runes>)
    ensures exists keys :: Lists(keys, ks)
  {
    if ks == {} {
      assert Lists([], ks);
    } else {
      var k :| k in ks;
      KeysCanBeListed(ks - {k});
      var rest :| Lists(rest, ks - {k});
      InsertOrders(k, rest);
      assert Lists(Insert(k, rest), ks);
    }
  }

  /** The keys of an object in canonical order. */
  ghost function Keys(ks: set<Runes>): (keys: seq<Runes>)
    ensures Lists(keys, ks)
  {
    KeysCanBeListed(ks);
    var keys :| Lists(keys, ks);
    keys
  }

  // ----- the encoding

  const COMMA: byte := 0x2C
  const COLON: byte := 0x3A
  const OPEN_ARRAY: byte := 0x5B
  const CLOSE_ARRAY: byte := 0x5D
  const OPEN_OBJECT: byte := 0x7B
  const CLOSE_OBJECT: byte := 0x7D

  const NULL_WORD: seq<byte> := [0x6E, 0x75, 0x6C, 0x6C]
  const TRUE_WORD: seq<byte> := [0x74, 0x72, 0x75, 0x65]
  const FALSE_WORD: seq<byte> := [0x66, 0x61, 0x6C, 0x73, 0x65]

  function Separator(n: nat): seq<byte> { if n > 0 then [COMMA] else [] }

  ghost function Write(t: Json): seq<byte>
    decreases t, 1, 0
  {
    match t
    case Null => NULL_WORD
    case Boolean(b) => if b then TRUE_WORD else FALSE_WORD
    case Text(s) => Quote(s)
    case Array(items) => WriteItems(t, |items|) + [CLOSE_ARRAY]
    case Object(members) => WriteMembers(t, Keys(members.Keys), |Keys(members.Keys)|) + [CLOSE_OBJECT]
  }

  /** The opening bracket and the first `n` items. */
  ghost function WriteItems(t: Json, n: nat): seq<byte>
    requires t.Array? && n <= |t.items|
    decreases t, 0, n
  {
    if n == 0 then [OPEN_ARRAY] else WriteItems(t, n - 1) + Separator(n - 1) + Write(t.items[n - 1])
  }

  ghost function WriteMember(t: Json, key: Runes): seq<byte>
    requires t.Object? && key in t.members
    decreases t, 0, 0
  {
    Quote(key) + [COLON] + Write(t.members[key])
  }

  /** The opening brace and the first `n` members in the given order. */
  ghost function WriteMembers(t: Json, keys: seq<Runes>, n: nat): seq<byte>
    requires t.Object? && n <= |keys| && forall k :: k in keys ==> k in t.members
    decreases t, 0, n + 1
  {
    if n == 0 then [OPEN_OBJECT] else WriteMembers(t, keys, n - 1) + Separator(n - 1) + WriteMember(t, keys[n - 1])
  }

  // ----- prefix-freeness

  /** The first byte tells the kind of value. */
  predicate Opens(t: Json, b: byte) {
    match t
    case Null => b == 0x6E
    case Boolean(v) => b == if v then 0x74 else 0x66
    case Text(_) => b == QUOTE
    case Array(_) => b == OPEN_ARRAY
    case Object(_) => b == OPEN_OBJECT
  }

  lemma {:induction false} ItemsOpen(t: Json, n: nat)
    requires t.Array? && n <= |t.items|
    ensures WriteItems(t, n) != [] && WriteItems(t, n)[0] == OPEN_ARRAY
  {
    if n > 0 { ItemsOpen(t, n - 1); }
  }

  lemma {:induction false} MembersOpen(t: Json, keys: seq<Runes>, n: nat)
    requires t.Object? && n <= |keys| && forall k :: k in keys ==> k in t.members
    ensures WriteMembers(t, keys, n) != [] && WriteMembers(t, keys, n)[0] == OPEN_OBJECT
  {
    if n > 0 { MembersOpen(t, keys, n - 1); }
  }

  lemma WriteOpens(t: Json)
    ensures Write(t) != [] && Opens(t, Write(t)[0])
  {
    match t
    case Array(items) => ItemsOpen(t, |items|);
    case Object(members) => MembersOpen(t, Keys(members.Keys), |Keys(members.Keys)|);
    case _ =>
  }

  lemma WordsDiffer(a: Json, b: Json, x: seq<byte>, y: seq<byte>)
    requires Write(a) + x == Write(b) + y
    ensures a.Null? == b.Null? && a.Boolean? == b.Boolean? && a.Text? == b.Text?
    ensures a.Array? == b.Array? && a.Object? == b.Object? && (a.Boolean? ==> a == b)
  {
    WriteOpens(a);
    WriteOpens(b);
    assert Write(a)[0] == (Write(a) + x)[0] == (Write(b) + y)[0] == Write(b)[0];
  }

  /** No encoding is a proper prefix of another, and equal encodings are of equal values. */
  lemma {:induction false} PrefixFree(a: Json, b: Json, x: seq<byte>, y: seq<byte>)
    requires Write(a) + x == Write(b) + y
    ensures a == b && x == y
    decreases a, 1, 0
  {
    WordsDiffer(a, b, x, y);
    match a
    case Null => SameStart(NULL_WORD, x, y);
    case Boolean(_) => SameStart(Write(a), x, y);
    case Text(s) => QuotePrefixFree(s, b.runes, x, y);
    case Array(_) => ArraysPrefixFree(a, b, x, y);
    case Object(_) => ObjectsPrefixFree(a, b, x, y);
  }

  lemma SameStart<T>(p: seq<T>, x: seq<T>, y: seq<T>)
    requires p + x == p + y
    ensures x == y
  {
    assert x == (p + x)[|p|..] && y == (p + y)[|p|..];
  }

  lemma ArraysPrefixFree(a: Json, b: Json, x: seq<byte>, y: seq<byte>)
    requires a.Array? && b.Array? && Write(a) + x == Write(b) + y
    ensures a == b && x == y
    decreases a, 0, |a.items| + 1
  {
    var n, m := |a.items|, |b.items|;
    var p, q := [CLOSE_ARRAY] + x, [CLOSE_ARRAY] + y;
    assert Write(a) + x == WriteItems(a, n) + p;
    assert Write(b) + y == WriteItems(b, m) + q;
    var least := if n < m then n else m;
    var r := ItemsFrom(a, least, p);
    var s := ItemsFrom(b, least, q);
    ItemsPrefixFree(a, b, least, r, s);
    assert r[0] == s[0];
    SameStart([CLOSE_ARRAY], x, y);
  }

  lemma Regroup<T>(a: seq<T>, b: seq<T>, c: seq<T>, x: seq<T>)
    ensures a + b + c + x == a + (b + (c + x))
  {
  }

  lemma ItemsStep(t: Json, n: nat, x: seq<byte>)
    requires t.Array? && 0 < n <= |t.items|
    ensures WriteItems(t, n) + x == WriteItems(t, n - 1) + (Separator(n - 1) + (Write(t.items[n - 1]) + x))
  {
    Regroup(WriteItems(t, n - 1), Separator(n - 1), Write(t.items[n - 1]), x);
  }

  /** Split the writing of an array after its first `k` items: what follows is either the
      end, or a byte that cannot be a closing bracket. */
  lemma {:induction false} ItemsFrom(t: Json, k: nat, p: seq<byte>) returns (r: seq<byte>)
    requires t.Array? && k <= |t.items|
    ensures WriteItems(t, |t.items|) + p == WriteItems(t, k) + r
    ensures k == |t.items| ==> r == p
    ensures k < |t.items| ==> r != [] && r[0] != CLOSE_ARRAY
    decreases |t.items| - k
  {
    if k == |t.items| {
      r := p;
    } else {
      var later := ItemsFrom(t, k + 1, p);
      WriteOpens(t.items[k]);
      r := Separator(k) + (Write(t.items[k]) + later);
      ItemsStep(t, k + 1, later);
    }
  }

  lemma {:induction false} ItemsPrefixFree(a: Json, b: Json, n: nat, x: seq<byte>, y: seq<byte>)
    requires a.Array? && b.Array? && n <= |a.items| && n <= |b.items|
    requires WriteItems(a, n) + x == WriteItems(b, n) + y
    ensures a.items[..n] == b.items[..n] && x == y
    decreases a, 0, n
  {
    if n == 0 {
      SameStart([OPEN_ARRAY], x, y);
    } else {
      var p, q := Write(a.items[n - 1]) + x, Write(b.items[n - 1]) + y;
      var sep := Separator(n - 1);
      ItemsStep(a, n, x);
      ItemsStep(b, n, y);
      ItemsPrefixFree(a, b, n - 1, sep + p, sep + q);
      SameStart(sep, p, q);
      PrefixFree(a.items[n - 1], b.items[n - 1], x, y);
      assert a.items[..n] == a.items[..n - 1] + [a.items[n - 1]];
      assert b.items[..n] == b.items[..n - 1] + [b.items[n - 1]];
    }
  }

  predicate Present(t: Json, keys: seq<Runes>) { t.Object? && forall k :: k in keys ==> k in t.members }

  lemma ObjectsPrefixFree(a: Json, b: Json, x: seq<byte>, y: seq<byte>)
    requires a.Object? && b.Object? && Write(a) + x == Write(b) + y
    ensures a == b && x == y
    decreases a, 0, |Keys(a.members.Keys)| + 2
  {
    ListedPrefixFree(a, b, Keys(a.members.Keys), Keys(b.members.Keys), x, y);
  }

  /** The list names exactly the members. */
  ghost predicate Names(t: Json, keys: seq<Runes>) { t.Object? && forall k :: k in keys <==> k in t.members }

  lemma ListedPrefixFree(a: Json, b: Json, ka: seq<Runes>, kb: seq<Runes>, x: seq<byte>, y: seq<byte>)
    requires Names(a, ka) && Names(b, kb)
    requires WriteMembers(a, ka, |ka|) + [CLOSE_OBJECT] + x == WriteMembers(b, kb, |kb|) + [CLOSE_OBJECT] + y
    ensures a == b && x == y
    decreases a, 0, |ka| + 1
  {
    Assoc(WriteMembers(a, ka, |ka|), [CLOSE_OBJECT], x);
    Assoc(WriteMembers(b, kb, |kb|), [CLOSE_OBJECT], y);
    var least := if |ka| < |kb| then |ka| else |kb|;
    var r := MembersFrom(a, ka, least, [CLOSE_OBJECT] + x);
    var s := MembersFrom(b, kb, least, [CLOSE_OBJECT] + y);
    MembersPrefixFree(a, b, ka, kb, least, r, s);
    SameEnd(ka, kb, least, r, s, x, y);
    SameMembers(a, b, ka);
  }

  lemma Assoc<T>(a: seq<T>, b: seq<T>, c: seq<T>)
    ensures a + b + c == a + (b + c)
  {
  }

  /** Both objects end after the same members. */
  lemma SameEnd(ka: seq<Runes>, kb: seq<Runes>, least: nat, r: seq<byte>, s: seq<byte>, x: seq<byte>, y: seq<byte>)
    requires least <= |ka| && least <= |kb| && (least == |ka| || least == |kb|) && r == s
    requires if least == |ka| then r == [CLOSE_OBJECT] + x else r != [] && r[0] != CLOSE_OBJECT
    requires if least == |kb| then s == [CLOSE_OBJECT] + y else s != [] && s[0] != CLOSE_OBJECT
    requires forall i :: 0 <= i < least ==> ka[i] == kb[i]
    ensures ka == kb && x == y
  {
    assert r[0] == s[0];
    SameStart([CLOSE_OBJECT], x, y);
  }

  lemma SameMembers(a: Json, b: Json, keys: seq<Runes>)
    requires Names(a, keys) && Names(b, keys)
    requires forall i :: 0 <= i < |keys| ==> a.members[keys[i]] == b.members[keys[i]]
    ensures a == b
  {
    assert a.members.Keys == b.members.Keys;
    forall k | k in a.members ensures a.members[k] == b.members[k] {
      assert k in keys;
    }
    assert a.members == b.members;
  }

  lemma MembersStep(t: Json, keys: seq<Runes>, n: nat, x: seq<byte>)
    requires Present(t, keys) && 0 < n <= |keys|
    ensures WriteMembers(t, keys, n) + x
            == WriteMembers(t, keys, n - 1) + (Separator(n - 1) + (WriteMember(t, keys[n - 1]) + x))
  {
    Regroup(WriteMembers(t, keys, n - 1), Separator(n - 1), WriteMember(t, keys[n - 1]), x);
  }

  lemma {:induction false} MembersFrom(t: Json, keys: seq<Runes>, k: nat, p: seq<byte>) returns (r: seq<byte>)
    requires Present(t, keys) && k <= |keys|
    ensures WriteMembers(t, keys, |keys|) + p == WriteMembers(t, keys, k) + r
    ensures k == |keys| ==> r == p
    ensures k < |keys| ==> r != [] && r[0] != CLOSE_OBJECT
    decreases |keys| - k
  {
    if k == |keys| {
      r := p;
    } else {
      var later := MembersFrom(t, keys, k + 1, p);
      r := Separator(k) + (WriteMember(t, keys[k]) + later);
      MembersStep(t, keys, k + 1, later);
    }
  }

  lemma {:induction false} MembersPrefixFree(
    a: Json, b: Json, ka: seq<Runes>, kb: seq<Runes>, n: nat, x: seq<byte>, y: seq<byte>)
    requires Present(a, ka) && Present(b, kb) && n <= |ka| && n <= |kb|
    requires WriteMembers(a, ka, n) + x == WriteMembers(b, kb, n) + y
    ensures forall i :: 0 <= i < n ==> ka[i] == kb[i] && a.members[ka[i]] == b.members[kb[i]]
    ensures x == y
    decreases a, 0, n
  {
    if n == 0 {
      SameStart([OPEN_OBJECT], x, y);
    } else {
      var k, l := ka[n - 1], kb[n - 1];
      var sep := Separator(n - 1);
      MembersStep(a, ka, n, x);
      MembersStep(b, kb, n, y);
      MembersPrefixFree(a, b, ka, kb, n - 1, sep + (WriteMember(a, k) + x), sep + (WriteMember(b, l) + y));
      SameStart(sep, WriteMember(a, k) + x, WriteMember(b, l) + y);
      MemberPrefixFree(a, b, k, l, x, y);
    }
  }

  lemma MemberPrefixFree(a: Json, b: Json, k: Runes, l: Runes, x: seq<byte>, y: seq<byte>)
    requires a.Object? && b.Object? && k in a.members && l in b.members
    requires WriteMember(a, k) + x == WriteMember(b, l) + y
    ensures k == l && a.members[k] == b.members[l] && x == y
    decreases a, 0, 0
  {
    var p, q := Write(a.members[k]) + x, Write(b.members[l]) + y;
    Regroup(Quote(k), [COLON], Write(a.members[k]), x);
    Regroup(Quote(l), [COLON], Write(b.members[l]), y);
    QuotePrefixFree(k, l, [COLON] + p, [COLON] + q);
    SameStart([COLON], p, q);
    PrefixFree(a.members[k], b.members[l], x, y);
  }

  /** The encoding determines the value. */
  lemma WriteIsInjective(a: Json, b: Json)
    ensures Write(a) == Write(b) <==> a == b
  {
    if Write(a) == Write(b) { PrefixFree(a, b, [], []); }
  }

  // ----- the hashed preimage

  predicate TokenByte(b: byte) { 0x61 <= b <= 0x7A || 0x30 <= b <= 0x39 || b == 0x2D }

  /** Go's `validateIdentityToken` over the bytes of the token. */
  predicate Token(s: seq<byte>) { s != [] && forall i :: 0 <= i < |s| ==> TokenByte(s[i]) }

  const DOMAIN: seq<byte> := [0x72, 0x65, 0x70, 0x6C, 0x6F, 0x79, 0x3A]  // "reploy:"

  /** What `Sum` hashes. */
  ghost function Preimage(kind: seq<byte>, schema: seq<byte>, t: Json): Option<seq<byte>> {
    if Token(kind) && Token(schema) then Some(DOMAIN + kind + [COLON] + schema + [0] + Write(t)) else None
  }

  lemma SeparatorAt(p: seq<byte>, sep: byte, x: seq<byte>)
    requires sep !in p
    ensures var s := p + [sep] + x; s[|p|] == sep && forall i :: 0 <= i < |p| ==> s[i] != sep
  {
  }

  lemma Delimited(p: seq<byte>, q: seq<byte>, sep: byte, x: seq<byte>, y: seq<byte>)
    requires sep !in p && sep !in q && p + [sep] + x == q + [sep] + y
    ensures p == q && x == y
  {
    var s, t := p + [sep] + x, q + [sep] + y;
    SeparatorAt(p, sep, x);
    SeparatorAt(q, sep, y);
    assert p == s[..|p|] && q == t[..|q|] && x == s[|p| + 1..] && y == t[|q| + 1..];
  }

  lemma TokensHaveNoSeparators(s: seq<byte>)
    requires Token(s)
    ensures COLON !in s && 0 !in s
  {
  }

  /** Kind, schema and value can all be read off the hashed bytes. */
  lemma PreimageIsInjective(k: seq<byte>, s: seq<byte>, a: Json, l: seq<byte>, t: seq<byte>, b: Json)
    requires Preimage(k, s, a).Some? && Preimage(k, s, a) == Preimage(l, t, b)
    ensures k == l && s == t && a == b
  {
    var p, q := s + [0] + Write(a), t + [0] + Write(b);
    assert Preimage(k, s, a).value == DOMAIN + (k + [COLON] + p);
    assert Preimage(l, t, b).value == DOMAIN + (l + [COLON] + q);
    SameStart(DOMAIN, k + [COLON] + p, l + [COLON] + q);
    TokensHaveNoSeparators(k);
    TokensHaveNoSeparators(l);
    Delimited(k, l, COLON, p, q);
    TokensHaveNoSeparators(s);
    TokensHaveNoSeparators(t);
    Delimited(s, t, 0, Write(a), Write(b));
    WriteIsInjective(a, b);
  }
}
