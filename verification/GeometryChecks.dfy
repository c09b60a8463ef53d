/**
 Validation and retention of mapping geometry (internal/identitymapping/geometry.go):
 `ValidateGeometry` puts a proposal into canonical form, `RetainGeometry` unites it with
 the protected reservations. Both are characterized by the relations the lists stand for.
 */
module GeometryChecks {
  import opened Common
  import opened Geometry

  // ----- sorting, which Go takes from its library

  function ContainerKey(v: Interval): int { v.container }
  function HostKey(v: Interval): int { v.host * TWO_32 + v.count }

  function Insert(v: Interval, s: seq<Interval>, key: Interval -> int): seq<Interval> {
    if s == [] || key(v) <= key(s[0]) then [v] + s else [s[0]] + Insert(v, s[1..], key)
  }

  function SortBy(s: seq<Interval>, key: Interval -> int): seq<Interval> {
    if s == [] then [] else Insert(s[0], SortBy(s[1..], key), key)
  }

  predicate SortedBy(s: seq<Interval>, key: Interval -> int) {
    forall i, j :: 0 <= i < j < |s| ==> key(s[i]) <= key(s[j])
  }

  lemma {:induction false} InsertMembers(v: Interval, s: seq<Interval>, key: Interval -> int)
    ensures multiset(Insert(v, s, key)) == multiset(s) + multiset{v}
  {
    if s != [] {
      assert s == [s[0]] + s[1..];
      if key(v) > key(s[0]) { InsertMembers(v, s[1..], key); }
    }
  }

  lemma {:induction false} InsertBound(v: Interval, s: seq<Interval>, key: Interval -> int, least: int)
    requires least <= key(v) && forall i :: 0 <= i < |s| ==> least <= key(s[i])
    ensures forall i :: 0 <= i < |Insert(v, s, key)| ==> least <= key(Insert(v, s, key)[i])
  {
    if s != [] && key(v) > key(s[0]) { InsertBound(v, s[1..], key, least); }
  }

  lemma {:induction false} InsertSorts(v: Interval, s: seq<Interval>, key: Interval -> int)
    requires SortedBy(s, key)
    ensures SortedBy(Insert(v, s, key), key)
  {
    if s != [] && key(v) > key(s[0]) {
      InsertSorts(v, s[1..], key);
      InsertBound(v, s[1..], key, key(s[0]));
    }
  }

  lemma {:induction false} SortSorts(s: seq<Interval>, key: Interval -> int)
    ensures SortedBy(SortBy(s, key), key)
    ensures multiset(SortBy(s, key)) == multiset(s)
  {
    if s != [] {
      SortSorts(s[1..], key);
      InsertMembers(s[0], SortBy(s[1..], key), key);
      InsertSorts(s[0], SortBy(s[1..], key), key);
      assert s == [s[0]] + s[1..];
    }
  }

  lemma {:induction false} SortOfSorted(s: seq<Interval>, key: Interval -> int)
    requires SortedBy(s, key)
    ensures SortBy(s, key) == s
  {
    if s != [] {
      SortOfSorted(s[1..], key);
      assert s == [s[0]] + s[1..];
    }
  }

  // ----- what does not depend on the order of a list

  ghost predicate Permuted(a: seq<Interval>, b: seq<Interval>) { multiset(a) == multiset(b) }

  lemma MembersAreEqual(a: seq<Interval>, b: seq<Interval>, v: Interval)
    requires Permuted(a, b)
    ensures v in a <==> v in b
  {
    assert v in a <==> v in multiset(a);
    assert v in b <==> v in multiset(b);
  }

  lemma BindsByMember(s: seq<Interval>, c: int, h: int)
    ensures Binds(s, c, h) <==> exists v :: v in s && HasBinding(v, c, h)
  {
    if Binds(s, c, h) {
      var i :| 0 <= i < |s| && s[i].Has(c) && h == c + s[i].Offset();
      assert s[i] in s && HasBinding(s[i], c, h);
    }
    if exists v :: v in s && HasBinding(v, c, h) {
      var v :| v in s && HasBinding(v, c, h);
      var i :| 0 <= i < |s| && s[i] == v;
      assert s[i].Has(c) && h == c + s[i].Offset();
    }
  }

  lemma PermutedMeaning(a: seq<Interval>, b: seq<Interval>)
    requires Permuted(a, b)
    ensures SameMeaning(a, b) && |a| == |b|
    ensures AllValid(a) <==> AllValid(b)
    ensures NoHostRoot(a) <==> NoHostRoot(b)
  {
    forall v ensures v in a <==> v in b { MembersAreEqual(a, b, v); }
    forall c, h ensures Binds(a, c, h) <==> Binds(b, c, h) {
      BindsByMember(a, c, h);
      BindsByMember(b, c, h);
    }
    assert |a| == |multiset(a)| && |b| == |multiset(b)|;
    assert AllValid(a) <==> forall v :: v in a ==> v.Valid();
    assert AllValid(b) <==> forall v :: v in b ==> v.Valid();
    assert NoHostRoot(a) <==> forall v :: v in a ==> v.host != 0;
    assert NoHostRoot(b) <==> forall v :: v in b ==> v.host != 0;
  }

  predicate ContainersClear(x: Interval, y: Interval) { x.End() <= y.container || y.End() <= x.container }
  predicate HostsClear(x: Interval, y: Interval) { x.HostEnd() <= y.host || y.HostEnd() <= x.host }

  /** Any two different places of the list hold intervals related by `r`. */
  ghost predicate Pairwise(s: seq<Interval>, r: (Interval, Interval) -> bool) {
    forall x, y | x in multiset(s) && y in multiset(s) - multiset{x} :: r(x, y)
  }

  lemma OtherPlace(s: seq<Interval>, i: nat, j: nat)
    requires i < |s| && j < |s| && i != j
    ensures s[i] in multiset(s) && s[j] in multiset(s) - multiset{s[i]}
  {
    assert s == s[..i] + [s[i]] + s[i + 1..];
    assert multiset(s) - multiset{s[i]} == multiset(s[..i]) + multiset(s[i + 1..]);
    if j < i { assert s[..i][j] == s[j]; } else { assert s[i + 1..][j - i - 1] == s[j]; }
  }

  lemma PlacesOf(s: seq<Interval>, x: Interval, y: Interval) returns (i: nat, j: nat)
    requires x in multiset(s) && y in multiset(s) - multiset{x}
    ensures i < |s| && j < |s| && i != j && s[i] == x && s[j] == y
  {
    assert x in s;
    i :| 0 <= i < |s| && s[i] == x;
    assert s == s[..i] + [x] + s[i + 1..];
    assert multiset(s) - multiset{x} == multiset(s[..i]) + multiset(s[i + 1..]);
    if y in multiset(s[..i]) {
      j :| 0 <= j < i && s[..i][j] == y;
    } else {
      assert y in multiset(s[i + 1..]);
      var k :| 0 <= k < |s[i + 1..]| && s[i + 1..][k] == y;
      j := i + 1 + k;
    }
  }

  lemma PairwiseByPlaces(s: seq<Interval>, r: (Interval, Interval) -> bool)
    requires forall x, y :: r(x, y) <==> r(y, x)
    ensures Pairwise(s, r) <==> forall i, j :: 0 <= i < j < |s| ==> r(s[i], s[j])
  {
    if Pairwise(s, r) {
      forall i, j | 0 <= i < j < |s| ensures r(s[i], s[j]) { OtherPlace(s, i, j); }
    }
    if forall i, j :: 0 <= i < j < |s| ==> r(s[i], s[j]) {
      forall x, y | x in multiset(s) && y in multiset(s) - multiset{x} ensures r(x, y) {
        var i, j := PlacesOf(s, x, y);
      }
    }
  }

  // ----- host spans

  predicate HostSpansOk(s: seq<Interval>) {
    s != [] && AllValid(s) && NoHostRoot(s) && HostsApart(s)
  }

  /** Go's `hostSpans`: sort by host start and compare neighbours. */
  method HostSpansAreFree(values: seq<Interval>) returns (ok: bool)
    ensures ok <==> HostSpansOk(values)
  {
    if values == [] { return false; }
    for n := 0 to |values|
      invariant forall i :: 0 <= i < n ==> values[i].Valid() && values[i].host != 0
    {
      if !values[n].Valid() || values[n].host == 0 { return false; }
    }
    var spans := SortBy(values, HostKey);
    SortSorts(values, HostKey);
    PermutedMeaning(values, spans);
    HostsApartIgnoresOrder(values, spans);
    ok := NeighboursAreFree(spans);
  }

  method NeighboursAreFree(spans: seq<Interval>) returns (ok: bool)
    requires spans != [] && AllValid(spans) && SortedBy(spans, HostKey)
    ensures ok <==> HostsApart(spans)
  {
    for n := 1 to |spans|
      invariant NeighboursFollow(spans, n)
    {
      if spans[n - 1].host < spans[n].HostEnd() && spans[n].host < spans[n - 1].HostEnd() {
        NeighboursOverlap(spans, n);
        return false;
      }
      assert HostKey(spans[n - 1]) <= HostKey(spans[n]);
    }
    FollowersAreApart(spans);
    return true;
  }

  predicate NeighboursFollow(s: seq<Interval>, n: nat) {
    forall i :: 0 <= i < n - 1 && i < |s| - 1 ==> s[i].HostEnd() <= s[i + 1].host
  }

  lemma FollowersAreApart(s: seq<Interval>)
    requires SortedBy(s, HostKey) && AllValid(s) && NeighboursFollow(s, |s|)
    ensures HostsApart(s)
  {
    forall i, j | 0 <= i < j < |s| ensures s[i].HostEnd() <= s[j].host {
      assert s[i].HostEnd() <= s[i + 1].host;
      assert j == i + 1 || HostKey(s[i + 1]) <= HostKey(s[j]);
    }
  }

  lemma HostsApartIgnoresOrder(a: seq<Interval>, b: seq<Interval>)
    requires Permuted(a, b)
    ensures HostsApart(a) <==> HostsApart(b)
  {
    PairwiseByPlaces(a, HostsClear);
    PairwiseByPlaces(b, HostsClear);
  }

  lemma NeighboursOverlap(s: seq<Interval>, n: nat)
    requires 1 <= n < |s|
    requires s[n - 1].host < s[n].HostEnd() && s[n].host < s[n - 1].HostEnd()
    ensures !HostsApart(s)
  {
  }

  // ----- one ID domain

  datatype Profile = Exact | Bounded | OtherProfile(name: string)

  predicate NeighboursApart(s: seq<Interval>) {
    forall i :: 0 < i < |s| ==> s[i - 1].End() <= s[i].container
  }

  function ValidateDomain(profile: Profile, values: seq<Interval>): Option<seq<Interval>> {
    if values == [] || (profile == Bounded && |values| != 1) then None
    else
      var ordered := SortBy(values, ContainerKey);
      if !AllValid(ordered) || !NeighboursApart(ordered) || !HostSpansOk(ordered) then None
      else Combine(ordered)
  }

  /** What a proposal must satisfy, in whatever order its intervals are listed. */
  ghost predicate Acceptable(profile: Profile, values: seq<Interval>) {
    && values != [] && (profile == Bounded ==> |values| == 1)
    && AllValid(values) && NoHostRoot(values)
    && Pairwise(values, ContainersClear)
    && Pairwise(values, HostsClear)
  }

  predicate CanonicalDomain(profile: Profile, s: seq<Interval>) {
    && s != [] && (profile == Bounded ==> |s| == 1)
    && Form(s) && HostsApart(s) && NoHostRoot(s)
  }

  lemma ApartIsFunctional(s: seq<Interval>)
    requires Apart(s)
    ensures Functional(s)
  {
    forall c, h, k | Binds(s, c, h) && Binds(s, c, k) ensures h == k {
      var i :| 0 <= i < |s| && s[i].Has(c) && h == c + s[i].Offset();
      var j :| 0 <= j < |s| && s[j].Has(c) && k == c + s[j].Offset();
      assert i == j;
    }
  }

  lemma HostsApartIsInjective(s: seq<Interval>)
    requires AllValid(s) && Apart(s)
    ensures HostsApart(s) <==> Injective(s)
  {
    if HostsApart(s) {
      forall c, d, h | Binds(s, c, h) && Binds(s, d, h) ensures c == d {
        var i :| 0 <= i < |s| && s[i].Has(c) && h == c + s[i].Offset();
        var j :| 0 <= j < |s| && s[j].Has(d) && h == d + s[j].Offset();
        assert i == j;
      }
    }
    if Injective(s) {
      forall i, j | 0 <= i < j < |s| ensures HostsClear(s[i], s[j]) {
        var h := Max(s[i].host, s[j].host);
        var c, d := h - s[i].Offset(), h - s[j].Offset();
        if h < s[i].HostEnd() && h < s[j].HostEnd() {
          assert s[i].Has(c) && Binds(s, c, h) && s[j].Has(d) && Binds(s, d, h);
        }
      }
    }
  }

  lemma NoRootByMeaning(s: seq<Interval>)
    requires AllValid(s)
    ensures NoHostRoot(s) <==> !exists c :: Binds(s, c, 0)
  {
    if i :| 0 <= i < |s| && s[i].host == 0 { assert s[i].Has(s[i].container) && Binds(s, s[i].container, 0); }
  }

  /** Equal relations in canonical form agree on everything about hosts. */
  lemma HostsByMeaning(a: seq<Interval>, b: seq<Interval>)
    requires AllValid(a) && Apart(a) && AllValid(b) && Apart(b) && SameMeaning(a, b)
    ensures HostsApart(a) <==> HostsApart(b)
    ensures NoHostRoot(a) <==> NoHostRoot(b)
  {
    HostsApartIsInjective(a);
    HostsApartIsInjective(b);
    NoRootByMeaning(a);
    NoRootByMeaning(b);
  }

  lemma FormIsSorted(s: seq<Interval>)
    requires AllValid(s) && Apart(s)
    ensures SortedBy(s, ContainerKey) && NeighboursApart(s)
  {
    forall i, j | 0 <= i < j < |s| ensures ContainerKey(s[i]) <= ContainerKey(s[j]) {
      assert s[i].End() <= s[j].container;
    }
  }

  lemma SortedByContainer(s: seq<Interval>)
    requires SortedBy(s, ContainerKey)
    ensures Sorted(s)
    ensures NeighboursApart(s) <==> Apart(s)
  {
    forall i, j | 0 <= i < j < |s| ensures s[i].container <= s[j].container {
      assert ContainerKey(s[i]) <= ContainerKey(s[j]);
    }
    if NeighboursApart(s) {
      forall i, j | 0 <= i < j < |s| ensures s[i].End() <= s[j].container {
        assert s[i + 1 - 1].End() <= s[i + 1].container;
        assert j == i + 1 || s[i + 1].container <= s[j].container;
      }
    }
  }

  lemma ApartIsPairwise(s: seq<Interval>)
    requires Sorted(s) && AllValid(s)
    ensures Apart(s) <==> Pairwise(s, ContainersClear)
  {
    PairwiseByPlaces(s, ContainersClear);
    if Pairwise(s, ContainersClear) {
      forall i, j | 0 <= i < j < |s| ensures s[i].End() <= s[j].container {
        assert ContainersClear(s[i], s[j]) && s[j].Valid() && s[i].container <= s[j].container;
      }
    }
  }

  lemma PermutedPairwise(a: seq<Interval>, b: seq<Interval>)
    requires Permuted(a, b)
    ensures Pairwise(a, ContainersClear) <==> Pairwise(b, ContainersClear)
    ensures Pairwise(a, HostsClear) <==> Pairwise(b, HostsClear)
  {
  }

  /** The facts Go checks on a sorted list, in terms of the list as proposed. */
  lemma SortedFacts(values: seq<Interval>, ordered: seq<Interval>)
    requires Permuted(values, ordered) && SortedBy(ordered, ContainerKey)
    ensures AllValid(values) ==> (NeighboursApart(ordered) <==> Pairwise(values, ContainersClear))
    ensures HostsApart(ordered) <==> Pairwise(values, HostsClear)
  {
    PermutedMeaning(values, ordered);
    SortedByContainer(ordered);
    PermutedPairwise(values, ordered);
    if AllValid(values) { ApartIsPairwise(ordered); }
    PairwiseByPlaces(ordered, HostsClear);
    assert HostsApart(ordered) <==> forall i, j :: 0 <= i < j < |ordered| ==> HostsClear(ordered[i], ordered[j]);
  }

  /** Combining a list that passed all the checks keeps their outcome. */
  lemma CombineOfChecked(profile: Profile, s: seq<Interval>)
    requires s != [] && AllValid(s) && Sorted(s) && Apart(s) && HostsApart(s) && NoHostRoot(s)
    requires profile == Bounded ==> |s| == 1
    ensures Combine(s).Some? && CanonicalDomain(profile, Combine(s).value) && SameMeaning(Combine(s).value, s)
  {
    ApartIsFunctional(s);
    CombineMeaning(s);
    HostsByMeaning(s, Combine(s).value);
    if |s| == 1 { CombineOfForm(s); }
  }

  /** Validation accepts exactly the acceptable lists, in any order, and returns the
      canonical form of the same relation. */
  lemma ValidateDomainMeaning(profile: Profile, values: seq<Interval>)
    ensures ValidateDomain(profile, values).Some? <==> Acceptable(profile, values)
    ensures ValidateDomain(profile, values).Some? ==>
              var r := ValidateDomain(profile, values).value;
              CanonicalDomain(profile, r) && SameMeaning(r, values)
  {
    var ordered := SortBy(values, ContainerKey);
    SortSorts(values, ContainerKey);
    PermutedMeaning(values, ordered);
    SortedByContainer(ordered);
    SortedFacts(values, ordered);
    if ordered != [] && AllValid(ordered) && Apart(ordered) && HostSpansOk(ordered)
       && (profile == Bounded ==> |ordered| == 1) {
      CombineOfChecked(profile, ordered);
    }
  }

  /** The loop of Go's `ValidateGeometry` over one domain. */
  method CheckDomain(profile: Profile, values: seq<Interval>) returns (r: Option<seq<Interval>>)
    ensures r == ValidateDomain(profile, values)
  {
    if values == [] || (profile == Bounded && |values| != 1) { return None; }
    var ordered := SortBy(values, ContainerKey);
    for j := 0 to |ordered|
      invariant forall i :: 0 <= i < j ==> ordered[i].Valid()
      invariant forall i :: 0 < i < j ==> ordered[i - 1].End() <= ordered[i].container
    {
      if !ordered[j].Valid() { return None; }
      if j > 0 && ordered[j].container < ordered[j - 1].End() { return None; }
    }
    var free := HostSpansAreFree(ordered);
    if !free { return None; }
    r := CombineReservations(ordered);
  }

  lemma {:induction false} CombineOfForm(s: seq<Interval>)
    requires Form(s)
    ensures Combine(s) == Some(s)
  {
    if s != [] {
      var n := |s| - 1;
      CombineOfForm(s[..n]);
      assert s == s[..n] + [s[n]];
      if n > 0 { assert !Joins(s[n - 1], s[n]); }
    }
  }

  lemma CanonicalIsFixed(profile: Profile, s: seq<Interval>)
    requires CanonicalDomain(profile, s)
    ensures ValidateDomain(profile, s) == Some(s)
  {
    FormIsSorted(s);
    SortOfSorted(s, ContainerKey);
    CombineOfForm(s);
  }

  lemma ValidationIgnoresOrder(profile: Profile, a: seq<Interval>, b: seq<Interval>)
    requires Permuted(a, b)
    ensures ValidateDomain(profile, a) == ValidateDomain(profile, b)
  {
    PermutedMeaning(a, b);
    ValidateDomainMeaning(profile, a);
    ValidateDomainMeaning(profile, b);
    assert Acceptable(profile, a) <==> Acceptable(profile, b);
    if Acceptable(profile, a) {
      CanonicalFormIsUnique(ValidateDomain(profile, a).value, ValidateDomain(profile, b).value);
    }
  }

  // ----- retention of one ID domain

  function RetainDomain(protected: seq<Interval>, values: seq<Interval>): Option<seq<Interval>> {
    match Combine(SortBy(protected + values, ContainerKey))
    case None => None
    case Some(reserved) => if HostSpansOk(reserved) then Some(reserved) else None
  }

  method UniteDomain(protected: seq<Interval>, values: seq<Interval>) returns (r: Option<seq<Interval>>)
    ensures r == RetainDomain(protected, values)
  {
    r := CombineReservations(SortBy(protected + values, ContainerKey));
    if r.Some? {
      var free := HostSpansAreFree(r.value);
      if !free { return None; }
    }
  }

  lemma UnionBinds(a: seq<Interval>, b: seq<Interval>, c: int, h: int)
    ensures Binds(a + b, c, h) <==> Binds(a, c, h) || Binds(b, c, h)
  {
    BindsByMember(a, c, h);
    BindsByMember(b, c, h);
    BindsByMember(a + b, c, h);
  }

  /** The relation of any sorted permutation of the concatenation is the union of the two. */
  lemma UnionFacts(protected: seq<Interval>, values: seq<Interval>, ordered: seq<Interval>)
    requires AllValid(protected) && AllValid(values) && protected != []
    requires Permuted(protected + values, ordered) && SortedBy(ordered, ContainerKey)
    ensures ordered != [] && AllValid(ordered) && Sorted(ordered)
    ensures forall c, h :: Binds(ordered, c, h) <==> Binds(protected, c, h) || Binds(values, c, h)
  {
    var both := protected + values;
    PermutedMeaning(both, ordered);
    SortedByContainer(ordered);
    forall i | 0 <= i < |both| ensures both[i].Valid() {
      assert i < |protected| ==> both[i] == protected[i];
      assert i >= |protected| ==> both[i] == values[i - |protected|];
    }
    forall c, h ensures Binds(ordered, c, h) <==> Binds(protected, c, h) || Binds(values, c, h) {
      UnionBinds(protected, values, c, h);
    }
  }

  lemma UnionIsPartialInjection(protected: seq<Interval>, values: seq<Interval>, union: seq<Interval>)
    requires CanonicalDomain(Exact, protected) && CanonicalDomain(Exact, values)
    requires forall c, h :: Binds(union, c, h) <==> Binds(protected, c, h) || Binds(values, c, h)
    ensures Functional(union) <==> Agree(protected, values)
    ensures Injective(union) <==> HostsAgree(protected, values)
    ensures !exists c :: Binds(union, c, 0)
  {
    ApartIsFunctional(protected);
    ApartIsFunctional(values);
    HostsApartIsInjective(protected);
    HostsApartIsInjective(values);
    NoRootByMeaning(protected);
    NoRootByMeaning(values);
  }

  /** What the checks after combining decide, in terms of the combined relation. */
  lemma CombinedUnion(protected: seq<Interval>, values: seq<Interval>, ordered: seq<Interval>)
    requires CanonicalDomain(Exact, protected) && CanonicalDomain(Exact, values)
    requires ordered != [] && AllValid(ordered) && Sorted(ordered)
    requires forall c, h :: Binds(ordered, c, h) <==> Binds(protected, c, h) || Binds(values, c, h)
    ensures Combine(ordered).Some? <==> Agree(protected, values)
    ensures Combine(ordered).Some? ==>
              var r := Combine(ordered).value;
              && SameMeaning(r, ordered) && r != [] && Form(r) && NoHostRoot(r)
              && (HostsApart(r) <==> HostsAgree(protected, values))
  {
    CombineMeaning(ordered);
    UnionIsPartialInjection(protected, values, ordered);
    if Combine(ordered).Some? {
      var r := Combine(ordered).value;
      UnionIsPartialInjection(protected, values, r);
      HostsApartIsInjective(r);
      NoRootByMeaning(r);
    }
  }

  /** Retention succeeds exactly when the union of the two relations still binds every
      container ID and every host ID at most once, and returns that union. */
  lemma RetainDomainMeaning(protected: seq<Interval>, values: seq<Interval>)
    requires CanonicalDomain(Exact, protected) && CanonicalDomain(Exact, values)
    ensures RetainDomain(protected, values).Some? <==> Agree(protected, values) && HostsAgree(protected, values)
    ensures RetainDomain(protected, values).Some? ==>
              var r := RetainDomain(protected, values).value;
              && CanonicalDomain(Exact, r)
              && forall c, h :: Binds(r, c, h) <==> Binds(protected, c, h) || Binds(values, c, h)
  {
    var ordered := SortBy(protected + values, ContainerKey);
    SortSorts(protected + values, ContainerKey);
    UnionFacts(protected, values, ordered);
    CombinedUnion(protected, values, ordered);
  }
}
