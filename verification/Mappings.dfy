/**
 Two-domain mappings: validation, union with protected reservations, containment by
 union equality, and projection onto declared IDs (internal/identitymapping/geometry.go,
 internal/deploy/identity_execution_plan.go).
 */
module Mappings {
  import opened Common
  import opened Geometry
  import opened GeometryChecks
  import opened Subtraction

  datatype Mapping = Mapping(profile: Profile, uids: seq<Interval>, gids: seq<Interval>)

  function ValidateGeometry(g: Mapping): Option<Mapping> {
    if g.profile.OtherProfile? then None
    else
      match (ValidateDomain(g.profile, g.uids), ValidateDomain(g.profile, g.gids))
      case (Some(uids), Some(gids)) => Some(Mapping(g.profile, uids, gids))
      case _ => None
  }

  function RetainExact(candidate: Mapping, previous: Mapping): Option<Mapping> {
    match (RetainDomain(previous.uids, candidate.uids), RetainDomain(previous.gids, candidate.gids))
    case (Some(uids), Some(gids)) => Some(Mapping(candidate.profile, uids, gids))
    case _ => None
  }

  function RetainGeometry(proposed: Mapping, retained: Option<Mapping>): Option<Mapping> {
    match ValidateGeometry(proposed)
    case None => None
    case Some(candidate) =>
      if retained.None? then Some(candidate)
      else
        match ValidateGeometry(retained.value)
        case None => None
        case Some(previous) =>
          if candidate.profile != previous.profile then None
          else if candidate.profile == Bounded then (if candidate == previous then Some(previous) else None)
          else RetainExact(candidate, previous)
  }

  method Validate(g: Mapping) returns (r: Option<Mapping>)
    ensures r == ValidateGeometry(g)
  {
    if g.profile.OtherProfile? { return None; }
    var uids := CheckDomain(g.profile, g.uids);
    var gids := CheckDomain(g.profile, g.gids);
    if uids.None? || gids.None? { return None; }
    return Some(Mapping(g.profile, uids.value, gids.value));
  }

  method Retain(proposed: Mapping, retained: Option<Mapping>) returns (r: Option<Mapping>)
    ensures r == RetainGeometry(proposed, retained)
  {
    var candidate := Validate(proposed);
    if candidate.None? || retained.None? { return candidate; }
    var previous := Validate(retained.value);
    if previous.None? || candidate.value.profile != previous.value.profile { return None; }
    if candidate.value.profile == Bounded {
      return if candidate == previous then previous else None;
    }
    var uids := UniteDomain(previous.value.uids, candidate.value.uids);
    var gids := UniteDomain(previous.value.gids, candidate.value.gids);
    if uids.None? || gids.None? { return None; }
    return Some(Mapping(candidate.value.profile, uids.value, gids.value));
  }

  predicate Canonical(g: Mapping) {
    && !g.profile.OtherProfile?
    && CanonicalDomain(g.profile, g.uids) && CanonicalDomain(g.profile, g.gids)
  }

  lemma CanonicalIsValidated(g: Mapping)
    requires Canonical(g)
    ensures ValidateGeometry(g) == Some(g)
  {
    CanonicalIsFixed(g.profile, g.uids);
    CanonicalIsFixed(g.profile, g.gids);
  }

  lemma ValidatedIsCanonical(g: Mapping)
    requires ValidateGeometry(g).Some?
    ensures var r := ValidateGeometry(g).value;
            && Canonical(r) && r.profile == g.profile
            && SameMeaning(r.uids, g.uids) && SameMeaning(r.gids, g.gids)
  {
    ValidateDomainMeaning(g.profile, g.uids);
    ValidateDomainMeaning(g.profile, g.gids);
  }

  lemma ValidateTwice(g: Mapping)
    requires ValidateGeometry(g).Some?
    ensures ValidateGeometry(ValidateGeometry(g).value) == ValidateGeometry(g)
  {
    ValidatedIsCanonical(g);
    CanonicalIsValidated(ValidateGeometry(g).value);
  }

  /** Retention only looks at the canonical form of what it is given. */
  lemma RetainOfValidated(a: Mapping, p: Option<Mapping>)
    ensures ValidateGeometry(a).Some? ==> RetainGeometry(a, p) == RetainGeometry(ValidateGeometry(a).value, p)
    ensures ValidateGeometry(a).None? ==> RetainGeometry(a, p).None?
  {
    if ValidateGeometry(a).Some? { ValidateTwice(a); }
  }

  lemma RetainOverValidated(a: Mapping, p: Mapping)
    ensures ValidateGeometry(p).Some? ==> RetainGeometry(a, Some(p)) == RetainGeometry(a, ValidateGeometry(p))
    ensures ValidateGeometry(p).None? ==> RetainGeometry(a, Some(p)).None?
  {
    if ValidateGeometry(p).Some? { ValidateTwice(p); }
  }

  // ----- unions and containment of mappings

  ghost predicate Compatible(a: seq<Interval>, b: seq<Interval>) { Agree(a, b) && HostsAgree(a, b) }

  ghost predicate IsUnion(r: seq<Interval>, a: seq<Interval>, b: seq<Interval>) {
    forall c, h :: Binds(r, c, h) <==> Binds(a, c, h) || Binds(b, c, h)
  }

  /** Every binding of `a` is a binding of `b`. */
  ghost predicate Contained(a: Mapping, b: Mapping) { Within(a.uids, b.uids) && Within(a.gids, b.gids) }

  lemma DomainCompatibleWithItself(profile: Profile, s: seq<Interval>)
    requires CanonicalDomain(profile, s)
    ensures Compatible(s, s)
  {
    ApartIsFunctional(s);
    HostsApartIsInjective(s);
  }

  /** Retention of a canonical candidate over canonical reservations. */
  lemma RetainMeaning(a: Mapping, p: Mapping)
    requires Canonical(a) && Canonical(p)
    ensures RetainGeometry(a, Some(p)).Some? <==>
              && a.profile == p.profile && (a.profile == Bounded ==> a == p)
              && Compatible(p.uids, a.uids) && Compatible(p.gids, a.gids)
    ensures RetainGeometry(a, Some(p)).Some? ==>
              var r := RetainGeometry(a, Some(p)).value;
              && Canonical(r) && r.profile == a.profile
              && IsUnion(r.uids, p.uids, a.uids) && IsUnion(r.gids, p.gids, a.gids)
  {
    CanonicalIsValidated(a);
    CanonicalIsValidated(p);
    if a.profile == p.profile == Exact {
      RetainDomainMeaning(p.uids, a.uids);
      RetainDomainMeaning(p.gids, a.gids);
    } else if a == p {
      DomainCompatibleWithItself(a.profile, a.uids);
      DomainCompatibleWithItself(a.profile, a.gids);
    }
  }

  lemma WithinIsCompatible(profile: Profile, a: seq<Interval>, p: seq<Interval>)
    requires CanonicalDomain(profile, p) && Within(a, p)
    ensures Compatible(p, a) && IsUnion(p, p, a)
  {
    DomainCompatibleWithItself(profile, p);
  }

  /** The test Go uses for containment: the union with `p` is `p` itself. */
  predicate UnionIsUnchanged(a: Mapping, p: Mapping) { RetainGeometry(a, Some(p)) == Some(p) }

  lemma UnionTestIsContainment(a: Mapping, p: Mapping)
    requires Canonical(a) && Canonical(p)
    ensures UnionIsUnchanged(a, p) <==> a.profile == p.profile && Contained(a, p) && (a.profile == Bounded ==> a == p)
  {
    RetainMeaning(a, p);
    if a.profile == p.profile && Contained(a, p) && (a.profile == Bounded ==> a == p) {
      WithinIsCompatible(p.profile, a.uids, p.uids);
      WithinIsCompatible(p.profile, a.gids, p.gids);
      var r := RetainGeometry(a, Some(p)).value;
      CanonicalFormIsUnique(r.uids, p.uids);
      CanonicalFormIsUnique(r.gids, p.gids);
    }
  }

  // ----- projection onto declared IDs

  /** A list of the bindings of `intervals` for the container IDs in `ids`. */
  ghost predicate IsProjection(r: seq<Interval>, intervals: seq<Interval>, ids: set<uint32>) {
    && AllValid(r) && Apart(r)
    && forall c, h :: Binds(r, c, h) <==> c in ids && Binds(intervals, c, h)
  }

  /** The plain form: walk every ID of every interval. */
  function Singles(v: Interval, lo: int, ids: set<int>): seq<Interval>
    requires v.Valid() && v.container <= lo <= v.End()
    decreases v.End() - lo
  {
    if lo == v.End() then []
    else (if lo in ids then [Interval(lo, lo + v.Offset(), 1)] else []) + Singles(v, lo + 1, ids)
  }

  function Project(intervals: seq<Interval>, ids: set<int>): seq<Interval>
    requires AllValid(intervals)
  {
    if intervals == [] then []
    else
      var n := |intervals| - 1;
      Project(intervals[..n], ids) + Singles(intervals[n], intervals[n].container, ids)
  }

  lemma {:induction false} SinglesMeaning(v: Interval, lo: int, ids: set<int>)
    requires v.Valid() && v.container <= lo <= v.End()
    ensures var r := Singles(v, lo, ids);
            && AllValid(r) && Apart(r)
            && (forall i :: 0 <= i < |r| ==> lo <= r[i].container && r[i].End() <= v.End())
            && forall c, h :: Binds(r, c, h) <==> c in ids && HasBinding(v, c, h) && lo <= c
    decreases v.End() - lo
  {
    if lo < v.End() {
      SinglesMeaning(v, lo + 1, ids);
      var head, tail := if lo in ids then [Interval(lo, lo + v.Offset(), 1)] else [], Singles(v, lo + 1, ids);
      forall c, h ensures Binds(head + tail, c, h) <==> c in ids && HasBinding(v, c, h) && lo <= c {
        ConcatBinds(head, tail, c, h);
        if head != [] { assert Binds(head, c, h) <==> HasBinding(head[0], c, h); }
      }
    }
  }

  lemma AppendApart(a: seq<Interval>, b: seq<Interval>, bound: int)
    requires AllValid(a) && Apart(a) && AllValid(b) && Apart(b)
    requires forall i :: 0 <= i < |a| ==> a[i].End() <= bound
    requires forall i :: 0 <= i < |b| ==> bound <= b[i].container
    ensures AllValid(a + b) && Apart(a + b)
  {
  }

  lemma {:induction false} ProjectMeaning(intervals: seq<Interval>, ids: set<int>)
    requires AllValid(intervals) && Apart(intervals)
    ensures AllValid(Project(intervals, ids)) && Apart(Project(intervals, ids))
    ensures forall i, k :: 0 <= i < |Project(intervals, ids)| && |intervals| - 1 == k ==>
              Project(intervals, ids)[i].End() <= intervals[k].End()
    ensures forall c, h :: Binds(Project(intervals, ids), c, h) <==> c in ids && Binds(intervals, c, h)
  {
    if intervals != [] {
      var n := |intervals| - 1;
      var before, v := intervals[..n], intervals[n];
      var a, b := Project(before, ids), Singles(v, v.container, ids);
      assert intervals == before + [v];
      ProjectMeaning(before, ids);
      SinglesMeaning(v, v.container, ids);
      if n > 0 { assert before[n - 1].End() <= v.container; }
      AppendApart(a, b, v.container);
      forall c, h ensures Binds(a + b, c, h) <==> c in ids && Binds(intervals, c, h) {
        ConcatBinds(a, b, c, h);
        BindsAppend(before, v, c, h);
      }
    }
  }

  /** Any projection validates to the same canonical list. */
  lemma ProjectionsValidateAlike(a: seq<Interval>, b: seq<Interval>, intervals: seq<Interval>, ids: set<uint32>)
    requires CanonicalDomain(Exact, intervals)
    requires IsProjection(a, intervals, ids) && IsProjection(b, intervals, ids)
    ensures ValidateDomain(Exact, a) == ValidateDomain(Exact, b)
    ensures a != [] ==> ValidateDomain(Exact, a).Some?
    ensures a == [] <==> !exists c :: c in ids && Covers(intervals, c)
  {
    ProjectionIsAcceptable(a, intervals, ids);
    ProjectionIsAcceptable(b, intervals, ids);
    ValidateDomainMeaning(Exact, a);
    ValidateDomainMeaning(Exact, b);
    assert SameMeaning(a, b);
    if a != [] && b != [] {
      CanonicalFormIsUnique(ValidateDomain(Exact, a).value, ValidateDomain(Exact, b).value);
    }
  }

  lemma ProjectionIsAcceptable(r: seq<Interval>, intervals: seq<Interval>, ids: set<uint32>)
    requires CanonicalDomain(Exact, intervals) && IsProjection(r, intervals, ids)
    ensures r != [] ==> Acceptable(Exact, r)
    ensures r == [] <==> !exists c :: c in ids && Covers(intervals, c)
  {
    if r != [] {
      assert r[0].Has(r[0].container) && Binds(r, r[0].container, r[0].host);
      CoversIsBinds(intervals, r[0].container);
      HostsApartIsInjective(intervals);
      HostsApartIsInjective(r);
      NoRootByMeaning(intervals);
      NoRootByMeaning(r);
      PairwiseByPlaces(r, ContainersClear);
      PairwiseByPlaces(r, HostsClear);
    }
    forall c | c in ids && Covers(intervals, c) ensures r != [] { DeclaredIsProjected(r, intervals, ids, c); }
  }

  lemma DeclaredIsProjected(r: seq<Interval>, intervals: seq<Interval>, ids: set<uint32>, c: int)
    requires IsProjection(r, intervals, ids) && c in ids && Covers(intervals, c)
    ensures r != []
  {
    CoversIsBinds(intervals, c);
    var h :| Binds(intervals, c, h);
    assert Binds(r, c, h);
  }

  /** Everything before place `i` ends at or below `id`. */
  predicate Passed(intervals: seq<Interval>, i: nat, id: int) {
    forall k :: 0 <= k < i && k < |intervals| ==> intervals[k].End() <= id
  }

  /** Advance the interval pointer to the interval that holds `id`. */
  method Seek(intervals: seq<Interval>, start: nat, id: uint32) returns (i: nat)
    requires CanonicalDomain(Exact, intervals) && Covers(intervals, id) && Passed(intervals, start, id)
    ensures i < |intervals| && intervals[i].Has(id) && Passed(intervals, i, id)
  {
    ghost var home :| 0 <= home < |intervals| && intervals[home].Has(id);
    i := start;
    while id >= intervals[i].End()
      invariant i <= home && Passed(intervals, i, id)
      decreases |intervals| - i
    {
      i := i + 1;
    }
    HomeInterval(intervals, i, home, id);
  }

  /** The declared IDs are walked in ascending order, one interval pointer behind them. */
  method ProjectIDs(intervals: seq<Interval>, ids: set<uint32>) returns (result: seq<Interval>)
    requires CanonicalDomain(Exact, intervals) && forall id :: id in ids ==> Covers(intervals, id)
    ensures IsProjection(result, intervals, ids)
  {
    var ordered := SortedIDs(ids);
    result := [];
    var i: nat := 0;
    for n := 0 to |ordered|
      invariant |result| == n && (n < |ordered| ==> Passed(intervals, i, ordered[n]))
      invariant forall m :: 0 <= m < n ==> result[m].container == ordered[m] && result[m].count == 1
      invariant forall m :: 0 <= m < n ==> Binds(intervals, result[m].container, result[m].host) && result[m].Valid()
    {
      var id := ordered[n];
      assert id in ids;
      i := Seek(intervals, i, id);
      var v := Interval(id, Wrap(intervals[i].host + (id - intervals[i].container)), 1);
      assert v.host == id + intervals[i].Offset() && Binds(intervals, id, v.host);
      result := result + [v];
    }
    ProjectionByMembers(result, ordered, intervals, ids);
  }

  /** The pointer has stopped at the interval that holds `id`. */
  lemma HomeInterval(intervals: seq<Interval>, i: nat, home: nat, id: int)
    requires CanonicalDomain(Exact, intervals) && i <= home < |intervals|
    requires intervals[home].Has(id) && id < intervals[i].End()
    ensures i == home
  {
  }

  predicate Ascending(s: seq<uint32>) { forall i, j :: 0 <= i < j < |s| ==> s[i] < s[j] }

  lemma ProjectionByMembers(result: seq<Interval>, ordered: seq<uint32>, intervals: seq<Interval>, ids: set<uint32>)
    requires CanonicalDomain(Exact, intervals) && Ascending(ordered) && forall id :: id in ordered <==> id in ids
    requires |result| == |ordered|
    requires forall m :: 0 <= m < |result| ==> result[m].container == ordered[m] && result[m].count == 1
    requires forall m :: 0 <= m < |result| ==> Binds(intervals, result[m].container, result[m].host) && result[m].Valid()
    ensures IsProjection(result, intervals, ids)
  {
    forall c, h ensures Binds(result, c, h) <==> c in ids && Binds(intervals, c, h) {
      if Binds(result, c, h) {
        var m :| 0 <= m < |result| && result[m].Has(c) && h == c + result[m].Offset();
        assert c == ordered[m] && c in ordered;
      }
      if c in ids && Binds(intervals, c, h) {
        assert c in ordered;
        var m :| 0 <= m < |ordered| && ordered[m] == c;
        BindingIsUniqueIn(intervals, c, h, result[m].host);
        assert result[m].Has(c);
      }
    }
  }

  function InsertID(id: uint32, s: seq<uint32>): seq<uint32> {
    if s == [] || id < s[0] then [id] + s else [s[0]] + InsertID(id, s[1..])
  }

  lemma {:induction false} InsertIDSorts(id: uint32, s: seq<uint32>)
    requires Ascending(s) && id !in s
    ensures Ascending(InsertID(id, s))
    ensures forall x :: x in InsertID(id, s) <==> x == id || x in s
  {
    if s != [] {
      assert s == [s[0]] + s[1..];
      if id > s[0] {
        InsertIDSorts(id, s[1..]);
        var r := InsertID(id, s[1..]);
        forall k | 0 <= k < |r| ensures s[0] < r[k] { assert r[k] in r; }
      }
    }
  }

  /** Go collects the IDs in map order and sorts them. */
  method SortedIDs(ids: set<uint32>) returns (ordered: seq<uint32>)
    ensures Ascending(ordered) && forall id :: id in ordered <==> id in ids
  {
    ordered := [];
    var rest := ids;
    while rest != {}
      invariant rest <= ids && Ascending(ordered)
      invariant forall id :: id in ordered <==> id in ids - rest
      decreases |rest|
    {
      var id :| id in rest;
      InsertIDSorts(id, ordered);
      ordered := InsertID(id, ordered);
      rest := rest - {id};
    }
  }
}
