/**
 The partial check of declared mappings (internal/blueprint/identity_mapping.go): intervals
 whose fields may still be unresolved are compared as far as they are known.
 */
module MappingLiterals {
  import opened Common
  import opened Geometry
  import opened GeometryChecks

  /** A declared field: an integer, or a missing value or an expression that is resolved
      later, or something of another type. */
  datatype Scalar = Known(n: uint32) | Unresolved | Illegal {
    predicate Legal() { (Known? ==> n < MAX_UINT32) && !Illegal? }
  }

  datatype Domain = Containers | Hosts

  datatype Declared = Declared(container: Scalar, host: Scalar, count: Scalar) {
    function Start(d: Domain): Scalar { if d == Containers then container else host }

    /** Every resolution has at least one ID. */
    function Least(): uint32 { if count.Known? then count.n else 1 }

    predicate Usable() {
      && container.Legal() && host.Legal() && count.Legal()
      && Least() != 0 && host != Known(0)
      && (container.Known? ==> container.n + Least() <= MAX_UINT32)
      && (host.Known? ==> host.n + Least() <= MAX_UINT32)
    }

    /** The span of IDs that is known to be used. */
    function Span(d: Domain): Interval
      requires Start(d).Known?
    {
      Interval(Start(d).n, 0, Least())
    }
  }

  /** The two declarations do not overlap in this domain, as far as is known. */
  predicate ClearIn(v: Declared, w: Declared, d: Domain) {
    v.Start(d).Known? && w.Start(d).Known? ==> ContainersClear(v.Span(d), w.Span(d))
  }

  predicate AllUsable(values: seq<Declared>) { forall i :: 0 <= i < |values| ==> values[i].Usable() }

  predicate DomainClear(values: seq<Declared>, d: Domain) {
    forall i, j :: 0 <= i < j < |values| ==> ClearIn(values[i], values[j], d)
  }

  /** What the check accepts: usable fields, and no overlap among what is known. */
  predicate LiteralsOk(values: seq<Declared>) {
    AllUsable(values) && DomainClear(values, Containers) && DomainClear(values, Hosts)
  }

  // ----- the check itself

  function Spans(values: seq<Declared>, d: Domain): seq<Interval> {
    if values == [] then []
    else
      var v := values[|values| - 1];
      Spans(values[..|values| - 1], d) + if v.Start(d).Known? then [v.Span(d)] else []
  }

  predicate PlacesClear(s: seq<Interval>) { forall i, j :: 0 <= i < j < |s| ==> ContainersClear(s[i], s[j]) }

  lemma {:induction false} SpansAreValid(values: seq<Declared>, d: Domain)
    requires AllUsable(values)
    ensures AllValid(Spans(values, d))
  {
    if values != [] { SpansAreValid(values[..|values| - 1], d); }
  }

  lemma {:induction false} SpansClearOf(values: seq<Declared>, d: Domain, w: Declared)
    requires w.Start(d).Known?
    ensures (forall i :: 0 <= i < |values| ==> ClearIn(values[i], w, d)) <==>
              forall k :: 0 <= k < |Spans(values, d)| ==> ContainersClear(Spans(values, d)[k], w.Span(d))
  {
    if values != [] {
      var n := |values| - 1;
      var before, v := Spans(values[..n], d), values[n];
      SpansClearOf(values[..n], d, w);
      if v.Start(d).Known? {
        var all := Spans(values, d);
        assert all == before + [v.Span(d)];
        assert all[|before|] == v.Span(d);
        assert ClearIn(v, w, d) <==> ContainersClear(all[|before|], w.Span(d));
        AllClearMore(before, v.Span(d), w.Span(d));
      } else {
        assert Spans(values, d) == before && ClearIn(v, w, d);
      }
      LastClear(values, d, w);
    }
  }

  lemma AllClearMore(s: seq<Interval>, x: Interval, y: Interval)
    ensures (forall k :: 0 <= k < |s + [x]| ==> ContainersClear((s + [x])[k], y)) <==>
              ContainersClear(x, y) && forall k :: 0 <= k < |s| ==> ContainersClear(s[k], y)
  {
    var all := s + [x];
    assert all[|s|] == x && forall k :: 0 <= k < |s| ==> all[k] == s[k];
    if forall k :: 0 <= k < |all| ==> ContainersClear(all[k], y) {
      forall k | 0 <= k < |s| ensures ContainersClear(s[k], y) { assert ContainersClear(all[k], y); }
    }
  }

  lemma LastClear(values: seq<Declared>, d: Domain, w: Declared)
    requires values != []
    ensures var n := |values| - 1;
            (forall i :: 0 <= i < |values| ==> ClearIn(values[i], w, d)) <==>
              ClearIn(values[n], w, d) && forall i :: 0 <= i < n ==> ClearIn(values[..n][i], w, d)
  {
    var n := |values| - 1;
    assert forall i :: 0 <= i < n ==> values[..n][i] == values[i];
    if forall i :: 0 <= i < |values| ==> ClearIn(values[i], w, d) {
      forall i | 0 <= i < n ensures ClearIn(values[..n][i], w, d) { assert ClearIn(values[i], w, d); }
    }
  }

  lemma PlacesClearMore(s: seq<Interval>, x: Interval)
    ensures PlacesClear(s + [x]) <==>
              PlacesClear(s) && forall k :: 0 <= k < |s| ==> ContainersClear(s[k], x)
  {
    var all := s + [x];
    assert all[|s|] == x && forall k :: 0 <= k < |s| ==> all[k] == s[k];
    if PlacesClear(all) {
      forall i, j | 0 <= i < j < |s| ensures ContainersClear(s[i], s[j]) { assert ContainersClear(all[i], all[j]); }
      forall k | 0 <= k < |s| ensures ContainersClear(s[k], x) { assert ContainersClear(all[k], all[|s|]); }
    }
  }

  lemma DomainClearMore(values: seq<Declared>, d: Domain)
    requires values != []
    ensures var n := |values| - 1;
            DomainClear(values, d) <==>
              DomainClear(values[..n], d) && forall i :: 0 <= i < n ==> ClearIn(values[..n][i], values[n], d)
  {
    var n := |values| - 1;
    var before := values[..n];
    assert forall i :: 0 <= i < n ==> before[i] == values[i];
    if DomainClear(values, d) {
      forall i, j | 0 <= i < j < |before| ensures ClearIn(before[i], before[j], d) {
        assert ClearIn(values[i], values[j], d);
      }
    }
  }

  /** Comparing the collected spans is comparing the declarations. */
  lemma {:induction false} SpansClearIff(values: seq<Declared>, d: Domain)
    ensures PlacesClear(Spans(values, d)) <==> DomainClear(values, d)
  {
    if values != [] {
      var n := |values| - 1;
      SpansClearIff(values[..n], d);
      DomainClearMore(values, d);
      if values[n].Start(d).Known? {
        SpansClearOf(values[..n], d, values[n]);
        PlacesClearMore(Spans(values[..n], d), values[n].Span(d));
        assert Spans(values, d) == Spans(values[..n], d) + [values[n].Span(d)];
      } else {
        assert forall i :: 0 <= i < n ==> ClearIn(values[..n][i], values[n], d);
        assert Spans(values, d) == Spans(values[..n], d);
      }
    }
  }

  lemma FreeWhenSorted(spans: seq<Interval>, ordered: seq<Interval>)
    requires AllValid(spans) && Permuted(spans, ordered) && SortedBy(ordered, ContainerKey)
    ensures PlacesClear(spans) <==> NeighboursApart(ordered)
  {
    SortedFacts(spans, ordered);
    PairwiseByPlaces(spans, ContainersClear);
  }

  /** Sort the spans and compare neighbours. */
  method SpansAreFree(spans: seq<Interval>) returns (ok: bool)
    requires AllValid(spans)
    ensures ok <==> PlacesClear(spans)
  {
    var ordered := SortBy(spans, ContainerKey);
    SortSorts(spans, ContainerKey);
    FreeWhenSorted(spans, ordered);
    var i := 1;
    while i < |ordered|
      invariant 1 <= i
      invariant forall k :: 0 < k < i && k < |ordered| ==> ordered[k - 1].End() <= ordered[k].container
    {
      if ordered[i].container < ordered[i - 1].End() { return false; }
      i := i + 1;
    }
    return true;
  }

  /** Go's `validateMappingLiteralsV1`. */
  method ValidateMappingLiterals(values: seq<Declared>) returns (ok: bool)
    ensures ok <==> LiteralsOk(values)
  {
    var container, host: seq<Interval> := [], [];
    for i := 0 to |values|
      invariant AllUsable(values[..i])
      invariant container == Spans(values[..i], Containers) && host == Spans(values[..i], Hosts)
    {
      var v := values[i];
      assert values[..i + 1][..i] == values[..i] && values[..i + 1][i] == v;
      if !v.container.Legal() || !v.host.Legal() || !v.count.Legal() { return false; }
      if v.count == Known(0) { return false; }
      var count := if v.count.Known? then v.count.n else 1;
      if v.container.Known? {
        if v.container.n + count > MAX_UINT32 { return false; }
        container := container + [Interval(v.container.n, 0, count)];
      }
      if v.host.Known? {
        if v.host.n == 0 || v.host.n + count > MAX_UINT32 { return false; }
        host := host + [Interval(v.host.n, 0, count)];
      }
    }
    assert values[..|values|] == values;
    SpansAreValid(values, Containers);
    SpansAreValid(values, Hosts);
    SpansClearIff(values, Containers);
    SpansClearIff(values, Hosts);
    ok := SpansAreFree(container);
    if ok { ok := SpansAreFree(host); }
  }

  // ----- resolutions

  predicate Matches(s: Scalar, n: int) { !s.Illegal? && (s.Known? ==> s.n == n) }

  /** `x` resolves the declaration. */
  predicate Resolves(v: Declared, x: Interval) {
    Matches(v.container, x.container) && Matches(v.host, x.host) && Matches(v.count, x.count)
  }

  predicate ResolvesAll(values: seq<Declared>, xs: seq<Interval>) {
    |xs| == |values| && forall i :: 0 <= i < |xs| ==> Resolves(values[i], xs[i])
  }

  /** The declared domain passes: nonempty, one interval when bounded, literals in order. */
  predicate DeclarationOk(profile: Profile, values: seq<Declared>) {
    values != [] && (profile == Bounded ==> |values| == 1) && LiteralsOk(values)
  }

  /** Some way of resolving the declaration passes geometry validation. */
  ghost predicate Resolvable(profile: Profile, values: seq<Declared>) {
    exists xs :: ResolvesAll(values, xs) && ValidateDomain(profile, xs).Some?
  }

  lemma AcceptedByPlaces(profile: Profile, xs: seq<Interval>)
    ensures ValidateDomain(profile, xs).Some? <==>
              && xs != [] && (profile == Bounded ==> |xs| == 1) && AllValid(xs) && NoHostRoot(xs)
              && (forall i, j :: 0 <= i < j < |xs| ==> ContainersClear(xs[i], xs[j]))
              && (forall i, j :: 0 <= i < j < |xs| ==> HostsClear(xs[i], xs[j]))
  {
    ValidateDomainMeaning(profile, xs);
    PairwiseByPlaces(xs, ContainersClear);
    PairwiseByPlaces(xs, HostsClear);
  }

  lemma ResolvedIsUsable(v: Declared, x: Interval)
    requires Resolves(v, x) && x.Valid() && x.host != 0
    ensures v.Usable()
  {
  }

  lemma ResolvedIsClear(v: Declared, x: Interval, w: Declared, y: Interval)
    requires Resolves(v, x) && Resolves(w, y) && x.Valid() && y.Valid()
    ensures ContainersClear(x, y) ==> ClearIn(v, w, Containers)
    ensures HostsClear(x, y) ==> ClearIn(v, w, Hosts)
  {
  }

  /** The check rejects an unresolved declaration only if every resolution is rejected. */
  lemma RejectedOnlyIfHopeless(profile: Profile, values: seq<Declared>)
    requires Resolvable(profile, values)
    ensures DeclarationOk(profile, values)
  {
    var xs :| ResolvesAll(values, xs) && ValidateDomain(profile, xs).Some?;
    AcceptedByPlaces(profile, xs);
    forall i | 0 <= i < |values| ensures values[i].Usable() { ResolvedIsUsable(values[i], xs[i]); }
    forall i, j | 0 <= i < j < |values|
      ensures ClearIn(values[i], values[j], Containers) && ClearIn(values[i], values[j], Hosts)
    {
      ResolvedIsClear(values[i], xs[i], values[j], xs[j]);
    }
  }

  predicate StartsKnown(values: seq<Declared>) {
    forall i :: 0 <= i < |values| ==> values[i].container.Known? && values[i].host.Known?
  }

  /** The smallest resolution of declarations whose starts are known. */
  function Smallest(values: seq<Declared>): seq<Interval>
    requires StartsKnown(values)
  {
    seq(|values|, i requires 0 <= i < |values| => Interval(values[i].container.n, values[i].host.n, values[i].Least()))
  }

  /** With every start known the check is exact: it accepts precisely what can be resolved,
      and taking each unknown count as one is then a resolution. */
  lemma ExactWhenStartsAreKnown(profile: Profile, values: seq<Declared>)
    requires StartsKnown(values) && !profile.OtherProfile?
    ensures DeclarationOk(profile, values) <==> Resolvable(profile, values)
    ensures DeclarationOk(profile, values) ==> ValidateDomain(profile, Smallest(values)).Some?
  {
    if Resolvable(profile, values) { RejectedOnlyIfHopeless(profile, values); }
    if DeclarationOk(profile, values) {
      var xs := Smallest(values);
      forall i, j | 0 <= i < j < |xs| ensures ContainersClear(xs[i], xs[j]) && HostsClear(xs[i], xs[j]) {
        assert ClearIn(values[i], values[j], Containers) && ClearIn(values[i], values[j], Hosts);
      }
      AcceptedByPlaces(profile, xs);
      assert ResolvesAll(values, xs);
    }
  }

  // ----- unknown starts: a question of placing spans, in each domain by itself

  function Bottom(d: Domain): nat { if d == Hosts then 1 else 0 }

  predicate SpansClear(x: nat, m: nat, y: nat, n: nat) { x + m <= y || y + n <= x }

  /** The least spans of the declarations can start at `starts`. */
  predicate Placed(values: seq<Declared>, d: Domain, starts: seq<uint32>) {
    && |starts| == |values|
    && (forall i :: 0 <= i < |values| ==>
          && Bottom(d) <= starts[i] && starts[i] + values[i].Least() <= MAX_UINT32
          && Matches(values[i].Start(d), starts[i]))
    && (forall i, j :: 0 <= i < j < |values| ==>
          SpansClear(starts[i], values[i].Least(), starts[j], values[j].Least()))
  }

  ghost predicate Placeable(values: seq<Declared>, d: Domain) { exists starts :: Placed(values, d, starts) }

  predicate CountsUsable(values: seq<Declared>) {
    forall i :: 0 <= i < |values| ==> values[i].count.Legal() && values[i].Least() != 0
  }

  predicate ShapeOk(profile: Profile, values: seq<Declared>) {
    values != [] && (profile == Bounded ==> |values| == 1)
  }

  function StartOf(x: Interval, d: Domain): uint32 { if d == Containers then x.container else x.host }

  lemma ResolvedArePlaced(profile: Profile, values: seq<Declared>, d: Domain, xs: seq<Interval>)
    requires ResolvesAll(values, xs) && ValidateDomain(profile, xs).Some?
    ensures Placeable(values, d)
  {
    AcceptedByPlaces(profile, xs);
    var starts := seq(|xs|, i requires 0 <= i < |xs| => StartOf(xs[i], d));
    forall i | 0 <= i < |xs|
      ensures values[i].Least() <= xs[i].count && Matches(values[i].Start(d), starts[i])
      ensures Bottom(d) <= starts[i] && starts[i] + xs[i].count <= MAX_UINT32
    {
      assert Resolves(values[i], xs[i]) && xs[i].Valid();
    }
    forall i, j | 0 <= i < j < |xs|
      ensures SpansClear(starts[i], values[i].Least(), starts[j], values[j].Least())
    {
      assert if d == Containers then ContainersClear(xs[i], xs[j]) else HostsClear(xs[i], xs[j]);
    }
    assert Placed(values, d, starts);
  }

  lemma ResolvedCounts(profile: Profile, values: seq<Declared>, xs: seq<Interval>)
    requires ResolvesAll(values, xs) && ValidateDomain(profile, xs).Some?
    ensures ShapeOk(profile, values) && CountsUsable(values)
  {
    AcceptedByPlaces(profile, xs);
    forall i | 0 <= i < |values| ensures values[i].count.Legal() && values[i].Least() != 0 {
      assert Resolves(values[i], xs[i]) && xs[i].Valid();
    }
  }

  lemma PlacedAreResolved(profile: Profile, values: seq<Declared>, cs: seq<uint32>, hs: seq<uint32>)
    requires ShapeOk(profile, values) && !profile.OtherProfile? && CountsUsable(values)
    requires Placed(values, Containers, cs) && Placed(values, Hosts, hs)
    ensures Resolvable(profile, values)
  {
    var xs := seq(|values|, i requires 0 <= i < |values| => Interval(cs[i], hs[i], values[i].Least()));
    forall i, j | 0 <= i < j < |xs| ensures ContainersClear(xs[i], xs[j]) && HostsClear(xs[i], xs[j]) {
      assert SpansClear(cs[i], values[i].Least(), cs[j], values[j].Least());
      assert SpansClear(hs[i], values[i].Least(), hs[j], values[j].Least());
    }
    forall i | 0 <= i < |xs| ensures Resolves(values[i], xs[i]) {
      assert Matches(values[i].Start(Containers), cs[i]) && Matches(values[i].Start(Hosts), hs[i]);
    }
    AcceptedByPlaces(profile, xs);
    assert ResolvesAll(values, xs);
  }

  /** A declaration can be resolved exactly when its least spans can be placed in each of the
      two domains, independently of the other. */
  lemma ResolvableByPlaces(profile: Profile, values: seq<Declared>)
    requires !profile.OtherProfile?
    ensures Resolvable(profile, values) <==>
              && ShapeOk(profile, values) && CountsUsable(values)
              && Placeable(values, Containers) && Placeable(values, Hosts)
  {
    if Resolvable(profile, values) {
      var xs :| ResolvesAll(values, xs) && ValidateDomain(profile, xs).Some?;
      ResolvedCounts(profile, values, xs);
      ResolvedArePlaced(profile, values, Containers, xs);
      ResolvedArePlaced(profile, values, Hosts, xs);
    }
    if ShapeOk(profile, values) && CountsUsable(values) && Placeable(values, Containers) && Placeable(values, Hosts) {
      var cs :| Placed(values, Containers, cs);
      var hs :| Placed(values, Hosts, hs);
      PlacedAreResolved(profile, values, cs, hs);
    }
  }

  // ----- at most one unknown start per domain: look at the gaps

  predicate OneOpen(values: seq<Declared>, d: Domain) {
    forall i, j :: 0 <= i < j < |values| ==> values[i].Start(d).Known? || values[j].Start(d).Known?
  }

  /** Declaration `i` can start at `x` without touching a known span. */
  predicate Fits(values: seq<Declared>, d: Domain, i: nat, x: nat)
    requires i < |values|
  {
    && Bottom(d) <= x && x + values[i].Least() <= MAX_UINT32
    && forall j :: 0 <= j < |values| && j != i && values[j].Start(d).Known? ==>
         SpansClear(x, values[i].Least(), values[j].Start(d).n, values[j].Least())
  }

  /** The places worth trying: the bottom of the domain and the ends of the known spans. */
  predicate WorthTrying(values: seq<Declared>, d: Domain, x: nat) {
    x == Bottom(d)
    || exists j :: 0 <= j < |values| && values[j].Start(d).Known? && values[j].Span(d).End() == x
  }

  ghost predicate HasGap(values: seq<Declared>, d: Domain, i: nat)
    requires i < |values|
  {
    exists x: nat :: WorthTrying(values, d, x) && Fits(values, d, i, x)
  }

  ghost predicate GapsFound(values: seq<Declared>, d: Domain) {
    forall i :: 0 <= i < |values| && !values[i].Start(d).Known? ==> HasGap(values, d, i)
  }

  /** The greatest place worth trying up to `x`, among the first `n` declarations. */
  lemma {:induction false} Below(values: seq<Declared>, d: Domain, x: nat, n: nat) returns (e: nat)
    requires Bottom(d) <= x && n <= |values|
    ensures Bottom(d) <= e <= x && WorthTrying(values, d, e)
    ensures forall j :: 0 <= j < n && values[j].Start(d).Known? && values[j].Span(d).End() <= x ==>
              values[j].Span(d).End() <= e
  {
    if n == 0 {
      e := Bottom(d);
    } else {
      e := Below(values, d, x, n - 1);
      var v := values[n - 1];
      if v.Start(d).Known? && e < v.Span(d).End() <= x { e := v.Span(d).End(); }
    }
  }

  /** Whatever fits can be moved down to a place worth trying. */
  lemma FitsLower(values: seq<Declared>, d: Domain, i: nat, x: nat)
    requires i < |values| && Fits(values, d, i, x)
    ensures HasGap(values, d, i)
  {
    var e := Below(values, d, x, |values|);
    assert Fits(values, d, i, e);
  }

  lemma PlacedMeansGaps(values: seq<Declared>, d: Domain, starts: seq<uint32>)
    requires Placed(values, d, starts)
    ensures DomainClear(values, d) && GapsFound(values, d)
  {
    forall i, j | 0 <= i < j < |values| ensures ClearIn(values[i], values[j], d) {
      assert SpansClear(starts[i], values[i].Least(), starts[j], values[j].Least());
    }
    forall i | 0 <= i < |values| && !values[i].Start(d).Known? ensures HasGap(values, d, i) {
      FitsLower(values, d, i, starts[i]);
    }
  }

  lemma GapsMeanPlaced(values: seq<Declared>, d: Domain)
    requires OneOpen(values, d) && AllUsable(values) && DomainClear(values, d) && GapsFound(values, d)
    ensures Placeable(values, d)
  {
    if open :| 0 <= open < |values| && !values[open].Start(d).Known? {
      assert HasGap(values, d, open);
      var x: nat :| WorthTrying(values, d, x) && Fits(values, d, open, x);
      PlacedAt(values, d, open, x);
    } else {
      var starts := seq(|values|, i requires 0 <= i < |values| => values[i].Start(d).n);
      forall i, j | 0 <= i < j < |values|
        ensures SpansClear(starts[i], values[i].Least(), starts[j], values[j].Least())
      {
        assert ClearIn(values[i], values[j], d);
      }
      assert Placed(values, d, starts);
    }
  }

  lemma OnlyOpen(values: seq<Declared>, d: Domain, open: nat, i: nat)
    requires OneOpen(values, d) && open < |values| && i < |values| && i != open && !values[open].Start(d).Known?
    ensures values[i].Start(d).Known?
  {
  }

  lemma PlacedAt(values: seq<Declared>, d: Domain, open: nat, x: nat)
    requires OneOpen(values, d) && AllUsable(values) && DomainClear(values, d)
    requires open < |values| && !values[open].Start(d).Known? && Fits(values, d, open, x)
    ensures Placeable(values, d)
  {
    forall i | 0 <= i < |values| && i != open ensures values[i].Start(d).Known? {
      OnlyOpen(values, d, open, i);
    }
    var starts: seq<uint32> :=
      seq(|values|, i requires 0 <= i < |values| => if i == open then x else values[i].Start(d).n);
    forall i, j | 0 <= i < j < |values|
      ensures SpansClear(starts[i], values[i].Least(), starts[j], values[j].Least())
    {
      if i != open && j != open { assert ClearIn(values[i], values[j], d); }
    }
    assert Placed(values, d, starts);
  }

  /** With at most one unknown start in each domain, an accepted declaration can be resolved
      exactly when the open spans fit at the bottom of the domain or right behind a known one. */
  lemma ExactWithOneOpen(profile: Profile, values: seq<Declared>)
    requires OneOpen(values, Containers) && OneOpen(values, Hosts) && !profile.OtherProfile?
    ensures Resolvable(profile, values) <==>
              DeclarationOk(profile, values) && GapsFound(values, Containers) && GapsFound(values, Hosts)
  {
    ResolvableByPlaces(profile, values);
    if Resolvable(profile, values) {
      RejectedOnlyIfHopeless(profile, values);
      var cs :| Placed(values, Containers, cs);
      var hs :| Placed(values, Hosts, hs);
      PlacedMeansGaps(values, Containers, cs);
      PlacedMeansGaps(values, Hosts, hs);
    }
    if DeclarationOk(profile, values) && GapsFound(values, Containers) && GapsFound(values, Hosts) {
      GapsMeanPlaced(values, Containers);
      GapsMeanPlaced(values, Hosts);
    }
  }

  predicate Resolved(values: seq<Declared>) {
    StartsKnown(values) && forall i :: 0 <= i < |values| ==> values[i].count.Known?
  }

  /** On resolved declarations it is geometry validation: pairwise disjointness within bounds. */
  lemma ExactOnResolved(profile: Profile, values: seq<Declared>)
    requires Resolved(values) && !profile.OtherProfile?
    ensures DeclarationOk(profile, values) <==> ValidateDomain(profile, Smallest(values)).Some?
  {
    ExactWhenStartsAreKnown(profile, values);
    if ValidateDomain(profile, Smallest(values)).Some? {
      AcceptedByPlaces(profile, Smallest(values));
      assert forall i :: 0 <= i < |values| ==> values[i].count == Known(Smallest(values)[i].count);
      assert ResolvesAll(values, Smallest(values));
    }
  }

  /** A declaration that passes although nothing can resolve it: the first interval leaves a
      single container ID free, and the second one needs two. */
  function Crowded(): seq<Declared> {
    [Declared(Known(0), Known(1), Known(0xFFFF_FFFE)), Declared(Unresolved, Unresolved, Known(2))]
  }

  lemma NoRoomForTwo(x: Interval, y: Interval)
    requires Resolves(Crowded()[0], x) && Resolves(Crowded()[1], y) && y.Valid()
    ensures !ContainersClear(x, y)
  {
  }

  lemma AcceptedThoughHopeless()
    ensures DeclarationOk(Exact, Crowded()) && !Resolvable(Exact, Crowded())
  {
    forall xs: seq<Interval> | ResolvesAll(Crowded(), xs) ensures ValidateDomain(Exact, xs).None? {
      AcceptedByPlaces(Exact, xs);
      assert Resolves(Crowded()[1], xs[1]);
      if xs[1].Valid() { NoRoomForTwo(xs[0], xs[1]); }
    }
  }
}
