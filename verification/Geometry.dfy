/**
 Identity-mapping geometry (internal/identitymapping/geometry.go, host.go): lists of
 32-bit intervals that bind container IDs to host IDs.

 Every list is read as a relation between container and host IDs (`Binds`). The
 functions follow the Go code's interval arithmetic; the lemmas say what they do to
 that relation, and that a canonical list is determined by it.
 */
module Geometry {
  import opened Common

  datatype Interval = Interval(container: uint32, host: uint32, count: uint32) {
    function End(): int { container + count }
    function HostEnd(): int { host + count }
    function Offset(): int { host - container }
    predicate Has(c: int) { container <= c < End() }

    /** Go's `ValidateInterval`: nonempty and clear of overflow and of the ID 2^32-1. */
    predicate Valid() { count != 0 && End() <= MAX_UINT32 && HostEnd() <= MAX_UINT32 }
  }

  /** Go's conversion to uint32. */
  function Wrap(x: int): uint32 { x % TWO_32 }

  function Max(a: int, b: int): int { if a < b then b else a }
  function Min(a: int, b: int): int { if a < b then a else b }

  // ----- the relation a list stands for

  ghost predicate Binds(s: seq<Interval>, c: int, h: int) {
    exists i :: 0 <= i < |s| && s[i].Has(c) && h == c + s[i].Offset()
  }

  predicate Covers(s: seq<Interval>, c: int) {
    exists i :: 0 <= i < |s| && s[i].Has(c)
  }

  ghost predicate SameMeaning(a: seq<Interval>, b: seq<Interval>) {
    forall c, h :: Binds(a, c, h) <==> Binds(b, c, h)
  }

  ghost predicate Within(a: seq<Interval>, b: seq<Interval>) {
    forall c, h :: Binds(a, c, h) ==> Binds(b, c, h)
  }

  /** The two lists together bind each container ID at most once. */
  ghost predicate Agree(a: seq<Interval>, b: seq<Interval>) {
    forall c, h, k :: Binds(a, c, h) && Binds(b, c, k) ==> h == k
  }

  /** The two lists together use each host ID at most once. */
  ghost predicate HostsAgree(a: seq<Interval>, b: seq<Interval>) {
    forall c, d, h :: Binds(a, c, h) && Binds(b, d, h) ==> c == d
  }

  ghost predicate Functional(s: seq<Interval>) { Agree(s, s) }
  ghost predicate Injective(s: seq<Interval>) { HostsAgree(s, s) }

  lemma CoversIsBinds(s: seq<Interval>, c: int)
    ensures Covers(s, c) <==> exists h :: Binds(s, c, h)
  {
    if i :| 0 <= i < |s| && s[i].Has(c) { assert Binds(s, c, c + s[i].Offset()); }
  }

  // ----- shapes

  predicate AllValid(s: seq<Interval>) { forall i :: 0 <= i < |s| ==> s[i].Valid() }
  predicate Sorted(s: seq<Interval>) { forall i, j :: 0 <= i < j < |s| ==> s[i].container <= s[j].container }
  predicate Apart(s: seq<Interval>) { forall i, j :: 0 <= i < j < |s| ==> s[i].End() <= s[j].container }

  predicate Joins(a: Interval, b: Interval) { a.End() == b.container && a.Offset() == b.Offset() }
  predicate Tight(s: seq<Interval>) { forall i :: 0 <= i < |s| - 1 ==> !Joins(s[i], s[i + 1]) }

  /** Sorted, disjoint and maximally coalesced. */
  predicate Form(s: seq<Interval>) { AllValid(s) && Apart(s) && Tight(s) }

  predicate HostsApart(s: seq<Interval>) {
    forall i, j :: 0 <= i < j < |s| ==> s[i].HostEnd() <= s[j].host || s[j].HostEnd() <= s[i].host
  }
  predicate NoHostRoot(s: seq<Interval>) { forall i :: 0 <= i < |s| ==> s[i].host != 0 }

  // ----- a list in canonical form is determined by its meaning

  lemma FirstBindsLeast(s: seq<Interval>, c: int, h: int)
    requires Form(s) && Binds(s, c, h)
    ensures s != [] && s[0].container <= c
    ensures Binds(s, s[0].container, s[0].host)
  {
    assert s[0].Has(s[0].container);
  }

  lemma BindingIsUnique(s: seq<Interval>, i: nat, c: int, h: int)
    requires Form(s) && i < |s| && s[i].Has(c) && Binds(s, c, h)
    ensures h == c + s[i].Offset()
  {
    var j :| 0 <= j < |s| && s[j].Has(c) && h == c + s[j].Offset();
    assert i == j;
  }

  /** A canonical list does not continue its first interval's binding past its end. */
  lemma FirstStopsAtItsEnd(s: seq<Interval>)
    requires Form(s) && s != []
    ensures !Binds(s, s[0].End(), s[0].End() + s[0].Offset())
  {
    if |s| > 1 {
      assert s[0].End() <= s[1].container && !Joins(s[0], s[1]);
      forall i | 1 <= i < |s| && s[i].Has(s[0].End()) ensures s[i].Offset() != s[0].Offset() {
      }
    }
  }

  /** The first interval of `a` does not reach beyond the first interval of `b`. */
  lemma FirstIsNoLonger(a: seq<Interval>, b: seq<Interval>)
    requires Form(a) && Form(b) && SameMeaning(a, b) && a != [] && b != []
    requires a[0].container == b[0].container && a[0].host == b[0].host
    ensures a[0].End() <= b[0].End()
  {
    if b[0].End() < a[0].End() {
      assert a[0].Has(b[0].End()) && Binds(a, b[0].End(), b[0].End() + a[0].Offset());
      FirstStopsAtItsEnd(b);
    }
  }

  lemma TailMeaning(a: seq<Interval>, c: int, h: int)
    requires Form(a) && a != []
    ensures Binds(a[1..], c, h) <==> Binds(a, c, h) && c >= a[0].End()
  {
    if Binds(a[1..], c, h) {
      var i :| 0 <= i < |a[1..]| && a[1..][i].Has(c) && h == c + a[1..][i].Offset();
      assert a[i + 1] == a[1..][i];
    }
    if Binds(a, c, h) && c >= a[0].End() {
      var i :| 0 <= i < |a| && a[i].Has(c) && h == c + a[i].Offset();
      assert a[1..][i - 1] == a[i];
    }
  }

  lemma FirstsAreEqual(a: seq<Interval>, b: seq<Interval>)
    requires Form(a) && Form(b) && SameMeaning(a, b) && a != []
    ensures b != [] && a[0] == b[0]
  {
    assert a[0].Has(a[0].container) && Binds(a, a[0].container, a[0].host);
    FirstBindsLeast(b, a[0].container, a[0].host);
    FirstBindsLeast(a, b[0].container, b[0].host);
    BindingIsUnique(a, 0, a[0].container, b[0].host);
    FirstIsNoLonger(a, b);
    FirstIsNoLonger(b, a);
  }

  lemma {:induction false} CanonicalFormIsUnique(a: seq<Interval>, b: seq<Interval>)
    requires Form(a) && Form(b) && SameMeaning(a, b)
    ensures a == b
    decreases |a|
  {
    if a == [] {
      if b != [] { FirstsAreEqual(b, a); }
    } else {
      FirstsAreEqual(a, b);
      var x, y := a[1..], b[1..];
      assert Form(x) && Form(y);
      forall c, h ensures Binds(x, c, h) <==> Binds(y, c, h) {
        TailMeaning(a, c, h);
        TailMeaning(b, c, h);
      }
      CanonicalFormIsUnique(x, y);
      assert a == [a[0]] + x && b == [b[0]] + y;
    }
  }

  // ----- Go's combineReservations

  /** One turn of the loop: fold `v` into the result so far, or report a changed assignment. */
  function Absorb(result: seq<Interval>, v: Interval): Option<seq<Interval>> {
    if result == [] then Some([v])
    else
      var k := |result| - 1;
      var last := result[k];
      var overlaps := v.container < last.End();
      var adjacent := v.container == last.End();
      var sameBinding := v.Offset() == last.Offset();
      if overlaps && !sameBinding then None
      else if sameBinding && (overlaps || adjacent) then
        Some(result[..k] + [last.(count := Wrap(Max(last.End(), v.End()) - last.container))])
      else Some(result + [v])
  }

  function Combine(values: seq<Interval>): Option<seq<Interval>> {
    if values == [] then Some([])
    else
      match Combine(values[..|values| - 1])
      case None => None
      case Some(result) => Absorb(result, values[|values| - 1])
  }

  lemma CombineStaysRefused(values: seq<Interval>, n: nat)
    requires n <= |values| && Combine(values[..n]).None?
    ensures Combine(values).None?
    decreases |values| - n
  {
    if n == |values| { assert values[..n] == values; }
    else {
      assert values[..n + 1][..n] == values[..n];
      CombineStaysRefused(values, n + 1);
    }
  }

  method CombineReservations(values: seq<Interval>) returns (r: Option<seq<Interval>>)
    ensures r == Combine(values)
  {
    var result: seq<Interval> := [];
    for n := 0 to |values|
      invariant Combine(values[..n]) == Some(result)
    {
      assert values[..n + 1][..n] == values[..n];
      var next := Absorb(result, values[n]);
      if next.None? {
        CombineStaysRefused(values, n + 1);
        return None;
      }
      result := next.value;
    }
    assert values[..|values|] == values;
    return Some(result);
  }

  ghost predicate HasBinding(v: Interval, c: int, h: int) { v.Has(c) && h == c + v.Offset() }

  lemma BindsAppend(s: seq<Interval>, v: Interval, c: int, h: int)
    ensures Binds(s + [v], c, h) <==> Binds(s, c, h) || HasBinding(v, c, h)
  {
    if Binds(s, c, h) {
      var i :| 0 <= i < |s| && s[i].Has(c) && h == c + s[i].Offset();
      assert (s + [v])[i] == s[i];
    }
    if HasBinding(v, c, h) { assert (s + [v])[|s|] == v; }
  }

  /** Every interval of the result starts no later than `v`. */
  predicate AllBefore(result: seq<Interval>, v: Interval) {
    forall i :: 0 <= i < |result| ==> result[i].container <= v.container
  }

  lemma OnlyLastMeets(result: seq<Interval>, v: Interval, c: int, h: int)
    requires Form(result) && AllBefore(result, v) && Binds(result, c, h) && v.Has(c)
    ensures result != [] && HasBinding(result[|result| - 1], c, h)
  {
    var k := |result| - 1;
    var i :| 0 <= i < |result| && result[i].Has(c) && h == c + result[i].Offset();
    assert result[k].container <= v.container;
    assert i == k;
  }

  lemma AbsorbRefusesIff(result: seq<Interval>, v: Interval)
    requires Form(result) && v.Valid() && AllBefore(result, v)
    ensures Absorb(result, v).None? <==> exists c, h :: Binds(result, c, h) && v.Has(c) && h != c + v.Offset()
  {
    if Absorb(result, v).None? {
      var last := result[|result| - 1];
      assert last.Has(v.container) && Binds(result, v.container, v.container + last.Offset());
    }
    if c, h :| Binds(result, c, h) && v.Has(c) && h != c + v.Offset() {
      OnlyLastMeets(result, v, c, h);
    }
  }

  lemma AbsorbKeepsForm(result: seq<Interval>, v: Interval)
    requires Form(result) && v.Valid() && AllBefore(result, v) && Absorb(result, v).Some?
    ensures Form(Absorb(result, v).value)
  {
    var next := Absorb(result, v).value;
    var k := |result| - 1;
    if |next| == |result| {
      assert next[k].End() == Max(result[k].End(), v.End()) && next[k].Offset() == result[k].Offset();
      assert forall i :: 0 <= i < k ==> next[i] == result[i];
    } else {
      assert forall i :: 0 <= i <= k ==> next[i] == result[i];
      assert forall i :: 0 <= i <= k ==> result[i].End() <= result[k].End();
    }
  }

  lemma AbsorbBinds(result: seq<Interval>, v: Interval, c: int, h: int)
    requires Form(result) && v.Valid() && AllBefore(result, v) && Absorb(result, v).Some?
    ensures Binds(Absorb(result, v).value, c, h) <==> Binds(result, c, h) || HasBinding(v, c, h)
  {
    var next := Absorb(result, v).value;
    var k := |result| - 1;
    if |next| == |result| {
      var last := result[k];
      assert next[k].End() == Max(last.End(), v.End());
      assert result == result[..k] + [last] && next == result[..k] + [next[k]];
      BindsAppend(result[..k], last, c, h);
      BindsAppend(result[..k], next[k], c, h);
    } else {
      assert next == result + [v];
      BindsAppend(result, v, c, h);
    }
  }

  lemma AbsorbMeaning(result: seq<Interval>, v: Interval)
    requires Form(result) && v.Valid() && AllBefore(result, v) && Absorb(result, v).Some?
    ensures Form(Absorb(result, v).value)
    ensures forall c, h :: Binds(Absorb(result, v).value, c, h) <==> Binds(result, c, h) || HasBinding(v, c, h)
  {
    AbsorbKeepsForm(result, v);
    forall c, h ensures Binds(Absorb(result, v).value, c, h) <==> Binds(result, c, h) || HasBinding(v, c, h) {
      AbsorbBinds(result, v, c, h);
    }
  }

  /** Combining sorted intervals succeeds exactly when no container ID is bound twice
      differently, and then yields the canonical form of the same relation. */
  lemma {:induction false} CombineMeaning(values: seq<Interval>)
    requires AllValid(values) && Sorted(values)
    ensures Combine(values).Some? <==> Functional(values)
    ensures Combine(values).Some? ==>
              var r := Combine(values).value;
              Form(r) && SameMeaning(r, values) && (r == [] <==> values == [])
    ensures Combine(values).Some? && values != [] ==> AllBefore(Combine(values).value, values[|values| - 1])
  {
    if values != [] {
      var n := |values| - 1;
      var before, v := values[..n], values[n];
      assert values == before + [v];
      CombineMeaning(before);
      if Combine(before).Some? {
        AbsorbNext(before, Combine(before).value, v);
      } else {
        RefusalStays(before, v);
      }
    }
  }

  lemma RefusalStays(before: seq<Interval>, v: Interval)
    requires !Functional(before)
    ensures !Functional(before + [v])
  {
    var c, h, k :| Binds(before, c, h) && Binds(before, c, k) && h != k;
    BindsAppend(before, v, c, h);
    BindsAppend(before, v, c, k);
  }

  /** One more interval, no earlier than the others. */
  lemma AbsorbNext(before: seq<Interval>, result: seq<Interval>, v: Interval)
    requires Form(result) && v.Valid() && AllBefore(result, v) && SameMeaning(result, before) && Functional(before)
    ensures Absorb(result, v).Some? <==> Functional(before + [v])
    ensures Absorb(result, v).Some? ==>
              var r := Absorb(result, v).value;
              Form(r) && SameMeaning(r, before + [v]) && r != [] && AllBefore(r, v)
  {
    AbsorbRefusesIff(result, v);
    LastAgreesIff(before, result, v);
    if Absorb(result, v).Some? {
      AbsorbMeaning(result, v);
      forall c, h ensures Binds(before + [v], c, h) <==> Binds(before, c, h) || HasBinding(v, c, h) {
        BindsAppend(before, v, c, h);
      }
    }
  }

  lemma LastAgreesIff(before: seq<Interval>, result: seq<Interval>, v: Interval)
    requires SameMeaning(result, before) && Functional(before)
    ensures Functional(before + [v]) <==> !exists c, h :: Binds(result, c, h) && v.Has(c) && h != c + v.Offset()
  {
    forall c, h ensures Binds(before + [v], c, h) <==> Binds(before, c, h) || HasBinding(v, c, h) {
      BindsAppend(before, v, c, h);
    }
    if c, h :| Binds(result, c, h) && v.Has(c) && h != c + v.Offset() {
      assert Binds(before + [v], c, h) && Binds(before + [v], c, c + v.Offset());
    }
  }
}
