/**
 Interval subtraction (internal/deploy/identity_execution_plan.go,
 `subtractExecutionIntervalsV1`): the two-pointer loop that removes container ranges
 from a canonical list in time proportional to the number of boundaries.

 `Subtract` is the plain form: take the removed ranges out one after another. The
 loop is proved to return the same list.
 */
module Subtraction {
  import opened Common
  import opened Geometry

  /** The part of `v` from `lo` up to `hi`, with Go's uint32 conversions; none when empty. */
  function Span(v: Interval, lo: int, hi: int): seq<Interval> {
    if lo < hi then [Interval(Wrap(lo), Wrap(v.host + Wrap(lo - v.container)), Wrap(hi - lo))] else []
  }

  lemma SpanIsExact(v: Interval, lo: int, hi: int)
    requires v.Valid() && v.container <= lo < hi <= v.End()
    ensures var p := Span(v, lo, hi)[0];
            p.container == lo && p.End() == hi && p.Offset() == v.Offset() && p.Valid()
  {
    assert lo - v.container < TWO_32 && hi - lo < TWO_32;
    assert v.host + (lo - v.container) < TWO_32;
  }

  function Cut(v: Interval, r: Interval): seq<Interval> {
    Span(v, v.container, Min(v.End(), r.container)) + Span(v, Max(v.container, r.End()), v.End())
  }

  function CutAll(s: seq<Interval>, r: Interval): seq<Interval> {
    if s == [] then [] else CutAll(s[..|s| - 1], r) + Cut(s[|s| - 1], r)
  }

  /** `from` without the IDs of `remove`, one removed range at a time. */
  function Subtract(from: seq<Interval>, remove: seq<Interval>): seq<Interval> {
    if remove == [] then from else CutAll(Subtract(from, remove[..|remove| - 1]), remove[|remove| - 1])
  }

  lemma CutMeaning(v: Interval, r: Interval)
    requires v.Valid() && r.Valid()
    ensures forall c, h :: Binds(Cut(v, r), c, h) <==> HasBinding(v, c, h) && !r.Has(c)
    ensures Form(Cut(v, r))
    ensures forall i :: 0 <= i < |Cut(v, r)| ==>
              var p := Cut(v, r)[i];
              v.container <= p.container && p.End() <= v.End() && p.Offset() == v.Offset()
  {
    var left := Span(v, v.container, Min(v.End(), r.container));
    var right := Span(v, Max(v.container, r.End()), v.End());
    if left != [] { SpanIsExact(v, v.container, Min(v.End(), r.container)); }
    if right != [] { SpanIsExact(v, Max(v.container, r.End()), v.End()); }
    forall c, h ensures Binds(left + right, c, h) <==> HasBinding(v, c, h) && !r.Has(c) {
      if HasBinding(v, c, h) && !r.Has(c) {
        var pieces: seq<Interval> := left + right;
        if c < r.container { assert pieces[0].Has(c); } else { assert pieces[|left|].Has(c); }
      }
    }
  }

  /** Each piece lies inside one interval of the list it was cut from. */
  ghost predicate PiecesOf(pieces: seq<Interval>, s: seq<Interval>) {
    forall i :: 0 <= i < |pieces| ==> exists k :: 0 <= k < |s| && Inside(pieces[i], s[k])
  }

  predicate Inside(p: Interval, v: Interval) {
    v.container <= p.container && p.End() <= v.End() && p.Offset() == v.Offset()
  }

  lemma ConcatBinds(a: seq<Interval>, b: seq<Interval>, c: int, h: int)
    ensures Binds(a + b, c, h) <==> Binds(a, c, h) || Binds(b, c, h)
  {
    if Binds(a, c, h) {
      var i :| 0 <= i < |a| && a[i].Has(c) && h == c + a[i].Offset();
      assert (a + b)[i] == a[i];
    }
    if Binds(b, c, h) {
      var i :| 0 <= i < |b| && b[i].Has(c) && h == c + b[i].Offset();
      assert (a + b)[|a| + i] == b[i];
    }
  }

  lemma ConcatForm(a: seq<Interval>, b: seq<Interval>)
    requires Form(a) && Form(b)
    requires a != [] && b != [] ==> a[|a| - 1].End() <= b[0].container && !Joins(a[|a| - 1], b[0])
    ensures Form(a + b)
  {
    var s := a + b;
    forall i, j | 0 <= i < j < |s| ensures s[i].End() <= s[j].container {
      if i < |a| <= j {
        assert i == |a| - 1 || a[i].End() <= a[|a| - 1].container;
        assert j == |a| || b[0].End() <= b[j - |a|].container;
      }
    }
  }

  /** Pieces of the intervals before `v` neither reach into `v` nor join a piece of it. */
  lemma PiecesStayApart(s: seq<Interval>, p: Interval, q: Interval)
    requires Form(s) && s != [] && q.Valid() && p.Valid()
    requires exists k :: 0 <= k < |s| - 1 && Inside(p, s[k])
    requires Inside(q, s[|s| - 1])
    ensures p.End() <= q.container && !Joins(p, q)
  {
    var n := |s| - 1;
    var k :| 0 <= k < n && Inside(p, s[k]);
    assert s[k].End() <= s[n].container;
    if k < n - 1 { assert s[k].End() <= s[n - 1].container; } else { assert !Joins(s[n - 1], s[n]); }
  }

  lemma {:induction false} CutAllMeaning(s: seq<Interval>, r: Interval)
    requires Form(s) && r.Valid()
    ensures Form(CutAll(s, r)) && PiecesOf(CutAll(s, r), s)
    ensures forall c, h :: Binds(CutAll(s, r), c, h) <==> Binds(s, c, h) && !r.Has(c)
  {
    if s != [] {
      var n := |s| - 1;
      var a, b := CutAll(s[..n], r), Cut(s[n], r);
      assert s == s[..n] + [s[n]];
      CutAllMeaning(s[..n], r);
      CutMeaning(s[n], r);
      if a != [] && b != [] {
        var k :| 0 <= k < n && Inside(a[|a| - 1], s[..n][k]);
        assert Inside(a[|a| - 1], s[k]);
        PiecesStayApart(s, a[|a| - 1], b[0]);
      }
      ConcatForm(a, b);
      CutAllPieces(s, r);
      forall c, h ensures Binds(a + b, c, h) <==> Binds(s, c, h) && !r.Has(c) {
        ConcatBinds(a, b, c, h);
        BindsAppend(s[..n], s[n], c, h);
      }
    }
  }

  lemma CutAllPieces(s: seq<Interval>, r: Interval)
    requires Form(s) && r.Valid() && s != [] && PiecesOf(CutAll(s[..|s| - 1], r), s[..|s| - 1])
    ensures PiecesOf(CutAll(s, r), s)
  {
    var n := |s| - 1;
    var a, b := CutAll(s[..n], r), Cut(s[n], r);
    CutMeaning(s[n], r);
    forall i | 0 <= i < |a + b| ensures exists k :: 0 <= k < |s| && Inside((a + b)[i], s[k]) {
      if i < |a| {
        var k :| 0 <= k < n && Inside(a[i], s[..n][k]);
        assert Inside((a + b)[i], s[k]);
      } else {
        assert Inside((a + b)[i], s[n]);
      }
    }
  }

  lemma CoversAppend(s: seq<Interval>, v: Interval, c: int)
    ensures Covers(s + [v], c) <==> Covers(s, c) || v.Has(c)
  {
    if Covers(s, c) {
      var i :| 0 <= i < |s| && s[i].Has(c);
      assert (s + [v])[i].Has(c);
    }
    if v.Has(c) { assert (s + [v])[|s|].Has(c); }
  }

  /** Subtraction restricts the relation to the container IDs that are not removed. */
  lemma {:induction false} SubtractMeaning(from: seq<Interval>, remove: seq<Interval>)
    requires Form(from) && AllValid(remove)
    ensures Form(Subtract(from, remove))
    ensures forall c, h :: Binds(Subtract(from, remove), c, h) <==> Binds(from, c, h) && !Covers(remove, c)
  {
    if remove != [] {
      var n := |remove| - 1;
      assert remove == remove[..n] + [remove[n]];
      SubtractMeaning(from, remove[..n]);
      CutAllMeaning(Subtract(from, remove[..n]), remove[n]);
      forall c ensures Covers(remove, c) <==> Covers(remove[..n], c) || remove[n].Has(c) {
        CoversAppend(remove[..n], remove[n], c);
      }
    }
  }

  /** Removing what is not in `part` from `whole` leaves `part`, as the identical list. */
  lemma SubtractTwice(whole: seq<Interval>, part: seq<Interval>)
    requires Form(whole) && Form(part) && Within(part, whole)
    ensures Subtract(whole, Subtract(whole, part)) == part
  {
    var rest := Subtract(whole, part);
    SubtractMeaning(whole, part);
    SubtractMeaning(whole, rest);
    forall c, h ensures Binds(Subtract(whole, rest), c, h) <==> Binds(part, c, h) {
      CoversIsBinds(part, c);
      CoversIsBinds(rest, c);
      if Binds(part, c, h) { assert Binds(whole, c, h) && Covers(part, c); }
      if Binds(whole, c, h) && !Covers(rest, c) {
        assert Covers(part, c);
        var k :| Binds(part, c, k);
        BindingIsUniqueIn(whole, c, h, k);
      }
    }
    CanonicalFormIsUnique(Subtract(whole, rest), part);
  }

  lemma BindingIsUniqueIn(s: seq<Interval>, c: int, h: int, k: int)
    requires Form(s) && Binds(s, c, h) && Binds(s, c, k)
    ensures h == k
  {
    var i :| 0 <= i < |s| && s[i].Has(c) && h == c + s[i].Offset();
    BindingIsUnique(s, i, c, k);
  }

  // ----- the two-pointer loop

  /** The loop has dealt with the first `i` intervals of `from`. */
  ghost predicate Complete(from: seq<Interval>, remove: seq<Interval>, i: nat, result: seq<Interval>)
    requires i <= |from|
  {
    && Form(result)
    && (forall c, h :: Binds(result, c, h) <==> Binds(from[..i], c, h) && !Covers(remove, c))
    && (result != [] ==>
          && i > 0
          && result[|result| - 1].End() <= from[i - 1].End()
          && (result[|result| - 1].End() == from[i - 1].End() ==>
                result[|result| - 1].Offset() == from[i - 1].Offset()))
  }

  /** Moreover it has dealt with the IDs of `from[i]` below `start`. */
  ghost predicate Partial(from: seq<Interval>, remove: seq<Interval>, i: nat, start: int, result: seq<Interval>)
    requires i < |from|
  {
    && Form(result)
    && from[i].container <= start
    && (forall c, h :: Binds(result, c, h) <==>
          (Binds(from[..i], c, h) || (HasBinding(from[i], c, h) && c < start)) && !Covers(remove, c))
    && (result != [] ==>
          && result[|result| - 1].End() <= start
          && !(result[|result| - 1].End() == start && result[|result| - 1].Offset() == from[i].Offset()))
  }

  lemma EnterInterval(from: seq<Interval>, remove: seq<Interval>, i: nat, result: seq<Interval>)
    requires Form(from) && i < |from| && Complete(from, remove, i, result)
    ensures Partial(from, remove, i, from[i].container, result)
  {
    if i > 0 { assert from[i - 1].End() <= from[i].container && !Joins(from[i - 1], from[i]); }
  }

  /** Keep `[start, lo)`, drop `[lo, next)`. */
  lemma KeepThenDrop(
    from: seq<Interval>, remove: seq<Interval>, i: nat, start: int, lo: int, next: int, result: seq<Interval>)
    requires Form(from) && i < |from| && Partial(from, remove, i, start, result)
    requires start <= next && lo < next && lo <= from[i].End()
    requires forall c :: start <= c < lo ==> !Covers(remove, c)
    requires forall c :: Max(start, lo) <= c < next && from[i].Has(c) ==> Covers(remove, c)
    ensures Partial(from, remove, i, next, result + Span(from[i], start, lo))
  {
    var v := from[i];
    if start < lo {
      SpanIsExact(v, start, lo);
      var p := Span(v, start, lo)[0];
      assert Form([p]);
      ConcatForm(result, [p]);
      forall c, h ensures Binds(result + [p], c, h) <==>
          (Binds(from[..i], c, h) || (HasBinding(v, c, h) && c < next)) && !Covers(remove, c)
      {
        BindsAppend(result, p, c, h);
        assert HasBinding(p, c, h) <==> HasBinding(v, c, h) && start <= c < lo;
        DropsBelow(from, i, c, h);
      }
    } else {
      assert result + Span(v, start, lo) == result;
    }
  }

  lemma DropsBelow(from: seq<Interval>, i: nat, c: int, h: int)
    requires Form(from) && i < |from|
    ensures Binds(from[..i], c, h) ==> c < from[i].container
  {
    if Binds(from[..i], c, h) {
      var k :| 0 <= k < i && from[..i][k].Has(c) && h == c + from[..i][k].Offset();
      assert from[k].End() <= from[i].container;
    }
  }

  lemma LeaveInterval(from: seq<Interval>, remove: seq<Interval>, i: nat, start: int, result: seq<Interval>)
    requires Form(from) && i < |from| && Partial(from, remove, i, start, result) && from[i].End() <= start
    ensures Complete(from, remove, i + 1, result)
  {
    assert from[..i + 1] == from[..i] + [from[i]];
    forall c, h ensures Binds(result, c, h) <==> Binds(from[..i + 1], c, h) && !Covers(remove, c) {
      BindsAppend(from[..i], from[i], c, h);
    }
    if result != [] {
      var p := result[|result| - 1];
      assert Binds(result, p.End() - 1, p.End() - 1 + p.Offset()) by { assert p.Has(p.End() - 1); }
      LastReaches(from, i, p.End() - 1, p.Offset());
    }
  }

  /** An ID bound by the first `i + 1` intervals lies below the end of the last of them,
      and at its very end it has that interval's offset. */
  lemma LastReaches(from: seq<Interval>, i: nat, c: int, offset: int)
    requires Form(from) && i < |from|
    requires Binds(from[..i], c, c + offset) || HasBinding(from[i], c, c + offset)
    ensures c < from[i].End()
    ensures c + 1 == from[i].End() ==> offset == from[i].Offset()
  {
    DropsBelow(from, i, c, c + offset);
  }

  /** The removed ranges before `j` end no later than `bound`. */
  ghost predicate PassedBy(remove: seq<Interval>, j: nat, bound: int) {
    j <= |remove| && forall k :: 0 <= k < j ==> remove[k].End() <= bound
  }

  /** One turn of the inner loop, for the removed range `remove[j]`. */
  lemma CutStep(from: seq<Interval>, remove: seq<Interval>, i: nat, j: nat, start: int, result: seq<Interval>)
    requires Form(from) && AllValid(remove) && Apart(remove) && i < |from| && j < |remove|
    requires Partial(from, remove, i, start, result) && PassedBy(remove, j, start)
    requires start < from[i].End() && remove[j].container < from[i].End()
    ensures Partial(from, remove, i, Max(start, remove[j].End()),
                    result + Span(from[i], start, Min(from[i].End(), remove[j].container)))
    ensures PassedBy(remove, j + 1, Max(start, remove[j].End()))
  {
    var lo, next := Min(from[i].End(), remove[j].container), Max(start, remove[j].End());
    NothingBefore(remove, j, start, lo);
    forall c | Max(start, lo) <= c < next && from[i].Has(c) ensures Covers(remove, c) {
      assert remove[j].Has(c);
    }
    KeepThenDrop(from, remove, i, start, lo, next, result);
  }

  /** What follows the inner loop: the rest of the interval, if any, is kept. */
  lemma LastStep(from: seq<Interval>, remove: seq<Interval>, i: nat, j: nat, start: int, result: seq<Interval>)
    requires Form(from) && AllValid(remove) && Apart(remove) && i < |from|
    requires Partial(from, remove, i, start, result)
    requires start < from[i].End() ==>
               PassedBy(remove, j, start) && (j < |remove| ==> from[i].End() <= remove[j].container)
    ensures Complete(from, remove, i + 1, result + Span(from[i], start, from[i].End()))
  {
    var end := from[i].End();
    if start < end {
      NothingBefore(remove, j, start, end);
      KeepThenDrop(from, remove, i, start, end, end + 1, result);
      LeaveInterval(from, remove, i, end + 1, result + Span(from[i], start, end));
    } else {
      LeaveInterval(from, remove, i, start, result);
      assert result + Span(from[i], start, end) == result;
    }
  }

  /** The body of the outer loop: append what is left of `from[i]`, advance in `remove`. */
  method SubtractFromOne(from: seq<Interval>, remove: seq<Interval>, i: nat, j0: nat, result0: seq<Interval>)
    returns (result: seq<Interval>, j: nat)
    requires Form(from) && AllValid(remove) && Apart(remove)
    requires i < |from| && PassedBy(remove, j0, from[i].container) && Complete(from, remove, i, result0)
    ensures Complete(from, remove, i + 1, result)
    ensures PassedBy(remove, j, from[i].End())
    ensures |result| + j0 <= |result0| + j + 1
  {
    var interval := from[i];
    var start := interval.container;
    var end := interval.End();
    result, j := result0, j0;
    EnterInterval(from, remove, i, result);
    while j < |remove| && remove[j].End() <= start
      invariant j0 <= j && PassedBy(remove, j, start)
    {
      j := j + 1;
    }
    while j < |remove| && remove[j].container < end
      invariant j0 <= j && PassedBy(remove, j, start) && |result| + j0 <= |result0| + j
      invariant interval.container <= start < end
      invariant Partial(from, remove, i, start, result)
    {
      var cut := remove[j];
      var lo, next := Min(end, cut.container), Max(start, cut.End());
      CutStep(from, remove, i, j, start, result);
      result := result + Span(interval, start, lo);
      start := next;
      if start >= end { break; }
      j := j + 1;
    }
    LastStep(from, remove, i, j, start, result);
    result := result + Span(interval, start, end);
  }

  /** The two-pointer loop returns the plain form's list, in few pieces. */
  method SubtractIntervals(from: seq<Interval>, remove: seq<Interval>) returns (result: seq<Interval>)
    requires Form(from) && AllValid(remove) && Apart(remove)
    ensures result == Subtract(from, remove)
    ensures |result| <= |from| + |remove|
  {
    result := [];
    var j: nat := 0;
    for i := 0 to |from|
      invariant Complete(from, remove, i, result) && |result| <= i + j
      invariant PassedBy(remove, j, if i < |from| then from[i].container else MAX_UINT32)
    {
      result, j := SubtractFromOne(from, remove, i, j, result);
      assert i + 1 < |from| ==> from[i].End() <= from[i + 1].container;
      assert from[i].Valid();
    }
    assert from[..|from|] == from;
    SubtractMeaning(from, remove);
    CanonicalFormIsUnique(result, Subtract(from, remove));
  }

  /** Between the removed ranges already passed and the next one nothing is removed. */
  lemma NothingBefore(remove: seq<Interval>, j: nat, start: int, lo: int)
    requires AllValid(remove) && Apart(remove)
    requires PassedBy(remove, j, start)
    requires j < |remove| ==> lo <= remove[j].container
    ensures forall c :: start <= c < lo ==> !Covers(remove, c)
  {
    forall c | start <= c < lo ensures !Covers(remove, c) {
      forall k | 0 <= k < |remove| ensures !remove[k].Has(c) {
        if j < k { assert remove[j].End() <= remove[k].container; }
      }
    }
  }
}
