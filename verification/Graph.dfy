/** Directed graphs given by successor sets, walks and cycles. */
module Graph {

  /** A node that is not a key has no successors. */
  type Edges<N(==)> = map<N, set<N>>

  predicate Edge<N(==)>(g: Edges<N>, a: N, b: N) { a in g && b in g[a] }

  /** A walk along edges; it may revisit nodes. */
  predicate Walk<N(==)>(g: Edges<N>, w: seq<N>) {
    w != [] && forall i :: 0 <= i < |w| - 1 ==> Edge(g, w[i], w[i + 1])
  }

  /** One or more edges lead from `a` to `b`. */
  ghost predicate Reaches<N(!new)>(g: Edges<N>, a: N, b: N) {
    exists w: seq<N> :: Walk(g, w) && |w| >= 2 && w[0] == a && w[|w| - 1] == b
  }

  ghost predicate ReachesOrIs<N(!new)>(g: Edges<N>, a: N, b: N) { a == b || Reaches(g, a, b) }

  ghost predicate Cyclic<N(!new)>(g: Edges<N>) { exists n :: Reaches(g, n, n) }

  lemma EdgeReaches<N(!new)>(g: Edges<N>, a: N, b: N)
    requires Edge(g, a, b)
    ensures Reaches(g, a, b)
  {
    var w := [a, b];
    assert Walk(g, w) && w[0] == a && w[|w| - 1] == b;
  }

  lemma ReachesOn<N(!new)>(g: Edges<N>, a: N, b: N, c: N)
    requires ReachesOrIs(g, a, b) && Edge(g, b, c)
    ensures Reaches(g, a, c)
  {
    if a == b {
      EdgeReaches(g, a, c);
    } else {
      var w :| Walk(g, w) && |w| >= 2 && w[0] == a && w[|w| - 1] == b;
      var x := w + [c];
      assert Walk(g, x) && x[0] == a && x[|x| - 1] == c;
    }
  }

  lemma ReachesFirst<N(!new)>(g: Edges<N>, a: N, b: N, c: N)
    requires Edge(g, a, b) && ReachesOrIs(g, b, c)
    ensures Reaches(g, a, c)
  {
    if b == c {
      EdgeReaches(g, a, c);
    } else {
      var w :| Walk(g, w) && |w| >= 2 && w[0] == b && w[|w| - 1] == c;
      var x := [a] + w;
      assert Walk(g, x) && x[0] == a && x[|x| - 1] == c;
    }
  }

  /** The first edge of a way. */
  lemma FirstEdge<N(!new)>(g: Edges<N>, a: N, b: N) returns (m: N)
    requires Reaches(g, a, b)
    ensures Edge(g, a, m) && ReachesOrIs(g, m, b)
  {
    var w :| Walk(g, w) && |w| >= 2 && w[0] == a && w[|w| - 1] == b;
    m := w[1];
    if |w| > 2 {
      var x := w[1..];
      assert Walk(g, x) && x[0] == m && x[|x| - 1] == b;
    } else {
      assert m == b;
    }
  }

  predicate ClosedUnder<N(==)>(g: Edges<N>, s: set<N>) { forall n :: n in s && n in g ==> g[n] <= s }

  lemma {:induction false} WalkStaysInside<N>(g: Edges<N>, s: set<N>, w: seq<N>)
    requires ClosedUnder(g, s) && Walk(g, w) && w[0] in s
    ensures w[|w| - 1] in s
  {
    if |w| > 1 {
      assert Edge(g, w[0], w[1]);
      WalkStaysInside(g, s, w[1..]);
    }
  }

  lemma ClosedStaysInside<N(!new)>(g: Edges<N>, s: set<N>, a: N, b: N)
    requires ClosedUnder(g, s) && a in s && ReachesOrIs(g, a, b)
    ensures b in s
  {
    if a != b {
      var w :| Walk(g, w) && |w| >= 2 && w[0] == a && w[|w| - 1] == b;
      WalkStaysInside(g, s, w);
    }
  }
}
