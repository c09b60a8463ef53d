/**
 The cycle check on locked provider graphs (internal/deploy/build_lock.go): a depth-first
 visit with three colours that accepts exactly when no listed node leads into a cycle.
 */
module LockedGraph {
  import opened Graph

  datatype Link = Link(supplier: string, consumer: string)

  /** The graph of a list of provider edges. */
  function EdgesOf(links: seq<Link>): (g: Edges<string>)
    ensures forall a, b :: Edge(g, a, b) <==> Link(a, b) in links
  {
    map a: string | a in Suppliers(links) :: Consumers(links, a)
  }

  function Suppliers(links: seq<Link>): set<string> { set l | l in links :: l.supplier }
  function Consumers(links: seq<Link>, a: string): set<string> { set l | l in links && l.supplier == a :: l.consumer }

  function Nodes(links: seq<Link>): set<string> { Suppliers(links) + set l | l in links :: l.consumer }

  /** Some way from `n` runs into a cycle. */
  ghost predicate LeadsIntoCycle(g: Edges<string>, n: string) {
    exists c :: ReachesOrIs(g, n, c) && Reaches(g, c, c)
  }

  datatype Colour = Visiting | Visited

  function Coloured(state: map<string, Colour>, colour: Colour): set<string> {
    set n | n in state && state[n] == colour
  }

  /** Visited nodes lead to visited nodes only, and to no cycle. */
  ghost predicate Settled(g: Edges<string>, state: map<string, Colour>) {
    && ClosedUnder(g, Coloured(state, Visited))
    && forall b :: b in Coloured(state, Visited) ==> !Reaches(g, b, b)
  }

  /** Whatever is being visited leads to `n`. */
  ghost predicate Towards(g: Edges<string>, state: map<string, Colour>, n: string) {
    forall a :: a in Coloured(state, Visiting) ==> Reaches(g, a, n)
  }

  /** ... or is `n` itself. */
  ghost predicate Inside(g: Edges<string>, state: map<string, Colour>, n: string) {
    forall a :: a in Coloured(state, Visiting) ==> ReachesOrIs(g, a, n)
  }

  lemma TowardsConsumer(g: Edges<string>, state: map<string, Colour>, n: string, c: string)
    requires Inside(g, state, n) && Edge(g, n, c)
    ensures Towards(g, state, c)
  {
    forall a | a in Coloured(state, Visiting) ensures Reaches(g, a, c) { ReachesOn(g, a, n, c); }
  }

  lemma CycleBefore(g: Edges<string>, n: string, c: string)
    requires Edge(g, n, c) && LeadsIntoCycle(g, c)
    ensures LeadsIntoCycle(g, n)
  {
    var x :| ReachesOrIs(g, c, x) && Reaches(g, x, x);
    ReachesFirst(g, n, c, x);
  }

  /** A node all of whose consumers are visited can be visited too. */
  lemma FinishedSettles(g: Edges<string>, state: map<string, Colour>, n: string)
    requires Settled(g, state) && n in state && state[n] == Visiting
    requires forall c :: Edge(g, n, c) ==> c in Coloured(state, Visited)
    ensures Settled(g, state[n := Visited])
    ensures Coloured(state[n := Visited], Visited) == Coloured(state, Visited) + {n}
    ensures Coloured(state[n := Visited], Visiting) == Coloured(state, Visiting) - {n}
  {
    var black := Coloured(state, Visited);
    assert n !in black;
    if Reaches(g, n, n) {
      var m := FirstEdge(g, n, n);
      ClosedStaysInside(g, black, m, n);
    }
    assert Coloured(state[n := Visited], Visited) == black + {n};
    if n in g { forall c | c in g[n] ensures c in black { assert Edge(g, n, c); } }
  }

  /** A settled node leads into no cycle. */
  lemma SettledIsSafe(g: Edges<string>, state: map<string, Colour>, n: string)
    requires Settled(g, state) && n in Coloured(state, Visited)
    ensures !LeadsIntoCycle(g, n)
  {
    forall c | ReachesOrIs(g, n, c) ensures !Reaches(g, c, c) {
      ClosedStaysInside(g, Coloured(state, Visited), n, c);
    }
  }

  function ConsumersIn(lists: map<string, seq<string>>, a: string): seq<string> {
    if a in lists then lists[a] else []
  }

  /** The adjacency lists, one edge after the other. */
  function Lists(links: seq<Link>): map<string, seq<string>> {
    if links == [] then map[]
    else
      var before, l := Lists(links[..|links| - 1]), links[|links| - 1];
      before[l.supplier := ConsumersIn(before, l.supplier) + [l.consumer]]
  }

  lemma {:induction false} ListsMeaning(links: seq<Link>, a: string, b: string)
    ensures b in ConsumersIn(Lists(links), a) <==> Link(a, b) in links
  {
    if links != [] {
      var n := |links| - 1;
      ListsMeaning(links[..n], a, b);
      assert links == links[..n] + [links[n]];
    }
  }

  /** More nodes are visited, the same ones are being visited. */
  ghost predicate Progress(g: Edges<string>, before: map<string, Colour>, after: map<string, Colour>) {
    && Settled(g, after)
    && Coloured(after, Visiting) == Coloured(before, Visiting)
    && Coloured(before, Visited) <= Coloured(after, Visited)
  }

  lemma ProgressOn(g: Edges<string>, a: map<string, Colour>, b: map<string, Colour>, c: map<string, Colour>, n: string)
    requires Progress(g, a, b) && Progress(g, b, c)
    ensures Progress(g, a, c) && (Inside(g, b, n) ==> Inside(g, c, n))
  {
  }

  predicate Done(s: seq<string>, i: nat, visited: set<string>) {
    forall k :: 0 <= k < i && k < |s| ==> s[k] in visited
  }

  lemma DoneOn(s: seq<string>, i: nat, before: set<string>, after: set<string>)
    requires i < |s| && Done(s, i, before) && before <= after && s[i] in after
    ensures Done(s, i + 1, after)
  {
  }

  class Visitor {
    const links: seq<Link>
    const adjacency: map<string, seq<string>>
    var state: map<string, Colour>

    /** Go builds the adjacency lists in one pass over the edges. */
    constructor (links: seq<Link>)
      ensures this.links == links && state == map[] && adjacency == Lists(links)
    {
      var lists: map<string, seq<string>> := map[];
      for i := 0 to |links|
        invariant lists == Lists(links[..i])
      {
        assert links[..i + 1][..i] == links[..i];
        var l := links[i];
        lists := lists[l.supplier := ConsumersIn(lists, l.supplier) + [l.consumer]];
      }
      assert links[..|links|] == links;
      this.links := links;
      adjacency := lists;
      state := map[];
    }

    method Visit(n: string) returns (ok: bool)
      requires adjacency == Lists(links) && Settled(EdgesOf(links), state) && Towards(EdgesOf(links), state, n)
      modifies this`state
      ensures old(state.Keys) <= state.Keys
      ensures ok ==> Progress(EdgesOf(links), old(state), state) && n in Coloured(state, Visited)
      ensures !ok ==> LeadsIntoCycle(EdgesOf(links), n)
      decreases Nodes(links) + {n} - state.Keys, 0
    {
      ghost var g := EdgesOf(links);
      if n in state && state[n] == Visiting {
        assert n in Coloured(state, Visiting) && ReachesOrIs(g, n, n);
        return false;
      }
      if n in state && state[n] == Visited { return true; }
      state := state[n := Visiting];
      ghost var grey := Coloured(old(state), Visiting) + {n};
      assert Coloured(state, Visiting) == grey && Coloured(state, Visited) == Coloured(old(state), Visited);
      ok := VisitConsumers(n);
      if !ok { return false; }
      FinishedSettles(g, state, n);
      state := state[n := Visited];
      return true;
    }

    method VisitConsumer(n: string, c: string) returns (ok: bool)
      requires adjacency == Lists(links) && Link(n, c) in links
      requires Settled(EdgesOf(links), state) && Inside(EdgesOf(links), state, n)
      modifies this`state
      ensures old(state.Keys) <= state.Keys
      ensures ok ==> Progress(EdgesOf(links), old(state), state) && Inside(EdgesOf(links), state, n)
      ensures ok ==> c in Coloured(state, Visited)
      ensures !ok ==> LeadsIntoCycle(EdgesOf(links), n)
      decreases Nodes(links) - state.Keys, 1
    {
      ghost var g := EdgesOf(links);
      assert Edge(g, n, c) && c in Nodes(links);
      TowardsConsumer(g, state, n, c);
      ok := Visit(c);
      if ok { ProgressOn(g, old(state), old(state), state, n); } else { CycleBefore(g, n, c); }
    }

    method VisitConsumers(n: string) returns (ok: bool)
      requires adjacency == Lists(links) && Settled(EdgesOf(links), state) && Inside(EdgesOf(links), state, n) && n in state
      modifies this`state
      ensures old(state.Keys) <= state.Keys
      ensures ok ==> Progress(EdgesOf(links), old(state), state)
      ensures ok ==> forall c :: Edge(EdgesOf(links), n, c) ==> c in Coloured(state, Visited)
      ensures !ok ==> LeadsIntoCycle(EdgesOf(links), n)
      decreases Nodes(links) - state.Keys, 2
    {
      ghost var g := EdgesOf(links);
      var consumers := ConsumersIn(adjacency, n);
      for i := 0 to |consumers|
        invariant Progress(g, old(state), state) && Inside(g, state, n) && old(state.Keys) <= state.Keys
        invariant Done(consumers, i, Coloured(state, Visited))
      {
        ListsMeaning(links, n, consumers[i]);
        ghost var before := state;
        ok := VisitConsumer(n, consumers[i]);
        if !ok { return false; }
        ProgressOn(g, old(state), before, state, n);
        DoneOn(consumers, i, Coloured(before, Visited), Coloured(state, Visited));
      }
      forall c | Edge(g, n, c) ensures c in Coloured(state, Visited) {
        ListsMeaning(links, n, c);
      }
      return true;
    }
  }

  /** No listed node leads into a cycle. */
  ghost predicate Accepts(nodes: seq<string>, links: seq<Link>) {
    forall n :: n in nodes ==> !LeadsIntoCycle(EdgesOf(links), n)
  }

  /** Go's `rejectLockedGraphCycles`. */
  method RejectLockedGraphCycles(nodes: seq<string>, links: seq<Link>) returns (ok: bool)
    ensures ok <==> Accepts(nodes, links)
  {
    var visitor := new Visitor(links);
    ghost var g := EdgesOf(links);
    for i := 0 to |nodes|
      invariant visitor.links == links && visitor.adjacency == Lists(links) && Settled(g, visitor.state)
      invariant Coloured(visitor.state, Visiting) == {}
      invariant forall k :: 0 <= k < i ==> nodes[k] in Coloured(visitor.state, Visited)
    {
      ok := visitor.Visit(nodes[i]);
      if !ok { return false; }
    }
    forall n | n in nodes ensures !LeadsIntoCycle(g, n) { SettledIsSafe(g, visitor.state, n); }
    return true;
  }

  /** Every edge joins two different listed nodes. */
  predicate EdgesListed(nodes: seq<string>, links: seq<Link>) {
    forall l :: l in links ==> l.supplier in nodes && l.consumer in nodes && l.supplier != l.consumer
  }

  /** When the nodes include both ends of every edge, the accepted graphs are the acyclic ones. */
  lemma AcceptsTheAcyclic(nodes: seq<string>, links: seq<Link>)
    requires forall l :: l in links ==> l.supplier in nodes && l.consumer in nodes
    ensures Accepts(nodes, links) <==> !Cyclic(EdgesOf(links))
  {
    var g := EdgesOf(links);
    forall n | Reaches(g, n, n) ensures n in nodes && LeadsIntoCycle(g, n) {
      var m := FirstEdge(g, n, n);
      assert Link(n, m) in links && ReachesOrIs(g, n, n);
    }
  }

  /** Go's `validateProviderGraphLock`, as far as the shape of the graph goes: it refuses
      edges with unlisted ends before it looks for cycles, and so accepts exactly the acyclic
      graphs over the listed nodes. */
  method ValidateGraphShape(nodes: seq<string>, links: seq<Link>) returns (ok: bool)
    ensures ok <==> EdgesListed(nodes, links) && !Cyclic(EdgesOf(links))
  {
    for i := 0 to |links|
      invariant EdgesListed(nodes, links[..i])
    {
      var edge := links[i];
      if edge.supplier !in nodes || edge.consumer !in nodes || edge.supplier == edge.consumer { return false; }
    }
    assert links[..|links|] == links;
    ok := RejectLockedGraphCycles(nodes, links);
    AcceptsTheAcyclic(nodes, links);
  }

  /** On its own the cycle check overlooks a cycle that no listed node leads into. */
  lemma UnlistedCycleIsAccepted(a: string, b: string)
    ensures var links := [Link(a, b), Link(b, a)];
            Accepts([], links) && Cyclic(EdgesOf(links)) && !EdgesListed([], links)
  {
    var links := [Link(a, b), Link(b, a)];
    var g := EdgesOf(links);
    assert links[0] in links && links[1] in links;
    assert Edge(g, a, b) && Edge(g, b, a);
    EdgeReaches(g, b, a);
    ReachesFirst(g, a, b, a);
  }
}
