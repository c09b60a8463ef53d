/**
 Plain substitution of blueprint variables (internal/blueprint/variables.go): what a
 variable map means, and exactly when it can be resolved.
 */
module Variables {
  import opened Common
  import opened Graph

  /** A string value, split by the interpolation pattern. Dotted references are literals. */
  datatype Part = Literal(text: string) | Ref(name: string)

  datatype Field = Field(key: string, value: Source)

  /** A source value; `Whole` is a string that is one undotted reference and nothing else.
      A constant is a scalar that is not a string, with the text Go prints for it. */
  datatype Source =
    | Constant(shown: string)
    | Whole(name: string)
    | Pieces(parts: seq<Part>)
    | Listing(items: seq<Source>)
    | Fields(fields: seq<Field>)

  datatype Value =
    | Other(shown: string)
    | Str(text: string)
    | List(items: seq<Value>)
    | Map(fields: map<string, Value>)

  type Env = map<string, Source>

  predicate Scalar(v: Value) { v.Other? || v.Str? }

  function Show(v: Value): string
    requires Scalar(v)
  {
    if v.Str? then v.text else v.shown
  }

  // ----- what a source value refers to

  function PartRefs(parts: seq<Part>): set<string> { set p | p in parts && p.Ref? :: p.name }

  function Refs(src: Source): set<string> {
    match src
    case Constant(_) => {}
    case Whole(n) => {n}
    case Pieces(parts) => PartRefs(parts)
    case Listing(items) => set i, r | 0 <= i < |items| && r in Refs(items[i]) :: r
    case Fields(fields) => set i, r | 0 <= i < |fields| && r in Refs(fields[i].value) :: r
  }

  /** The references that stand inside text, where only scalars may. */
  function Embedded(src: Source): set<string> {
    match src
    case Constant(_) => {}
    case Whole(_) => {}
    case Pieces(parts) => PartRefs(parts)
    case Listing(items) => set i, r | 0 <= i < |items| && r in Embedded(items[i]) :: r
    case Fields(fields) => set i, r | 0 <= i < |fields| && r in Embedded(fields[i].value) :: r
  }

  // ----- plain recursive substitution; `path` holds the names being expanded

  function Resolve(env: Env, path: set<string>, name: string): Option<Value>
    decreases env.Keys - path, 0, 0
  {
    if name !in env || name in path then None else ResolveValue(env, path + {name}, env[name])
  }

  function ResolveValue(env: Env, path: set<string>, src: Source): Option<Value>
    decreases env.Keys - path, 1, src, 1, 0
  {
    match src
    case Constant(shown) => Some(Other(shown))
    case Whole(n) => Resolve(env, path, n)
    case Pieces(parts) => (match ResolveText(env, path, parts) case Some(t) => Some(Str(t)) case None => None)
    case Listing(items) =>
      (match ResolveItems(env, path, src, |items|) case Some(vs) => Some(List(vs)) case None => None)
    case Fields(fields) =>
      (match ResolveFields(env, path, src, |fields|) case Some(m) => Some(Map(m)) case None => None)
  }

  function ResolvePart(env: Env, path: set<string>, part: Part): Option<string>
    decreases env.Keys - path, 0, 1
  {
    match part
    case Literal(t) => Some(t)
    case Ref(n) => (match Resolve(env, path, n) case Some(v) => if Scalar(v) then Some(Show(v)) else None case None => None)
  }

  function ResolveText(env: Env, path: set<string>, parts: seq<Part>): Option<string>
    decreases env.Keys - path, 0, |parts| + 2
  {
    if parts == [] then Some("")
    else
      match (ResolveText(env, path, parts[..|parts| - 1]), ResolvePart(env, path, parts[|parts| - 1]))
      case (Some(t), Some(u)) => Some(t + u)
      case _ => None
  }

  function ResolveItems(env: Env, path: set<string>, src: Source, k: nat): Option<seq<Value>>
    requires src.Listing? && k <= |src.items|
    decreases env.Keys - path, 1, src, 0, k
  {
    if k == 0 then Some([])
    else
      match (ResolveItems(env, path, src, k - 1), ResolveValue(env, path, src.items[k - 1]))
      case (Some(vs), Some(v)) => Some(vs + [v])
      case _ => None
  }

  function ResolveFields(env: Env, path: set<string>, src: Source, k: nat): Option<map<string, Value>>
    requires src.Fields? && k <= |src.fields|
    decreases env.Keys - path, 1, src, 0, k
  {
    if k == 0 then Some(map[])
    else
      match (ResolveFields(env, path, src, k - 1), ResolveValue(env, path, src.fields[k - 1].value))
      case (Some(m), Some(v)) => Some(m[src.fields[k - 1].key := v])
      case _ => None
  }

  // ----- the path only matters through the names it blocks

  /** `done` holds everything its names refer to. */
  ghost predicate ClosedNames(env: Env, done: iset<string>) {
    forall m, r :: m in done && m in env && r in Refs(env[m]) ==> r in done
  }

  /** Inside `done`, `q` blocks no more than `p`. */
  ghost predicate Laxer(p: set<string>, q: set<string>, done: iset<string>) {
    forall m :: m in q && m in done ==> m in p
  }

  lemma {:induction false} SameElsewhere(env: Env, p: set<string>, q: set<string>, done: iset<string>, n: string)
    requires ClosedNames(env, done) && Laxer(p, q, done) && n in done && Resolve(env, p, n).Some?
    ensures Resolve(env, q, n) == Resolve(env, p, n)
    decreases env.Keys - p, 0, 0
  {
    SameValue(env, p + {n}, q + {n}, done, env[n]);
  }

  lemma {:induction false} SameValue(env: Env, p: set<string>, q: set<string>, done: iset<string>, src: Source)
    requires ClosedNames(env, done) && Laxer(p, q, done) && (forall r :: r in Refs(src) ==> r in done)
    requires ResolveValue(env, p, src).Some?
    ensures ResolveValue(env, q, src) == ResolveValue(env, p, src)
    decreases env.Keys - p, 1, src, 1, 0
  {
    match src
    case Constant(_) =>
    case Whole(n) => SameElsewhere(env, p, q, done, n);
    case Pieces(parts) => SameText(env, p, q, done, parts);
    case Listing(items) => SameItems(env, p, q, done, src, |items|);
    case Fields(fields) => SameFields(env, p, q, done, src, |fields|);
  }

  lemma {:induction false} SameText(env: Env, p: set<string>, q: set<string>, done: iset<string>, parts: seq<Part>)
    requires ClosedNames(env, done) && Laxer(p, q, done) && (forall r :: r in PartRefs(parts) ==> r in done)
    requires ResolveText(env, p, parts).Some?
    ensures ResolveText(env, q, parts) == ResolveText(env, p, parts)
    decreases env.Keys - p, 0, |parts| + 2
  {
    if parts != [] {
      var last := parts[|parts| - 1];
      SameText(env, p, q, done, parts[..|parts| - 1]);
      if last.Ref? {
        assert last.name in PartRefs(parts);
        SameElsewhere(env, p, q, done, last.name);
      }
    }
  }

  lemma {:induction false} SameItems(
    env: Env, p: set<string>, q: set<string>, done: iset<string>, src: Source, k: nat)
    requires ClosedNames(env, done) && Laxer(p, q, done) && (forall r :: r in Refs(src) ==> r in done)
    requires src.Listing? && k <= |src.items| && ResolveItems(env, p, src, k).Some?
    ensures ResolveItems(env, q, src, k) == ResolveItems(env, p, src, k)
    decreases env.Keys - p, 1, src, 0, k
  {
    if k > 0 {
      SameItems(env, p, q, done, src, k - 1);
      SameValue(env, p, q, done, src.items[k - 1]);
    }
  }

  lemma {:induction false} SameFields(
    env: Env, p: set<string>, q: set<string>, done: iset<string>, src: Source, k: nat)
    requires ClosedNames(env, done) && Laxer(p, q, done) && (forall r :: r in Refs(src) ==> r in done)
    requires src.Fields? && k <= |src.fields| && ResolveFields(env, p, src, k).Some?
    ensures ResolveFields(env, q, src, k) == ResolveFields(env, p, src, k)
    decreases env.Keys - p, 1, src, 0, k
  {
    if k > 0 {
      SameFields(env, p, q, done, src, k - 1);
      SameValue(env, p, q, done, src.fields[k - 1].value);
    }
  }

  /** With fewer names being expanded the same value is found. */
  lemma FewerBlocked(env: Env, p: set<string>, q: set<string>, n: string)
    requires q <= p && Resolve(env, p, n).Some?
    ensures Resolve(env, q, n) == Resolve(env, p, n)
  {
    var all := iset x: string | 0 <= |x|;
    SameElsewhere(env, p, q, all, n);
  }

  // ----- exactly when everything resolves

  function RefGraph(env: Env): Edges<string> { map n | n in env :: Refs(env[n]) }

  ghost predicate Resolvable(env: Env) { forall n :: n in env ==> Resolve(env, {}, n).Some? }

  predicate RefsClosed(env: Env) { forall n :: n in env ==> Refs(env[n]) <= env.Keys }

  /** A chain of whole references that ends in a list or a map. */
  predicate StructureChain(env: Env, chain: seq<string>) {
    && chain != [] && (forall i :: 0 <= i < |chain| ==> chain[i] in env)
    && (forall i :: 0 <= i < |chain| - 1 ==> env[chain[i]] == Whole(chain[i + 1]))
    && (env[chain[|chain| - 1]].Listing? || env[chain[|chain| - 1]].Fields?)
  }

  ghost predicate NamesStructure(env: Env, n: string) {
    exists chain :: StructureChain(env, chain) && chain[0] == n
  }

  /** No list or map is embedded in text. */
  ghost predicate TextIsScalar(env: Env) {
    forall n, r :: n in env && r in Embedded(env[n]) ==> !NamesStructure(env, r)
  }

  lemma {:induction false} TextRefsResolve(env: Env, path: set<string>, parts: seq<Part>, r: string)
    requires ResolveText(env, path, parts).Some? && r in PartRefs(parts)
    ensures Resolve(env, path, r).Some? && Scalar(Resolve(env, path, r).value)
  {
    var n := |parts| - 1;
    assert parts == parts[..n] + [parts[n]];
    if parts[n] != Ref(r) { TextRefsResolve(env, path, parts[..n], r); }
  }

  lemma {:induction false} ItemsResolve(env: Env, path: set<string>, src: Source, k: nat, i: nat)
    requires src.Listing? && i < k <= |src.items| && ResolveItems(env, path, src, k).Some?
    ensures ResolveValue(env, path, src.items[i]).Some?
  {
    if i < k - 1 { ItemsResolve(env, path, src, k - 1, i); }
  }

  lemma {:induction false} FieldsResolve(env: Env, path: set<string>, src: Source, k: nat, i: nat)
    requires src.Fields? && i < k <= |src.fields| && ResolveFields(env, path, src, k).Some?
    ensures ResolveValue(env, path, src.fields[i].value).Some?
  {
    if i < k - 1 { FieldsResolve(env, path, src, k - 1, i); }
  }

  /** Everything a resolved value refers to resolves, to a scalar where it is embedded. */
  lemma {:induction false} RefsResolve(env: Env, path: set<string>, src: Source, r: string)
    requires ResolveValue(env, path, src).Some?
    ensures r in Refs(src) ==> Resolve(env, path, r).Some?
    ensures r in Embedded(src) ==> Resolve(env, path, r).Some? && Scalar(Resolve(env, path, r).value)
    decreases src
  {
    match src
    case Constant(_) =>
    case Whole(_) =>
    case Pieces(parts) => if r in PartRefs(parts) { TextRefsResolve(env, path, parts, r); }
    case Listing(items) =>
      forall i | 0 <= i < |items|
        ensures r in Refs(items[i]) ==> Resolve(env, path, r).Some?
        ensures r in Embedded(items[i]) ==> Resolve(env, path, r).Some? && Scalar(Resolve(env, path, r).value)
      {
        ItemsResolve(env, path, src, |items|, i);
        RefsResolve(env, path, items[i], r);
      }
    case Fields(fields) =>
      forall i | 0 <= i < |fields|
        ensures r in Refs(fields[i].value) ==> Resolve(env, path, r).Some?
        ensures r in Embedded(fields[i].value) ==> Resolve(env, path, r).Some? && Scalar(Resolve(env, path, r).value)
      {
        FieldsResolve(env, path, src, |fields|, i);
        RefsResolve(env, path, fields[i].value, r);
      }
  }

  /** A resolved name resolves its references with itself blocked. */
  lemma EdgeResolves(env: Env, path: set<string>, n: string, r: string)
    requires Resolve(env, path, n).Some? && Edge(RefGraph(env), n, r)
    ensures Resolve(env, path + {n}, r).Some?
  {
    RefsResolve(env, path + {n}, env[n], r);
  }

  /** Along a walk every name resolves while those before it are blocked. */
  lemma {:induction false} WalkResolves(env: Env, path: set<string>, w: seq<string>)
    requires Walk(RefGraph(env), w) && Resolve(env, path, w[0]).Some?
    ensures |w| >= 2 ==> w[|w| - 1] != w[0] && w[|w| - 1] !in path
    ensures |w| == 1 ==> w[0] !in path
    decreases |w|
  {
    if |w| >= 2 {
      assert Edge(RefGraph(env), w[0], w[1]);
      EdgeResolves(env, path, w[0], w[1]);
      var rest := w[1..];
      assert forall i :: 0 <= i < |rest| - 1 ==> Edge(RefGraph(env), rest[i], rest[i + 1]);
      WalkResolves(env, path + {w[0]}, rest);
      assert rest[|rest| - 1] == w[|w| - 1];
    }
  }

  lemma ResolvableIsAcyclic(env: Env)
    requires Resolvable(env)
    ensures !Cyclic(RefGraph(env))
  {
    if n :| Reaches(RefGraph(env), n, n) {
      var w :| Walk(RefGraph(env), w) && |w| >= 2 && w[0] == n && w[|w| - 1] == n;
      assert Edge(RefGraph(env), w[0], w[1]);
      WalkResolves(env, {}, w);
    }
  }

  /** Along a chain the value found is the list or map at its end. */
  lemma {:induction false} ChainResolves(env: Env, path: set<string>, chain: seq<string>)
    requires StructureChain(env, chain) && Resolve(env, path, chain[0]).Some?
    ensures !Scalar(Resolve(env, path, chain[0]).value)
    decreases |chain|
  {
    if |chain| > 1 {
      var rest := chain[1..];
      assert env[chain[0]] == Whole(chain[1]);
      assert forall i :: 0 <= i < |rest| - 1 ==> env[rest[i]] == Whole(rest[i + 1]) by {
        assert forall i :: 0 <= i < |rest| ==> rest[i] == chain[i + 1];
      }
      assert rest[|rest| - 1] == chain[|chain| - 1];
      ChainResolves(env, path + {chain[0]}, rest);
    }
  }

  lemma {:induction false} StructureHasChain(env: Env, path: set<string>, n: string)
    requires Resolve(env, path, n).Some? && !Scalar(Resolve(env, path, n).value)
    ensures NamesStructure(env, n)
    decreases env.Keys - path
  {
    if env[n].Whole? {
      var m := env[n].name;
      StructureHasChain(env, path + {n}, m);
      var rest :| StructureChain(env, rest) && rest[0] == m;
      var chain := [n] + rest;
      assert forall i :: 0 < i < |chain| ==> chain[i] == rest[i - 1];
      assert StructureChain(env, chain) && chain[0] == n;
    } else {
      assert StructureChain(env, [n]) && [n][0] == n;
    }
  }

  /** Whatever is being expanded leads to every one of these names. */
  ghost predicate Expanding(env: Env, path: set<string>, names: set<string>) {
    forall p, r :: p in path && r in names ==> Reaches(RefGraph(env), p, r)
  }

  lemma ExpandingOn(env: Env, path: set<string>, n: string)
    requires n in env && Expanding(env, path, {n})
    ensures Expanding(env, path + {n}, Refs(env[n]))
  {
    forall p, r | p in path + {n} && r in Refs(env[n]) ensures Reaches(RefGraph(env), p, r) {
      assert Edge(RefGraph(env), n, r);
      ReachesOn(RefGraph(env), p, n, r);
    }
  }

  ghost predicate WellFormed(env: Env) { RefsClosed(env) && !Cyclic(RefGraph(env)) && TextIsScalar(env) }

  lemma {:induction false} WellFormedResolves(env: Env, path: set<string>, n: string)
    requires WellFormed(env) && n in env && Expanding(env, path, {n})
    ensures Resolve(env, path, n).Some?
    decreases env.Keys - path, 0, 0
  {
    assert n in path ==> Reaches(RefGraph(env), n, n);
    ExpandingOn(env, path, n);
    ValueResolves(env, path + {n}, env[n]);
  }

  /** The value's references are known, expanded from `path`, and scalar where embedded. */
  ghost predicate Sound(env: Env, path: set<string>, src: Source) {
    && Refs(src) <= env.Keys && Expanding(env, path, Refs(src))
    && forall r :: r in Embedded(src) ==> !NamesStructure(env, r)
  }

  lemma {:induction false} ValueResolves(env: Env, path: set<string>, src: Source)
    requires WellFormed(env) && Sound(env, path, src)
    ensures ResolveValue(env, path, src).Some?
    decreases env.Keys - path, 1, src, 1, 0
  {
    match src
    case Constant(_) =>
    case Whole(n) => WellFormedResolves(env, path, n);
    case Pieces(parts) => TextResolves(env, path, parts);
    case Listing(items) => ListingResolves(env, path, src, |items|);
    case Fields(fields) => AllFieldsResolve(env, path, src, |fields|);
  }

  lemma {:induction false} TextResolves(env: Env, path: set<string>, parts: seq<Part>)
    requires WellFormed(env) && PartRefs(parts) <= env.Keys && Expanding(env, path, PartRefs(parts))
    requires forall r :: r in PartRefs(parts) ==> !NamesStructure(env, r)
    ensures ResolveText(env, path, parts).Some?
    decreases env.Keys - path, 0, |parts| + 2
  {
    if parts != [] {
      var k := |parts| - 1;
      assert PartRefs(parts[..k]) <= PartRefs(parts);
      TextResolves(env, path, parts[..k]);
      if parts[k].Ref? {
        var n := parts[k].name;
        assert n in PartRefs(parts);
        WellFormedResolves(env, path, n);
        if !Scalar(Resolve(env, path, n).value) { StructureHasChain(env, path, n); }
      }
    }
  }

  lemma {:induction false} ListingResolves(env: Env, path: set<string>, src: Source, k: nat)
    requires WellFormed(env) && Sound(env, path, src) && src.Listing? && k <= |src.items|
    ensures ResolveItems(env, path, src, k).Some?
    decreases env.Keys - path, 1, src, 0, k
  {
    if k > 0 {
      ListingResolves(env, path, src, k - 1);
      assert Refs(src.items[k - 1]) <= Refs(src) && Embedded(src.items[k - 1]) <= Embedded(src);
      ValueResolves(env, path, src.items[k - 1]);
    }
  }

  lemma {:induction false} AllFieldsResolve(env: Env, path: set<string>, src: Source, k: nat)
    requires WellFormed(env) && Sound(env, path, src) && src.Fields? && k <= |src.fields|
    ensures ResolveFields(env, path, src, k).Some?
    decreases env.Keys - path, 1, src, 0, k
  {
    if k > 0 {
      AllFieldsResolve(env, path, src, k - 1);
      var value := src.fields[k - 1].value;
      assert Refs(value) <= Refs(src) && Embedded(value) <= Embedded(src);
      ValueResolves(env, path, value);
    }
  }

  /** All variables resolve exactly when references are closed and acyclic, and no list or
      map is embedded in text. */
  lemma ResolvableIff(env: Env)
    ensures Resolvable(env) <==> RefsClosed(env) && !Cyclic(RefGraph(env)) && TextIsScalar(env)
  {
    if Resolvable(env) {
      ResolvableIsAcyclic(env);
      forall n, r | n in env ensures r in Refs(env[n]) ==> r in env {
        assert Resolve(env, {}, n).Some?;
        RefsResolve(env, {} + {n}, env[n], r);
      }
      forall n, r | n in env && r in Embedded(env[n]) ensures !NamesStructure(env, r) {
        assert Resolve(env, {}, n).Some?;
        RefsResolve(env, {} + {n}, env[n], r);
        if NamesStructure(env, r) {
          var chain :| StructureChain(env, chain) && chain[0] == r;
          ChainResolves(env, {} + {n}, chain);
        }
      }
    }
    if WellFormed(env) {
      forall n | n in env ensures Resolve(env, {}, n).Some? { WellFormedResolves(env, {}, n); }
    }
  }
}
