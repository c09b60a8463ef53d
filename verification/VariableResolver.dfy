/**
 The memoised variable resolver (internal/blueprint/variables.go). It keeps what it has
 resolved, and it finds exactly what plain recursive substitution finds, in whatever order
 the variables are visited.
 */
module VariableResolver {
  import opened Common
  import opened Graph
  import opened Variables
  import opened VariableMeaning

  // ----- names

  const RESERVED: set<string> := {"blueprint", "environment", "docker", "reploy", "user", "system"}

  predicate Letter(c: char) { 'A' <= c <= 'Z' || 'a' <= c <= 'z' || c == '_' }

  predicate NameOk(n: string) {
    && n != "" && Letter(n[0]) && (forall i :: 0 <= i < |n| ==> Letter(n[i]) || '0' <= n[i] <= '9')
    && n !in RESERVED
  }

  // ----- what the memo holds

  /** Memoised names are resolved for good, and so is everything they refer to. */
  ghost predicate Memo(env: Env, resolved: map<string, Value>, active: set<string>) {
    && resolved.Keys !! active && resolved.Keys <= env.Keys
    && (forall n :: n in resolved ==> Resolve(env, {}, n) == Some(resolved[n]))
    && (forall n, r :: n in resolved && r in Refs(env[n]) ==> r in resolved)
  }

  /** A memoised value is what substitution would find here, too. */
  lemma MemoHit(env: Env, resolved: map<string, Value>, active: set<string>, n: string)
    requires Memo(env, resolved, active) && n in resolved
    ensures Resolve(env, active, n) == Some(resolved[n])
  {
    var done := iset m | m in resolved;
    SameElsewhere(env, {}, active, done, n);
  }

  lemma MemoGrows(env: Env, resolved: map<string, Value>, active: set<string>, n: string, v: Value)
    requires Memo(env, resolved, active + {n}) && n in env && n !in active
    requires Resolve(env, active, n) == Some(v) && Refs(env[n]) <= resolved.Keys
    ensures Memo(env, resolved[n := v], active)
  {
    FewerBlocked(env, active, {}, n);
  }

  class Resolver {
    const source: Env
    var resolved: map<string, Value>
    var active: set<string>
    var stack: seq<string>

    constructor (source: Env)
      ensures this.source == source && resolved == map[] && active == {} && stack == []
    {
      this.source := source;
      resolved, active, stack := map[], {}, [];
    }

    ghost predicate Valid()
      reads this
    {
      Memo(source, resolved, active) && forall n :: n in stack <==> n in active
    }

    method ResolveName(name: string) returns (r: Option<Value>)
      requires Valid()
      modifies this
      ensures Valid() && active == old(active) && stack == old(stack) && old(resolved.Keys) <= resolved.Keys
      ensures r == Resolve(source, active, name) && (r.Some? ==> name in resolved)
      decreases source.Keys - active, 0, 0
    {
      if name in resolved {
        MemoHit(source, resolved, active, name);
        return Some(resolved[name]);
      }
      if name !in source || name in active { return None; }
      active := active + {name};
      stack := stack + [name];
      r := ResolveSource(source[name]);
      stack := stack[..|stack| - 1];
      active := active - {name};
      assert old(active) + {name} - {name} == old(active);
      if r.Some? {
        MemoGrows(source, resolved, active, name, r.value);
        resolved := resolved[name := r.value];
      }
    }

    method ResolveSource(src: Source) returns (r: Option<Value>)
      requires Valid()
      modifies this
      ensures Valid() && active == old(active) && stack == old(stack) && old(resolved.Keys) <= resolved.Keys
      ensures r == ResolveValue(source, active, src) && (r.Some? ==> Refs(src) <= resolved.Keys)
      decreases source.Keys - active, 1, src, 1, 0
    {
      match src
      case Constant(shown) =>
        r := Some(Other(shown));
      case Whole(n) =>
        r := ResolveName(n);
      case Pieces(parts) =>
        var text := Interpolate(parts);
        r := if text.Some? then Some(Str(text.value)) else None;
      case Listing(_) =>
        r := ResolveListing(src);
      case Fields(_) =>
        r := ResolveMapping(src);
    }

    method Interpolate(parts: seq<Part>) returns (text: Option<string>)
      requires Valid()
      modifies this
      ensures Valid() && active == old(active) && stack == old(stack) && old(resolved.Keys) <= resolved.Keys
      ensures text == ResolveText(source, active, parts) && (text.Some? ==> PartRefs(parts) <= resolved.Keys)
      decreases source.Keys - active, 0, 1
    {
      var shown := "";
      for i := 0 to |parts|
        invariant Valid() && active == old(active) && stack == old(stack) && old(resolved.Keys) <= resolved.Keys
        invariant ResolveText(source, active, parts[..i]) == Some(shown) && PartRefs(parts[..i]) <= resolved.Keys
      {
        OnePart(parts, i);
        match parts[i] {
          case Literal(t) =>
            shown := shown + t;
          case Ref(n) =>
            var replacement := ResolveName(n);
            if replacement.None? || !Scalar(replacement.value) {
              TextFails(source, active, parts, i + 1);
              return None;
            }
            shown := shown + Show(replacement.value);
        }
      }
      assert parts[..|parts|] == parts;
      return Some(shown);
    }

    method ResolveListing(src: Source) returns (r: Option<Value>)
      requires Valid() && src.Listing?
      modifies this
      ensures Valid() && active == old(active) && stack == old(stack) && old(resolved.Keys) <= resolved.Keys
      ensures r == ResolveValue(source, active, src) && (r.Some? ==> Refs(src) <= resolved.Keys)
      decreases source.Keys - active, 1, src, 0, 0
    {
      var result: seq<Value> := [];
      for i := 0 to |src.items|
        invariant Valid() && active == old(active) && stack == old(stack) && old(resolved.Keys) <= resolved.Keys
        invariant ResolveItems(source, active, src, i) == Some(result)
        invariant forall k :: 0 <= k < i ==> Refs(src.items[k]) <= resolved.Keys
      {
        var element := ResolveSource(src.items[i]);
        if element.None? {
          ItemsFail(source, active, src, i + 1);
          return None;
        }
        result := result + [element.value];
      }
      return Some(List(result));
    }

    method ResolveMapping(src: Source) returns (r: Option<Value>)
      requires Valid() && src.Fields?
      modifies this
      ensures Valid() && active == old(active) && stack == old(stack) && old(resolved.Keys) <= resolved.Keys
      ensures r == ResolveValue(source, active, src) && (r.Some? ==> Refs(src) <= resolved.Keys)
      decreases source.Keys - active, 1, src, 0, 0
    {
      var result: map<string, Value> := map[];
      for i := 0 to |src.fields|
        invariant Valid() && active == old(active) && stack == old(stack) && old(resolved.Keys) <= resolved.Keys
        invariant ResolveFields(source, active, src, i) == Some(result)
        invariant forall k :: 0 <= k < i ==> Refs(src.fields[k].value) <= resolved.Keys
      {
        var field := ResolveSource(src.fields[i].value);
        if field.None? {
          FieldsFail(source, active, src, i + 1);
          return None;
        }
        result := result[src.fields[i].key := field.value];
      }
      return Some(Map(result));
    }
  }

  lemma OnePart(parts: seq<Part>, i: nat)
    requires i < |parts|
    ensures parts[..i + 1][..i] == parts[..i] && parts[..i + 1][i] == parts[i]
    ensures PartRefs(parts[..i + 1]) == PartRefs(parts[..i]) + if parts[i].Ref? then {parts[i].name} else {}
  {
    assert parts[..i + 1] == parts[..i] + [parts[i]];
  }

  lemma {:induction false} TextFails(env: Env, path: set<string>, parts: seq<Part>, k: nat)
    requires k <= |parts| && ResolveText(env, path, parts[..k]).None?
    ensures ResolveText(env, path, parts).None?
    decreases |parts|
  {
    if k < |parts| {
      var n := |parts| - 1;
      assert parts[..n][..k] == parts[..k];
      TextFails(env, path, parts[..n], k);
    } else {
      assert parts[..k] == parts;
    }
  }

  lemma {:induction false} ItemsFail(env: Env, path: set<string>, src: Source, k: nat)
    requires src.Listing? && k <= |src.items| && ResolveItems(env, path, src, k).None?
    ensures ResolveItems(env, path, src, |src.items|).None?
    decreases |src.items| - k
  {
    if k < |src.items| { ItemsFail(env, path, src, k + 1); }
  }

  lemma {:induction false} FieldsFail(env: Env, path: set<string>, src: Source, k: nat)
    requires src.Fields? && k <= |src.fields| && ResolveFields(env, path, src, k).None?
    ensures ResolveFields(env, path, src, |src.fields|).None?
    decreases |src.fields| - k
  {
    if k < |src.fields| { FieldsFail(env, path, src, k + 1); }
  }

  /** Every variable equals its source, read with the result itself, and only the result does that. */
  ghost predicate TheAssignment(env: Env, values: map<string, Value>) {
    Assignment(env, values) && forall other :: Assignment(env, other) ==> other == values
  }

  method CheckNames(names: seq<string>) returns (ok: bool)
    ensures ok <==> forall n :: n in names ==> NameOk(n)
  {
    for i := 0 to |names|
      invariant forall k :: 0 <= k < i ==> NameOk(names[k])
    {
      if !NameOk(names[i]) { return false; }
    }
    return true;
  }

  lemma AllMemoised(env: Env, values: map<string, Value>)
    requires Memo(env, values, {}) && env.Keys <= values.Keys
    ensures Resolution(env, values)
  {
  }

  method ResolveNames(source: Env, names: seq<string>) returns (r: Option<map<string, Value>>)
    requires forall n :: n in names <==> n in source
    ensures r.Some? <==> Resolvable(source)
    ensures r.Some? ==> Resolution(source, r.value) && TheAssignment(source, r.value)
  {
    var resolver := new Resolver(source);
    for i := 0 to |names|
      invariant resolver.source == source && resolver.Valid() && resolver.active == {}
      invariant forall k :: 0 <= k < i ==> names[k] in resolver.resolved
    {
      assert names[i] in source;
      var value := resolver.ResolveName(names[i]);
      if value.None? { return None; }
    }
    AllMemoised(source, resolver.resolved);
    ResolutionIsTheAssignment(source, resolver.resolved);
    return Some(resolver.resolved);
  }

  /** Go's `resolveVariables`, visiting the variables in any order. */
  method ResolveVariables(source: Env, names: seq<string>) returns (r: Option<map<string, Value>>)
    requires forall n :: n in names <==> n in source
    ensures r.Some? <==>
              (forall n :: n in source ==> NameOk(n))
              && RefsClosed(source) && !Cyclic(RefGraph(source)) && TextIsScalar(source)
    ensures r.Some? ==> Resolution(source, r.value) && TheAssignment(source, r.value)
  {
    var ok := CheckNames(names);
    if !ok { return None; }
    ResolvableIff(source);
    r := ResolveNames(source, names);
  }
}
