/**
  Flattening the frozen modules a candidate imports: depth-first, with cycle
  detection.  The import list of each module is given.
 */
module Assembler {
  import opened Wrappers

  /** Import lists by module name. */
  type Imports = map<string, seq<string>>

  datatype AssemblyFailure = MissingModule(importer: string, missing: string) | CyclicImport(cyclic: string)

  // ---- The import graph ----

  /** Each element imports the next one. */
  ghost predicate Chain(modules: Imports, p: seq<string>) {
    p != [] && forall i :: 0 <= i < |p| - 1 ==> ImportEdge(modules, p[i], p[i + 1])
  }

  predicate ImportEdge(modules: Imports, a: string, b: string) {
    a in modules && b in modules[a]
  }

  ghost predicate Leads(modules: Imports, a: string, b: string, p: seq<string>) {
    Chain(modules, p) && p[0] == a && p[|p| - 1] == b
  }

  /** Some chain of imports leads from the candidate's own imports to the name. */
  ghost predicate Reachable(modules: Imports, roots: seq<string>, name: string) {
    exists p :: Chain(modules, p) && p[0] in roots && p[|p| - 1] == name
  }

  /** The module imports itself, directly or through others. */
  ghost predicate OnCycle(modules: Imports, name: string) {
    exists p :: Leads(modules, name, name, p) && |p| >= 2
  }

  lemma ChainSlice(modules: Imports, p: seq<string>, lo: nat, hi: nat)
    requires Chain(modules, p) && lo < hi <= |p|
    ensures Chain(modules, p[lo..hi])
  {
    var q := p[lo..hi];
    forall i | 0 <= i < |q| - 1 ensures ImportEdge(modules, q[i], q[i + 1]) {
      assert ImportEdge(modules, p[lo + i], p[lo + i + 1]);
    }
  }

  lemma ChainSnoc(modules: Imports, p: seq<string>, b: string)
    requires Chain(modules, p) && ImportEdge(modules, p[|p| - 1], b)
    ensures Chain(modules, p + [b])
  {
    var q := p + [b];
    forall i | 0 <= i < |q| - 1 ensures ImportEdge(modules, q[i], q[i + 1]) {
      if i < |p| - 1 {
        assert q[i] == p[i] && q[i + 1] == p[i + 1];
      }
    }
  }

  lemma RootReachable(modules: Imports, roots: seq<string>, name: string)
    requires name in roots
    ensures Reachable(modules, roots, name)
  {
    assert Chain(modules, [name]);
  }

  lemma StepReachable(modules: Imports, roots: seq<string>, a: string, b: string)
    requires Reachable(modules, roots, a) && ImportEdge(modules, a, b)
    ensures Reachable(modules, roots, b)
  {
    var p :| Chain(modules, p) && p[0] in roots && p[|p| - 1] == a;
    ChainSnoc(modules, p, b);
    assert (p + [b])[0] == p[0];
  }

  predicate InLibrary(library: string, name: string) {
    name == library || (|library| < |name| && name[..|library|] == library && name[|library|] == '.')
  }

  // ---- What a correct result is ----

  ghost predicate NoDuplicates(s: seq<string>) {
    forall i, j :: 0 <= i < j < |s| ==> s[i] != s[j]
  }

  /** Every module comes after all of its imports that are modules. */
  ghost predicate AfterImports(modules: Imports, ordered: seq<string>) {
    forall i, d :: 0 <= i < |ordered| && ImportEdge(modules, ordered[i], d) && d in modules ==> d in ordered[..i]
  }

  /** Names whose imports are all accounted for: as earlier modules or as externals outside the library. */
  ghost predicate Closed(modules: Imports, library: string, ordered: seq<string>, external: seq<string>) {
    && (forall m :: m in ordered ==> m in modules)
    && (forall e :: e in external ==> e !in modules && !InLibrary(library, e))
    && (forall m, d :: m in ordered && ImportEdge(modules, m, d) ==> if d in modules then d in ordered
        else d in external)
  }

  ghost predicate Correct(modules: Imports, library: string, roots: seq<string>, ordered: seq<string>,
      external: seq<string>) {
    && NoDuplicates(ordered) && NoDuplicates(external)
    && AfterImports(modules, ordered)
    && (forall m :: m in ordered <==> m in modules && Reachable(modules, roots, m))
    && (forall e :: e in external <==> e !in modules && Reachable(modules, roots, e))
  }

  /** Something reachable cannot be flattened: a module on a cycle, or a library module that is not there. */
  ghost predicate Defective(modules: Imports, library: string, roots: seq<string>) {
    exists n :: Reachable(modules, roots, n) && (OnCycle(modules, n) || (n !in modules && InLibrary(library, n)))
  }

  /** A failure names something really wrong with what the candidate reaches. */
  ghost predicate Genuine(modules: Imports, library: string, roots: seq<string>, f: AssemblyFailure) {
    match f
    case MissingModule(_, m) => Reachable(modules, roots, m) && m !in modules && InLibrary(library, m)
    case CyclicImport(m) => Reachable(modules, roots, m) && OnCycle(modules, m)
  }

  ghost predicate Covers(modules: Imports, roots: seq<string>, ordered: seq<string>, external: seq<string>) {
    forall r :: r in roots ==> if r in modules then r in ordered else r in external
  }

  /** What is closed under imports and covers the roots contains everything reachable. */
  lemma {:induction false} ClosedContains(modules: Imports, library: string, roots: seq<string>, ordered: seq<string>,
                                          external: seq<string>, p: seq<string>)
    requires Closed(modules, library, ordered, external) && Covers(modules, roots, ordered, external)
    requires Chain(modules, p) && p[0] in roots
    ensures var n := p[|p| - 1]; if n in modules then n in ordered else n in external
    decreases |p|
  {
    if |p| > 1 {
      var q := p[0..|p| - 1];
      assert ImportEdge(modules, p[|p| - 2], p[|p| - 1]);
      ChainSlice(modules, p, 0, |p| - 1);
      ClosedContains(modules, library, roots, ordered, external, q);
    }
  }

  /** Along a chain inside the order, positions strictly fall. */
  lemma {:induction false} ChainDescends(modules: Imports, library: string, ordered: seq<string>,
      external: seq<string>, p: seq<string>, i: nat) returns (j: nat)
    requires AfterImports(modules, ordered) && Closed(modules, library, ordered, external)
    requires Chain(modules, p) && |p| >= 2 && p[|p| - 1] in modules
    requires i < |ordered| && ordered[i] == p[0]
    ensures j < i && ordered[j] == p[|p| - 1]
    decreases |p|
  {
    assert ImportEdge(modules, p[0], p[1]);
    var q := p[1..];
    ChainSlice(modules, p, 1, |p|);
    if |p| > 2 {
      assert ImportEdge(modules, p[1], p[2]);
    }
    assert p[1] in ordered[..i];
    var k :| 0 <= k < i && ordered[k] == p[1];
    if |p| == 2 {
      j := k;
    } else {
      j := ChainDescends(modules, library, ordered, external, q, k);
    }
  }

  /** An order that is complete leaves no room for a cycle or a missing library module. */
  lemma CompleteMeansSound(modules: Imports, library: string, roots: seq<string>, ordered: seq<string>,
      external: seq<string>)
    requires NoDuplicates(ordered) && NoDuplicates(external)
    requires AfterImports(modules, ordered) && Closed(modules, library, ordered, external)
    requires Covers(modules, roots, ordered, external)
    requires forall m :: m in ordered || m in external ==> Reachable(modules, roots, m)
    ensures Correct(modules, library, roots, ordered, external)
    ensures !Defective(modules, library, roots)
  {
    forall n | Reachable(modules, roots, n)
      ensures if n in modules then n in ordered else n in external
      ensures !OnCycle(modules, n)
    {
      var p :| Chain(modules, p) && p[0] in roots && p[|p| - 1] == n;
      ClosedContains(modules, library, roots, ordered, external, p);
      if OnCycle(modules, n) {
        NoCycle(modules, library, ordered, external, n);
      }
    }
  }

  lemma NoCycle(modules: Imports, library: string, ordered: seq<string>, external: seq<string>, n: string)
    requires NoDuplicates(ordered) && AfterImports(modules, ordered) && Closed(modules, library, ordered, external)
    requires n in modules ==> n in ordered
    ensures !OnCycle(modules, n)
  {
    if c :| Leads(modules, n, n, c) && |c| >= 2 {
      assert ImportEdge(modules, c[0], c[1]);
      var i :| 0 <= i < |ordered| && ordered[i] == n;
      var j := ChainDescends(modules, library, ordered, external, c, i);
    }
  }

  // ---- The depth-first order ----

  /**
    Coming to one name takes the lists `m, e` to `m', e'`: nothing if it is there, else
    its imports first and then it.
   */
  ghost predicate Emits(modules: Imports, name: string, m: seq<string>, e: seq<string>, m': seq<string>,
      e': seq<string>)
    decreases |m'|, 0, 0
  {
    if name in m then m' == m && e' == e
    else if name !in modules then m' == m && e' == if name in e then e else e + [name]
    else m' != [] && m'[|m'| - 1] == name && EmitsAll(modules, modules[name], m, e, m'[..|m'| - 1], e')
  }

  /** Coming to several names in turn. */
  ghost predicate EmitsAll(modules: Imports, names: seq<string>, m: seq<string>, e: seq<string>, m': seq<string>,
      e': seq<string>)
    decreases |m'|, |names|, 1
  {
    if names == [] then m' == m && e' == e
    else
      var n := |names| - 1;
      exists a, b :: |a| <= |m'| && EmitsAll(modules, names[..n], m, e, a, b) && Emits(modules, names[n], a, b, m', e')
  }

  /** What coming to all roots in turn makes of empty lists. */
  ghost predicate DepthFirst(modules: Imports, roots: seq<string>, ordered: seq<string>, external: seq<string>) {
    EmitsAll(modules, roots, [], [], ordered, external)
  }

  /** So the import lists leave no choice. */
  lemma {:induction false} EmitsOneThing(modules: Imports, name: string, m: seq<string>, e: seq<string>,
                                         a: seq<string>, b: seq<string>, c: seq<string>, d: seq<string>)
    requires Emits(modules, name, m, e, a, b) && Emits(modules, name, m, e, c, d)
    ensures a == c && b == d
    decreases |a|, 0, 0
  {
    if name !in m && name in modules {
      EmitsOneOrder(modules, modules[name], m, e, a[..|a| - 1], b, c[..|c| - 1], d);
      assert a == a[..|a| - 1] + [name] && c == c[..|c| - 1] + [name];
    }
  }

  lemma {:induction false} EmitsOneOrder(modules: Imports, names: seq<string>, m: seq<string>, e: seq<string>,
                                         a: seq<string>, b: seq<string>, c: seq<string>, d: seq<string>)
    requires EmitsAll(modules, names, m, e, a, b) && EmitsAll(modules, names, m, e, c, d)
    ensures a == c && b == d
    decreases |a|, |names|, 1
  {
    if names != [] {
      var n := |names| - 1;
      var x, y :| |x| <= |a| && EmitsAll(modules, names[..n], m, e, x, y) && Emits(modules, names[n], x, y, a, b);
      var z, w :| |z| <= |c| && EmitsAll(modules, names[..n], m, e, z, w) && Emits(modules, names[n], z, w, c, d);
      EmitsOneOrder(modules, names[..n], m, e, x, y, z, w);
      EmitsOneThing(modules, names[n], x, y, a, b, c, d);
    }
  }

  lemma NothingEmitted(modules: Imports, names: seq<string>, m: seq<string>, e: seq<string>)
    ensures EmitsAll(modules, names[..0], m, e, m, e)
  {
  }

  lemma EmitsNext(modules: Imports, names: seq<string>, i: nat, m: seq<string>, e: seq<string>,
                  a: seq<string>, b: seq<string>, m': seq<string>, e': seq<string>)
    requires i < |names| && EmitsAll(modules, names[..i], m, e, a, b) && a <= m'
            && Emits(modules, names[i], a, b, m', e')
    ensures EmitsAll(modules, names[..i + 1], m, e, m', e')
  {
    hide Emits;
    assert names[..i + 1][..i] == names[..i];
  }

  // ---- The traversal ----

  class Flattener {
    const modules: Imports
    const library: string
    ghost const roots: seq<string>
    var visiting: set<string>
    var visited: set<string>
    var ordered: seq<string>
    var external: seq<string>

    constructor (modules: Imports, library: string, ghost roots: seq<string>)
      ensures this.modules == modules && this.library == library && this.roots == roots
      ensures visiting == {} && ordered == [] && external == [] && Valid([])
    {
      this.modules, this.library, this.roots := modules, library, roots;
      visiting, visited, ordered, external := {}, {}, [], [];
    }

    /** `stack` is the chain of modules being visited, outermost first. */
    ghost predicate Valid(stack: seq<string>)
      reads this
    {
      && (forall m :: m in visiting <==> m in stack)
      && (forall m :: m in visited <==> m in ordered)
      && visiting !! visited
      && (stack != [] ==> Chain(modules, stack))
      && (forall m :: m in stack ==> m in modules)
      && NoDuplicates(ordered) && NoDuplicates(external)
      && AfterImports(modules, ordered)
      && Closed(modules, library, ordered, external)
      && (forall m :: m in ordered || m in external || m in stack ==> Reachable(modules, roots, m))
    }

    ghost predicate Accounted(name: string)
      reads this
    {
      if name in modules then name in visited else name in external
    }

    method Visit(name: string, importer: string, ghost stack: seq<string>) returns (failure: Option<AssemblyFailure>)
      requires Valid(stack) && Reachable(modules, roots, name)
      requires stack != [] ==> ImportEdge(modules, stack[|stack| - 1], name)
      modifies this
      ensures failure.Some? ==> Genuine(modules, library, roots, failure.value)
      ensures failure.None? ==>
                && Valid(stack) && visiting == old(visiting) && Accounted(name)
                && old(visited) <= visited && old(ordered) <= ordered && old(external) <= external
                && Emits(modules, name, old(ordered), old(external), ordered, external)
      decreases modules.Keys - visited - visiting, 1
    {
      if name in visited {
        return None;
      }
      if name !in modules {
        if InLibrary(library, name) {
          return Some(MissingModule(importer, name));
        }
        if name !in external {
          NoteExternal(name, stack);
        }
        return None;
      }
      if name in visiting {
        StackCycle(modules, stack, name);
        return Some(CyclicImport(name));
      }
      visiting := visiting + {name};
      ghost var inner := stack + [name];
      if stack != [] { ChainSnoc(modules, stack, name); } else { assert Chain(modules, inner); }
      failure := VisitAll(name, inner);
      if failure.Some? {
        return;
      }
      Finish(name, stack);
      assert ordered[..|ordered| - 1] + [name] == ordered;
    }

    method NoteExternal(name: string, ghost stack: seq<string>)
      requires Valid(stack) && Reachable(modules, roots, name)
      requires name !in modules && !InLibrary(library, name) && name !in external
      modifies this`external
      ensures Valid(stack) && external == old(external) + [name]
    {
      external := external + [name];
    }

    /** The imports of one module, in order. */
    method VisitAll(name: string, ghost stack: seq<string>) returns (failure: Option<AssemblyFailure>)
      requires Valid(stack) && stack != [] && stack[|stack| - 1] == name && name in modules
      modifies this
      ensures failure.Some? ==> Genuine(modules, library, roots, failure.value)
      ensures failure.None? ==>
                && Valid(stack) && visiting == old(visiting)
                && (forall d :: d in modules[name] ==> Accounted(d))
                && old(visited) <= visited && old(ordered) <= ordered && old(external) <= external
                && EmitsAll(modules, modules[name], old(ordered), old(external), ordered, external)
      decreases modules.Keys - visited - visiting, 2
    {
      hide Emits, EmitsAll, NoDuplicates, AfterImports, Closed, Chain, Reachable;
      ghost var before := modules.Keys - visited - visiting;
      NothingEmitted(modules, modules[name], ordered, external);
      for i := 0 to |modules[name]|
        invariant Valid(stack) && visiting == old(visiting)
        invariant forall k :: 0 <= k < i ==> Accounted(modules[name][k])
        invariant old(visited) <= visited && old(ordered) <= ordered && old(external) <= external
        invariant EmitsAll(modules, modules[name][..i], old(ordered), old(external), ordered, external)
      {
        var d := modules[name][i];
        ghost var m, e := ordered, external;
        assert name in stack && ImportEdge(modules, name, d);
        StepReachable(modules, roots, name, d);
        assert modules.Keys - visited - visiting <= before;
        failure := Visit(d, name, stack);
        if failure.Some? {
          return;
        }
        EmitsNext(modules, modules[name], i, old(ordered), old(external), m, e, ordered, external);
      }
      assert modules[name][..|modules[name]|] == modules[name];
      return None;
    }

    /** Leaving a module whose imports are all accounted for. */
    method Finish(name: string, ghost stack: seq<string>)
      requires Valid(stack + [name]) && name in modules && name !in stack && name !in visited
      requires forall d :: d in modules[name] ==> Accounted(d)
      modifies this`visiting, this`visited, this`ordered
      ensures Valid(stack) && visiting == old(visiting) - {name}
      ensures visited == old(visited) + {name} && ordered == old(ordered) + [name]
    {
      hide NoDuplicates, AfterImports, Closed, Reachable, Chain;
      StackPops(modules, stack, name);
      OrderGrows(modules, library, ordered, external, name);
      visiting := visiting - {name};
      visited := visited + {name};
      ordered := ordered + [name];
    }
  }

  lemma StackPops(modules: Imports, stack: seq<string>, name: string)
    requires Chain(modules, stack + [name])
    ensures stack != [] ==> Chain(modules, stack)
    ensures forall m :: m in stack + [name] <==> m in stack || m == name
  {
    var inner := stack + [name];
    if stack != [] {
      ChainSlice(modules, inner, 0, |stack|);
      assert inner[0..|stack|] == stack;
    }
  }

  /** A module whose imports are all accounted for may be written next. */
  lemma OrderGrows(modules: Imports, library: string, ordered: seq<string>, external: seq<string>, name: string)
    requires NoDuplicates(ordered) && AfterImports(modules, ordered) && Closed(modules, library, ordered, external)
    requires name in modules && name !in ordered
    requires forall d :: d in modules[name] ==> if d in modules then d in ordered else d in external
    ensures NoDuplicates(ordered + [name]) && AfterImports(modules, ordered + [name])
    ensures Closed(modules, library, ordered + [name], external)
  {
    var grown := ordered + [name];
    forall i, d | 0 <= i < |grown| && ImportEdge(modules, grown[i], d) && d in modules ensures d in grown[..i] {
      if i < |ordered| {
        assert grown[..i] == ordered[..i];
      } else {
        assert grown[..i] == ordered;
      }
    }
  }

  /** A name that is being visited and imported from the top of the stack lies on a cycle. */
  lemma StackCycle(modules: Imports, stack: seq<string>, name: string)
    requires stack != [] && Chain(modules, stack) && name in stack
    requires ImportEdge(modules, stack[|stack| - 1], name)
    ensures OnCycle(modules, name)
  {
    var k :| 0 <= k < |stack| && stack[k] == name;
    var p := stack[k..];
    ChainSlice(modules, stack, k, |stack|);
    ChainSnoc(modules, p, name);
    assert Leads(modules, name, name, p + [name]);
  }

  lemma GenuineIsDefective(modules: Imports, library: string, roots: seq<string>, f: AssemblyFailure)
    requires Genuine(modules, library, roots, f)
    ensures Defective(modules, library, roots)
  {
    hide Reachable, OnCycle;
  }

  /**
    The order in which `assemble_frozen_source` writes the modules out, and the
    external imports it keeps: the depth-first ones, and no others.  It fails
    exactly when the candidate reaches a cycle or a missing library module.
   */
  method Flatten(modules: Imports, library: string, candidate: seq<string>)
    returns (r: Result<(seq<string>, seq<string>), AssemblyFailure>)
    ensures r.Ok? <==> !Defective(modules, library, candidate)
    ensures r.Ok? ==> Correct(modules, library, candidate, r.value.0, r.value.1)
    ensures r.Ok? ==> DepthFirst(modules, candidate, r.value.0, r.value.1)
    ensures r.Err? ==> match r.error
            case MissingModule(_, m) => Reachable(modules, candidate, m) && m !in modules && InLibrary(library, m)
            case CyclicImport(m) => Reachable(modules, candidate, m) && OnCycle(modules, m)
  {
    hide Emits, EmitsAll, Correct, Defective, Reachable, OnCycle, Chain, AfterImports, NoDuplicates, Closed, InLibrary;
    var walk := new Flattener(modules, library, candidate);
    NothingEmitted(modules, candidate, [], []);
    for i := 0 to |candidate|
      invariant walk.modules == modules && walk.library == library && walk.roots == candidate
      invariant walk.Valid([]) && fresh(walk)
      invariant forall k :: 0 <= k < i ==> walk.Accounted(candidate[k])
      invariant EmitsAll(modules, candidate[..i], [], [], walk.ordered, walk.external)
    {
      ghost var m, e := walk.ordered, walk.external;
      RootReachable(modules, candidate, candidate[i]);
      var failure := walk.Visit(candidate[i], "<candidate>", []);
      if failure.Some? {
        GenuineIsDefective(modules, library, candidate, failure.value);
        return Err(failure.value);
      }
      EmitsNext(modules, candidate, i, [], [], m, e, walk.ordered, walk.external);
    }
    assert candidate[..|candidate|] == candidate;
    assert Covers(modules, candidate, walk.ordered, walk.external);
    CompleteMeansSound(modules, library, candidate, walk.ordered, walk.external);
    return Ok((walk.ordered, walk.external));
  }
}
