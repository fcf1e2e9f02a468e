/**
  Recorded advances between goals, the paths they make, and the order in which
  a search that takes links in recorded order meets them.
 */
module Routes {
  import opened Wrappers

  type Goal = string

  /** One recorded advance out of a goal. */
  datatype Link = Link(target: Goal, kind: string)

  /** A link as it appears on a path, with the kernel's word on its target. */
  datatype Step = Step(source: Goal, target: Goal, kind: string, status: string)

  /** What is recorded: the links out of each goal, and the kernel's statuses. */
  datatype Record = Record(edges: map<Goal, seq<Link>>, statuses: map<Goal, string>)

  function LinksFrom(r: Record, g: Goal): seq<Link> {
    if g in r.edges then r.edges[g] else []
  }

  function StatusOf(r: Record, g: Goal): string {
    if g in r.statuses then r.statuses[g] else "unrecorded"
  }

  predicate Recorded(r: Record, step: Step) {
    && Link(step.target, step.kind) in LinksFrom(r, step.source)
    && step.status == StatusOf(r, step.target)
  }

  /** `steps` leads from `a` to `b` by recorded steps, each starting where the last one ended. */
  predicate IsPath(r: Record, a: Goal, b: Goal, steps: seq<Step>)
    decreases |steps|
  {
    if steps == [] then a == b
    else
      var last := steps[|steps| - 1];
      Recorded(r, last) && last.target == b && IsPath(r, a, last.source, steps[..|steps| - 1])
  }

  lemma PathGrows(r: Record, a: Goal, steps: seq<Step>, step: Step)
    requires IsPath(r, a, step.source, steps) && Recorded(r, step)
    ensures IsPath(r, a, step.target, steps + [step])
  {
    assert (steps + [step])[..|steps|] == steps;
  }

  // ---- Routes: paths by the positions of their links ----

  type Route = seq<nat>

  /** Where a route ends, if every position on it is one of a recorded link. */
  function End(r: Record, start: Goal, route: Route): Option<Goal>
    decreases |route|
  {
    if route == [] then Some(start)
    else
      var n := |route| - 1;
      var before := End(r, start, route[..n]);
      if before.Some? && route[n] < |LinksFrom(r, before.value)|
      then Some(LinksFrom(r, before.value)[route[n]].target) else None
  }

  function StepAt(r: Record, g: Goal, k: nat): Step
    requires k < |LinksFrom(r, g)|
  {
    var link := LinksFrom(r, g)[k];
    Step(g, link.target, link.kind, StatusOf(r, link.target))
  }

  function StepsOf(r: Record, start: Goal, route: Route): seq<Step>
    requires End(r, start, route).Some?
    decreases |route|
  {
    if route == [] then []
    else
      var n := |route| - 1;
      StepsOf(r, start, route[..n]) + [StepAt(r, End(r, start, route[..n]).value, route[n])]
  }

  lemma RouteGrows(r: Record, start: Goal, route: Route, k: nat)
    requires End(r, start, route).Some? && k < |LinksFrom(r, End(r, start, route).value)|
    ensures var g := End(r, start, route).value;
            && End(r, start, route + [k]) == Some(LinksFrom(r, g)[k].target)
            && StepsOf(r, start, route + [k]) == StepsOf(r, start, route) + [StepAt(r, g, k)]
  {
    assert (route + [k])[..|route|] == route;
  }

  /** A route of positions spells a path of as many steps. */
  lemma {:induction false} RouteIsPath(r: Record, start: Goal, route: Route)
    requires End(r, start, route).Some?
    ensures IsPath(r, start, End(r, start, route).value, StepsOf(r, start, route))
    ensures |StepsOf(r, start, route)| == |route|
    decreases |route|
  {
    if route != [] {
      var n := |route| - 1;
      RouteIsPath(r, start, route[..n]);
      var g := End(r, start, route[..n]).value;
      PathGrows(r, start, StepsOf(r, start, route[..n]), StepAt(r, g, route[n]));
    }
  }

  /** And every path is spelled by some route. */
  lemma {:induction false} PathIsRoute(r: Record, start: Goal, b: Goal, p: seq<Step>) returns (route: Route)
    requires IsPath(r, start, b, p)
    ensures End(r, start, route) == Some(b) && StepsOf(r, start, route) == p && |route| == |p|
    decreases |p|
  {
    hide IsPath, End, StepsOf;
    NoSteps(r, start, b);
    if p == [] { return []; }
    PathEnds(r, start, b, p);
    var last := p[|p| - 1];
    var before := PathIsRoute(r, start, last.source, p[..|p| - 1]);
    var links := LinksFrom(r, last.source);
    var k: nat :| k < |links| && links[k] == Link(last.target, last.kind);
    RouteGrows(r, start, before, k);
    assert p == p[..|p| - 1] + [last];
    route := before + [k];
  }

  lemma NoSteps(r: Record, start: Goal, b: Goal)
    ensures End(r, start, []) == Some(start) && StepsOf(r, start, []) == []
    ensures IsPath(r, start, b, []) <==> start == b
  {
  }

  lemma PathEnds(r: Record, a: Goal, b: Goal, p: seq<Step>)
    requires p != [] && IsPath(r, a, b, p)
    ensures var last := p[|p| - 1];
            Recorded(r, last) && last.target == b && IsPath(r, a, last.source, p[..|p| - 1])
  {
  }

  // ---- The order of search ----

  /** Shorter first, and among equally long ones the one that takes an earlier link where they part. */
  predicate Sooner(a: Route, b: Route)
    decreases |a|
  {
    b != [] && (a == [] ||
                Sooner(a[..|a| - 1], b[..|b| - 1]) ||
                (a[..|a| - 1] == b[..|b| - 1] && a[|a| - 1] < b[|b| - 1]))
  }

  lemma {:induction false} SoonerSnoc(a: Route, i: nat, b: Route, j: nat)
    ensures Sooner(a + [i], b + [j]) <==> Sooner(a, b) || (a == b && i < j)
  {
    assert (a + [i])[..|a|] == a && (b + [j])[..|b|] == b;
  }

  lemma {:induction false} SoonerIsNoLonger(a: Route, b: Route)
    requires Sooner(a, b)
    ensures |a| <= |b|
    decreases |a|
  {
    if a != [] && Sooner(a[..|a| - 1], b[..|b| - 1]) { SoonerIsNoLonger(a[..|a| - 1], b[..|b| - 1]); }
  }

  lemma {:induction false} ShorterIsSooner(a: Route, b: Route)
    requires |a| < |b|
    ensures Sooner(a, b)
    decreases |a|
  {
    if a != [] { ShorterIsSooner(a[..|a| - 1], b[..|b| - 1]); }
  }

  lemma {:induction false} SoonerIsTotal(a: Route, b: Route)
    ensures (Sooner(a, b) || a == b || Sooner(b, a)) && !(Sooner(a, b) && Sooner(b, a)) && !Sooner(a, a)
    decreases |a|
  {
    if a != [] {
      var m := |a| - 1;
      SoonerIsTotal(a[..m], a[..m]);
      if b != [] {
        SoonerIsTotal(a[..m], b[..|b| - 1]);
        assert a == a[..m] + [a[m]] && b == b[..|b| - 1] + [b[|b| - 1]];
      }
    }
  }

  lemma {:induction false} SoonerIsTransitive(a: Route, b: Route, c: Route)
    requires Sooner(a, b) && Sooner(b, c)
    ensures Sooner(a, c)
    decreases |a|
  {
    if a != [] {
      var x, y, z := a[..|a| - 1], b[..|b| - 1], c[..|c| - 1];
      if Sooner(x, y) && Sooner(y, z) { SoonerIsTransitive(x, y, z); }
    }
  }

  /** `a` is met no later than `b`. */
  predicate NoLater(a: Route, b: Route) {
    !Sooner(b, a)
  }

  lemma NoLaterThrough(a: Route, b: Route, c: Route)
    requires NoLater(a, b) && NoLater(b, c)
    ensures NoLater(a, c)
  {
    hide Sooner;
    SoonerIsTotal(a, b);
    SoonerIsTotal(b, c);
    if Sooner(c, a) && a != b { SoonerIsTransitive(c, a, b); }
  }
}
