/** The search for a recorded route from a spotlight target to the final theorem, and the judgement of what it finds. */
module Relevance {
  import opened Wrappers
  import opened Routes

  const PROVED := "proved"

  ghost predicate Reaches(r: Record, a: Goal, b: Goal, maxDepth: int) {
    exists p :: IsPath(r, a, b, p) && |p| <= maxDepth
  }

  /** The route the search order meets first: shortest, and earliest links among the shortest. */
  ghost predicate FirstRoute(r: Record, a: Goal, b: Goal, route: Route) {
    End(r, a, route) == Some(b) && forall other :: End(r, a, other) == Some(b) ==> NoLater(route, other)
  }

  /** What a search bounded by `maxDepth` returns between distinct goals: the first route, spelled out, or nothing. */
  ghost predicate Chosen(r: Record, a: Goal, b: Goal, maxDepth: int, steps: seq<Step>) {
    if Reaches(r, a, b, maxDepth)
    then exists route :: FirstRoute(r, a, b, route) && steps == StepsOf(r, a, route)
    else steps == []
  }

  lemma FirstRouteIsUnique(r: Record, a: Goal, b: Goal, x: Route, y: Route)
    requires FirstRoute(r, a, b, x) && FirstRoute(r, a, b, y)
    ensures x == y
  {
    SoonerIsTotal(x, y);
  }

  /** The first route is a shortest one. */
  lemma FirstIsShortest(r: Record, a: Goal, b: Goal, route: Route, p: seq<Step>)
    requires FirstRoute(r, a, b, route) && IsPath(r, a, b, p)
    ensures |route| <= |p| && |StepsOf(r, a, route)| == |route| && IsPath(r, a, b, StepsOf(r, a, route))
  {
    var other := PathIsRoute(r, a, b, p);
    RouteIsPath(r, a, route);
    if |other| < |route| { ShorterIsSooner(other, route); }
  }

  /** Valid chain of recorded links, within the depth, and no longer than any other; or none when none is in reach. */
  lemma ChosenIsShortest(r: Record, a: Goal, b: Goal, maxDepth: int, steps: seq<Step>)
    requires Chosen(r, a, b, maxDepth, steps)
    ensures Reaches(r, a, b, maxDepth) ==>
              && IsPath(r, a, b, steps) && |steps| <= maxDepth
              && forall p :: IsPath(r, a, b, p) ==> |steps| <= |p|
    ensures !Reaches(r, a, b, maxDepth) ==> steps == []
  {
    hide IsPath, Sooner;
    if Reaches(r, a, b, maxDepth) {
      var route :| FirstRoute(r, a, b, route) && steps == StepsOf(r, a, route);
      forall p | IsPath(r, a, b, p) ensures IsPath(r, a, b, steps) && |steps| <= |p| {
        FirstIsShortest(r, a, b, route, p);
      }
    }
  }

  // ---- What the search knows ----

  datatype Entry = Entry(goal: Goal, steps: seq<Step>)

  function Goals(queue: seq<Entry>): set<Goal> {
    set i | 0 <= i < |queue| :: queue[i].goal
  }

  function Universe(r: Record, start: Goal): set<Goal> {
    {start} + set g, i | g in r.edges && 0 <= i < |r.edges[g]| :: r.edges[g][i].target
  }

  lemma GoalsCons(e: Entry, queue: seq<Entry>)
    ensures Goals([e] + queue) == Goals(queue) + {e.goal}
  {
    var all := [e] + queue;
    forall g | g in Goals(queue) ensures g in Goals(all) {
      var i :| 0 <= i < |queue| && queue[i].goal == g;
      assert all[i + 1].goal == g;
    }
    assert all[0].goal == e.goal;
  }

  lemma GoalsSnoc(queue: seq<Entry>, e: Entry)
    ensures Goals(queue + [e]) == Goals(queue) + {e.goal}
  {
    var all := queue + [e];
    forall g | g in Goals(queue) ensures g in Goals(all) {
      var i :| 0 <= i < |queue| && queue[i].goal == g;
      assert all[i].goal == g;
    }
    assert all[|queue|].goal == e.goal;
  }

  lemma InUniverse(r: Record, start: Goal, g: Goal, k: nat)
    requires k < |LinksFrom(r, g)|
    ensures LinksFrom(r, g)[k].target in Universe(r, start)
  {
    assert r.edges[g][k].target == LinksFrom(r, g)[k].target;
  }

  /** The route by which each goal was first met. */
  type Meetings = map<Goal, Route>

  /** Each goal met lies at the end of its route, and the final goal has not been met. */
  ghost predicate Met(r: Record, start: Goal, final: Goal, least: Meetings) {
    && start in least && least[start] == [] && final !in least
    && least.Keys <= Universe(r, start)
    && forall g :: g in least ==> End(r, start, least[g]) == Some(g)
  }

  /** The goals waiting, each with the steps of its route, in the order in which they were met. */
  ghost predicate Waits(r: Record, start: Goal, queue: seq<Entry>, least: Meetings) {
    && (forall i :: 0 <= i < |queue| ==> InLine(r, start, queue[i], least))
    && (forall i, j :: 0 <= i < j < |queue| ==> Sooner(RouteOf(queue[i], least), RouteOf(queue[j], least)))
    && (forall i, g :: 0 <= i < |queue| && g in least ==> Sooner(least[g], RouteOf(queue[i], least) + [0]))
  }

  ghost predicate InLine(r: Record, start: Goal, e: Entry, least: Meetings) {
    && e.goal in least && End(r, start, least[e.goal]) == Some(e.goal)
    && e.steps == StepsOf(r, start, least[e.goal]) && |e.steps| == |least[e.goal]|
  }

  ghost function RouteOf(e: Entry, least: Meetings): Route {
    if e.goal in least then least[e.goal] else []
  }

  /** The first `k` links out of `g` lead to goals met, each no later than through that link. */
  ghost predicate ExpandedTo(r: Record, least: Meetings, g: Goal, k: nat)
    requires g in least && k <= |LinksFrom(r, g)|
  {
    forall j: nat :: j < k ==>
      LinksFrom(r, g)[j].target in least && NoLater(least[LinksFrom(r, g)[j].target], least[g] + [j])
  }

  ghost predicate Expanded(r: Record, least: Meetings, g: Goal) {
    g in least && ExpandedTo(r, least, g, |LinksFrom(r, g)|)
  }

  /** Goals met and no longer waiting have been expanded, unless the depth bound cut them off. */
  ghost predicate Swept(r: Record, least: Meetings, waiting: set<Goal>, maxDepth: int) {
    forall g :: g in least && g !in waiting && |least[g]| < maxDepth ==> Expanded(r, least, g)
  }

  /** Between two expansions. */
  ghost predicate Searching(r: Record, start: Goal, final: Goal, queue: seq<Entry>, least: Meetings, maxDepth: int) {
    Met(r, start, final, least) && Waits(r, start, queue, least) && Swept(r, least, Goals(queue), maxDepth)
  }

  /** While the links of `current` are taken: the first `k` of them have been. */
  ghost predicate Expanding(r: Record, start: Goal, final: Goal, queue: seq<Entry>, least: Meetings, maxDepth: int,
      current: Goal, k: nat) {
    && Met(r, start, final, least) && Waits(r, start, queue, least)
    && Swept(r, least, Goals(queue) + {current}, maxDepth)
    && current in least && |least[current]| < maxDepth
    && k <= |LinksFrom(r, current)| && ExpandedTo(r, least, current, k)
    && (forall i :: 0 <= i < |queue| ==> Sooner(least[current], RouteOf(queue[i], least)))
    && (forall g :: g in least ==> Sooner(least[g], least[current] + [k]))
  }

  // ---- Nothing is met late ----

  /** Through an expanded goal met no later than `u`, what `u` and its `j`th link lead to was met no later than they. */
  lemma MetThrough(r: Record, least: Meetings, w: Goal, u: Route, j: nat)
    requires w in least && j < |LinksFrom(r, w)| && NoLater(least[w], u)
    requires LinksFrom(r, w)[j].target in least && NoLater(least[LinksFrom(r, w)[j].target], least[w] + [j])
    ensures NoLater(least[LinksFrom(r, w)[j].target], u + [j])
  {
    SoonerSnoc(u, j, least[w], j);
    NoLaterThrough(least[LinksFrom(r, w)[j].target], least[w] + [j], u + [j]);
  }

  lemma NoLaterIsNoLonger(a: Route, b: Route)
    requires NoLater(a, b)
    ensures |a| <= |b|
  {
    if |b| < |a| { ShorterIsSooner(b, a); }
  }

  /** Every route before the link being taken ends in a goal met no later. */
  lemma {:induction false} RoutesAreCovered(r: Record, start: Goal, final: Goal, queue: seq<Entry>, least: Meetings,
      maxDepth: int, current: Goal, k: nat, route: Route)
    requires Expanding(r, start, final, queue, least, maxDepth, current, k)
    requires End(r, start, route).Some? && Sooner(route, least[current] + [k])
    ensures End(r, start, route).value in least && NoLater(least[End(r, start, route).value], route)
    decreases |route|
  {
    hide Sooner, End, Expanding, NoLater;
    StartIsMet(r, start, final, queue, least, maxDepth, current, k);
    var c := least[current];
    if route != [] {
      var n := |route| - 1;
      var u, j := route[..n], route[n];
      assert route == u + [j];
      EndSplits(r, start, route);
      SoonerSplits(u, j, c, k);
      RoutesAreCovered(r, start, final, queue, least, maxDepth, current, k, u);
      var w := End(r, start, u).value;
      LeadsOn(r, start, final, queue, least, maxDepth, current, k, w, u, j);
      MetThrough(r, least, w, u, j);
    }
  }

  lemma StartIsMet(r: Record, start: Goal, final: Goal, queue: seq<Entry>, least: Meetings, maxDepth: int,
      current: Goal, k: nat)
    requires Expanding(r, start, final, queue, least, maxDepth, current, k)
    ensures End(r, start, []) == Some(start) && start in least && NoLater(least[start], [])
    ensures current in least
  {
  }

  lemma EndSplits(r: Record, start: Goal, route: Route)
    requires End(r, start, route).Some? && route != []
    ensures var u, j := route[..|route| - 1], route[|route| - 1];
            && End(r, start, u).Some? && j < |LinksFrom(r, End(r, start, u).value)|
            && End(r, start, route) == Some(LinksFrom(r, End(r, start, u).value)[j].target)
  {
  }

  lemma SoonerSplits(u: Route, j: nat, c: Route, k: nat)
    ensures Sooner(u + [j], c + [k]) <==> Sooner(u, c) || (u == c && j < k)
    ensures Sooner(u + [j], c + [k]) ==> Sooner(u, c + [k])
  {
    SoonerSnoc(u, j, c, k);
    if Sooner(u + [j], c + [k]) {
      ShorterIsSooner(u, u + [j]);
      SoonerIsTransitive(u, u + [j], c + [k]);
    }
  }

  lemma WaitingIsLater(queue: seq<Entry>, least: Meetings, c: Route, w: Goal)
    requires w in Goals(queue) && w in least
    requires forall i :: 0 <= i < |queue| ==> Sooner(c, RouteOf(queue[i], least))
    ensures Sooner(c, least[w])
  {
    var i :| 0 <= i < |queue| && queue[i].goal == w;
    assert RouteOf(queue[i], least) == least[w];
  }

  lemma LeadsOn(r: Record, start: Goal, final: Goal, queue: seq<Entry>, least: Meetings, maxDepth: int, current: Goal,
      k: nat, w: Goal, u: Route, j: nat)
    requires Expanding(r, start, final, queue, least, maxDepth, current, k)
    requires w in least && NoLater(least[w], u) && j < |LinksFrom(r, w)| && End(r, start, u) == Some(w)
    requires Sooner(u, least[current]) || (u == least[current] && j < k)
    ensures LinksFrom(r, w)[j].target in least && NoLater(least[LinksFrom(r, w)[j].target], least[w] + [j])
  {
    var c := least[current];
    SoonerIsTotal(u, c);
    SoonerIsTotal(least[w], u);
    if w == current {
      assert j < k;
    } else {
      if Sooner(u, c) && least[w] != u { SoonerIsTransitive(least[w], u, c); }
      assert Sooner(least[w], c);
      SoonerIsNoLonger(least[w], c);
      SoonerIsTotal(least[w], c);
      if w in Goals(queue) {
        WaitingIsLater(queue, least, c, w);
        assert false;
      }
      assert Expanded(r, least, w);
    }
  }

  // ---- The steps of the search ----

  /** The final goal at the end of the link being taken: no route meets it sooner. */
  lemma FoundFirst(r: Record, start: Goal, final: Goal, queue: seq<Entry>, least: Meetings, maxDepth: int,
      current: Goal, k: nat)
    requires Expanding(r, start, final, queue, least, maxDepth, current, k)
    requires k < |LinksFrom(r, current)| && LinksFrom(r, current)[k].target == final
    ensures End(r, start, least[current]) == Some(current)
    ensures Chosen(r, start, final, maxDepth, StepsOf(r, start, least[current]) + [StepAt(r, current, k)])
  {
    var c := least[current];
    var route := c + [k];
    RouteGrows(r, start, c, k);
    forall other | End(r, start, other) == Some(final) ensures NoLater(route, other) {
      if Sooner(other, route) {
        RoutesAreCovered(r, start, final, queue, least, maxDepth, current, k, other);
        assert false;
      }
    }
    RouteIsPath(r, start, route);
    hide IsPath, Sooner, End, StepsOf;
    assert FirstRoute(r, start, final, route) && IsPath(r, start, final, StepsOf(r, start, route));
  }

  /** Nothing waits any more: no route within the depth ends at the final goal. */
  lemma {:induction false} NothingIsMissed(r: Record, start: Goal, final: Goal, least: Meetings, maxDepth: int,
      route: Route)
    requires Met(r, start, final, least) && Swept(r, least, {}, maxDepth)
    requires End(r, start, route).Some? && |route| <= maxDepth
    ensures End(r, start, route).value in least && NoLater(least[End(r, start, route).value], route)
    decreases |route|
  {
    hide Sooner, NoLater, End;
    if route == [] {
      StartNoLater(r, start);
    } else {
      var n := |route| - 1;
      var u, j := route[..n], route[n];
      EndSplits(r, start, route);
      NothingIsMissed(r, start, final, least, maxDepth, u);
      var w := End(r, start, u).value;
      NoLaterIsNoLonger(least[w], u);
      assert Expanded(r, least, w);
      MetThrough(r, least, w, u, j);
      assert u + [j] == route;
    }
  }

  lemma StartNoLater(r: Record, start: Goal)
    ensures End(r, start, []) == Some(start) && NoLater([], [])
  {
  }

  lemma Exhausted(r: Record, start: Goal, final: Goal, least: Meetings, maxDepth: int)
    requires Searching(r, start, final, [], least, maxDepth)
    ensures Chosen(r, start, final, maxDepth, [])
  {
    hide IsPath, End, Sooner;
    assert Goals([]) == {};
    if Reaches(r, start, final, maxDepth) {
      var p :| IsPath(r, start, final, p) && |p| <= maxDepth;
      var route := PathIsRoute(r, start, final, p);
      NothingIsMissed(r, start, final, least, maxDepth, route);
      assert false;
    }
  }

  lemma Begin(r: Record, start: Goal, final: Goal, maxDepth: int)
    requires start != final
    ensures Searching(r, start, final, [Entry(start, [])], map[start := []], maxDepth)
  {
    hide Expanded;
    assert [Entry(start, [])][0].goal in Goals([Entry(start, [])]);
  }

  /** How much is left to do: goals never met, and goals met and waiting. */
  ghost function Remaining(r: Record, start: Goal, met: set<Goal>, queue: seq<Entry>): nat {
    |Universe(r, start) - met| + |queue|
  }

  /** Taking the first goal that waits: too deep to expand, or about to be. */
  lemma Pop(r: Record, start: Goal, final: Goal, queue: seq<Entry>, least: Meetings, maxDepth: int)
    requires queue != [] && Searching(r, start, final, queue, least, maxDepth)
    ensures InLine(r, start, queue[0], least)
    ensures |queue[0].steps| >= maxDepth ==> Searching(r, start, final, queue[1..], least, maxDepth)
    ensures |queue[0].steps| < maxDepth ==> Expanding(r, start, final, queue[1..], least, maxDepth, queue[0].goal, 0)
    ensures Remaining(r, start, least.Keys, queue[1..]) < Remaining(r, start, least.Keys, queue)
  {
    hide End, Sooner, Expanded, StepsOf, Universe, Goals;
    var rest := queue[1..];
    assert queue == [queue[0]] + rest;
    GoalsCons(queue[0], rest);
    assert forall i :: 0 <= i < |rest| ==> rest[i] == queue[i + 1];
    assert RouteOf(queue[0], least) == least[queue[0].goal];
    assert Waits(r, start, rest, least);
    if |queue[0].steps| >= maxDepth {
      forall g | g in least && g !in Goals(rest) && |least[g]| < maxDepth ensures Expanded(r, least, g) {
        assert g !in Goals(queue);
      }
    }
  }

  /** All links of `current` taken. */
  lemma Close(r: Record, start: Goal, final: Goal, queue: seq<Entry>, least: Meetings, maxDepth: int, current: Goal)
    requires Expanding(r, start, final, queue, least, maxDepth, current, |LinksFrom(r, current)|)
    ensures Searching(r, start, final, queue, least, maxDepth)
  {
    hide End, Sooner, ExpandedTo, Universe, Goals, Waits;
    forall g | g in least && g !in Goals(queue) && |least[g]| < maxDepth ensures Expanded(r, least, g) {
      if g != current { assert g !in Goals(queue) + {current}; }
    }
  }

  lemma StillSooner(a: Route, c: Route, k: nat)
    requires Sooner(a, c + [k])
    ensures Sooner(a, c + [k + 1]) && NoLater(a, c + [k])
  {
    SoonerIsTotal(c, c);
    SoonerSnoc(c, k, c, k + 1);
    SoonerIsTransitive(a, c + [k], c + [k + 1]);
    SoonerIsTotal(a, c + [k]);
  }

  /** The link leads to a goal met before. */
  lemma Known(r: Record, start: Goal, final: Goal, queue: seq<Entry>, least: Meetings, maxDepth: int, current: Goal,
      k: nat)
    requires Expanding(r, start, final, queue, least, maxDepth, current, k)
    requires k < |LinksFrom(r, current)| && LinksFrom(r, current)[k].target in least
    ensures Expanding(r, start, final, queue, least, maxDepth, current, k + 1)
  {
    hide End, Sooner, NoLater, Universe, Goals, Waits, Swept, Met;
    forall g | g in least ensures Sooner(least[g], least[current] + [k + 1])
        && NoLater(least[g], least[current] + [k]) {
      StillSooner(least[g], least[current], k);
    }
  }

  /** What the maps and the queue become when the link leads to a new goal. */
  lemma Meet(r: Record, start: Goal, final: Goal, queue: seq<Entry>, least: Meetings, maxDepth: int, current: Goal,
      k: nat)
    requires Expanding(r, start, final, queue, least, maxDepth, current, k)
    requires k < |LinksFrom(r, current)|
    requires var t := LinksFrom(r, current)[k].target; t !in least && t != final
    ensures End(r, start, least[current]) == Some(current)
    ensures var t := LinksFrom(r, current)[k].target;
            var longer := queue + [Entry(t, StepsOf(r, start, least[current]) + [StepAt(r, current, k)])];
            var next := least[t := least[current] + [k]];
            && Expanding(r, start, final, longer, next, maxDepth, current, k + 1)
            && Remaining(r, start, next.Keys, longer) == Remaining(r, start, least.Keys, queue)
  {
    hide End, Universe, Goals, Waits, Swept, StepsOf, Sooner, Remaining, InLine, Met, NoLater, ExpandedTo;
    Current(r, start, final, queue, least, maxDepth, current, k);
    var t, route := LinksFrom(r, current)[k].target, least[current] + [k];
    var e := Entry(t, StepsOf(r, start, least[current]) + [StepAt(r, current, k)]);
    InUniverse(r, start, current, k);
    MeetMet(r, start, final, least, current, k, e);
    MeetWaits(r, start, queue, least, current, k, e);
    MeetSwept(r, queue, least, maxDepth, current, t, route, e);
    MeetCounts(r, start, least, queue, e, route);
    MeetBound(least, current, k, t);
    QueueIsMet(r, start, queue, least);
    LaterThanCurrent(queue, least, current, k, e, t);
    MeetExpanded(r, least, current, k, t, route);
  }

  lemma QueueIsMet(r: Record, start: Goal, queue: seq<Entry>, least: Meetings)
    requires Waits(r, start, queue, least)
    ensures forall i :: 0 <= i < |queue| ==> queue[i].goal in least
  {
    hide End, StepsOf, Sooner;
    assert forall i :: 0 <= i < |queue| ==> InLine(r, start, queue[i], least);
  }

  lemma MeetBound(least: Meetings, current: Goal, k: nat, t: Goal)
    requires current in least && t !in least && forall g :: g in least ==> Sooner(least[g], least[current] + [k])
    ensures var next := least[t := least[current] + [k]];
            forall g :: g in next ==> Sooner(next[g], least[current] + [k + 1])
  {
    hide Sooner;
    var next := least[t := least[current] + [k]];
    forall g | g in next ensures Sooner(next[g], least[current] + [k + 1]) {
      if g == t {
        SoonerIsTotal(least[current], least[current]);
        SoonerSnoc(least[current], k, least[current], k + 1);
      } else {
        StillSooner(least[g], least[current], k);
      }
    }
  }

  lemma MeetMet(r: Record, start: Goal, final: Goal, least: Meetings, current: Goal, k: nat, e: Entry)
    requires Met(r, start, final, least) && current in least && k < |LinksFrom(r, current)|
    requires e.goal == LinksFrom(r, current)[k].target && e.goal !in least && e.goal != final
    requires End(r, start, least[current]) == Some(current)
    requires e.steps == StepsOf(r, start, least[current]) + [StepAt(r, current, k)]
    ensures Met(r, start, final, least[e.goal := least[current] + [k]])
    ensures InLine(r, start, e, least[e.goal := least[current] + [k]])
  {
    RouteGrows(r, start, least[current], k);
    RouteIsPath(r, start, least[current]);
    InUniverse(r, start, current, k);
    hide End, StepsOf, IsPath, Universe;
  }

  lemma LaterThanCurrent(queue: seq<Entry>, least: Meetings, current: Goal, k: nat, e: Entry, t: Goal)
    requires current in least && t !in least && e.goal == t
    requires forall i :: 0 <= i < |queue| ==> queue[i].goal in least
    requires forall i :: 0 <= i < |queue| ==> Sooner(least[current], RouteOf(queue[i], least))
    ensures var next, longer := least[t := least[current] + [k]], queue + [e];
            forall i :: 0 <= i < |longer| ==> Sooner(next[current], RouteOf(longer[i], next))
  {
    ShorterIsSooner(least[current], least[current] + [k]);
    hide Sooner;
  }

  lemma MeetExpanded(r: Record, least: Meetings, current: Goal, k: nat, t: Goal, route: Route)
    requires current in least && t !in least && k < |LinksFrom(r, current)| && LinksFrom(r, current)[k].target == t
    requires route == least[current] + [k] && ExpandedTo(r, least, current, k)
    ensures ExpandedTo(r, least[t := route], current, k + 1)
  {
    SoonerIsTotal(route, route);
    hide Sooner;
  }

  lemma MeetCounts(r: Record, start: Goal, least: Meetings, queue: seq<Entry>, e: Entry, route: Route)
    requires e.goal in Universe(r, start) && e.goal !in least
    ensures Remaining(r, start, least[e.goal := route].Keys, queue + [e]) == Remaining(r, start, least.Keys, queue)
  {
    hide Universe;
    assert least[e.goal := route].Keys == least.Keys + {e.goal};
    assert Universe(r, start) - least.Keys == (Universe(r, start) - (least.Keys + {e.goal})) + {e.goal};
  }

  lemma MeetSwept(r: Record, queue: seq<Entry>, least: Meetings, maxDepth: int, current: Goal, t: Goal, route: Route,
      e: Entry)
    requires Swept(r, least, Goals(queue) + {current}, maxDepth) && t !in least && e.goal == t
    ensures Swept(r, least[t := route], Goals(queue + [e]) + {current}, maxDepth)
  {
    hide Goals, NoLater;
    GoalsSnoc(queue, e);
    var next := least[t := route];
    forall g | g in next && g !in Goals(queue + [e]) + {current} && |next[g]| < maxDepth ensures Expanded(r, next, g) {
      assert g != t && Expanded(r, least, g);
    }
  }

  lemma MeetWaits(r: Record, start: Goal, queue: seq<Entry>, least: Meetings, current: Goal, k: nat, e: Entry)
    requires current in least && Waits(r, start, queue, least) && e.goal !in least
    requires forall g :: g in least ==> Sooner(least[g], least[current] + [k])
    requires forall i :: 0 <= i < |queue| ==> Sooner(least[current], RouteOf(queue[i], least))
    requires InLine(r, start, e, least[e.goal := least[current] + [k]])
    ensures Waits(r, start, queue + [e], least[e.goal := least[current] + [k]])
  {
    var route := least[current] + [k];
    var next, longer := least[e.goal := route], queue + [e];
    hide Sooner, End, StepsOf;
    ShorterIsSooner(route, route + [0]);
    forall i | 0 <= i < |queue| ensures RouteOf(longer[i], next) == RouteOf(queue[i], least)
        && InLine(r, start, longer[i], next) {
      assert InLine(r, start, queue[i], least);
    }
    assert RouteOf(longer[|queue|], next) == route;
    forall i | 0 <= i < |queue| ensures Sooner(RouteOf(queue[i], least), route) {
      assert InLine(r, start, queue[i], least);
    }
    forall i, g | 0 <= i < |longer| && g in next ensures Sooner(next[g], RouteOf(longer[i], next) + [0]) {
      if i == |queue| {
        if g != e.goal { SoonerIsTransitive(next[g], route, route + [0]); }
      } else if g == e.goal {
        SoonerSnoc(least[current], k, RouteOf(queue[i], least), 0);
      }
    }
  }

  lemma Current(r: Record, start: Goal, final: Goal, queue: seq<Entry>, least: Meetings, maxDepth: int, current: Goal,
      k: nat)
    requires Expanding(r, start, final, queue, least, maxDepth, current, k)
    ensures current in least && End(r, start, least[current]) == Some(current) && final !in least
  {
  }

  /** Breadth first, in recorded order. */
  method BuildRelevancePath(r: Record, goal: Goal, final: Goal, maxDepth: int) returns (steps: seq<Step>)
    ensures goal == final ==> steps == []
    ensures goal != final ==> Chosen(r, goal, final, maxDepth, steps)
  {
    hide IsPath, End, StepsOf, Searching, Expanding, InLine, Remaining, Chosen, LinksFrom;
    if goal == final { return []; }
    var queue := [Entry(goal, [])];
    var seen := {goal};
    ghost var least: Meetings := map[goal := []];
    Begin(r, goal, final, maxDepth);
    while queue != []
      invariant seen == least.Keys && Searching(r, goal, final, queue, least, maxDepth)
      decreases Remaining(r, goal, seen, queue)
    {
      ghost var before := Remaining(r, goal, seen, queue);
      Pop(r, goal, final, queue, least, maxDepth);
      HeadRoute(r, goal, queue[0], least);
      var current, path := queue[0].goal, queue[0].steps;
      queue := queue[1..];
      if |path| >= maxDepth {
        continue;
      }
      var links, k := LinksFrom(r, current), 0;
      while k < |links|
        invariant 0 <= k <= |links|
        invariant seen == least.Keys && Expanding(r, goal, final, queue, least, maxDepth, current, k)
        invariant current in least && End(r, goal, least[current]) == Some(current)
                && path == StepsOf(r, goal, least[current])
        invariant Remaining(r, goal, seen, queue) < before
      {
        var step := Step(current, links[k].target, links[k].kind, StatusOf(r, links[k].target));
        Current(r, goal, final, queue, least, maxDepth, current, k);
        if step.target == final {
          FoundFirst(r, goal, final, queue, least, maxDepth, current, k);
          return path + [step];
        }
        if step.target in seen {
          Known(r, goal, final, queue, least, maxDepth, current, k);
        } else {
          Meet(r, goal, final, queue, least, maxDepth, current, k);
          least := least[step.target := least[current] + [k]];
          seen := seen + {step.target};
          queue := queue + [Entry(step.target, path + [step])];
        }
        k := k + 1;
      }
      Close(r, goal, final, queue, least, maxDepth, current);
    }
    Exhausted(r, goal, final, least, maxDepth);
    return [];
  }

  lemma HeadRoute(r: Record, start: Goal, e: Entry, least: Meetings)
    requires InLine(r, start, e, least)
    ensures e.goal in least && End(r, start, least[e.goal]) == Some(e.goal)
            && e.steps == StepsOf(r, start, least[e.goal])
  {
  }

  // ---- Deciding whether a focus is relevant ----

  datatype Refusal = NoPath | Unchecked(steps: seq<Step>)

  function UncheckedSteps(steps: seq<Step>): seq<Step> {
    if steps == [] then []
    else (if steps[0].status == PROVED then [] else [steps[0]]) + UncheckedSteps(steps[1..])
  }

  function RequireRelevance(steps: seq<Step>): Result<seq<Step>, Refusal> {
    if steps == [] then Err(NoPath)
    else if UncheckedSteps(steps) != [] then Err(Unchecked(UncheckedSteps(steps)))
    else Ok(steps)
  }

  lemma {:induction false} UncheckedAreTheUnproved(steps: seq<Step>)
    ensures forall s :: s in UncheckedSteps(steps) <==> s in steps && s.status != PROVED
    ensures UncheckedSteps(steps) == [] <==> forall s :: s in steps ==> s.status == PROVED
  {
    if steps != [] {
      UncheckedAreTheUnproved(steps[1..]);
      assert forall s :: s in steps <==> s == steps[0] || s in steps[1..];
    }
  }

  /** Every step of the route leads to a goal the kernel has proved. */
  ghost predicate ProvedRoute(r: Record, a: Goal, route: Route) {
    End(r, a, route).Some? && forall s :: s in StepsOf(r, a, route) ==> s.status == PROVED
  }

  /**
    The verdict, from what is recorded: refused for want of a path exactly when
    none is in reach, accepted exactly when the first route is fully proved,
    and otherwise refused for exactly the unproved links of that route.
   */
  lemma RelevanceVerdict(r: Record, goal: Goal, final: Goal, maxDepth: int, steps: seq<Step>)
    requires goal != final && Chosen(r, goal, final, maxDepth, steps)
    ensures RequireRelevance(steps) == Err(NoPath) <==> !Reaches(r, goal, final, maxDepth)
    ensures RequireRelevance(steps).Ok? <==>
              Reaches(r, goal, final, maxDepth) && exists route ::
                  FirstRoute(r, goal, final, route) && ProvedRoute(r, goal, route)
    ensures RequireRelevance(steps).Err? && RequireRelevance(steps).error.Unchecked? ==>
              forall s :: s in RequireRelevance(steps).error.steps <==> s in steps && s.status != PROVED
  {
    hide IsPath, Sooner, End, StepsOf, Reaches;
    UncheckedAreTheUnproved(steps);
    if Reaches(r, goal, final, maxDepth) {
      var route :| FirstRoute(r, goal, final, route) && steps == StepsOf(r, goal, route);
      NonEmptyRoute(r, goal, final, route);
      forall other | FirstRoute(r, goal, final, other) ensures other == route {
        FirstRouteIsUnique(r, goal, final, route, other);
      }
    }
  }

  lemma NonEmptyRoute(r: Record, a: Goal, b: Goal, route: Route)
    requires a != b && End(r, a, route) == Some(b)
    ensures route != [] && StepsOf(r, a, route) != []
  {
    RouteIsPath(r, a, route);
  }

  /** No longer than any other path to the final goal. */
  ghost predicate ShortestPath(r: Record, a: Goal, b: Goal, p: seq<Step>) {
    IsPath(r, a, b, p) && forall other :: IsPath(r, a, b, other) ==> |p| <= |other|
  }

  predicate AllProved(p: seq<Step>) {
    forall s :: s in p ==> s.status == PROVED
  }

  /**
    If all shortest paths are proved the focus is accepted, and if none is it is refused,
    however well proved a longer one may be.
   */
  lemma ShortestPathsDecide(r: Record, goal: Goal, final: Goal, maxDepth: int, steps: seq<Step>)
    requires goal != final && Chosen(r, goal, final, maxDepth, steps) && Reaches(r, goal, final, maxDepth)
    ensures (forall p :: ShortestPath(r, goal, final, p) ==> AllProved(p)) ==> RequireRelevance(steps).Ok?
    ensures (forall p :: ShortestPath(r, goal, final, p) ==> !AllProved(p)) ==> RequireRelevance(steps).Err?
  {
    ChosenIsShortest(r, goal, final, maxDepth, steps);
    UncheckedAreTheUnproved(steps);
    hide IsPath, Chosen, Reaches;
    assert ShortestPath(r, goal, final, steps);
    StepsAreThere(r, goal, final, steps);
  }

  lemma StepsAreThere(r: Record, a: Goal, b: Goal, steps: seq<Step>)
    requires a != b && IsPath(r, a, b, steps)
    ensures steps != []
  {
  }

  // ---- A proved detour ----

  const DETOUR := Record(
    map["a" := [Link("b", "advances"), Link("c", "advances")], "b" := [Link("f", "advances")],
        "c" := [Link("d", "advances")], "d" := [Link("f", "advances")]],
    map["c" := PROVED, "d" := PROVED, "f" := PROVED])

  function Detour(): seq<Step> {
    [Step("a", "c", "advances", PROVED), Step("c", "d", "advances", PROVED), Step("d", "f", "advances", PROVED)]
  }

  lemma LinksOfDetour()
    ensures LinksFrom(DETOUR, "a") == [Link("b", "advances"), Link("c", "advances")]
    ensures LinksFrom(DETOUR, "b") == [Link("f", "advances")]
    ensures LinksFrom(DETOUR, "c") == [Link("d", "advances")]
    ensures LinksFrom(DETOUR, "d") == [Link("f", "advances")]
    ensures forall g :: LinksFrom(DETOUR, g) != [] ==> g in ["a", "b", "c", "d"]
  {
  }

  lemma DetourIsPath()
    ensures IsPath(DETOUR, "a", "f", Detour()) && RequireRelevance(Detour()).Ok?
  {
    LinksOfDetour();
    hide LinksFrom;
    var s := Detour();
    PathGrows(DETOUR, "a", [], s[0]);
    PathGrows(DETOUR, "a", [s[0]], s[1]);
    PathGrows(DETOUR, "a", [s[0], s[1]], s[2]);
    assert [s[0], s[1]] + [s[2]] == s;
    UncheckedAreTheUnproved(s);
  }

  lemma IntoDetour(s: Step)
    requires Recorded(DETOUR, s)
    ensures s.target == "f" ==> s.source == "b" || s.source == "d"
    ensures s.target == "d" ==> s.source == "c"
    ensures s.target == "b" ==> s.status != PROVED
  {
    LinksOfDetour();
  }

  lemma ShortRoute(steps: seq<Step>)
    requires IsPath(DETOUR, "a", "f", steps) && |steps| <= 2
    ensures RequireRelevance(steps).Err?
  {
    hide Recorded;
    var last, first := steps[|steps| - 1], steps[..|steps| - 1];
    IntoDetour(last);
    assert IsPath(DETOUR, "a", last.source, first) && |first| == 1;
    assert IsPath(DETOUR, "a", first[0].source, first[..|first| - 1]);
    assert first[0] == steps[0] && first[..0] == [];
    IntoDetour(first[0]);
    assert first[0].source == "a" && first[0].target == last.source;
    assert steps[0] in steps && steps[0].status != PROVED;
    UncheckedAreTheUnproved(steps);
  }

  /** Preferring the shortest route can refuse a focus that has a longer route of proved steps only. */
  lemma ProvedDetourIsRefused(steps: seq<Step>)
    requires Chosen(DETOUR, "a", "f", 32, steps)
    ensures RequireRelevance(steps).Err?
    ensures IsPath(DETOUR, "a", "f", Detour()) && RequireRelevance(Detour()).Ok?
  {
    hide IsPath, Recorded, Chosen;
    DetourIsPath();
    ChosenIsShortest(DETOUR, "a", "f", 32, steps);
    var direct := [Step("a", "b", "advances", "unrecorded"), Step("b", "f", "advances", PROVED)];
    DirectIsPath(direct);
    assert |direct| <= 32;
    ShortRoute(steps);
  }

  lemma DirectIsPath(direct: seq<Step>)
    requires direct == [Step("a", "b", "advances", "unrecorded"), Step("b", "f", "advances", PROVED)]
    ensures IsPath(DETOUR, "a", "f", direct)
  {
    LinksOfDetour();
    hide LinksFrom;
    PathGrows(DETOUR, "a", [], direct[0]);
    PathGrows(DETOUR, "a", [direct[0]], direct[1]);
    assert [direct[0]] + [direct[1]] == direct;
  }
}
