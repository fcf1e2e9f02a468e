/** The bounded neighbourhood of a spotlight's focus, in breadth-first order. */
module Neighborhood {
  import opened Ordering

  type Id = string

  datatype Edge = Edge(source: Id, relation: string, target: Id, retracted: bool)

  predicate Counts(e: Edge) {
    !e.retracted &&
    e.relation in {"depends_on", "decomposes_into", "specializes", "advances", "supports", "refutes", "annotates"}
  }

  /** `a` and `b` are the two ends of an edge that counts, whichever way it points. */
  predicate Joined(edges: seq<Edge>, a: Id, b: Id) {
    exists i :: 0 <= i < |edges| && Counts(edges[i]) &&
      ((edges[i].source == a && edges[i].target == b) || (edges[i].target == a && edges[i].source == b))
  }

  /** `v` can be reached from `focus` over at most `n` edges. */
  ghost predicate Within(edges: seq<Edge>, focus: Id, v: Id, n: nat)
    decreases n
  {
    if n == 0 then v == focus
    else Within(edges, focus, v, n - 1) || exists u :: Within(edges, focus, u, n - 1) && Joined(edges, u, v)
  }

  function Targets(edges: seq<Edge>, u: Id): (r: seq<Id>)
    ensures forall v :: v in r <==> exists i ::
            0 <= i < |edges| && Counts(edges[i]) && edges[i].source == u && edges[i].target == v
  {
    if edges == [] then []
    else
      var e, before := edges[|edges| - 1], edges[..|edges| - 1];
      Targets(before, u) + if Counts(e) && e.source == u then [e.target] else []
  }

  function Sources(edges: seq<Edge>, u: Id): (r: seq<Id>)
    ensures forall v :: v in r <==> exists i ::
            0 <= i < |edges| && Counts(edges[i]) && edges[i].target == u && edges[i].source == v
  {
    if edges == [] then []
    else
      var e, before := edges[|edges| - 1], edges[..|edges| - 1];
      Sources(before, u) + if Counts(e) && e.target == u then [e.source] else []
  }

  function Neighbors(edges: seq<Edge>, u: Id): (r: seq<Id>)
    ensures Ascending(r) && forall v :: v in r <==> Joined(edges, u, v)
  {
    Sorted(Targets(edges, u) + Sources(edges, u))
  }

  // ---- Ring by ring ----

  /** Those of `ids` not seen before, in order and once each. */
  function Fresh(ids: seq<Id>, seen: seq<Id>): seq<Id> {
    if ids == [] then []
    else if ids[0] in seen then Fresh(ids[1..], seen)
    else [ids[0]] + Fresh(ids[1..], seen + [ids[0]])
  }

  /** The fresh neighbours of each of `us` in turn. */
  function Spread(edges: seq<Edge>, us: seq<Id>, seen: seq<Id>): seq<Id> {
    if us == [] then []
    else
      var met := Fresh(Neighbors(edges, us[0]), seen);
      met + Spread(edges, us[1..], seen + met)
  }

  /** What is first met at distance `n`. */
  function Ring(edges: seq<Edge>, focus: Id, n: nat): seq<Id>
    decreases n, 0
  {
    if n == 0 then [focus] else Spread(edges, Ring(edges, focus, n - 1), Order(edges, focus, n - 1))
  }

  /** Everything within distance `n`, ring by ring. */
  function Order(edges: seq<Edge>, focus: Id, n: nat): seq<Id>
    decreases n, 1
  {
    if n == 0 then [focus] else Order(edges, focus, n - 1) + Ring(edges, focus, n)
  }

  predicate NoRepeats(s: seq<Id>) {
    forall i, j :: 0 <= i < j < |s| ==> s[i] != s[j]
  }

  lemma {:induction false} FreshIsNew(ids: seq<Id>, seen: seq<Id>)
    requires NoRepeats(seen)
    ensures NoRepeats(seen + Fresh(ids, seen))
    ensures forall v :: v in seen + Fresh(ids, seen) <==> v in seen || v in ids
  {
    if ids != [] {
      assert ids == [ids[0]] + ids[1..];
      if ids[0] in seen {
        FreshIsNew(ids[1..], seen);
      } else {
        FreshIsNew(ids[1..], seen + [ids[0]]);
        assert seen + Fresh(ids, seen) == seen + [ids[0]] + Fresh(ids[1..], seen + [ids[0]]);
      }
    } else {
      assert seen + [] == seen;
    }
  }

  lemma {:induction false} SpreadIsNew(edges: seq<Edge>, us: seq<Id>, seen: seq<Id>)
    requires NoRepeats(seen)
    ensures NoRepeats(seen + Spread(edges, us, seen))
    ensures forall v :: v in seen + Spread(edges, us, seen) <==> v in seen || exists u :: u in us && Joined(edges, u, v)
  {
    hide Joined, NoRepeats, Fresh, Neighbors;
    if us == [] {
      assert seen + [] == seen;
    } else {
      var met := Fresh(Neighbors(edges, us[0]), seen);
      var later := Spread(edges, us[1..], seen + met);
      FreshIsNew(Neighbors(edges, us[0]), seen);
      SpreadIsNew(edges, us[1..], seen + met);
      assert seen + (met + later) == seen + met + later;
      hide Spread;
      forall v ensures v in seen + met + later <==> v in seen || exists u :: u in us && Joined(edges, u, v) {
        assert v in seen + met <==> v in seen || v in Neighbors(edges, us[0]);
        assert forall u :: u in us <==> u == us[0] || u in us[1..];
      }
    }
  }

  lemma {:induction false} OrderHasNoRepeats(edges: seq<Edge>, focus: Id, n: nat)
    ensures NoRepeats(Order(edges, focus, n))
  {
    if n > 0 {
      OrderHasNoRepeats(edges, focus, n - 1);
      SpreadIsNew(edges, Ring(edges, focus, n - 1), Order(edges, focus, n - 1));
    }
  }

  /** The last ring's neighbours are the only ones not met yet. */
  lemma {:induction false} OrderGrows(edges: seq<Edge>, focus: Id, n: nat, v: Id)
    ensures v in Order(edges, focus, n + 1) <==>
              v in Order(edges, focus, n) || exists u :: u in Order(edges, focus, n) && Joined(edges, u, v)
  {
    hide Joined, NoRepeats, Spread;
    OrderHasNoRepeats(edges, focus, n);
    SpreadIsNew(edges, Ring(edges, focus, n), Order(edges, focus, n));
    if n > 0 {
      forall u | u in Order(edges, focus, n) && Joined(edges, u, v) && u !in Ring(edges, focus, n)
        ensures v in Order(edges, focus, n)
      {
        OrderGrows(edges, focus, n - 1, v);
      }
    }
    RingIsInOrder(edges, focus, n);
  }

  lemma RingIsInOrder(edges: seq<Edge>, focus: Id, n: nat)
    ensures forall u :: u in Ring(edges, focus, n) ==> u in Order(edges, focus, n)
  {
  }

  /** The order lists exactly the ball around the focus. */
  lemma {:induction false} OrderIsBall(edges: seq<Edge>, focus: Id, n: nat, v: Id)
    ensures v in Order(edges, focus, n) <==> Within(edges, focus, v, n)
    decreases n
  {
    if n > 0 {
      hide Joined, Order;
      var m := n - 1;
      OrderGrows(edges, focus, m, v);
      forall u ensures u in Order(edges, focus, m) <==> Within(edges, focus, u, m) {
        OrderIsBall(edges, focus, m, u);
      }
    }
  }

  lemma {:induction false} OrderExtends(edges: seq<Edge>, focus: Id, m: nat, n: nat)
    requires m <= n
    ensures Order(edges, focus, m) <= Order(edges, focus, n)
    decreases n
  {
    hide Order;
    if m < n {
      OrderExtends(edges, focus, m, n - 1);
      OrderStep(edges, focus, n - 1);
    }
  }

  lemma OrderStep(edges: seq<Edge>, focus: Id, n: nat)
    ensures Order(edges, focus, n + 1) == Order(edges, focus, n) + Ring(edges, focus, n + 1)
  {
  }

  /** What comes earlier is no further away. */
  lemma OrderIsByDistance(edges: seq<Edge>, focus: Id, n: nat, i: nat, j: nat, m: nat)
    requires i < j < |Order(edges, focus, n)| && Within(edges, focus, Order(edges, focus, n)[j], m)
    ensures Within(edges, focus, Order(edges, focus, n)[i], m)
  {
    hide Order, Within;
    var all := Order(edges, focus, n);
    if m <= n {
      var near := Order(edges, focus, m);
      OrderExtends(edges, focus, m, n);
      OrderHasNoRepeats(edges, focus, n);
      OrderIsBall(edges, focus, m, all[j]);
      assert j < |near|;
      assert all[i] == near[i];
      OrderIsBall(edges, focus, m, all[i]);
    } else {
      OrderIsBall(edges, focus, n, all[i]);
      Wider(edges, focus, all[i], n, m);
    }
  }

  lemma {:induction false} Wider(edges: seq<Edge>, focus: Id, v: Id, m: nat, n: nat)
    requires m <= n && Within(edges, focus, v, m)
    ensures Within(edges, focus, v, n)
    decreases n
  {
    if m < n { Wider(edges, focus, v, m, n - 1); }
  }

  lemma {:induction false} EmptyRingEndsAll(edges: seq<Edge>, focus: Id, m: nat, n: nat)
    requires m < n && Ring(edges, focus, m + 1) == []
    ensures Order(edges, focus, n) == Order(edges, focus, m) && Ring(edges, focus, n) == []
    decreases n
  {
    if m + 1 < n { EmptyRingEndsAll(edges, focus, m, n - 1); }
  }

  // ---- The search ----

  function Radius(depth: int): nat {
    if depth < 0 then 0 else depth
  }

  function Cap(maximum: int): nat {
    if maximum < 1 then 1 else maximum
  }

  /** At most `maximum` of the ball of radius `depth`, nearest first. */
  function Nearest(edges: seq<Edge>, focus: Id, depth: int, maximum: int): (r: seq<Id>) {
    var all := Order(edges, focus, Radius(depth));
    if |all| <= Cap(maximum) then all else all[..Cap(maximum)]
  }

  datatype Visit = Visit(id: Id, distance: nat)

  function Visits(ids: seq<Id>, distance: nat): (r: seq<Visit>)
    ensures |r| == |ids| && forall i :: 0 <= i < |r| ==> r[i] == Visit(ids[i], distance)
  {
    seq(|ids|, i requires 0 <= i < |ids| => Visit(ids[i], distance))
  }

  /** Between two visits: `rest` of ring `n` still waits, and `next` of ring `n + 1` has been met. */
  ghost predicate Searching(edges: seq<Edge>, focus: Id, radius: nat, queue: seq<Visit>, ordered: seq<Id>, n: nat,
      rest: seq<Id>, next: seq<Id>) {
    && n <= radius
    && queue == Visits(rest, n) + Visits(next, n + 1)
    && ordered == Order(edges, focus, n) + next
    && (n == radius ==> next == [])
    && (n < radius ==> next + Spread(edges, rest, ordered) == Ring(edges, focus, n + 1))
  }

  /** During a visit: of the visited program's neighbours, `ids` are still to be looked at. */
  ghost predicate Visiting(edges: seq<Edge>, focus: Id, radius: nat, queue: seq<Visit>, ordered: seq<Id>, n: nat,
      rest: seq<Id>, next: seq<Id>, ids: seq<Id>) {
    && n < radius
    && queue == Visits(rest, n) + Visits(next, n + 1)
    && ordered == Order(edges, focus, n) + next
    && next + Fresh(ids, ordered) + Spread(edges, rest, ordered + Fresh(ids, ordered)) == Ring(edges, focus, n + 1)
  }

  lemma NeighborsAre(edges: seq<Edge>, outgoing: map<Id, seq<Id>>, incoming: map<Id, seq<Id>>, u: Id)
    requires Tabulated(edges, outgoing, incoming)
    ensures Sorted(At(outgoing, u) + At(incoming, u)) == Neighbors(edges, u)
  {
  }

  lemma VisitsSplit(rest: seq<Id>, next: seq<Id>, n: nat, v: Id)
    ensures rest != [] ==> (Visits(rest, n) + Visits(next, n + 1))[1..] == Visits(rest[1..], n) + Visits(next, n + 1)
    ensures Visits(rest, n) + Visits(next + [v], n + 1) == Visits(rest, n) + Visits(next, n + 1) + [Visit(v, n + 1)]
  {
    assert Visits(next + [v], n + 1) == Visits(next, n + 1) + [Visit(v, n + 1)];
    if rest != [] { assert Visits(rest, n)[1..] == Visits(rest[1..], n); }
  }

  lemma Enter(edges: seq<Edge>, focus: Id, radius: nat, queue: seq<Visit>, ordered: seq<Id>, n: nat, rest: seq<Id>,
      next: seq<Id>)
    requires Searching(edges, focus, radius, queue, ordered, n, rest, next) && rest != []
    ensures queue != [] && queue[0] == Visit(rest[0], n) && n <= radius
    ensures n < radius ==> Visiting(edges, focus, radius, queue[1..], ordered, n, rest[1..], next,
            Neighbors(edges, rest[0]))
    ensures n == radius ==> Searching(edges, focus, radius, queue[1..], ordered, n, rest[1..], next)
  {
    hide Order, Ring, Fresh, Neighbors;
    VisitsSplit(rest, next, n, "");
    if n < radius {
      var met := Fresh(Neighbors(edges, rest[0]), ordered);
      assert next + (met + Spread(edges, rest[1..], ordered + met)) ==
          next + met + Spread(edges, rest[1..], ordered + met);
    }
  }

  lemma Meet(edges: seq<Edge>, focus: Id, radius: nat, queue: seq<Visit>, ordered: seq<Id>, n: nat, rest: seq<Id>,
      next: seq<Id>, ids: seq<Id>)
    requires Visiting(edges, focus, radius, queue, ordered, n, rest, next, ids) && ids != []
    ensures ids[0] in ordered ==> Visiting(edges, focus, radius, queue, ordered, n, rest, next, ids[1..])
    ensures ids[0] !in ordered ==>
              Visiting(edges, focus, radius, queue + [Visit(ids[0], n + 1)], ordered + [ids[0]], n, rest,
                  next + [ids[0]], ids[1..])
  {
    hide Order, Ring, Spread;
    VisitsSplit(rest, next, n, ids[0]);
    if ids[0] !in ordered {
      var v, met := ids[0], Fresh(ids[1..], ordered + [ids[0]]);
      assert next + ([v] + met) == next + [v] + met;
      assert ordered + ([v] + met) == ordered + [v] + met;
      assert Order(edges, focus, n) + next + [v] == Order(edges, focus, n) + (next + [v]);
    }
  }

  lemma Leave(edges: seq<Edge>, focus: Id, radius: nat, queue: seq<Visit>, ordered: seq<Id>, n: nat, rest: seq<Id>,
      next: seq<Id>)
    requires Visiting(edges, focus, radius, queue, ordered, n, rest, next, [])
    ensures Searching(edges, focus, radius, queue, ordered, n, rest, next)
  {
    hide Order, Ring, Spread;
    assert ordered + [] == ordered && next + [] == next;
  }

  lemma NextRing(edges: seq<Edge>, focus: Id, radius: nat, queue: seq<Visit>, ordered: seq<Id>, n: nat, next: seq<Id>)
    requires Searching(edges, focus, radius, queue, ordered, n, [], next) && queue != []
    ensures Searching(edges, focus, radius, queue, ordered, n + 1, next, [])
    ensures next != []
  {
    assert next != [] && n < radius;
    assert next + [] == next && Visits([], n) + Visits(next, n + 1) == Visits(next, n + 1) + Visits([], n + 2);
    assert ordered == Order(edges, focus, n + 1);
    assert ordered + [] == ordered;
    assert [] + Spread(edges, next, ordered) == Spread(edges, next, ordered);
  }

  lemma SearchIsPrefix(edges: seq<Edge>, focus: Id, radius: nat, ordered: seq<Id>, n: nat, next: seq<Id>, more: seq<Id>)
    requires n < radius && ordered == Order(edges, focus, n) + next && next + more == Ring(edges, focus, n + 1)
    ensures ordered <= Order(edges, focus, radius)
  {
    hide Ring;
    OrderExtends(edges, focus, n + 1, radius);
    assert Order(edges, focus, n + 1) == ordered + more;
  }

  lemma StateIsPrefix(edges: seq<Edge>, focus: Id, radius: nat, queue: seq<Visit>, ordered: seq<Id>, n: nat,
      rest: seq<Id>, next: seq<Id>)
    requires Searching(edges, focus, radius, queue, ordered, n, rest, next)
    ensures ordered <= Order(edges, focus, radius)
    ensures queue == [] ==> ordered == Order(edges, focus, radius)
  {
    hide Order, Ring, Spread;
    if n == radius {
      assert ordered == Order(edges, focus, n);
    } else {
      SearchIsPrefix(edges, focus, radius, ordered, n, next, Spread(edges, rest, ordered));
      if queue == [] {
        assert Spread(edges, [], ordered) == [] by { NothingSpreads(edges, ordered); }
        EmptyRingEndsAll(edges, focus, n, radius);
      }
    }
  }

  lemma NothingSpreads(edges: seq<Edge>, seen: seq<Id>)
    ensures Spread(edges, [], seen) == []
  {
  }

  lemma VisitIsPrefix(edges: seq<Edge>, focus: Id, radius: nat, queue: seq<Visit>, ordered: seq<Id>, n: nat,
      rest: seq<Id>, next: seq<Id>, ids: seq<Id>)
    requires Visiting(edges, focus, radius, queue, ordered, n, rest, next, ids)
    ensures ordered <= Order(edges, focus, radius)
  {
    hide Order, Ring, Spread, Fresh;
    var met := Fresh(ids, ordered);
    var more := met + Spread(edges, rest, ordered + met);
    assert next + met + Spread(edges, rest, ordered + met) == next + more;
    SearchIsPrefix(edges, focus, radius, ordered, n, next, more);
  }

  lemma Begin(edges: seq<Edge>, focus: Id, radius: nat)
    ensures Searching(edges, focus, radius, [Visit(focus, 0)], [focus], 0, [focus], [])
    ensures [focus] <= Order(edges, focus, radius)
  {
    hide Spread;
    OrderExtends(edges, focus, 0, radius);
    assert Visits([focus], 0) + Visits([], 1) == [Visit(focus, 0)];
    assert [focus] + [] == [focus];
    if radius > 0 {
      assert [] + Spread(edges, [focus], [focus]) == Ring(edges, focus, 1);
    }
  }

  function At(m: map<Id, seq<Id>>, u: Id): seq<Id> {
    if u in m then m[u] else []
  }

  ghost predicate Tabulated(edges: seq<Edge>, outgoing: map<Id, seq<Id>>, incoming: map<Id, seq<Id>>) {
    forall u :: At(outgoing, u) == Targets(edges, u) && At(incoming, u) == Sources(edges, u)
  }

  lemma TabulatedOneMore(edges: seq<Edge>, e: Edge, outgoing: map<Id, seq<Id>>, incoming: map<Id, seq<Id>>)
    requires Tabulated(edges, outgoing, incoming)
    ensures !Counts(e) ==> Tabulated(edges + [e], outgoing, incoming)
    ensures Counts(e) ==>
              Tabulated(edges + [e], outgoing[e.source := At(outgoing, e.source) + [e.target]],
                        incoming[e.target := At(incoming, e.target) + [e.source]])
  {
    hide Targets, Sources, Counts;
    forall u
      ensures Targets(edges + [e], u) == Targets(edges, u) + (if Counts(e) && e.source == u then [e.target] else [])
      ensures Sources(edges + [e], u) == Sources(edges, u) + (if Counts(e) && e.target == u then [e.source] else [])
    {
      OneMoreEdge(edges, e, u);
    }
  }

  lemma OneMoreEdge(edges: seq<Edge>, e: Edge, u: Id)
    ensures Targets(edges + [e], u) == Targets(edges, u) + (if Counts(e) && e.source == u then [e.target] else [])
    ensures Sources(edges + [e], u) == Sources(edges, u) + (if Counts(e) && e.target == u then [e.source] else [])
  {
    assert (edges + [e])[..|edges|] == edges;
  }

  method Tabulate(edges: seq<Edge>) returns (outgoing: map<Id, seq<Id>>, incoming: map<Id, seq<Id>>)
    ensures Tabulated(edges, outgoing, incoming)
  {
    hide Tabulated;
    outgoing, incoming := map[], map[];
    var i := 0;
    assert Tabulated(edges[..0], outgoing, incoming) by { NothingTabulated(); }
    while i < |edges|
      invariant 0 <= i <= |edges|
      invariant Tabulated(edges[..i], outgoing, incoming)
    {
      var e := edges[i];
      assert edges[..i + 1] == edges[..i] + [e];
      TabulatedOneMore(edges[..i], e, outgoing, incoming);
      if Counts(e) {
        outgoing := outgoing[e.source := At(outgoing, e.source) + [e.target]];
        incoming := incoming[e.target := At(incoming, e.target) + [e.source]];
      }
      i := i + 1;
    }
    assert edges[..i] == edges;
  }

  lemma NothingTabulated()
    ensures Tabulated([], map[], map[])
  {
  }

  /** Breadth first from the focus, each program's neighbours in name order, until `maximum` are listed. */
  method DependencyNeighborhood(edges: seq<Edge>, focus: Id, depth: int, maximum: int) returns (ordered: seq<Id>)
    ensures ordered == Nearest(edges, focus, depth, maximum)
  {
    hide Searching, Visiting, Order, Neighbors, Tabulated, At, Sorted, Ascending, Joined;
    var outgoing, incoming := Tabulate(edges);
    ghost var radius := Radius(depth);
    var seen, queue := {focus}, [Visit(focus, 0)];
    ordered := [focus];
    ghost var n: nat, rest: seq<Id>, next: seq<Id> := 0, [focus], [];
    Begin(edges, focus, radius);
    while queue != [] && |ordered| < maximum
      invariant ordered <= Order(edges, focus, radius) && 1 <= |ordered| <= Cap(maximum)
      invariant |ordered| < maximum ==> Searching(edges, focus, radius, queue, ordered, n, rest, next)
      invariant forall v :: v in seen <==> v in ordered
      decreases |Order(edges, focus, radius)| - |ordered| + |queue|
    {
      if rest == [] {
        NextRing(edges, focus, radius, queue, ordered, n, next);
        n, rest, next := n + 1, next, [];
      }
      Enter(edges, focus, radius, queue, ordered, n, rest, next);
      var current, distance := queue[0].id, queue[0].distance;
      queue, rest := queue[1..], rest[1..];
      if distance >= depth {
        continue;
      }
      NeighborsAre(edges, outgoing, incoming, current);
      var ids := Sorted(At(outgoing, current) + At(incoming, current));
      var k := 0;
      ghost var before := |Order(edges, focus, radius)| - |ordered| + |queue|;
      assert ids[k..] == ids;
      while k < |ids|
        invariant 0 <= k <= |ids| && |ordered| < maximum
        invariant forall v :: v in seen <==> v in ordered
        invariant Visiting(edges, focus, radius, queue, ordered, n, rest, next, ids[k..])
        invariant ordered <= Order(edges, focus, radius)
        invariant |Order(edges, focus, radius)| - |ordered| + |queue| <= before
      {
        Meet(edges, focus, radius, queue, ordered, n, rest, next, ids[k..]);
        assert ids[k..][1..] == ids[k + 1..];
        var neighbor := ids[k];
        k := k + 1;
        if neighbor in seen {
          continue;
        }
        seen := seen + {neighbor};
        ordered := ordered + [neighbor];
        queue, next := queue + [Visit(neighbor, distance + 1)], next + [neighbor];
        VisitIsPrefix(edges, focus, radius, queue, ordered, n, rest, next, ids[k..]);
        if |ordered| >= maximum {
          break;
        }
      }
      if |ordered| < maximum {
        assert ids[k..] == [];
        Leave(edges, focus, radius, queue, ordered, n, rest, next);
      }
    }
    if |ordered| < maximum { StateIsPrefix(edges, focus, radius, queue, ordered, n, rest, next); }
  }

  // ---- What the neighbourhood is ----

  /** It starts with the focus, repeats nothing, goes no further than `depth`, and lists the near before the far. */
  lemma NeighborhoodIsOrderly(edges: seq<Edge>, focus: Id, depth: int, maximum: int)
    ensures var r := Nearest(edges, focus, depth, maximum);
            && r != [] && r[0] == focus && NoRepeats(r) && |r| <= Cap(maximum)
            && (forall v :: v in r ==> Within(edges, focus, v, Radius(depth)))
            && (forall i, j, m: nat :: 0 <= i < j < |r| && Within(edges, focus, r[j], m) ==>
                Within(edges, focus, r[i], m))
  {
    hide Order, Within;
    var n, r := Radius(depth), Nearest(edges, focus, depth, maximum);
    var all := Order(edges, focus, n);
    OrderExtends(edges, focus, 0, n);
    assert Order(edges, focus, 0) == [focus] by { OrderZero(edges, focus); }
    OrderHasNoRepeats(edges, focus, n);
    forall v | v in r ensures Within(edges, focus, v, n) { OrderIsBall(edges, focus, n, v); }
    forall i, j, m: nat | 0 <= i < j < |r| && Within(edges, focus, r[j], m) ensures Within(edges, focus, r[i], m) {
      assert r[i] == all[i] && r[j] == all[j];
      OrderIsByDistance(edges, focus, n, i, j, m);
    }
  }

  lemma OrderZero(edges: seq<Edge>, focus: Id)
    ensures Order(edges, focus, 0) == [focus]
  {
  }

  /** Below the cap nothing within `depth` is missing. */
  lemma BelowTheCapIsTheBall(edges: seq<Edge>, focus: Id, depth: int, maximum: int)
    requires |Nearest(edges, focus, depth, maximum)| < Cap(maximum)
    ensures forall v :: v in Nearest(edges, focus, depth, maximum) <==> Within(edges, focus, v, Radius(depth))
  {
    hide Within;
    forall v ensures v in Nearest(edges, focus, depth, maximum) <==> Within(edges, focus, v, Radius(depth)) {
      OrderIsBall(edges, focus, Radius(depth), v);
    }
  }

  /** Asking for fewer gives a prefix. */
  lemma SmallerMaximumIsPrefix(edges: seq<Edge>, focus: Id, depth: int, fewer: int, more: int)
    requires fewer <= more
    ensures Nearest(edges, focus, depth, fewer) <= Nearest(edges, focus, depth, more)
  {
  }

  /** Looking further never reorders or drops what was listed, as long as it was not cut off. */
  lemma GreaterDepthExtends(edges: seq<Edge>, focus: Id, near: int, far: int, maximum: int)
    requires near <= far
    ensures Nearest(edges, focus, near, maximum) <= Nearest(edges, focus, far, maximum)
  {
    OrderExtends(edges, focus, Radius(near), Radius(far));
  }
}
