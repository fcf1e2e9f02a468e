/**
  Invalidation is confluent and respects support: the proofs about
  `Invalidation`, carried out on the set of active edges.
 */
module Confluence {
  import opened Wrappers
  import opened Vocabulary
  import opened Events
  import opened Store
  import opened Derive
  import opened Invalidation
  import opened StandardVocabulary

  // ---- The active edges as a set ----

  /** The schema's UNIQUE (from_id, relation, to_id). */
  ghost predicate UniqueRows(edges: seq<Edge>) {
    forall i, j :: 0 <= i < j < |edges| ==> !edges[j].Is(edges[i].source, edges[i].relation, edges[i].target)
  }

  function TripleOf(e: Edge): Triple {
    Triple(e.source, e.relation, e.target)
  }

  ghost function Active(edges: seq<Edge>): set<Triple> {
    set e | e in edges && e.Active() :: TripleOf(e)
  }

  /** Every operation keeps the uniqueness the schema demands. */
  lemma ApplyKeepsRowsUnique(cfg: Config, env: Envelope, st: State, op: Op)
    requires UniqueRows(st.edges)
    ensures UniqueRows(Apply(cfg, env, st, op).state.edges)
  {
    hide RecordEffect, ConnectionValid, ObjectWellFormed, LowercaseSha256, NextEvent, RetentionState;
    RecordsKeepRows(cfg, env);
  }

  /** `record` touches no table but the log, and accepts only identifiers. */
  lemma RecordsKeepRows(cfg: Config, env: Envelope)
    ensures forall st: State, d: Draft {:trigger RecordEffect(cfg, env, st, d)} ::
              var next := RecordEffect(cfg, env, st, d);
              next.state.objects == st.objects && next.state.edges == st.edges
    ensures forall st: State, d: Draft {:trigger RecordEffect(cfg, env, st, d)} ::
              d.key.None? && RecordEffect(cfg, env, st, d).ok ==> ValidIdentifier(d.subjectId)
  {
    hide Build, Authorized, PayloadValid;
  }

  lemma RetractRemoves(cfg: Config, env: Envelope, st: State, x: Triple, reason: string)
    requires UniqueRows(st.edges)
    requires RetractEffect(cfg, env, st, x.source, x.relation, x.target, reason).ok
    ensures var after := RetractEffect(cfg, env, st, x.source, x.relation, x.target, reason).state;
            && UniqueRows(after.edges)
            && Active(after.edges) == Active(st.edges) - {x}
            && after.objects == st.objects
  {
    hide Acceptable, Build;
    var i := EdgeIndex(st.edges, x.source, x.relation, x.target);
    var after := RetractEffect(cfg, env, st, x.source, x.relation, x.target, reason).state;
    assert TripleOf(st.edges[i]) == x;
    forall y | y in Active(st.edges) - {x} ensures y in Active(after.edges) {
      var k :| 0 <= k < |st.edges| && st.edges[k].Active() && TripleOf(st.edges[k]) == y;
      assert after.edges[k] == st.edges[k] && after.edges[k] in after.edges;
    }
    forall y | y in Active(after.edges) ensures y in Active(st.edges) - {x} {
      var k :| 0 <= k < |after.edges| && after.edges[k].Active() && TripleOf(after.edges[k]) == y;
      assert k != i && after.edges[k] == st.edges[k] && st.edges[k] in st.edges;
    }
  }

  /** An event that is not a lifecycle event leaves every lifecycle alone. */
  lemma LifecycleUntouched(events: seq<Event>, e: Event, id: string)
    requires e.core.subjectId != id || LifecycleEvent(e.core.action).None?
    ensures LifecycleOf(EventsOf(events + [e], id, None)) == LifecycleOf(EventsOf(events, id, None))
  {
    assert (events + [e])[..|events|] == events;
    var before := EventsOf(events, id, None);
    if e.core.subjectId == id {
      assert (before + [e.core])[..|before|] == before;
    } else {
      assert before + [] == before;
    }
  }

  ghost predicate SameLifecycles(s: State, t: State, except: set<string>) {
    forall id :: id !in except ==>
      LifecycleOf(EventsOf(t.events, id, None)) == LifecycleOf(EventsOf(s.events, id, None))
  }

  lemma RecordLifecycles(cfg: Config, env: Envelope, st: State, d: Draft)
    ensures SameLifecycles(st, RecordEffect(cfg, env, st, d).state,
                           if LifecycleEvent(d.action).Some? then {d.subjectId} else {})
    ensures RecordEffect(cfg, env, st, d).state.edges == st.edges
    ensures RecordEffect(cfg, env, st, d).state.objects == st.objects
  {
    hide Acceptable;
    if RecordEffect(cfg, env, st, d).state != st {
      forall id | !(LifecycleEvent(d.action).Some? && id == d.subjectId)
        ensures LifecycleOf(EventsOf(RecordEffect(cfg, env, st, d).state.events, id, None)) ==
                LifecycleOf(EventsOf(st.events, id, None))
      {
        LifecycleUntouched(st.events, NextEvent(cfg, env, st.events, d), id);
      }
    }
  }

  lemma RetractLifecycles(cfg: Config, env: Envelope, st: State, x: Triple, reason: string)
    ensures SameLifecycles(st, RetractEffect(cfg, env, st, x.source, x.relation, x.target, reason).state, {})
  {
    hide LifecycleOf, RecordEffect;
    RecordLifecycles(cfg, env, st, RetractDraft(x.source, reason));
  }

  ghost function Elements(triples: seq<Triple>): set<Triple> {
    set x | x in triples
  }

  lemma {:induction false} RetractAllRemoves(cfg: Config, env: Envelope, st: State, triples: seq<Triple>,
      reason: string)
    requires UniqueRows(st.edges) && RetractAll(cfg, env, st, triples, reason).ok
    ensures var after := RetractAll(cfg, env, st, triples, reason).state;
            && UniqueRows(after.edges)
            && Active(after.edges) == Active(st.edges) - Elements(triples)
            && after.objects == st.objects
            && SameLifecycles(st, after, {})
    decreases |triples|
  {
    hide RetractEffect, Active, LifecycleOf;
    if triples != [] {
      var x := triples[0];
      RetractRemoves(cfg, env, st, x, reason);
      RetractLifecycles(cfg, env, st, x, reason);
      var first := RetractEffect(cfg, env, st, x.source, x.relation, x.target, reason).state;
      RetractAllRemoves(cfg, env, first, triples[1..], reason);
      assert Elements(triples) == {x} + Elements(triples[1..]) by {
        assert triples == [x] + triples[1..];
      }
    }
  }

  lemma {:induction false} RecordAllLifecycles(cfg: Config, env: Envelope, st: State, drafts: seq<Draft>, job: string)
    requires forall d :: d in drafts ==> LifecycleEvent(d.action).Some? ==> d.subjectId == job
    ensures var after := RecordAll(cfg, env, st, drafts).state;
            after.edges == st.edges && after.objects == st.objects && SameLifecycles(st, after, {job})
    decreases |drafts|
  {
    hide RecordEffect, LifecycleOf;
    if drafts != [] {
      assert drafts[0] in drafts;
      RecordLifecycles(cfg, env, st, drafts[0]);
      var first := RecordEffect(cfg, env, st, drafts[0]);
      if first.ok {
        RecordAllLifecycles(cfg, env, first.state, drafts[1..], job);
      }
    }
  }

  // ---- Queries as set membership ----

  lemma {:induction false} SourcesAre(edges: seq<Edge>, r: Relation, target: string, c: string)
    ensures c in SourcesOf(edges, r, target) <==> Triple(c, r, target) in Active(edges)
  {
    if edges != [] {
      var rest, e := edges[..|edges| - 1], edges[|edges| - 1];
      assert edges == rest + [e];
      SourcesAre(rest, r, target, c);
      ActiveSnoc(rest, e);
    }
  }

  lemma ActiveSnoc(rest: seq<Edge>, e: Edge)
    ensures Active(rest + [e]) == Active(rest) + (if e.Active() then {TripleOf(e)} else {})
  {
    var all := rest + [e];
    assert forall x :: x in all <==> x in rest || x == e;
  }

  lemma {:induction false} TargetsAre(edges: seq<Edge>, source: string, r: Relation, t: string)
    ensures t in TargetsOf(edges, source, r) <==> Triple(source, r, t) in Active(edges)
  {
    if edges != [] {
      var rest, e := edges[..|edges| - 1], edges[|edges| - 1];
      assert edges == rest + [e];
      TargetsAre(rest, source, r, t);
      ActiveSnoc(rest, e);
    }
  }

  lemma {:induction false} FormalAre(st: State, ids: seq<string>, c: string)
    ensures c in FormalOnly(st, ids) <==> c in ids && IsFormalClaim(st, c)
  {
    if ids != [] {
      assert ids == ids[..|ids| - 1] + [ids[|ids| - 1]];
      FormalAre(st, ids[..|ids| - 1], c);
    }
  }

  // ---- Support, on the set of active edges ----

  /** Facts about objects that invalidation does not change: which are claims, which are standing checks. */
  datatype World = World(claims: set<string>, standing: set<string>)

  ghost predicate Supports(w: World, a: set<Triple>, claim: string) {
    || (exists t :: Triple(claim, ProducedBy, t) in a && t in w.standing)
    || (exists t :: Triple(claim, IncludedIn, t) in a)
  }

  ghost predicate Provenance(w: World, jobs: set<string>, x: Triple) {
    x.relation == ProducedBy && x.target in jobs && x.source in w.claims
  }

  ghost predicate Touched(w: World, a: set<Triple>, jobs: set<string>, claim: string) {
    claim in w.claims && exists j :: j in jobs && Triple(claim, ProducedBy, j) in a
  }

  predicate Relevance(r: Relation) {
    r == Advances || r == DependsOn
  }

  ghost function WithoutProvenance(w: World, a: set<Triple>, jobs: set<string>): set<Triple> {
    set x | x in a && !Provenance(w, jobs, x)
  }

  /** The edges left when the results of all of `jobs` are withdrawn: no order is mentioned. */
  ghost function Withdrawn(w: World, a: set<Triple>, jobs: set<string>): set<Triple> {
    var kept := WithoutProvenance(w, a, jobs);
    set x | x in kept && !(Relevance(x.relation) && Touched(w, a, jobs, x.source) && !Supports(w, kept, x.source))
  }

  lemma SupportDependsOn(w: World, a: set<Triple>, b: set<Triple>, claim: string)
    requires forall t :: Triple(claim, ProducedBy, t) in a <==> Triple(claim, ProducedBy, t) in b
    requires forall t :: Triple(claim, IncludedIn, t) in a <==> Triple(claim, IncludedIn, t) in b
    ensures Supports(w, a, claim) == Supports(w, b, claim)
  {
  }

  /** Withdrawing one more job from what is left is withdrawing them all at once. */
  lemma WithdrawOneMore(w: World, a: set<Triple>, jobs: set<string>, j: string)
    ensures Withdrawn(w, Withdrawn(w, a, jobs), {j}) == Withdrawn(w, a, jobs + {j})
  {
    var b := Withdrawn(w, a, jobs);
    var keptA, keptB, keptAll := WithoutProvenance(w, a, jobs), WithoutProvenance(w, b, {j}),
        WithoutProvenance(w, a, jobs + {j});
    forall x: Triple ensures x in Withdrawn(w, b, {j}) <==> x in Withdrawn(w, a, jobs + {j}) {
      var c := x.source;
      assert forall t :: Triple(c, ProducedBy, t) in keptB <==> Triple(c, ProducedBy, t) in keptAll;
      assert forall t :: Triple(c, IncludedIn, t) in keptB <==> Triple(c, IncludedIn, t) in keptAll;
      SupportDependsOn(w, keptB, keptAll, c);
      assert Touched(w, b, {j}, c) <==> c in w.claims && j !in jobs && Triple(c, ProducedBy, j) in a;
      if !Touched(w, b, {j}, c) {
        assert forall t :: Triple(c, ProducedBy, t) in keptA <==> Triple(c, ProducedBy, t) in keptAll;
        assert forall t :: Triple(c, IncludedIn, t) in keptA <==> Triple(c, IncludedIn, t) in keptAll;
        SupportDependsOn(w, keptA, keptAll, c);
      }
      assert Supports(w, keptAll, c) ==> Supports(w, keptA, c);
    }
  }

  ghost function WorldOf(st: State): World {
    World(set id | id in st.objects && st.objects[id].kind == FormalClaim,
          set id | id in st.objects && st.objects[id].kind == Check
                   && LifecycleOf(EventsOf(st.events, id, None)) == ActiveObject)
  }

  lemma SupportedIs(st: State, claim: string)
    ensures Supported(st, claim) == Supports(WorldOf(st), Active(st.edges), claim)
  {
    var w, a := WorldOf(st), Active(st.edges);
    if Supports(w, a, claim) {
      if t :| Triple(claim, ProducedBy, t) in a && t in w.standing {
        var e :| e in st.edges && e.Active() && TripleOf(e) == Triple(claim, ProducedBy, t);
        var i :| 0 <= i < |st.edges| && st.edges[i] == e;
        assert ActivelyChecked(st, claim);
      } else {
        var t :| Triple(claim, IncludedIn, t) in a;
        var e :| e in st.edges && e.Active() && TripleOf(e) == Triple(claim, IncludedIn, t);
        var i :| 0 <= i < |st.edges| && st.edges[i] == e;
        assert Promoted(st, claim);
      }
    }
    if Supported(st, claim) {
      if ActivelyChecked(st, claim) {
        var i :| 0 <= i < |st.edges| && st.edges[i].Active() && st.edges[i].source == claim
                 && st.edges[i].relation == ProducedBy
                 && st.edges[i].target in st.objects && st.objects[st.edges[i].target].kind == Check
                 && LifecycleOf(EventsOf(st.events, st.edges[i].target, None)) == ActiveObject;
        assert st.edges[i] in st.edges && TripleOf(st.edges[i]) == Triple(claim, ProducedBy, st.edges[i].target);
      } else {
        var i :| 0 <= i < |st.edges| && st.edges[i].Active() && st.edges[i].source == claim
            && st.edges[i].relation == IncludedIn;
        assert st.edges[i] in st.edges && TripleOf(st.edges[i]) == Triple(claim, IncludedIn, st.edges[i].target);
      }
    }
  }

  // ---- The code computes `Withdrawn` ----

  lemma OutgoingAre(st: State, claim: string, r: Relation, x: Triple)
    ensures x in OutgoingTriples(st, claim, r) <==> x in Active(st.edges) && x.source == claim && x.relation == r
  {
    var targets := TargetsOf(st.edges, claim, r);
    TargetsAre(st.edges, claim, r, x.target);
    var triples := OutgoingTriples(st, claim, r);
    if x in triples {
      var i :| 0 <= i < |triples| && triples[i] == x;
      assert x.target in targets;
    }
    if x in Active(st.edges) && x.source == claim && x.relation == r {
      var i :| 0 <= i < |targets| && targets[i] == x.target;
      assert triples[i] == x;
    }
  }

  lemma PruneClaimRemoves(cfg: Config, env: Envelope, st: State, claim: string, reason: string)
    requires UniqueRows(st.edges) && PruneClaim(cfg, env, st, claim, reason).ok
    ensures var after := PruneClaim(cfg, env, st, claim, reason).state;
            && UniqueRows(after.edges) && after.objects == st.objects && SameLifecycles(st, after, {})
            && (forall x: Triple :: x in Active(after.edges) <==>
                  x in Active(st.edges) && !(x.source == claim && Relevance(x.relation) && !Supported(st, claim)))
  {
    hide RetractAll, LifecycleOf, Active, Supported;
    if !Supported(st, claim) {
      var first := OutgoingTriples(st, claim, Advances);
      var advanced := RetractAll(cfg, env, st, first, reason).state;
      RetractAllRemoves(cfg, env, st, first, reason);
      var second := OutgoingTriples(advanced, claim, DependsOn);
      RetractAllRemoves(cfg, env, advanced, second, reason);
      forall x: Triple
        ensures x in first <==> x in Active(st.edges) && x.source == claim && x.relation == Advances
        ensures x in second <==> x in Active(advanced.edges) && x.source == claim && x.relation == DependsOn
      {
        OutgoingAre(st, claim, Advances, x);
        OutgoingAre(advanced, claim, DependsOn, x);
      }
    }
  }

  lemma SupportStable(s: State, t: State, claim: string)
    requires t.objects == s.objects && SameLifecycles(s, t, {})
    requires forall x: Triple :: !Relevance(x.relation) ==> (x in Active(t.edges) <==> x in Active(s.edges))
    ensures Supported(t, claim) == Supported(s, claim)
  {
    hide LifecycleOf, Active, Supported;
    SupportedIs(s, claim);
    SupportedIs(t, claim);
    assert WorldOf(s) == WorldOf(t);
    SupportDependsOn(WorldOf(s), Active(s.edges), Active(t.edges), claim);
  }

  lemma {:induction false} PruneAllRemoves(cfg: Config, env: Envelope, st: State, claims: seq<string>, reason: string)
    requires UniqueRows(st.edges) && PruneAll(cfg, env, st, claims, reason).ok
    ensures var after := PruneAll(cfg, env, st, claims, reason).state;
            && UniqueRows(after.edges) && after.objects == st.objects && SameLifecycles(st, after, {})
            && (forall x: Triple :: x in Active(after.edges) <==>
                  x in Active(st.edges) && !(x.source in claims && Relevance(x.relation) && !Supported(st, x.source)))
    decreases |claims|
  {
    hide PruneClaim, LifecycleOf, Active, Supported;
    if claims != [] {
      PruneClaimRemoves(cfg, env, st, claims[0], reason);
      var first := PruneClaim(cfg, env, st, claims[0], reason).state;
      PruneAllRemoves(cfg, env, first, claims[1..], reason);
      forall c: string { SupportStable(st, first, c); }
      assert forall c :: c in claims <==> c == claims[0] || c in claims[1..];
    }
  }

  lemma ClaimsAre(st: State, job: string, c: string)
    ensures c in ClaimsOf(st, job) <==> Triple(c, ProducedBy, job) in Active(st.edges) && IsFormalClaim(st, c)
  {
    FormalAre(st, SourcesOf(st.edges, ProducedBy, job), c);
    SourcesAre(st.edges, ProducedBy, job, c);
  }

  /** One invalidation leaves exactly the edges `Withdrawn` allows, and retires no check but its own. */
  lemma InvalidateWithdraws(cfg: Config, st: State, job: string, reason: string)
    requires UniqueRows(st.edges) && InvalidateEffect(cfg, st, job, reason).ok
    ensures var after := InvalidateEffect(cfg, st, job, reason).state;
            && UniqueRows(after.edges) && after.objects == st.objects && SameLifecycles(st, after, {job})
            && Active(after.edges) == Withdrawn(WorldOf(st), Active(st.edges), {job})
  {
    hide RecordAll, RetractAll, PruneAll, LifecycleOf, Active, Supported, ClaimsOf, ProvenanceTriples;
    var env := InvalidationEnvelope(st, job);
    var claims := ClaimsOf(st, job);
    var recorded := RecordAll(cfg, env, st, Drafts(st, job, reason)).state;
    RecordAllLifecycles(cfg, env, st, Drafts(st, job, reason), job);
    var triples := ProvenanceTriples(claims, job);
    var withdrawn := RetractAll(cfg, env, recorded, triples, reason).state;
    RetractAllRemoves(cfg, env, recorded, triples, reason);
    PruneAllRemoves(cfg, env, withdrawn, claims, reason);
    var after := PruneAll(cfg, env, withdrawn, claims, reason).state;
    var w, a := WorldOf(st), Active(st.edges);
    var kept := WithoutProvenance(w, a, {job});
    ProvenanceIs(st, job);
    assert Active(withdrawn.edges) == kept;
    forall c | c in claims ensures Supported(withdrawn, c) == Supports(w, kept, c) {
      SupportedIs(withdrawn, c);
      SupportWithoutJob(w, WorldOf(withdrawn), kept, job, c);
    }
    forall x: Triple ensures x in Active(after.edges) <==> x in Withdrawn(w, a, {job}) {
      assert x.source in claims <==> Touched(w, a, {job}, x.source);
    }
  }

  /** What the invalidation calls the provenance of the check, as a set. */
  lemma ProvenanceIs(st: State, job: string)
    ensures forall c :: c in ClaimsOf(st, job) <==>
              Triple(c, ProducedBy, job) in Active(st.edges) && IsFormalClaim(st, c)
    ensures forall x :: x in ProvenanceTriples(ClaimsOf(st, job), job) <==>
              x in Active(st.edges) && Provenance(WorldOf(st), {job}, x)
  {
    hide ClaimsOf, Active;
    var claims := ClaimsOf(st, job);
    var triples := ProvenanceTriples(claims, job);
    forall c: string { ClaimsAre(st, job, c); }
    forall x: Triple ensures x in triples <==> x in Active(st.edges) && Provenance(WorldOf(st), {job}, x) {
      if x in triples {
        var i :| 0 <= i < |triples| && triples[i] == x;
        assert claims[i] in claims;
      }
      if x in Active(st.edges) && Provenance(WorldOf(st), {job}, x) {
        var i :| 0 <= i < |claims| && claims[i] == x.source;
        assert triples[i] == x;
      }
    }
  }

  /** Retiring a check that no longer produces the claim does not change the claim's support. */
  lemma SupportWithoutJob(w: World, w': World, a: set<Triple>, job: string, claim: string)
    requires w'.standing - {job} == w.standing - {job}
    requires Triple(claim, ProducedBy, job) !in a
    ensures Supports(w', a, claim) == Supports(w, a, claim)
  {
    forall t | Triple(claim, ProducedBy, t) in a ensures t in w.standing <==> t in w'.standing {
      assert t in w.standing - {job} <==> t in w'.standing - {job};
    }
  }

  // ---- Any number of invalidations, in any order ----

  /** A check to invalidate, and why. */
  datatype Withdrawal = Withdrawal(job: string, reason: string)

  function InvalidateAll(cfg: Config, st: State, ws: seq<Withdrawal>): Effect
    decreases |ws|
  {
    if ws == [] then Effect(st, true)
    else
      var earlier, last := InvalidateAll(cfg, st, ws[..|ws| - 1]), ws[|ws| - 1];
      if !earlier.ok then earlier else InvalidateEffect(cfg, earlier.state, last.job, last.reason)
  }

  ghost function Jobs(ws: seq<Withdrawal>): set<string> {
    set w | w in ws :: w.job
  }

  lemma JobsOneMore(ws: seq<Withdrawal>)
    requires ws != []
    ensures Jobs(ws) == Jobs(ws[..|ws| - 1]) + {ws[|ws| - 1].job}
  {
    assert ws == ws[..|ws| - 1] + [ws[|ws| - 1]];
    forall j ensures j in Jobs(ws) <==> j in Jobs(ws[..|ws| - 1]) + {ws[|ws| - 1].job} {
      if j in Jobs(ws) {
        var w :| w in ws && w.job == j;
      }
      if j in Jobs(ws[..|ws| - 1]) {
        var w :| w in ws[..|ws| - 1] && w.job == j;
        assert w in ws;
      }
    }
  }

  /** `Withdrawn` does not care about the standing of checks whose results are already withdrawn. */
  lemma WithdrawnElsewhere(w: World, w': World, a: set<Triple>, gone: set<string>, j: string)
    requires w.claims == w'.claims && w.standing - gone == w'.standing - gone
    requires forall x :: x in a ==> !Provenance(w, gone, x)
    ensures Withdrawn(w, a, {j}) == Withdrawn(w', a, {j})
  {
    var kept := WithoutProvenance(w, a, {j});
    assert kept == WithoutProvenance(w', a, {j});
    forall c | c in w.claims ensures Supports(w, kept, c) == Supports(w', kept, c) {
      forall t | Triple(c, ProducedBy, t) in kept ensures t in w.standing <==> t in w'.standing {
        assert !Provenance(w, gone, Triple(c, ProducedBy, t));
        assert t in w.standing - gone <==> t in w'.standing - gone;
      }
    }
  }

  lemma {:induction false} InvalidateAllWithdraws(cfg: Config, st: State, ws: seq<Withdrawal>)
    requires UniqueRows(st.edges) && InvalidateAll(cfg, st, ws).ok
    ensures var after := InvalidateAll(cfg, st, ws).state;
            && UniqueRows(after.edges) && after.objects == st.objects && SameLifecycles(st, after, Jobs(ws))
            && Active(after.edges) == Withdrawn(WorldOf(st), Active(st.edges), Jobs(ws))
    decreases |ws|
  {
    hide InvalidateEffect, LifecycleOf, Active, Withdrawn;
    var w, a := WorldOf(st), Active(st.edges);
    if ws == [] {
      NothingWithdrawn(w, a);
      assert Jobs(ws) == {};
    } else {
      var before, last := ws[..|ws| - 1], ws[|ws| - 1];
      InvalidateAllWithdraws(cfg, st, before);
      var mid := InvalidateAll(cfg, st, before).state;
      InvalidateWithdraws(cfg, mid, last.job, last.reason);
      var gone := Jobs(before);
      JobsOneMore(ws);
      NoProvenanceLeft(w, a, gone);
      var w' := WorldOf(mid);
      assert w.standing - gone == w'.standing - gone;
      WithdrawnElsewhere(w, w', Active(mid.edges), gone, last.job);
      WithdrawOneMore(w, a, gone, last.job);
    }
  }

  lemma NothingWithdrawn(w: World, a: set<Triple>)
    ensures Withdrawn(w, a, {}) == a
  {
  }

  lemma NoProvenanceLeft(w: World, a: set<Triple>, jobs: set<string>)
    ensures forall x :: x in Withdrawn(w, a, jobs) ==> !Provenance(w, jobs, x)
  {
  }

  /** Confluence: two orders of withdrawing the same checks, for whatever reasons, leave the same active edges. */
  lemma InvalidationIsConfluent(cfg: Config, st: State, ws: seq<Withdrawal>, others: seq<Withdrawal>)
    requires UniqueRows(st.edges) && Jobs(ws) == Jobs(others)
    requires InvalidateAll(cfg, st, ws).ok && InvalidateAll(cfg, st, others).ok
    ensures Active(InvalidateAll(cfg, st, ws).state.edges) == Active(InvalidateAll(cfg, st, others).state.edges)
  {
    InvalidateAllWithdraws(cfg, st, ws);
    InvalidateAllWithdraws(cfg, st, others);
  }

  /**
    A claim one of the withdrawn checks had produced keeps an outgoing
    relevance edge exactly when something still supports it afterwards; all
    other edges stay, save the withdrawn provenance itself.
   */
  lemma RelevanceFollowsSupport(cfg: Config, st: State, ws: seq<Withdrawal>, x: Triple)
    requires UniqueRows(st.edges) && InvalidateAll(cfg, st, ws).ok
    requires x in Active(st.edges)
    ensures var after := InvalidateAll(cfg, st, ws).state;
            x in Active(after.edges) <==>
              if Relevance(x.relation) && IsFormalClaim(st, x.source)
                 && exists j :: j in Jobs(ws) && Triple(x.source, ProducedBy, j) in Active(st.edges)
              then Supported(after, x.source)
              else !(x.relation == ProducedBy && x.target in Jobs(ws) && IsFormalClaim(st, x.source))
  {
    hide InvalidateAll, LifecycleOf, Active, Supported;
    InvalidateAllWithdraws(cfg, st, ws);
    var after := InvalidateAll(cfg, st, ws).state;
    var w, w', a := WorldOf(st), WorldOf(after), Active(st.edges);
    var kept := WithoutProvenance(w, a, Jobs(ws));
    if IsFormalClaim(st, x.source) {
      SupportedIs(after, x.source);
      SupportDependsOn(w', kept, Active(after.edges), x.source);
      assert Supports(w, kept, x.source) == Supports(w', kept, x.source) by {
        forall t | Triple(x.source, ProducedBy, t) in kept ensures t in w.standing <==> t in w'.standing {
          assert !Provenance(w, Jobs(ws), Triple(x.source, ProducedBy, t));
        }
      }
    }
  }

  // ---- Invalidating again ----

  lemma UsedKeyIsNoOp(cfg: Config, env: Envelope, st: State, d: Draft)
    requires d.key.Some? && KeyUsed(st.events, d.key.value)
    ensures RecordEffect(cfg, env, st, d) == Effect(st, true)
  {
  }

  lemma {:induction false} UsedKeysAreNoOps(cfg: Config, env: Envelope, st: State, drafts: seq<Draft>)
    requires forall d :: d in drafts ==> d.key.Some? && KeyUsed(st.events, d.key.value)
    ensures RecordAll(cfg, env, st, drafts) == Effect(st, true)
    decreases |drafts|
  {
    hide RecordEffect, KeyUsed;
    if drafts != [] {
      assert drafts[0] in drafts;
      UsedKeyIsNoOp(cfg, env, st, drafts[0]);
      UsedKeysAreNoOps(cfg, env, st, drafts[1..]);
    }
  }

  /** Events only accumulate, and none of those an invalidation appends needs correcting. */
  ghost predicate Accrues(s: State, t: State) {
    && s.events <= t.events
    && forall id :: Corrected(EventsOf(t.events, id, None)) == Corrected(EventsOf(s.events, id, None))
  }

  lemma CorrectedUntouched(events: seq<Event>, e: Event, id: string)
    requires e.core.action != ElaborationSucceeded && e.core.action != CheckCompleted
    ensures Corrected(EventsOf(events + [e], id, None)) == Corrected(EventsOf(events, id, None))
  {
    assert (events + [e])[..|events|] == events;
    var before := EventsOf(events, id, None);
    if e.core.subjectId == id {
      assert (before + [e.core])[..|before|] == before;
    } else {
      assert before + [] == before;
    }
  }

  lemma RecordAccrues(cfg: Config, env: Envelope, st: State, d: Draft)
    requires d.action != ElaborationSucceeded && d.action != CheckCompleted
    ensures Accrues(st, RecordEffect(cfg, env, st, d).state)
    ensures RecordEffect(cfg, env, st, d).ok && d.key.Some? ==>
            KeyUsed(RecordEffect(cfg, env, st, d).state.events, d.key.value)
  {
    hide Acceptable, Corrected, EventsOf;
    var after := RecordEffect(cfg, env, st, d).state;
    if after != st {
      var e := NextEvent(cfg, env, st.events, d);
      assert e in after.events;
      forall id ensures Corrected(EventsOf(after.events, id, None)) == Corrected(EventsOf(st.events, id, None)) {
        CorrectedUntouched(st.events, e, id);
      }
    }
  }

  lemma KeysPersist(s: State, t: State, key: string)
    requires s.events <= t.events && KeyUsed(s.events, key)
    ensures KeyUsed(t.events, key)
  {
  }

  lemma {:induction false} RecordAllAccrues(cfg: Config, env: Envelope, st: State, drafts: seq<Draft>)
    requires forall d :: d in drafts ==> d.action != ElaborationSucceeded && d.action != CheckCompleted && d.key.Some?
    ensures Accrues(st, RecordAll(cfg, env, st, drafts).state)
    ensures RecordAll(cfg, env, st, drafts).ok ==>
              forall d :: d in drafts ==> KeyUsed(RecordAll(cfg, env, st, drafts).state.events, d.key.value)
    decreases |drafts|
  {
    hide RecordEffect, KeyUsed, Corrected, EventsOf;
    if drafts != [] {
      assert drafts[0] in drafts;
      RecordAccrues(cfg, env, st, drafts[0]);
      var first := RecordEffect(cfg, env, st, drafts[0]);
      if first.ok {
        RecordAllAccrues(cfg, env, first.state, drafts[1..]);
        var last := RecordAll(cfg, env, first.state, drafts[1..]);
        if last.ok {
          KeysPersist(first.state, last.state, drafts[0].key.value);
          forall d | d in drafts ensures KeyUsed(last.state.events, d.key.value) {
            if d != drafts[0] { assert d in drafts[1..]; }
          }
        }
      }
    }
  }

  lemma RetractAccrues(cfg: Config, env: Envelope, st: State, x: Triple, reason: string)
    ensures Accrues(st, RetractEffect(cfg, env, st, x.source, x.relation, x.target, reason).state)
  {
    hide RecordEffect, Corrected;
    RecordAccrues(cfg, env, st, RetractDraft(x.source, reason));
  }

  lemma {:induction false} RetractAllAccrues(cfg: Config, env: Envelope, st: State, triples: seq<Triple>,
      reason: string)
    ensures Accrues(st, RetractAll(cfg, env, st, triples, reason).state)
    decreases |triples|
  {
    hide RetractEffect, Corrected, EventsOf;
    if triples != [] {
      var x := triples[0];
      RetractAccrues(cfg, env, st, x, reason);
      var first := RetractEffect(cfg, env, st, x.source, x.relation, x.target, reason);
      if first.ok { RetractAllAccrues(cfg, env, first.state, triples[1..], reason); }
    }
  }

  lemma {:induction false} PruneAllAccrues(cfg: Config, env: Envelope, st: State, claims: seq<string>, reason: string)
    ensures Accrues(st, PruneAll(cfg, env, st, claims, reason).state)
    decreases |claims|
  {
    hide RetractAll, Corrected, EventsOf, Supported;
    if claims != [] {
      if !Supported(st, claims[0]) {
        RetractAllAccrues(cfg, env, st, OutgoingTriples(st, claims[0], Advances), reason);
        var advanced := RetractAll(cfg, env, st, OutgoingTriples(st, claims[0], Advances), reason).state;
        RetractAllAccrues(cfg, env, advanced, OutgoingTriples(advanced, claims[0], DependsOn), reason);
      }
      var first := PruneClaim(cfg, env, st, claims[0], reason);
      if first.ok { PruneAllAccrues(cfg, env, first.state, claims[1..], reason); }
    }
  }

  lemma InvalidateAccrues(cfg: Config, st: State, job: string, reason: string)
    ensures Accrues(st, InvalidateEffect(cfg, st, job, reason).state)
    ensures InvalidateEffect(cfg, st, job, reason).ok ==>
              forall d :: d in Drafts(st, job, reason) ==>
                d.key.Some? && KeyUsed(InvalidateEffect(cfg, st, job, reason).state.events, d.key.value)
  {
    hide RecordAll, RetractAll, PruneAll, Corrected, EventsOf, KeyUsed;
    var env := InvalidationEnvelope(st, job);
    var claims := ClaimsOf(st, job);
    var drafts := Drafts(st, job, reason);
    RecordAllAccrues(cfg, env, st, drafts);
    var recorded := RecordAll(cfg, env, st, drafts);
    if recorded.ok {
      RetractAllAccrues(cfg, env, recorded.state, ProvenanceTriples(claims, job), reason);
      var withdrawn := RetractAll(cfg, env, recorded.state, ProvenanceTriples(claims, job), reason);
      if withdrawn.ok {
        PruneAllAccrues(cfg, env, withdrawn.state, claims, reason);
      }
      var last := InvalidateEffect(cfg, st, job, reason).state;
      forall d | d in drafts ensures KeyUsed(last.events, d.key.value) {
        KeysPersist(recorded.state, last, d.key.value);
      }
    }
  }

  /** The keys an invalidation of `job` would use in `t` do not depend on its reason. */
  lemma SameDraftKeys(s: State, t: State, job: string, reason: string, reason': string)
    requires Accrues(s, t)
    requires forall d :: d in Drafts(s, job, reason) ==> d.key.Some? && KeyUsed(t.events, d.key.value)
    ensures forall d :: d in Drafts(t, job, reason') ==> d.key.Some? && KeyUsed(t.events, d.key.value)
  {
    hide KeyUsed, Corrected, EventsOf, Decimal;
    var a, b := Drafts(s, job, reason), Drafts(t, job, reason');
    assert |a| == |b|;
    forall d | d in b ensures d.key.Some? && KeyUsed(t.events, d.key.value) {
      var i :| 0 <= i < |b| && b[i] == d;
      assert a[i] in a && a[i].key == b[i].key;
    }
  }

  lemma {:induction false} InvalidateAllAccrues(cfg: Config, st: State, ws: seq<Withdrawal>, job: string,
      reason: string)
    requires InvalidateAll(cfg, st, ws).ok
    ensures Accrues(st, InvalidateAll(cfg, st, ws).state)
    ensures job in Jobs(ws) ==>
              forall d :: d in Drafts(InvalidateAll(cfg, st, ws).state, job, reason) ==>
                d.key.Some? && KeyUsed(InvalidateAll(cfg, st, ws).state.events, d.key.value)
    decreases |ws|
  {
    hide InvalidateEffect, Corrected, EventsOf, KeyUsed, Drafts, Jobs;
    if ws == [] {
      assert Jobs(ws) == {} by { NoJobs(ws); }
    } else {
      var before, last := ws[..|ws| - 1], ws[|ws| - 1];
      InvalidateAllAccrues(cfg, st, before, job, reason);
      JobsOneMore(ws);
      var mid := InvalidateAll(cfg, st, before).state;
      var after := InvalidateEffect(cfg, mid, last.job, last.reason).state;
      InvalidateAccrues(cfg, mid, last.job, last.reason);
      if job == last.job {
        SameDraftKeys(mid, after, job, last.reason, reason);
      } else if job in Jobs(ws) {
        forall d | d in Drafts(mid, job, reason) ensures d.key.Some? && KeyUsed(after.events, d.key.value) {
          KeysPersist(mid, after, d.key.value);
        }
        SameDraftKeys(mid, after, job, reason, reason);
      }
    }
  }

  lemma NoJobs(ws: seq<Withdrawal>)
    requires ws == []
    ensures Jobs(ws) == {}
  {
  }

  lemma EmptyIff(s: seq<string>)
    ensures s == [] <==> forall c :: c !in s
  {
    if s != [] {
      assert s[0] in s;
    }
  }

  /** Invalidating again, at any later point of a series of invalidations and for any reason, changes nothing. */
  lemma InvalidatingAgainIsNoOp(cfg: Config, st: State, ws: seq<Withdrawal>, job: string, reason: string)
    requires UniqueRows(st.edges) && InvalidateAll(cfg, st, ws).ok && job in Jobs(ws)
    ensures var after := InvalidateAll(cfg, st, ws).state;
            InvalidateEffect(cfg, after, job, reason) == Effect(after, true)
  {
    hide RecordAll, LifecycleOf, Active, Withdrawn, InvalidateAll, KeyUsed;
    var after := InvalidateAll(cfg, st, ws).state;
    InvalidateAllWithdraws(cfg, st, ws);
    InvalidateAllAccrues(cfg, st, ws, job, reason);
    UsedKeysAreNoOps(cfg, InvalidationEnvelope(after, job), after, Drafts(after, job, reason));
    NoProvenanceLeft(WorldOf(st), Active(st.edges), Jobs(ws));
    forall c: string ensures c !in ClaimsOf(after, job) {
      ClaimsAre(after, job, c);
      assert Triple(c, ProducedBy, job) in Active(after.edges) && IsFormalClaim(after, c) ==>
             Provenance(WorldOf(st), Jobs(ws), Triple(c, ProducedBy, job));
    }
    EmptyIff(ClaimsOf(after, job));
  }

  // ---- An invalidation always commits ----

  /** Ids that have passed through `record`, and edges the foreign keys allow. */
  ghost predicate Identified(st: State) {
    && (forall id :: id in st.objects ==> ValidIdentifier(id))
    && (forall e :: e in st.edges ==> e.source in st.objects)
  }

  lemma ApplyKeepsIdentified(cfg: Config, env: Envelope, st: State, op: Op)
    requires Identified(st)
    ensures Identified(Apply(cfg, env, st, op).state)
  {
    hide RecordEffect, ConnectionValid, ObjectWellFormed, LowercaseSha256, NextEvent, RetentionState, ValidIdentifier;
    RecordsKeepRows(cfg, env);
  }

  /** The three kinds of event an invalidation records. */
  predicate Withdrawing(d: Draft) {
    && d.evidence.None?
    && match d.action
       case CorrectionRecorded => d.subjectType == ObjectSubject && d.payload.Keys == {"reason", "corrects_event_id"}
       case ObjectRetracted => d.subjectType == ObjectSubject && d.payload.Keys == {"reason"}
       case ConnectionRetracted => d.subjectType == ConnectionSubject && d.payload.Keys == {"reason"}
       case _ => false
  }

  predicate ServiceEnvelope(env: Envelope) {
    env.actorClass == LedgerService && ValidIdentifier(env.actorId)
  }

  /** The ledger service may record what an invalidation records. */
  ghost predicate MayInvalidate(vocab: Vocabulary) {
    forall env: Envelope, d: Draft ::
      (ServiceEnvelope(env) && ValidIdentifier(d.subjectId) && Withdrawing(d)) ==> Acceptable(vocab, env, d)
  }

  lemma StandardMayInvalidate()
    ensures MayInvalidate(Standard())
  {
  }

  lemma {:induction false} RecordAllCommits(cfg: Config, env: Envelope, st: State, drafts: seq<Draft>)
    requires MayInvalidate(cfg.vocab)
    requires ServiceEnvelope(env)
    requires forall d :: d in drafts ==> d.evidence.None? && ValidIdentifier(d.subjectId) && Withdrawing(d)
    ensures RecordAll(cfg, env, st, drafts).ok
    ensures RecordAll(cfg, env, st, drafts).state.edges == st.edges
    decreases |drafts|
  {
    hide Acceptable, Withdrawing;
    if drafts != [] {
      assert drafts[0] in drafts;
      RecordAllCommits(cfg, env, RecordEffect(cfg, env, st, drafts[0]).state, drafts[1..]);
    }
  }

  /** The row exists, retracted or not. */
  ghost predicate HasRow(edges: seq<Edge>, x: Triple) {
    exists e :: e in edges && TripleOf(e) == x
  }

  lemma RetractCommits(cfg: Config, env: Envelope, st: State, x: Triple, reason: string)
    requires MayInvalidate(cfg.vocab) && HasRow(st.edges, x) && ValidIdentifier(x.source)
    requires ServiceEnvelope(env)
    ensures var e := RetractEffect(cfg, env, st, x.source, x.relation, x.target, reason);
            e.ok && forall y :: HasRow(st.edges, y) ==> HasRow(e.state.edges, y)
  {
    hide Acceptable, Build;
    var row :| row in st.edges && TripleOf(row) == x;
    assert row.Is(x.source, x.relation, x.target);
    var i := EdgeIndex(st.edges, x.source, x.relation, x.target);
    assert i < |st.edges|;
    assert Withdrawing(RetractDraft(x.source, reason));
    var after := RetractEffect(cfg, env, st, x.source, x.relation, x.target, reason).state;
    forall y | HasRow(st.edges, y) ensures HasRow(after.edges, y) {
      var k :| 0 <= k < |st.edges| && TripleOf(st.edges[k]) == y;
      assert after.edges[k] in after.edges && TripleOf(after.edges[k]) == y;
    }
  }

  lemma {:induction false} RetractAllCommits(cfg: Config, env: Envelope, st: State, triples: seq<Triple>,
      reason: string)
    requires MayInvalidate(cfg.vocab)
    requires ServiceEnvelope(env)
    requires forall x :: x in triples ==> HasRow(st.edges, x) && ValidIdentifier(x.source)
    ensures var e := RetractAll(cfg, env, st, triples, reason);
            e.ok && forall y :: HasRow(st.edges, y) ==> HasRow(e.state.edges, y)
    decreases |triples|
  {
    hide RetractEffect, HasRow, MayInvalidate;
    if triples != [] {
      var x := triples[0];
      assert x in triples;
      RetractCommits(cfg, env, st, x, reason);
      RetractAllCommits(cfg, env, RetractEffect(cfg, env, st, x.source, x.relation, x.target, reason).state,
          triples[1..], reason);
    }
  }

  lemma OutgoingHaveRows(st: State, claim: string, r: Relation)
    ensures forall x :: x in OutgoingTriples(st, claim, r) ==> HasRow(st.edges, x) && x.source == claim
  {
    forall x | x in OutgoingTriples(st, claim, r) ensures HasRow(st.edges, x) && x.source == claim {
      OutgoingAre(st, claim, r, x);
      var e :| e in st.edges && e.Active() && TripleOf(e) == x;
    }
  }

  lemma {:induction false} PruneAllCommits(cfg: Config, env: Envelope, st: State, claims: seq<string>, reason: string)
    requires MayInvalidate(cfg.vocab)
    requires ServiceEnvelope(env)
    requires forall c :: c in claims ==> ValidIdentifier(c)
    ensures PruneAll(cfg, env, st, claims, reason).ok
    decreases |claims|
  {
    hide RetractAll, HasRow, MayInvalidate, Supported, OutgoingTriples;
    if claims != [] {
      var c := claims[0];
      assert c in claims;
      if !Supported(st, c) {
        OutgoingHaveRows(st, c, Advances);
        RetractAllCommits(cfg, env, st, OutgoingTriples(st, c, Advances), reason);
        var advanced := RetractAll(cfg, env, st, OutgoingTriples(st, c, Advances), reason).state;
        OutgoingHaveRows(advanced, c, DependsOn);
        RetractAllCommits(cfg, env, advanced, OutgoingTriples(advanced, c, DependsOn), reason);
      }
      PruneAllCommits(cfg, env, PruneClaim(cfg, env, st, c, reason).state, claims[1..], reason);
    }
  }

  lemma DraftsAreWithdrawing(st: State, job: string, reason: string)
    requires ValidIdentifier(job)
    ensures forall d :: d in Drafts(st, job, reason) ==>
            d.evidence.None? && ValidIdentifier(d.subjectId) && Withdrawing(d)
  {
    hide Decimal, Corrected, EventsOf;
  }

  lemma ProvenanceHasRows(st: State, job: string, x: Triple)
    requires Identified(st) && x in ProvenanceTriples(ClaimsOf(st, job), job)
    ensures HasRow(st.edges, x) && ValidIdentifier(x.source)
  {
    hide ClaimsOf;
    var claims := ClaimsOf(st, job);
    var triples := ProvenanceTriples(claims, job);
    var i :| 0 <= i < |triples| && triples[i] == x;
    assert claims[i] in claims;
    ClaimsAre(st, job, x.source);
    var e :| e in st.edges && e.Active() && TripleOf(e) == x;
  }

  lemma ToolIdentifier()
    ensures ValidIdentifier(INVALIDATION_TOOL)
  {
    assert forall i :: 0 <= i < |INVALIDATION_TOOL| ==> INVALIDATION_TOOL[i] != '\n' && INVALIDATION_TOOL[i] != '\r';
  }

  lemma InvalidationEnvelopeValid(st: State, job: string)
    ensures ServiceEnvelope(InvalidationEnvelope(st, job))
  {
    hide ScopeOf, ValidIdentifier;
    ToolIdentifier();
  }

  /** Under the standard vocabulary, invalidating a check never raises. */
  lemma InvalidationCommits(cfg: Config, st: State, job: string, reason: string)
    requires cfg.vocab == Standard() && Identified(st) && job in st.objects
    ensures InvalidateEffect(cfg, st, job, reason).ok
  {
    StandardMayInvalidate();
    hide RecordAll, RetractAll, PruneAll, HasRow, MayInvalidate, Standard, ClaimsOf, Drafts, Withdrawing,
        ProvenanceTriples, ScopeOf;
    hide InvalidationEnvelope, ServiceEnvelope;
    InvalidationEnvelopeValid(st, job);
    var env := InvalidationEnvelope(st, job);
    var claims := ClaimsOf(st, job);
    var drafts := Drafts(st, job, reason);
    DraftsAreWithdrawing(st, job, reason);
    RecordAllCommits(cfg, env, st, drafts);
    var recorded := RecordAll(cfg, env, st, drafts).state;
    var triples := ProvenanceTriples(claims, job);
    forall x | x in triples ensures HasRow(recorded.edges, x) && ValidIdentifier(x.source) {
      ProvenanceHasRows(st, job, x);
    }
    RetractAllCommits(cfg, env, recorded, triples, reason);
    forall c | c in claims ensures ValidIdentifier(c) { ClaimsAre(st, job, c); }
    PruneAllCommits(cfg, env, RetractAll(cfg, env, recorded, triples, reason).state, claims, reason);
  }
  // ---- Any number of them commit ----

  /** Objects stay, and every edge starts where an edge started before. */
  ghost predicate NoNewSources(s: State, t: State) {
    t.objects == s.objects && forall e :: e in t.edges ==> exists d :: d in s.edges && d.source == e.source
  }

  lemma IdentifiedStays(s: State, t: State)
    requires Identified(s) && NoNewSources(s, t)
    ensures Identified(t)
  {
  }

  lemma SourcesCompose(s: State, t: State, u: State)
    requires NoNewSources(s, t) && NoNewSources(t, u)
    ensures NoNewSources(s, u)
  {
    forall e | e in u.edges ensures exists d :: d in s.edges && d.source == e.source {
      var d :| d in t.edges && d.source == e.source;
      var c :| c in s.edges && c.source == d.source;
    }
  }

  lemma SameEdgesNoNewSources(s: State, t: State)
    requires t.objects == s.objects && t.edges == s.edges
    ensures NoNewSources(s, t)
  {
  }

  lemma RetractSources(cfg: Config, env: Envelope, st: State, x: Triple, reason: string)
    ensures NoNewSources(st, RetractEffect(cfg, env, st, x.source, x.relation, x.target, reason).state)
  {
    hide RecordEffect;
    RecordLifecycles(cfg, env, st, RetractDraft(x.source, reason));
    var i := EdgeIndex(st.edges, x.source, x.relation, x.target);
    var after := RetractEffect(cfg, env, st, x.source, x.relation, x.target, reason).state;
    forall e | e in after.edges ensures exists d :: d in st.edges && d.source == e.source {
      var k :| 0 <= k < |after.edges| && after.edges[k] == e;
      assert st.edges[k] in st.edges && st.edges[k].source == e.source;
    }
  }

  lemma {:induction false} RetractAllSources(cfg: Config, env: Envelope, st: State, triples: seq<Triple>,
      reason: string)
    ensures NoNewSources(st, RetractAll(cfg, env, st, triples, reason).state)
    decreases |triples|
  {
    hide RetractEffect, NoNewSources;
    if triples == [] {
      SameEdgesNoNewSources(st, st);
    } else {
      var x := triples[0];
      RetractSources(cfg, env, st, x, reason);
      var first := RetractEffect(cfg, env, st, x.source, x.relation, x.target, reason);
      if first.ok {
        RetractAllSources(cfg, env, first.state, triples[1..], reason);
        SourcesCompose(st, first.state, RetractAll(cfg, env, first.state, triples[1..], reason).state);
      }
    }
  }

  lemma PruneClaimSources(cfg: Config, env: Envelope, st: State, claim: string, reason: string)
    ensures NoNewSources(st, PruneClaim(cfg, env, st, claim, reason).state)
  {
    hide RetractAll, NoNewSources, Supported;
    SameEdgesNoNewSources(st, st);
    var advances := OutgoingTriples(st, claim, Advances);
    var advanced := RetractAll(cfg, env, st, advances, reason).state;
    RetractAllSources(cfg, env, st, advances, reason);
    RetractAllSources(cfg, env, advanced, OutgoingTriples(advanced, claim, DependsOn), reason);
    SourcesCompose(st, advanced, RetractAll(cfg, env, advanced, OutgoingTriples(advanced, claim, DependsOn),
        reason).state);
  }

  lemma {:induction false} PruneAllSources(cfg: Config, env: Envelope, st: State, claims: seq<string>, reason: string)
    ensures NoNewSources(st, PruneAll(cfg, env, st, claims, reason).state)
    decreases |claims|
  {
    hide PruneClaim, NoNewSources;
    if claims == [] {
      SameEdgesNoNewSources(st, st);
    } else {
      PruneClaimSources(cfg, env, st, claims[0], reason);
      var first := PruneClaim(cfg, env, st, claims[0], reason);
      if first.ok {
        PruneAllSources(cfg, env, first.state, claims[1..], reason);
        SourcesCompose(st, first.state, PruneAll(cfg, env, first.state, claims[1..], reason).state);
      }
    }
  }

  /** An invalidation brings no object and no new source of an edge. */
  lemma InvalidateSources(cfg: Config, st: State, job: string, reason: string)
    ensures NoNewSources(st, InvalidateEffect(cfg, st, job, reason).state)
  {
    hide RecordAll, RetractAll, PruneAll, NoNewSources, ClaimsOf, Drafts, ProvenanceTriples, ScopeOf;
    var env, claims := InvalidationEnvelope(st, job), ClaimsOf(st, job);
    RecordedSources(cfg, env, st, job, reason);
    var recorded := RecordAll(cfg, env, st, Drafts(st, job, reason));
    if recorded.ok {
      var triples := ProvenanceTriples(claims, job);
      RetractAllSources(cfg, env, recorded.state, triples, reason);
      var withdrawn := RetractAll(cfg, env, recorded.state, triples, reason);
      SourcesCompose(st, recorded.state, withdrawn.state);
      PruneAllSources(cfg, env, withdrawn.state, claims, reason);
      SourcesCompose(st, withdrawn.state, PruneAll(cfg, env, withdrawn.state, claims, reason).state);
    }
  }

  lemma RecordedSources(cfg: Config, env: Envelope, st: State, job: string, reason: string)
    ensures NoNewSources(st, RecordAll(cfg, env, st, Drafts(st, job, reason)).state)
  {
    hide RecordAll, Corrected, EventsOf, Decimal, NoNewSources;
    RecordAllLifecycles(cfg, env, st, Drafts(st, job, reason), job);
    SameEdgesNoNewSources(st, RecordAll(cfg, env, st, Drafts(st, job, reason)).state);
  }

  /** Under the standard vocabulary a series of invalidations never raises either. */
  lemma {:induction false} InvalidateAllCommits(cfg: Config, st: State, ws: seq<Withdrawal>)
    requires cfg.vocab == Standard() && Identified(st) && Jobs(ws) <= st.objects.Keys
    ensures InvalidateAll(cfg, st, ws).ok
    ensures var after := InvalidateAll(cfg, st, ws).state; Identified(after) && after.objects == st.objects
    decreases |ws|
  {
    hide InvalidateEffect, Identified, Standard, Jobs;
    if ws != [] {
      JobsOneMore(ws);
      var before, last := ws[..|ws| - 1], ws[|ws| - 1];
      InvalidateAllCommits(cfg, st, before);
      var mid := InvalidateAll(cfg, st, before).state;
      InvalidationCommits(cfg, mid, last.job, last.reason);
      InvalidateSources(cfg, mid, last.job, last.reason);
      IdentifiedStays(mid, InvalidateEffect(cfg, mid, last.job, last.reason).state);
    }
  }

  /** Under the standard vocabulary confluence needs no hypothesis about what raises. */
  lemma StandardInvalidationIsConfluent(cfg: Config, st: State, ws: seq<Withdrawal>, others: seq<Withdrawal>)
    requires cfg.vocab == Standard() && Identified(st) && UniqueRows(st.edges)
    requires Jobs(ws) == Jobs(others) && Jobs(ws) <= st.objects.Keys
    ensures InvalidateAll(cfg, st, ws).ok && InvalidateAll(cfg, st, others).ok
    ensures Active(InvalidateAll(cfg, st, ws).state.edges) == Active(InvalidateAll(cfg, st, others).state.edges)
  {
    hide InvalidateAll, Identified, Standard, UniqueRows, Jobs, Active;
    InvalidateAllCommits(cfg, st, ws);
    InvalidateAllCommits(cfg, st, others);
    InvalidationIsConfluent(cfg, st, ws, others);
  }
}
