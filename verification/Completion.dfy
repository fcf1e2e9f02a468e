/**
  What a completed check leaves in the ledger, stated on the tables before and
  after: its claims, their provenance, their relevance and their dependencies.
 */
module Completion {
  import opened Wrappers
  import opened Vocabulary
  import opened Events
  import opened Store
  import opened Invalidation
  import opened Queue
  import opened QueueRuns
  import opened Confluence
  import opened Blocks

  // ---- What the result says ----

  /** The name means the claim of its last declaration. */
  ghost predicate Resolves(q: QueueConfig, ds: seq<Declaration>, name: string, claim: string) {
    exists i :: 0 <= i < |ds| && ds[i].name == name && ClaimId(q, ds[i]) == claim
                && forall j :: i < j < |ds| ==> ds[j].name != name
  }

  /** A declaration whose name means `source` lists a name that means `target`. */
  ghost predicate Depends(q: QueueConfig, ds: seq<Declaration>, source: string, target: string) {
    exists i, name :: 0 <= i < |ds| && name in ds[i].dependencies
                      && Resolves(q, ds, ds[i].name, source) && Resolves(q, ds, name, target)
  }

  ghost predicate Declared(q: QueueConfig, ds: seq<Declaration>, claim: string) {
    exists i :: 0 <= i < |ds| && ClaimId(q, ds[i]) == claim
  }

  /** A formal claim targeted by the turn, the epoch or the campaign the check was submitted in. */
  ghost predicate FocusGoal(st: State, job: string, goal: string) {
    && IsFormalClaim(st, goal)
    && var scope := ScopeOf(st.events, job);
       || Targeted(st, scope.turnId, goal) || Targeted(st, scope.epochId, goal) || Targeted(st, scope.campaignId, goal)
  }

  ghost predicate Targeted(st: State, scope: Option<string>, goal: string) {
    scope.Some? && scope.value != "" && Triple(scope.value, Targets, goal) in Active(st.edges)
  }

  function ResultId(q: QueueConfig, op: QueueOp): string
    requires op.Complete?
  {
    ArtifactId(q.sha256(ResultText(q, op)))
  }

  function EnvironmentOf(st: State, job: string): Json
    requires Readable(st, job)
  {
    st.objects[job].properties["environment_identity"]
  }

  function CheckpointOf(st: State, job: string): Json
    requires Readable(st, job)
  {
    st.objects[job].properties["checkpoint_key"]
  }

  predicate Succeeds(op: QueueOp) {
    op.Complete? && op.outcome == "success"
  }

  // ---- What is left behind ----

  /** The edges a completion makes active. */
  ghost predicate NewEdge(q: QueueConfig, st: State, op: QueueOp, x: Triple)
    requires op.Complete?
  {
    match x.relation
    case ProducedBy =>
      x.target == op.job && (x.source == ResultId(q, op) || (Succeeds(op) && Declared(q, op.declarations, x.source)))
    case Advances =>
      && Succeeds(op) && Declared(q, op.declarations, x.source)
      && FocusGoal(st, op.job, x.target) && x.source != x.target
    case DependsOn => Succeeds(op) && Depends(q, op.declarations, x.source, x.target)
    case _ => false
  }

  ghost predicate EdgesCompleted(q: QueueConfig, st: State, t: State, op: QueueOp)
    requires op.Complete?
  {
    forall x: Triple :: x in Active(t.edges) <==> x in Active(st.edges) || NewEdge(q, st, op, x)
  }

  /** The first declaration of its claim. */
  ghost predicate First(q: QueueConfig, ds: seq<Declaration>, i: nat)
    requires i < |ds|
  {
    forall j :: 0 <= j < i ==> ClaimId(q, ds[j]) != ClaimId(q, ds[i])
  }

  /** The row of a new claim: the declaration's own name and proposition, and the job's environment. */
  predicate ClaimRow(q: QueueConfig, environment: Json, o: ObjectRecord, d: Declaration) {
    && o.kind == FormalClaim && o.contentFormat == Lean && o.canonicalName == d.name && o.content == d.proposition
    && o.properties == map["formal_system" := JText("lean4"), "declaration" := JText(d.name),
                           "proposition_sha256" := JText(q.sha256(d.proposition)),
                           "environment_identity" := environment]
  }

  /** Old rows stay; new are the stored result and, on success only, the claims. */
  ghost predicate RowsCompleted(q: QueueConfig, st: State, t: State, op: QueueOp)
    requires op.Complete? && Readable(st, op.job)
  {
    var ds := op.declarations;
    && RowsKept(st, t)
    && (ResultId(q, op) in t.objects && t.objects[ResultId(q, op)].kind == Artifact)
    && (forall id :: id in t.objects ==>
          id in st.objects || id == ResultId(q, op) || (Succeeds(op) && Declared(q, ds, id)))
    && (Succeeds(op) ==> forall i: nat :: i < |ds| && First(q, ds, i) && ClaimId(q, ds[i]) !in st.objects ==>
          && ClaimId(q, ds[i]) in t.objects
          && ClaimRow(q, EnvironmentOf(st, op.job), t.objects[ClaimId(q, ds[i])], ds[i]))
  }

  /** The kernel check of one declaration, on the evidence of the stored result. */
  predicate ScratchChecked(q: QueueConfig, checkpoint: Json, evidence: string, e: EventCore, d: Declaration) {
    && e.action == ScratchKernelChecked && e.subjectId == ClaimId(q, d) && e.evidence == Some(evidence)
    && e.payload == map["declaration" := JText(d.name), "proposition_sha256" := JText(q.sha256(d.proposition)),
                        "checkpoint_key" := checkpoint, "direct_dependencies" := DependencyList(d)]
  }

  ghost predicate SomeChecked(q: QueueConfig, checkpoint: Json, op: QueueOp, e: EventCore)
    requires op.Complete?
  {
    exists k :: 0 <= k < |op.declarations| && ScratchChecked(q, checkpoint, ResultId(q, op), e, op.declarations[k])
  }

  predicate CompletedBy(q: QueueConfig, op: QueueOp, e: EventCore)
    requires op.Complete?
  {
    && e.subjectId == op.job
    && if Succeeds(op) then
         && e.action == CheckCompleted && e.evidence == Some(ResultId(q, op))
         && e.payload == map["outcome" := JText(op.outcome), "exit_code" := JNumber(op.exitCode as real),
                             "phase_timings" := op.timings,
                             "diagnostics_sha256" := JText(q.sha256(op.diagnostics))]
       else
         && e.action == CheckFailed
         && e.payload == map["exit_code" := JNumber(op.exitCode as real), "phase_timings" := op.timings,
                             "diagnostics_sha256" := JText(q.sha256(op.diagnostics))]
  }

  /** The log ends with the terminal event; what it says of claims are the kernel checks of the declarations. */
  ghost predicate LogCompleted(q: QueueConfig, st: State, t: State, op: QueueOp)
    requires op.Complete? && Readable(st, op.job)
  {
    && st.events <= t.events && |st.events| < |t.events|
    && CompletedBy(q, op, t.events[|t.events| - 1].core)
    && (exists i :: |st.events| <= i < |t.events| && t.events[i].core.subjectId == op.job
          && t.events[i].core.action == if Succeeds(op) then ElaborationSucceeded else ElaborationFailed)
    && (forall i :: |st.events| <= i < |t.events| && t.events[i].core.action == ScratchKernelChecked ==>
          Succeeds(op) && SomeChecked(q, CheckpointOf(st, op.job), op, t.events[i].core))
    && (Succeeds(op) ==> forall k :: 0 <= k < |op.declarations| ==>
          KeyUsed(t.events, "scratch-checked:" + op.job + ":" + q.sha256(op.declarations[k].proposition)))
  }

  // ---- Names and goals ----

  lemma {:induction false} ResolvesIs(q: QueueConfig, ds: seq<Declaration>, name: string, claim: string)
    ensures ByDeclaration(q, ds, name) == Some(claim) <==> Resolves(q, ds, name, claim)
  {
    hide ClaimId;
    if ds != [] {
      var n := |ds| - 1;
      var before := ds[..n];
      ResolvesIs(q, before, name, claim);
      if ds[n].name != name {
        if Resolves(q, before, name, claim) {
          var i :| 0 <= i < n && before[i].name == name && ClaimId(q, before[i]) == claim
                   && forall j :: i < j < n ==> before[j].name != name;
          assert ds[i] == before[i] && forall j :: i < j < |ds| ==> ds[j].name != name;
        }
        if Resolves(q, ds, name, claim) {
          var i :| 0 <= i < |ds| && ds[i].name == name && ClaimId(q, ds[i]) == claim
                   && forall j :: i < j < |ds| ==> ds[j].name != name;
          assert before[i] == ds[i];
        }
      }
    }
  }

  lemma {:induction false} DedupKeeps(ids: seq<string>)
    ensures forall id :: id in Dedup(ids) <==> id in ids
  {
    if ids != [] {
      DedupKeeps(ids[..|ids| - 1]);
      assert ids == ids[..|ids| - 1] + [ids[|ids| - 1]];
    }
  }

  lemma ScopeGoalsAre(st: State, scope: Option<string>, goal: string)
    ensures goal in ScopeGoals(st, scope) <==> IsFormalClaim(st, goal) && Targeted(st, scope, goal)
  {
    hide Active;
    if Truthy(scope) {
      FormalAre(st, TargetsOf(st.edges, scope.value, Targets), goal);
      TargetsAre(st.edges, scope.value, Targets, goal);
    }
  }

  lemma FocusGoalsAre(st: State, job: string, goal: string)
    ensures goal in FocusGoals(st, job) <==> FocusGoal(st, job, goal)
  {
    hide ScopeOf, ScopeGoals, Dedup, Targeted, IsFormalClaim;
    var scope := ScopeOf(st.events, job);
    DedupKeeps(ScopeGoals(st, scope.turnId) + ScopeGoals(st, scope.epochId) + ScopeGoals(st, scope.campaignId));
    ScopeGoalsAre(st, scope.turnId, goal);
    ScopeGoalsAre(st, scope.epochId, goal);
    ScopeGoalsAre(st, scope.campaignId, goal);
  }

  // ---- The edges the calls link ----

  lemma {:induction false} AdvancesLinked(claim: string, goals: seq<string>, x: Triple)
    ensures x in LinksOf(AdvanceCalls(claim, goals)) <==>
              x.source == claim && x.relation == Advances && x.target in goals && x.target != claim
  {
    hide LinksOf;
    if goals == [] {
      NoLinks([]);
    } else {
      AdvancesLinked(claim, goals[1..], x);
      assert goals == [goals[0]] + goals[1..];
      var link := Link(claim, Advances, goals[0]);
      LinksOfOne(link);
      NoLinks([]);
      LinksAppend(if claim == goals[0] then [] else [link], AdvanceCalls(claim, goals[1..]));
    }
  }

  /** The provenance and relevance of one claim. */
  predicate ClaimEdge(claim: string, job: string, goals: seq<string>, x: Triple) {
    && x.source == claim
    && ((x.relation == ProducedBy && x.target == job)
        || (x.relation == Advances && x.target in goals && x.target != claim))
  }

  lemma OneClaimLinked(q: QueueConfig, st: State, job: string, goals: seq<string>, stored: string, d: Declaration,
      made: set<string>, x: Triple)
    requires Readable(st, job)
    ensures x in LinksOf(OneClaimCalls(q, st, job, goals, stored, d, made)) <==>
              ClaimEdge(ClaimId(q, d), job, goals, x)
  {
    hide LinksOf, AdvanceCalls, ClaimId, ScratchDraft;
    var claim, properties := ClaimId(q, d), st.objects[job].properties;
    var creation := if claim in st.objects || claim in made then []
        else [Uncaught(ClaimCreation(q, d, properties["environment_identity"]))];
    var link, advances := [Link(claim, ProducedBy, job)], AdvanceCalls(claim, goals);
    var note := [Uncaught(Record(ScratchDraft(q, job, d, properties["checkpoint_key"], stored)))];
    LinksAppend(creation + link + advances, note);
    LinksAppend(creation + link, advances);
    LinksAppend(creation, link);
    NoLinks(creation);
    NoLinks(note);
    LinksOfOne(link[0]);
    AdvancesLinked(claim, goals, x);
  }

  lemma {:induction false} ClaimsLinked(q: QueueConfig, st: State, job: string, goals: seq<string>, stored: string,
      ds: seq<Declaration>, made: set<string>, x: Triple)
    requires Readable(st, job)
    ensures x in LinksOf(ClaimCalls(q, st, job, goals, stored, ds, made)) <==>
              exists i :: 0 <= i < |ds| && ClaimEdge(ClaimId(q, ds[i]), job, goals, x)
    decreases |ds|
  {
    hide LinksOf, OneClaimCalls, ClaimId, ClaimEdge;
    if ds == [] {
      NoLinks([]);
    } else {
      var rest, later := ds[1..], made + {ClaimId(q, ds[0])};
      LinksAppend(OneClaimCalls(q, st, job, goals, stored, ds[0], made),
          ClaimCalls(q, st, job, goals, stored, rest, later));
      OneClaimLinked(q, st, job, goals, stored, ds[0], made, x);
      ClaimsLinked(q, st, job, goals, stored, rest, later, x);
      if i :| 0 <= i < |rest| && ClaimEdge(ClaimId(q, rest[i]), job, goals, x) {
        assert ds[i + 1] == rest[i];
      }
      if i :| 0 <= i < |ds| && ClaimEdge(ClaimId(q, ds[i]), job, goals, x) {
        if i > 0 { assert rest[i - 1] == ds[i]; }
      }
    }
  }

  lemma {:induction false} DependenciesLinked(q: QueueConfig, ds: seq<Declaration>, source: string,
      names: seq<string>, x: Triple)
    ensures x in LinksOf(DependencyCalls(q, ds, source, names)) <==>
              x.source == source && x.relation == DependsOn
              && exists name :: name in names && ByDeclaration(q, ds, name) == Some(x.target)
  {
    hide LinksOf, ByDeclaration;
    NoLinks([]);
    if names != [] {
      assert names == [names[0]] + names[1..];
      DependenciesLinked(q, ds, source, names[1..], x);
      var target := ByDeclaration(q, ds, names[0]);
      var first := if target.Some? then [Link(source, DependsOn, target.value)] else [];
      LinksAppend(first, DependencyCalls(q, ds, source, names[1..]));
      if target.Some? { LinksOfOne(Link(source, DependsOn, target.value)); }
      if name :| name in names && ByDeclaration(q, ds, name) == Some(x.target) {
        assert name == names[0] || name in names[1..];
      }
      if target == Some(x.target) { assert names[0] in names; }
    }
  }

  ghost predicate DependencyEdge(q: QueueConfig, all: seq<Declaration>, d: Declaration, x: Triple) {
    && x.relation == DependsOn && ByDeclaration(q, all, d.name) == Some(x.source)
    && exists name :: name in d.dependencies && ByDeclaration(q, all, name) == Some(x.target)
  }

  lemma {:induction false} AllDependenciesLinked(q: QueueConfig, all: seq<Declaration>, ds: seq<Declaration>,
      x: Triple)
    ensures x in LinksOf(AllDependencyCalls(q, all, ds)) <==>
              exists i :: 0 <= i < |ds| && DependencyEdge(q, all, ds[i], x)
    decreases |ds|
  {
    hide LinksOf, ByDeclaration, DependencyCalls;
    NoLinks([]);
    if ds != [] {
      var rest, source := ds[1..], ByDeclaration(q, all, ds[0].name);
      AllDependenciesLinked(q, all, rest, x);
      var first := if source.Some? then DependencyCalls(q, all, source.value, ds[0].dependencies) else [];
      LinksAppend(first, AllDependencyCalls(q, all, rest));
      if source.Some? { DependenciesLinked(q, all, source.value, ds[0].dependencies, x); }
      assert x in LinksOf(first) <==> DependencyEdge(q, all, ds[0], x);
      hide DependencyEdge;
      if i :| 0 <= i < |rest| && DependencyEdge(q, all, rest[i], x) {
        assert ds[i + 1] == rest[i];
      }
      if i :| 0 <= i < |ds| && DependencyEdge(q, all, ds[i], x) {
        if i > 0 { assert rest[i - 1] == ds[i]; }
      }
    }
  }

  lemma DependsIs(q: QueueConfig, ds: seq<Declaration>, x: Triple)
    ensures (exists i :: 0 <= i < |ds| && DependencyEdge(q, ds, ds[i], x)) <==>
              x.relation == DependsOn && Depends(q, ds, x.source, x.target)
  {
    hide ByDeclaration, Resolves;
    forall name, claim ensures ByDeclaration(q, ds, name) == Some(claim) <==> Resolves(q, ds, name, claim) {
      ResolvesIs(q, ds, name, claim);
    }
  }

  lemma StoreLinksNothing(q: QueueConfig, st: State, text: string, kind: string, media: string, name: string)
    ensures LinksOf(StoreCalls(q, st, text, kind, media, name)) == {}
  {
    NoLinks(StoreCalls(q, st, text, kind, media, name));
  }

  lemma ResultLinked(q: QueueConfig, st: State, op: QueueOp, x: Triple)
    requires op.Complete? && Readable(st, op.job)
    ensures x in LinksOf(ResultCalls(q, st, op)) <==> NewEdge(q, st, op, x)
  {
    hide LinksOf, StoreCalls, ClaimCalls, AllDependencyCalls, FocusGoals, ResultText, ClaimId, FocusGoal, Names,
        Depends;
    var stored, ds, goals := ResultId(q, op), op.declarations, FocusGoals(st, op.job);
    var store := StoreCalls(q, st, ResultText(q, op), "scratch_result", "application/json",
        "Scratch result for " + op.job);
    StoreLinksNothing(q, st, ResultText(q, op), "scratch_result", "application/json", "Scratch result for " + op.job);
    var link := [Link(stored, ProducedBy, op.job)];
    LinksOfOne(link[0]);
    LinksAppend(store, link);
    if Succeeds(op) {
      var note := [Note(ElaborationSucceeded, op.job, map["declarations" := JList(Names(ds))])];
      var claims, deps := ClaimCalls(q, st, op.job, goals, stored, ds, {}), AllDependencyCalls(q, ds, ds);
      NoLinks(note);
      assert ResultCalls(q, st, op) == store + link + (note + claims + deps);
      LinksAppend(store + link, note + claims + deps);
      LinksAppend(note + claims, deps);
      LinksAppend(note, claims);
      ClaimsLinked(q, st, op.job, goals, stored, ds, {}, x);
      AllDependenciesLinked(q, ds, ds, x);
      DependsIs(q, ds, x);
      FocusGoalsAre(st, op.job, x.target);
    } else {
      var note := [Note(ElaborationFailed, op.job, map["diagnostics_sha256" := JText(q.sha256(op.diagnostics))])];
      NoLinks(note);
      assert ResultCalls(q, st, op) == store + link + note;
      LinksAppend(store + link, note);
    }
  }
  // ---- The calls ----

  /** The row or the kernel check of one declaration. */
  predicate ForDeclaration(q: QueueConfig, environment: Json, checkpoint: Json, job: string, stored: string,
                           d: Declaration, c: Call)
  {
    || c == Uncaught(ClaimCreation(q, d, environment))
    || c == Uncaught(Record(ScratchDraft(q, job, d, checkpoint, stored)))
  }

  lemma {:induction false} AdvancesAreLinks(claim: string, goals: seq<string>)
    ensures forall c :: c in AdvanceCalls(claim, goals) ==> !c.caught && c.op.Connect?
  {
    if goals != [] { AdvancesAreLinks(claim, goals[1..]); }
  }

  lemma {:induction false} DependenciesAreLinks(q: QueueConfig, ds: seq<Declaration>, source: string,
      names: seq<string>)
    ensures forall c :: c in DependencyCalls(q, ds, source, names) ==> !c.caught && c.op.Connect?
  {
    hide ByDeclaration;
    if names != [] { DependenciesAreLinks(q, ds, source, names[1..]); }
  }

  lemma {:induction false} AllDependenciesAreLinks(q: QueueConfig, all: seq<Declaration>, ds: seq<Declaration>)
    ensures forall c :: c in AllDependencyCalls(q, all, ds) ==> !c.caught && c.op.Connect?
    decreases |ds|
  {
    hide ByDeclaration, DependencyCalls;
    if ds != [] {
      var source := ByDeclaration(q, all, ds[0].name);
      if source.Some? { DependenciesAreLinks(q, all, source.value, ds[0].dependencies); }
      AllDependenciesAreLinks(q, all, ds[1..]);
    }
  }

  lemma OneClaimCallsAre(q: QueueConfig, st: State, job: string, goals: seq<string>, stored: string, d: Declaration,
      made: set<string>)
    requires Readable(st, job)
    ensures var environment, checkpoint := EnvironmentOf(st, job), CheckpointOf(st, job);
            var calls := OneClaimCalls(q, st, job, goals, stored, d, made);
            && (forall c :: c in calls ==>
                  (!c.caught && c.op.Connect?) || ForDeclaration(q, environment, checkpoint, job, stored, d, c))
            && Uncaught(Record(ScratchDraft(q, job, d, checkpoint, stored))) in calls
            && (Uncaught(ClaimCreation(q, d, environment)) in calls <==>
                  ClaimId(q, d) !in st.objects && ClaimId(q, d) !in made)
  {
    hide ClaimId, ScratchDraft;
    AdvancesAreLinks(ClaimId(q, d), goals);
  }

  /** The claims the declarations before `i` have, and those made before. */
  ghost predicate Made(q: QueueConfig, ds: seq<Declaration>, made: set<string>, i: nat)
    requires i < |ds|
  {
    ClaimId(q, ds[i]) in made || !First(q, ds, i)
  }

  lemma MadeLater(q: QueueConfig, ds: seq<Declaration>, made: set<string>, i: nat)
    requires 0 < i < |ds|
    ensures Made(q, ds[1..], made + {ClaimId(q, ds[0])}, i - 1) <==> Made(q, ds, made, i)
  {
    hide ClaimId;
    var rest := ds[1..];
    assert forall j :: 0 <= j < |rest| ==> rest[j] == ds[j + 1];
    if First(q, rest, i - 1) && ClaimId(q, ds[0]) != ClaimId(q, ds[i]) {
      forall j | 0 <= j < i ensures ClaimId(q, ds[j]) != ClaimId(q, ds[i]) {
        if j > 0 { assert ClaimId(q, rest[j - 1]) != ClaimId(q, rest[i - 1]); }
      }
    }
    if First(q, ds, i) {
      forall j | 0 <= j < i - 1 ensures ClaimId(q, rest[j]) != ClaimId(q, rest[i - 1]) {
        assert ClaimId(q, ds[j + 1]) != ClaimId(q, ds[i]);
      }
    }
  }

  lemma {:induction false} ClaimCallsAre(q: QueueConfig, st: State, job: string, goals: seq<string>, stored: string,
      ds: seq<Declaration>, made: set<string>)
    requires Readable(st, job)
    ensures var environment, checkpoint := EnvironmentOf(st, job), CheckpointOf(st, job);
            var calls := ClaimCalls(q, st, job, goals, stored, ds, made);
            && (forall c :: c in calls ==>
                  || (!c.caught && c.op.Connect?)
                  || exists i :: 0 <= i < |ds| && ForDeclaration(q, environment, checkpoint, job, stored, ds[i], c))
            && (forall i :: 0 <= i < |ds| ==>
                  Uncaught(Record(ScratchDraft(q, job, ds[i], checkpoint, stored))) in calls)
            && (forall i: nat :: i < |ds| && ClaimId(q, ds[i]) !in st.objects && !Made(q, ds, made, i) ==>
                  Uncaught(ClaimCreation(q, ds[i], environment)) in calls)
    decreases |ds|
  {
    hide OneClaimCalls, ClaimId, ForDeclaration, ScratchDraft, ClaimCreation, Made;
    if ds != [] {
      var environment, checkpoint := EnvironmentOf(st, job), CheckpointOf(st, job);
      var rest, later := ds[1..], made + {ClaimId(q, ds[0])};
      OneClaimCallsAre(q, st, job, goals, stored, ds[0], made);
      ClaimCallsAre(q, st, job, goals, stored, rest, later);
      var calls := ClaimCalls(q, st, job, goals, stored, ds, made);
      forall c | c in calls && !(!c.caught && c.op.Connect?)
        ensures exists i :: 0 <= i < |ds| && ForDeclaration(q, environment, checkpoint, job, stored, ds[i], c)
      {
        if c in OneClaimCalls(q, st, job, goals, stored, ds[0], made) {
          assert ForDeclaration(q, environment, checkpoint, job, stored, ds[0], c);
        } else {
          var i :| 0 <= i < |rest| && ForDeclaration(q, environment, checkpoint, job, stored, rest[i], c);
          assert ds[i + 1] == rest[i];
        }
      }
      forall i: nat | i < |ds|
        ensures Uncaught(Record(ScratchDraft(q, job, ds[i], checkpoint, stored))) in calls
        ensures ClaimId(q, ds[i]) !in st.objects && !Made(q, ds, made, i) ==>
                  Uncaught(ClaimCreation(q, ds[i], environment)) in calls
      {
        if i > 0 {
          assert rest[i - 1] == ds[i];
          MadeLater(q, ds, made, i);
        } else {
          NotMade(q, ds, made);
        }
      }
    }
  }

  lemma NotMade(q: QueueConfig, ds: seq<Declaration>, made: set<string>)
    requires ds != []
    ensures Made(q, ds, made, 0) <==> ClaimId(q, ds[0]) in made
  {
  }

  ghost predicate OfDeclarations(q: QueueConfig, st: State, op: QueueOp, c: Call)
    requires op.Complete? && Readable(st, op.job)
  {
    exists i :: 0 <= i < |op.declarations| && ForDeclaration(q, EnvironmentOf(st, op.job), CheckpointOf(st, op.job),
        op.job, ResultId(q, op), op.declarations[i], c)
  }

  /** Every call of a result: a link, the storing of the result, a note about the job, or a declaration's. */
  ghost predicate ResultCall(q: QueueConfig, st: State, op: QueueOp, c: Call)
    requires op.Complete? && Readable(st, op.job)
  {
    || (!c.caught && c.op.Connect?)
    || (!c.caught && c.op.RegisterArtifact? && c.op.sha256 == q.sha256(ResultText(q, op)))
    || (!c.caught && c.op.AddLocation? && c.op.id == ResultId(q, op))
    || (!c.caught && c.op.Record? && c.op.draft.subjectId == op.job && c.op.draft.key.None?
        && c.op.draft.action == if Succeeds(op) then ElaborationSucceeded else ElaborationFailed)
    || (Succeeds(op) && OfDeclarations(q, st, op, c))
  }

  /** The note about the job that says how its elaboration went. */
  predicate ElaborationNote(op: QueueOp, c: Call)
    requires op.Complete?
  {
    && !c.caught && c.op.Record? && c.op.draft.subjectId == op.job && c.op.draft.key.None?
    && c.op.draft.action == if Succeeds(op) then ElaborationSucceeded else ElaborationFailed
  }

  lemma ResultCallsAre(q: QueueConfig, st: State, op: QueueOp)
    requires op.Complete? && Readable(st, op.job)
    ensures forall c :: c in ResultCalls(q, st, op) ==> ResultCall(q, st, op, c)
    ensures exists c :: c in ResultCalls(q, st, op) && ElaborationNote(op, c)
    ensures Uncaught(AddLocation(ResultId(q, op), q.pathFor(q.sha256(ResultText(q, op))))) in ResultCalls(q, st, op)
  {
    hide ClaimCalls, AllDependencyCalls, FocusGoals, ResultText, ClaimId, Names, ForDeclaration, ArtifactId, StoreCalls;
    var stored, ds, goals := ResultId(q, op), op.declarations, FocusGoals(st, op.job);
    StoresResult(q, st, op);
    if Succeeds(op) {
      ClaimCallsAre(q, st, op.job, goals, stored, ds, {});
      AllDependenciesAreLinks(q, ds, ds);
      var note := Note(ElaborationSucceeded, op.job, map["declarations" := JList(Names(ds))]);
      assert note in ResultCalls(q, st, op) && ElaborationNote(op, note);
    } else {
      var note := Note(ElaborationFailed, op.job, map["diagnostics_sha256" := JText(q.sha256(op.diagnostics))]);
      assert note in ResultCalls(q, st, op) && ElaborationNote(op, note);
    }
  }

  lemma StoresResult(q: QueueConfig, st: State, op: QueueOp)
    requires op.Complete? && Readable(st, op.job)
    ensures var calls := StoreCalls(q, st, ResultText(q, op), "scratch_result", "application/json",
                                    "Scratch result for " + op.job);
            && (forall c :: c in calls ==> ResultCall(q, st, op, c))
            && Uncaught(AddLocation(ResultId(q, op), q.pathFor(q.sha256(ResultText(q, op))))) in calls
  {
    hide ResultText, ArtifactId, OfDeclarations;
  }

  lemma DeclarationCalls(q: QueueConfig, st: State, op: QueueOp)
    requires op.Complete? && Readable(st, op.job) && Succeeds(op)
    ensures var calls, ds := ResultCalls(q, st, op), op.declarations;
            && (forall i :: 0 <= i < |ds| ==>
                  Uncaught(Record(ScratchDraft(q, op.job, ds[i], CheckpointOf(st, op.job), ResultId(q, op)))) in calls)
            && (forall i: nat :: i < |ds| && ClaimId(q, ds[i]) !in st.objects && First(q, ds, i) ==>
                  Uncaught(ClaimCreation(q, ds[i], EnvironmentOf(st, op.job))) in calls)
  {
    hide ClaimCalls, AllDependencyCalls, FocusGoals, ResultText, ClaimId, Names, ForDeclaration, ScratchDraft,
        ClaimCreation, ArtifactId, StoreCalls;
    ClaimCallsAre(q, st, op.job, FocusGoals(st, op.job), ResultId(q, op), op.declarations, {});
  }

  // ---- A committed completion ----

  function CompletionEnvelope(st: State, job: string): Envelope {
    ScopedEnvelope(LeanScratchGateway, WORKER_TOOL, ScopeOf(st.events, job))
  }

  lemma CompletionRuns(q: QueueConfig, st: State, op: QueueOp)
    requires op.Complete? && Commits(q, st, op)
    ensures Readable(st, op.job)
    ensures var env, calls := CompletionEnvelope(st, op.job), ResultCalls(q, st, op);
            var last := Uncaught(Record(TerminalDraft(q, op)));
            var before, done := RunCalls(q.ledger, env, st, calls), RunCalls(q.ledger, env, st, calls + [last]);
            && before.ok && done.ok && done.state == Next(q, st, op)
            && done == RecordEffect(q.ledger, env, before.state, TerminalDraft(q, op))
  {
    hide RunCalls, ResultCalls, TerminalDraft, ResultText, JobState, ScopeOf, RecordEffect;
    var env, calls := CompletionEnvelope(st, op.job), ResultCalls(q, st, op);
    var last := Uncaught(Record(TerminalDraft(q, op)));
    CallsAppend(q.ledger, env, st, calls, [last]);
    SingleCall(q.ledger, env, RunCalls(q.ledger, env, st, calls).state, last.op);
  }

  lemma ResultIsPlain(q: QueueConfig, st: State, op: QueueOp)
    requires op.Complete? && Readable(st, op.job)
    ensures Plainly(ResultCalls(q, st, op))
  {
    hide ResultCalls, ResultText, ScratchDraft, ClaimCreation, ArtifactId;
    ResultCallsAre(q, st, op);
    forall c | c in ResultCalls(q, st, op) ensures !c.caught && !c.op.Retract? {
      assert ResultCall(q, st, op, c);
      ClaimCreationsCreate(q);
    }
  }

  lemma ClaimCreationsCreate(q: QueueConfig)
    ensures forall d, environment :: ClaimCreation(q, d, environment).CreateObject?
              && ClaimCreation(q, d, environment).id == ClaimId(q, d)
  {
  }

  /** The edges. */
  lemma CompletionEdges(q: QueueConfig, st: State, op: QueueOp)
    requires op.Complete? && Commits(q, st, op)
    ensures EdgesCompleted(q, st, Next(q, st, op), op)
  {
    hide RunCalls, ResultCalls, TerminalDraft, LinksOf, Active, NewEdge, RecordEffect, Commits, Next, Readable;
    CompletionRuns(q, st, op);
    ResultIsPlain(q, st, op);
    var env, calls := CompletionEnvelope(st, op.job), ResultCalls(q, st, op);
    var before := RunCalls(q.ledger, env, st, calls).state;
    BlockLinks(q.ledger, env, st, calls);
    RecordsKeepRows(q.ledger, env);
    forall x: Triple { ResultLinked(q, st, op, x); }
  }

  /** The rows. */
  lemma CompletionRows(q: QueueConfig, st: State, op: QueueOp)
    requires op.Complete? && Commits(q, st, op)
    ensures Readable(st, op.job) && RowsCompleted(q, st, Next(q, st, op), op)
  {
    hide RunCalls, ResultCalls, TerminalDraft, RecordEffect, Commits, Next, Readable, ResultText, ClaimId, ArtifactId,
        Creates, HasRowFor, ResultCall, First, ClaimCreation, ClaimRow, RowsKept, ScopeOf;
    CompletionRuns(q, st, op);
    ResultIsPlain(q, st, op);
    var env, calls := CompletionEnvelope(st, op.job), ResultCalls(q, st, op);
    var before, after := RunCalls(q.ledger, env, st, calls).state, Next(q, st, op);
    RecordsKeepRows(q.ledger, env);
    assert after.objects == before.objects;
    BlockRows(q.ledger, env, st, calls);
    SameRows(st, before, after);
    ResultCallsAre(q, st, op);
    LocatedIsArtifact(before, ResultId(q, op), q.pathFor(q.sha256(ResultText(q, op))));
    forall id | id in after.objects && id !in st.objects
      ensures id == ResultId(q, op) || (Succeeds(op) && Declared(q, op.declarations, id))
    {
      var c :| c in calls && Creates(c.op, id);
      ResultCreates(q, st, op, c, id);
    }
    if Succeeds(op) { ClaimRows(q, st, op, before); }
  }

  lemma ClaimRows(q: QueueConfig, st: State, op: QueueOp, t: State)
    requires op.Complete? && Readable(st, op.job) && Succeeds(op)
    requires forall c :: c in ResultCalls(q, st, op) ==> HasRowFor(t, c.op)
    ensures forall i: nat :: i < |op.declarations| && First(q, op.declarations, i)
                             && ClaimId(q, op.declarations[i]) !in st.objects ==>
              && ClaimId(q, op.declarations[i]) in t.objects
              && ClaimRow(q, EnvironmentOf(st, op.job), t.objects[ClaimId(q, op.declarations[i])], op.declarations[i])
  {
    hide ResultCalls, HasRowFor, First, ClaimRow, ClaimCreation, ClaimId, Readable;
    DeclarationCalls(q, st, op);
    forall i: nat | i < |op.declarations| && First(q, op.declarations, i)
        && ClaimId(q, op.declarations[i]) !in st.objects
      ensures ClaimId(q, op.declarations[i]) in t.objects
        && ClaimRow(q, EnvironmentOf(st, op.job), t.objects[ClaimId(q, op.declarations[i])], op.declarations[i])
    {
      ClaimHasRow(q, t, op.declarations[i], EnvironmentOf(st, op.job));
    }
  }

  lemma SameRows(s: State, t: State, u: State)
    requires RowsKept(s, t) && u.objects == t.objects
    ensures RowsKept(s, u)
  {
  }

  lemma LocatedIsArtifact(st: State, id: string, location: string)
    requires HasRowFor(st, AddLocation(id, location))
    ensures id in st.objects && st.objects[id].kind == Artifact
  {
  }

  lemma ClaimHasRow(q: QueueConfig, st: State, d: Declaration, environment: Json)
    requires HasRowFor(st, ClaimCreation(q, d, environment))
    ensures ClaimId(q, d) in st.objects && ClaimRow(q, environment, st.objects[ClaimId(q, d)], d)
  {
  }

  lemma ResultCreates(q: QueueConfig, st: State, op: QueueOp, c: Call, id: string)
    requires op.Complete? && Readable(st, op.job) && ResultCall(q, st, op, c) && Creates(c.op, id)
    ensures id == ResultId(q, op) || (Succeeds(op) && Declared(q, op.declarations, id))
  {
    hide ResultText, ScratchDraft, ClaimId;
  }
  /** The log. */
  lemma CompletionLog(q: QueueConfig, st: State, op: QueueOp)
    requires op.Complete? && Commits(q, st, op)
    ensures Readable(st, op.job) && LogCompleted(q, st, Next(q, st, op), op)
  {
    hide RunCalls, ResultCalls, RecordEffect, Commits, Next, Readable, ResultText, ClaimId, ArtifactId, Wrote,
        ResultCall, ElaborationNote, OnRecord, ScopeOf, Says, TerminalDraft, CompletedBy, SomeChecked, KeyUsed;
    CompletionRuns(q, st, op);
    ResultIsPlain(q, st, op);
    var env, calls := CompletionEnvelope(st, op.job), ResultCalls(q, st, op);
    var before, after := RunCalls(q.ledger, env, st, calls).state, Next(q, st, op);
    BlockEvents(q.ledger, env, st, calls);
    TerminalIsUnkeyed(q, op);
    LastRecord(q.ledger, env, before, TerminalDraft(q, op));
    RecordSays(q.ledger, env, before, TerminalDraft(q, op));
    TerminalSays(q, env, op, after.events[|before.events|], q.ledger.clock(after.events[|before.events|].core.id));
    ResultCallsAre(q, st, op);
    var note :| note in calls && ElaborationNote(op, note);
    var at := NotedAt(q.ledger, env, st, before, op, note);
    assert after.events[at] == before.events[at];
    forall i | |st.events| <= i < |after.events| && after.events[i].core.action == ScratchKernelChecked
      ensures Succeeds(op) && SomeChecked(q, CheckpointOf(st, op.job), op, after.events[i].core)
    {
      if i < |before.events| {
        assert WrittenIn(q.ledger, env, calls, before.events[i]);
        var c :| c in calls && Wrote(q.ledger, env, c.op, before.events[i]);
        CheckedByCall(q, st, op, env, c, before.events[i]);
      }
    }
    if Succeeds(op) {
      DeclarationCalls(q, st, op);
      forall k | 0 <= k < |op.declarations|
        ensures KeyUsed(after.events, "scratch-checked:" + op.job + ":" + q.sha256(op.declarations[k].proposition))
      {
        var d := ScratchDraft(q, op.job, op.declarations[k], CheckpointOf(st, op.job), ResultId(q, op));
        KeyOnRecord(q, env, st, before, after, op.declarations[k], d);
      }
    }
  }

  lemma TerminalIsUnkeyed(q: QueueConfig, op: QueueOp)
    requires op.Complete?
    ensures TerminalDraft(q, op).key.None?
  {
  }

  lemma TerminalSays(q: QueueConfig, env: Envelope, op: QueueOp, e: Event, now: string)
    requires op.Complete? && Says(e, env, TerminalDraft(q, op), now)
    ensures CompletedBy(q, op, e.core) && e.core.action != ScratchKernelChecked
  {
    hide ResultText;
  }

  /** Where the note about the elaboration stands. */
  ghost function NotedAt(cfg: Config, env: Envelope, s: State, t: State, op: QueueOp, note: Call): (i: nat)
    requires op.Complete? && ElaborationNote(op, note) && OnRecord(cfg, env, s, t, note.op)
    ensures |s.events| <= i < |t.events| && t.events[i].core.subjectId == op.job
    ensures t.events[i].core.action == if Succeeds(op) then ElaborationSucceeded else ElaborationFailed
  {
    var i :| |s.events| <= i < |t.events| && Says(t.events[i], env, note.op.draft, cfg.clock(t.events[i].core.id));
    i
  }

  lemma CheckedByCall(q: QueueConfig, st: State, op: QueueOp, env: Envelope, c: Call, e: Event)
    requires op.Complete? && Readable(st, op.job) && ResultCall(q, st, op, c) && Wrote(q.ledger, env, c.op, e)
    requires e.core.action == ScratchKernelChecked
    ensures Succeeds(op) && SomeChecked(q, CheckpointOf(st, op.job), op, e.core)
  {
    hide ResultText, ClaimId, ArtifactId, DependencyList;
  }

  lemma KeyOnRecord(q: QueueConfig, env: Envelope, st: State, s: State, t: State, d: Declaration, draft: Draft)
    requires draft.key.Some? && OnRecord(q.ledger, env, st, s, Record(draft)) && s.events <= t.events
    ensures KeyUsed(t.events, draft.key.value)
  {
    var i :| 0 <= i < |s.events| && s.events[i].idempotencyKey == draft.key;
    assert t.events[i] == s.events[i] && t.events[i] in t.events;
  }
}
