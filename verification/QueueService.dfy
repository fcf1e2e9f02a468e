/**
  The queue as an object over a mutable ledger: its loops and transactions,
  each proved to be the corresponding step of `Queue`.
 */
module QueueService {
  import opened Wrappers
  import opened Vocabulary
  import opened Events
  import opened Store
  import opened Derive
  import opened Invalidation
  import opened Queue
  import opened QueueRuns
  import B = Backpressure
  import C = Confluence
  import opened Admission
  import opened Completion
  import opened Corrections
  import K = Blocks
  import S = Sessions

  class DurableCheckQueue {
    const ledger: S.Ledger
    const q: QueueConfig

    constructor (ledger: S.Ledger, q: QueueConfig)
      requires ledger.cfg == q.ledger
      ensures this.ledger == ledger && this.q == q
    {
      this.ledger, this.q := ledger, q;
    }

    ghost predicate Attached()
      reads this
    {
      ledger.cfg == q.ledger
    }

    /** Everything that is one plan and one transaction. */
    method Commit(op: QueueOp) returns (committed: bool)
      requires Attached() && !op.Withdraw? && !op.Complete?
      modifies ledger
      ensures ledger.Tables() == Next(q, old(ledger.Tables()), op)
      ensures committed == Commits(q, old(ledger.Tables()), op)
      ensures !committed ==> ledger.Tables() == old(ledger.Tables())
    {
      var plan := Plan(q, ledger.Tables(), op);
      if plan.None? {
        return false;
      }
      committed := ledger.Write(plan.value.env, plan.value.calls);
    }

    /**
      A new job joins the queue, alone; a known one is reused and no check
      moves; a full queue, or any failure, leaves the tables as they were.
     */
    method Submit(r: Request) returns (committed: bool)
      requires Attached()
      modifies ledger
      ensures ledger.Tables() == Next(q, old(ledger.Tables()), QueueOp.Submit(r))
      ensures committed == Commits(q, old(ledger.Tables()), QueueOp.Submit(r))
      ensures !committed ==> ledger.Tables() == old(ledger.Tables())
      ensures JobId(q, r) !in old(ledger.Tables()).objects && |Pending(old(ledger.Tables()))| >= q.maxPending ==>
              !committed
      ensures committed && JobId(q, r) !in old(ledger.Tables()).objects && QueueInv(old(ledger.Tables())) ==>
                && JobId(q, r) !in Pending(old(ledger.Tables()))
                && Pending(ledger.Tables()) == Pending(old(ledger.Tables())) + {JobId(q, r)}
      ensures JobId(q, r) in old(ledger.Tables()).objects ==> Quiet(old(ledger.Tables()), ledger.Tables())
      ensures committed && JobId(q, r) !in old(ledger.Tables()).objects ==>
                && RowsAdmitted(q, old(ledger.Tables()), ledger.Tables(), r)
                && LogAdmitted(q, old(ledger.Tables()), ledger.Tables(), r)
      ensures committed && JobId(q, r) in old(ledger.Tables()).objects ==>
                Reused(old(ledger.Tables()), ledger.Tables(), JobId(q, r), r.scope)
    {
      hide Pending, JobId, Quiet, QueueInv, AllReadable, Plan, RunCalls, RowsAdmitted, LogAdmitted, Reused;
      ghost var st := ledger.Tables();
      SubmissionFacts(q, st, r);
      AdmissionFacts(q, st, r);
      committed := Commit(QueueOp.Submit(r));
    }

    /** Only a queued job starts, and then it runs and nothing else moves. */
    method Start(job: string, worker: string, delay: real) returns (committed: bool)
      requires Attached()
      modifies ledger
      ensures ledger.Tables() == Next(q, old(ledger.Tables()), QueueOp.Start(job, worker, delay))
      ensures committed == Commits(q, old(ledger.Tables()), QueueOp.Start(job, worker, delay))
      ensures !committed ==> ledger.Tables() == old(ledger.Tables())
      ensures committed ==>
                && Readable(old(ledger.Tables()), job) && JobState(old(ledger.Tables()), job) == Queued
                && MovedOnly(old(ledger.Tables()), ledger.Tables(), job, CheckStarted, Running)
                && Tells(old(ledger.Tables()), ledger.Tables(), LeanScratchGateway, job, CheckStarted,
                         map["worker_id" := JText(worker), "queue_delay_seconds" := JNumber(delay)])
    {
      hide Plan, RunCalls, MovedOnly, JobState, Tells;
      StartFacts(q, ledger.Tables(), job, worker, delay);
      committed := Commit(QueueOp.Start(job, worker, delay));
    }

    /** The declarations become claims, and the names they declare a map, in one pass. */
    method CollectClaims(job: string, goals: seq<string>, stored: string, ds: seq<Declaration>)
      returns (calls: seq<Call>, byDeclaration: map<string, string>)
      requires Readable(ledger.Tables(), job)
      ensures calls == ClaimCalls(q, ledger.Tables(), job, goals, stored, ds, {})
      ensures forall n :: ByDeclaration(q, ds, n) == if n in byDeclaration then Some(byDeclaration[n]) else None
    {
      hide ClaimCalls, OneClaimCalls, ClaimId, ByDeclaration;
      calls, byDeclaration := [], map[];
      var made: set<string> := {};
      var st := ledger.Tables();
      assert ds[0..] == ds;
      NothingDeclared(q, ds[..0]);
      for i := 0 to |ds|
        invariant calls + ClaimCalls(q, st, job, goals, stored, ds[i..], made) ==
                ClaimCalls(q, st, job, goals, stored, ds, {})
        invariant forall n :: ByDeclaration(q, ds[..i], n) == if n in byDeclaration then Some(byDeclaration[n])
                else None
      {
        ClaimCallsStep(q, st, job, goals, stored, ds, i, made);
        ByDeclarationStep(q, ds, i);
        calls := calls + OneClaimCalls(q, st, job, goals, stored, ds[i], made);
        made := made + {ClaimId(q, ds[i])};
        byDeclaration := byDeclaration[ds[i].name := ClaimId(q, ds[i])];
      }
      NoMoreClaims(q, st, job, goals, stored, ds[|ds|..], made);
      assert ds[..|ds|] == ds;
    }

    method CollectDependencies(byDeclaration: map<string, string>, all: seq<Declaration>) returns (calls: seq<Call>)
      requires forall n :: ByDeclaration(q, all, n) == if n in byDeclaration then Some(byDeclaration[n]) else None
      ensures calls == AllDependencyCalls(q, all, all)
    {
      hide ByDeclaration, DependencyCalls;
      calls := [];
      for i := 0 to |all|
        invariant calls + AllDependencyCalls(q, all, all[i..]) == AllDependencyCalls(q, all, all)
      {
        var d := all[i];
        assert all[i..][0] == d && all[i..][1..] == all[i + 1..];
        if d.name in byDeclaration {
          var links := CollectLinks(byDeclaration, all, byDeclaration[d.name], d.dependencies);
          calls := calls + links;
        }
      }
    }

    method CollectLinks(byDeclaration: map<string, string>, all: seq<Declaration>, source: string, names: seq<string>)
      returns (links: seq<Call>)
      requires forall n :: ByDeclaration(q, all, n) == if n in byDeclaration then Some(byDeclaration[n]) else None
      ensures links == DependencyCalls(q, all, source, names)
    {
      hide ByDeclaration;
      links := [];
      for j := 0 to |names|
        invariant links + DependencyCalls(q, all, source, names[j..]) == DependencyCalls(q, all, source, names)
      {
        assert names[j..][0] == names[j] && names[j..][1..] == names[j + 1..];
        if names[j] in byDeclaration {
          links := links + [Link(source, DependsOn, byDeclaration[names[j]])];
        }
      }
    }

    /**
      A completion of a running check leaves its result, its claims and their
      edges, and an event that ends the check; or it leaves no trace.
     */
    method Complete(op: QueueOp) returns (committed: bool)
      requires Attached() && op.Complete?
      modifies ledger
      ensures ledger.Tables() == Next(q, old(ledger.Tables()), op)
      ensures committed == Commits(q, old(ledger.Tables()), op)
      ensures !committed ==> ledger.Tables() == old(ledger.Tables())
      ensures committed ==>
                && Readable(old(ledger.Tables()), op.job) && JobState(old(ledger.Tables()), op.job) == Running
                && EdgesCompleted(q, old(ledger.Tables()), ledger.Tables(), op)
                && RowsCompleted(q, old(ledger.Tables()), ledger.Tables(), op)
                && LogCompleted(q, old(ledger.Tables()), ledger.Tables(), op)
    {
      hide RunCalls, ClaimCalls, AllDependencyCalls, TerminalDraft, ResultText, FocusGoals, StoreCalls, EdgesCompleted,
          RowsCompleted, LogCompleted;
      var st := ledger.Tables();
      CompletionFacts(q, st, op);
      var job := op.job;
      if !Readable(st, job) || JobState(st, job) != Running {
        return false;
      }
      var text := ResultText(q, op);
      if !ArtifactCompatible(st, q.sha256(text), |text|) {
        return false;
      }
      var stored := ArtifactId(q.sha256(text));
      var calls := StoreCalls(q, st, text, "scratch_result", "application/json", "Scratch result for " + job)
                   + [Link(stored, ProducedBy, job)];
      if op.outcome == "success" {
        var claims, byDeclaration := CollectClaims(job, FocusGoals(st, job), stored, op.declarations);
        var links := CollectDependencies(byDeclaration, op.declarations);
        calls := calls + ([Note(ElaborationSucceeded, job,
            map["declarations" := JList(Names(op.declarations))])] + claims + links);
      } else {
        calls := calls + [Note(ElaborationFailed, job, map["diagnostics_sha256" := JText(q.sha256(op.diagnostics))])];
      }
      assert calls == ResultCalls(q, st, op);
      var env := ScopedEnvelope(LeanScratchGateway, WORKER_TOOL, ScopeOf(st.events, job));
      committed := ledger.Write(env, calls + [Uncaught(Record(TerminalDraft(q, op)))]);
    }

    /** `cancel`: the job is abandoned, and nothing else moves. */
    method Cancel(job: string, reason: string) returns (committed: bool)
      requires Attached()
      modifies ledger
      ensures ledger.Tables() == Next(q, old(ledger.Tables()), QueueOp.Cancel(job, reason))
      ensures committed == Commits(q, old(ledger.Tables()), QueueOp.Cancel(job, reason))
      ensures committed ==>
                && MovedOnly(old(ledger.Tables()), ledger.Tables(), job, CheckCancelled, Interrupted)
                && Tells(old(ledger.Tables()), ledger.Tables(), LedgerService, job, CheckCancelled,
                         map["reason" := JText(reason)])
      ensures !committed ==> ledger.Tables() == old(ledger.Tables())
    {
      hide Plan, RunCalls, MovedOnly, Tells;
      MarkFacts(q, ledger.Tables(), QueueOp.Cancel(job, reason));
      committed := Commit(QueueOp.Cancel(job, reason));
    }

    method TimeOut(job: string, budget: real) returns (committed: bool)
      requires Attached()
      modifies ledger
      ensures ledger.Tables() == Next(q, old(ledger.Tables()), QueueOp.TimeOut(job, budget))
      ensures committed == Commits(q, old(ledger.Tables()), QueueOp.TimeOut(job, budget))
      ensures committed ==>
                && MovedOnly(old(ledger.Tables()), ledger.Tables(), job, CheckTimedOut, TimedOut)
                && Tells(old(ledger.Tables()), ledger.Tables(), LeanScratchGateway, job, CheckTimedOut,
                         map["budget_seconds" := JNumber(budget)])
      ensures !committed ==> ledger.Tables() == old(ledger.Tables())
    {
      hide Plan, RunCalls, MovedOnly, Tells;
      MarkFacts(q, ledger.Tables(), QueueOp.TimeOut(job, budget));
      committed := Commit(QueueOp.TimeOut(job, budget));
    }

    method Interrupt(job: string, detectedBy: string) returns (committed: bool)
      requires Attached()
      modifies ledger
      ensures ledger.Tables() == Next(q, old(ledger.Tables()), QueueOp.Interrupt(job, detectedBy))
      ensures committed == Commits(q, old(ledger.Tables()), QueueOp.Interrupt(job, detectedBy))
      ensures committed ==>
                && MovedOnly(old(ledger.Tables()), ledger.Tables(), job, CheckInterrupted, Interrupted)
                && Tells(old(ledger.Tables()), ledger.Tables(), LedgerService, job, CheckInterrupted,
                         map["detected_by" := JText(detectedBy)])
      ensures !committed ==> ledger.Tables() == old(ledger.Tables())
    {
      hide Plan, RunCalls, MovedOnly, Tells;
      MarkFacts(q, ledger.Tables(), QueueOp.Interrupt(job, detectedBy));
      committed := Commit(QueueOp.Interrupt(job, detectedBy));
    }

    /** `supersede`: refused unless the newer job is a check too. */
    method Supersede(job: string, newer: string) returns (committed: bool)
      requires Attached()
      modifies ledger
      ensures ledger.Tables() == Next(q, old(ledger.Tables()), QueueOp.Supersede(job, newer))
      ensures committed == Commits(q, old(ledger.Tables()), QueueOp.Supersede(job, newer))
      ensures committed ==>
                && Readable(old(ledger.Tables()), newer)
                && MovedOnly(old(ledger.Tables()), ledger.Tables(), job, CheckSuperseded, Interrupted)
                && Tells(old(ledger.Tables()), ledger.Tables(), LedgerService, job, CheckSuperseded,
                         map["superseded_by" := JText(newer)])
      ensures !committed ==> ledger.Tables() == old(ledger.Tables())
    {
      hide Plan, RunCalls, MovedOnly, Tells;
      MarkFacts(q, ledger.Tables(), QueueOp.Supersede(job, newer));
      committed := Commit(QueueOp.Supersede(job, newer));
    }

    method RecordEach(session: S.WriteSession, drafts: seq<Draft>) returns (ok: bool)
      requires session.ledger == ledger && session.Valid()
      modifies session, ledger
      ensures session.Valid()
      ensures var e := RecordAll(ledger.cfg, session.envelope, old(ledger.Tables()), drafts);
              ledger.Tables() == e.state && ok == e.ok
    {
      ghost var whole := RecordAll(ledger.cfg, session.envelope, ledger.Tables(), drafts);
      for i := 0 to |drafts|
        invariant session.Valid()
        invariant whole == RecordAll(ledger.cfg, session.envelope, ledger.Tables(), drafts[i..])
      {
        hide RecordEffect;
        assert drafts[i..][0] == drafts[i] && drafts[i..][1..] == drafts[i + 1..];
        var r := session.Record(drafts[i]);
        if r.Err? {
          return false;
        }
      }
      return true;
    }

    method RetractEach(session: S.WriteSession, triples: seq<Triple>, reason: string) returns (ok: bool)
      requires session.ledger == ledger && session.Valid()
      modifies session, ledger
      ensures session.Valid()
      ensures var e := RetractAll(ledger.cfg, session.envelope, old(ledger.Tables()), triples, reason);
              ledger.Tables() == e.state && ok == e.ok
    {
      ghost var whole := RetractAll(ledger.cfg, session.envelope, ledger.Tables(), triples, reason);
      for i := 0 to |triples|
        invariant session.Valid()
        invariant whole == RetractAll(ledger.cfg, session.envelope, ledger.Tables(), triples[i..], reason)
      {
        hide RetractEffect;
        assert triples[i..][0] == triples[i] && triples[i..][1..] == triples[i + 1..];
        var r := session.Retract(triples[i].source, triples[i].relation, triples[i].target, reason);
        if r.Err? {
          return false;
        }
      }
      return true;
    }

    method PruneEach(session: S.WriteSession, claims: seq<string>, reason: string) returns (ok: bool)
      requires session.ledger == ledger && session.Valid()
      modifies session, ledger
      ensures session.Valid()
      ensures var e := PruneAll(ledger.cfg, session.envelope, old(ledger.Tables()), claims, reason);
              ledger.Tables() == e.state && ok == e.ok
    {
      ghost var whole := PruneAll(ledger.cfg, session.envelope, ledger.Tables(), claims, reason);
      for i := 0 to |claims|
        invariant session.Valid()
        invariant whole == PruneAll(ledger.cfg, session.envelope, ledger.Tables(), claims[i..], reason)
      {
        hide RetractAll, Supported, OutgoingTriples;
        assert claims[i..][0] == claims[i] && claims[i..][1..] == claims[i + 1..];
        if !Supported(ledger.Tables(), claims[i]) {
          ok := RetractEach(session, OutgoingTriples(ledger.Tables(), claims[i], Advances), reason);
          if !ok {
            return;
          }
          ok := RetractEach(session, OutgoingTriples(ledger.Tables(), claims[i], DependsOn), reason);
          if !ok {
            return;
          }
        }
      }
      return true;
    }

    /** `invalidate`: one transaction that corrects, withdraws and prunes, or nothing at all. */
    method Invalidate(job: string, reason: string) returns (committed: bool)
      requires Attached()
      modifies ledger
      ensures ledger.Tables() == Next(q, old(ledger.Tables()), Withdraw(job, reason))
      ensures committed == Commits(q, old(ledger.Tables()), Withdraw(job, reason))
      ensures !committed ==> ledger.Tables() == old(ledger.Tables())
      ensures committed && C.UniqueRows(old(ledger.edges)) ==>
                C.Active(ledger.edges) == C.Withdrawn(C.WorldOf(old(ledger.Tables())), C.Active(old(ledger.edges)),
                    {job})
      ensures committed ==> CorrectsLog(old(ledger.events), ledger.events, job, reason)
    {
      hide RecordAll, RetractAll, PruneAll, ClaimsOf, Drafts, ProvenanceTriples, C.UniqueRows, C.Active, C.Withdrawn,
          C.WorldOf, Next, Commits, Readable, ScopeOf, CorrectsLog;
      var snapshot := ledger.Tables();
      WithdrawalFacts(q, snapshot, job, reason);
      if !Readable(snapshot, job) {
        return false;
      }
      var claims := ClaimsOf(snapshot, job);
      var session := new S.WriteSession(ledger, InvalidationEnvelope(snapshot, job));
      var ok := RecordEach(session, Drafts(snapshot, job, reason));
      if ok {
        ok := RetractEach(session, ProvenanceTriples(claims, job), reason);
      }
      if ok {
        ok := PruneEach(session, claims, reason);
      }
      if !ok {
        // ROLLBACK
        ledger.events, ledger.objects, ledger.aliases := snapshot.events, snapshot.objects, snapshot.aliases;
        ledger.edges, ledger.locations := snapshot.edges, snapshot.locations;
      }
      return ok;
    }

    /**
      Startup reconciliation: afterwards no check of the checkpoint is running,
      every one that was has become interrupted, and no other check moved.
     */
    method Reconcile(checkpoint: Option<string>) returns (interrupted: set<string>, ok: bool)
      requires Attached()
      modifies ledger
      ensures ok ==> forall id :: id in interrupted <==> Orphaned(old(ledger.Tables()), id, checkpoint)
      ensures Progress(old(ledger.Tables()), ledger.Tables(), interrupted)
      ensures forall id :: id in interrupted ==> Recovered(old(ledger.events), ledger.events, id)
    {
      hide JobState, Progress, Orphaned, Plan, Transact, Recovered;
      ghost var before := ledger.Tables();
      ProgressStarts(before);
      var todo := set id | id in ledger.objects && ledger.objects[id].kind == Check;
      ghost var all := todo;
      OrphansAreChecks(before, checkpoint);
      interrupted := {};
      while todo != {}
        invariant todo <= all
        invariant Progress(before, ledger.Tables(), interrupted)
        invariant before.events <= ledger.events
        invariant forall id :: id in interrupted ==> Recovered(before.events, ledger.events, id)
        invariant forall id :: id in interrupted <==> id in all && id !in todo && Orphaned(before, id, checkpoint)
        decreases todo
      {
        var id :| id in todo;
        ghost var st := ledger.Tables();
        ProgressSoFar(before, st, interrupted, id, checkpoint);
        if Orphaned(ledger.Tables(), id, checkpoint) {
          OrphanPlan(q, st, id, checkpoint);
          var plan := Plan(q, ledger.Tables(), QueueOp.Reconcile(id));
          ok := ledger.Write(plan.value.env, plan.value.calls);
          if !ok {
            FailedTransaction(q, st, plan.value);
            return;
          }
          ReconcileMoves(q, st, id);
          ReconcileRecords(q, st, id);
          RecoveriesStay(before.events, st.events, ledger.events, interrupted, id);
          ProgressStep(before, st, ledger.Tables(), interrupted, id);
          interrupted := interrupted + {id};
        }
        todo := todo - {id};
      }
      ok := true;
    }
  }

  /** A committed plan of one unkeyed record moves its subject and nothing else. */
  lemma RecordedOnly(q: QueueConfig, st: State, op: QueueOp, env: Envelope, d: Draft)
    requires !op.Withdraw? && Plan(q, st, op) == Some(Session(env, [Uncaught(Record(d))])) && Commits(q, st, op)
    requires d.key.None? && ActionState(d.action).Some?
    ensures MovedOnly(st, Next(q, st, op), d.subjectId, d.action, ActionState(d.action).value)
    ensures OneEvent(q, st, Next(q, st, op), env, d)
  {
    hide Plan, RecordEffect, MovedOnly, OneEvent;
    SingleCall(q.ledger, env, st, Record(d));
    RecordMoves(q.ledger, env, st, d);
    RecordIsOneEvent(q, st, env, d);
  }

  ghost predicate OneEvent(q: QueueConfig, s: State, t: State, env: Envelope, d: Draft) {
    && t == s.(events := t.events) && s.events <= t.events && |t.events| == |s.events| + 1
    && Says(t.events[|s.events|], env, d, q.ledger.clock(NextId(s.events)))
  }

  lemma RecordIsOneEvent(q: QueueConfig, st: State, env: Envelope, d: Draft)
    requires d.key.None? && RecordEffect(q.ledger, env, st, d).ok
    ensures OneEvent(q, st, RecordEffect(q.ledger, env, st, d).state, env, d)
  {
    K.RecordSays(q.ledger, env, st, d);
    hide Acceptable;
  }

  /** One event about the job and nothing else, in the scope the job was submitted in. */
  ghost predicate Tells(s: State, t: State, actor: Actor, job: string, action: Action, payload: Properties) {
    && t == s.(events := t.events) && s.events <= t.events && |t.events| == |s.events| + 1
    && var e := t.events[|s.events|].core;
       && e.actorClass == actor && e.subjectId == job && e.action == action && e.payload == payload
       && InScope(e, ScopeOf(s.events, job))
  }

  lemma OneEventTells(q: QueueConfig, s: State, t: State, actor: Actor, tool: string, d: Draft)
    requires OneEvent(q, s, t, ScopedEnvelope(actor, tool, ScopeOf(s.events, d.subjectId)), d)
    ensures Tells(s, t, actor, d.subjectId, d.action, d.payload)
  {
    hide ScopeOf;
  }

  /** At most one event, which names the job, in the scope that reuses it. */
  ghost predicate Reused(s: State, t: State, job: string, scope: Scope) {
    && t == s.(events := t.events) && s.events <= t.events && |t.events| <= |s.events| + 1
    && (|t.events| > |s.events| ==>
          var e := t.events[|s.events|].core;
          && e.action == CheckReused && e.subjectId == job && InScope(e, scope)
          && e.payload == map["original_submission_scope" := ScopeJson(ScopeOf(s.events, job))])
  }

  lemma AdmissionFacts(q: QueueConfig, st: State, r: Request)
    ensures var t := Next(q, st, QueueOp.Submit(r));
            Commits(q, st, QueueOp.Submit(r)) ==>
              if JobId(q, r) in st.objects then Reused(st, t, JobId(q, r), r.scope)
              else RowsAdmitted(q, st, t, r) && LogAdmitted(q, st, t, r)
  {
    hide RowsAdmitted, LogAdmitted, Next, Commits, JobId;
    if Commits(q, st, QueueOp.Submit(r)) {
      if JobId(q, r) in st.objects {
        ReuseFacts(q, st, r);
      } else {
        AdmissionRows(q, st, r);
        AdmissionLog(q, st, r);
      }
    }
  }

  lemma ReuseFacts(q: QueueConfig, st: State, r: Request)
    requires Commits(q, st, QueueOp.Submit(r)) && JobId(q, r) in st.objects
    ensures Reused(st, Next(q, st, QueueOp.Submit(r)), JobId(q, r), r.scope)
  {
    hide RunCalls, JobId, RecordEffect, Pending, AllReadable, ScopeOf, FirstTruthy;
    var env, job := ScopedEnvelope(LeanScratchGateway, QUEUE_TOOL, r.scope), JobId(q, r);
    var d := ReuseDraft(st, job, FirstTruthy(r.scope).value);
    SingleCall(q.ledger, env, st, Record(d));
    K.RecordSays(q.ledger, env, st, d);
    OnlyEvents(q.ledger, env, st, d);
  }

  lemma OnlyEvents(cfg: Config, env: Envelope, st: State, d: Draft)
    ensures var t := RecordEffect(cfg, env, st, d).state; t == st.(events := t.events)
  {
    hide Acceptable, NextEvent;
  }

  lemma CompletionFacts(q: QueueConfig, st: State, op: QueueOp)
    requires op.Complete?
    ensures Commits(q, st, op) ==>
              && Readable(st, op.job) && JobState(st, op.job) == Running
              && EdgesCompleted(q, st, Next(q, st, op), op) && RowsCompleted(q, st, Next(q, st, op), op)
              && LogCompleted(q, st, Next(q, st, op), op)
    ensures !Commits(q, st, op) ==> Next(q, st, op) == st
  {
    hide EdgesCompleted, RowsCompleted, LogCompleted, RunCalls, ResultCalls, TerminalDraft, JobState, ResultText,
        ScopeOf, ArtifactCompatible;
    if Commits(q, st, op) {
      CompletionEdges(q, st, op);
      CompletionRows(q, st, op);
      CompletionLog(q, st, op);
    }
  }

  lemma StartFacts(q: QueueConfig, st: State, job: string, worker: string, delay: real)
    ensures var op := QueueOp.Start(job, worker, delay);
            Commits(q, st, op) ==>
              Readable(st, job) && JobState(st, job) == Queued
                  && MovedOnly(st, Next(q, st, op), job, CheckStarted, Running)
                  && Tells(st, Next(q, st, op), LeanScratchGateway, job, CheckStarted,
                           map["worker_id" := JText(worker), "queue_delay_seconds" := JNumber(delay)])
  {
    hide RunCalls, MovedOnly, JobState, ScopeOf, Tells, OneEvent;
    var op := QueueOp.Start(job, worker, delay);
    if Commits(q, st, op) {
      var env := ScopedEnvelope(LeanScratchGateway, WORKER_TOOL, ScopeOf(st.events, job));
      var d := Plain(CheckStarted, job,
          map["worker_id" := JText(worker), "queue_delay_seconds" := JNumber(delay)]);
      RecordedOnly(q, st, op, env, d);
      OneEventTells(q, st, Next(q, st, op), LeanScratchGateway, WORKER_TOOL, d);
    }
  }

  predicate Marking(op: QueueOp) {
    op.Cancel? || op.TimeOut? || op.Interrupt? || op.Supersede?
  }

  /** The action that marks the job. */
  function MarkOf(op: QueueOp): (a: Action)
    requires Marking(op)
    ensures Abandons(a) && ActionState(a).Some?
  {
    match op
    case Cancel(_, _) => CheckCancelled
    case TimeOut(_, _) => CheckTimedOut
    case Interrupt(_, _) => CheckInterrupted
    case Supersede(_, _) => CheckSuperseded
  }

  lemma MarkFacts(q: QueueConfig, st: State, op: QueueOp)
    requires Marking(op)
    ensures Commits(q, st, op) ==> MovedOnly(st, Next(q, st, op), op.job, MarkOf(op), ActionState(MarkOf(op)).value)
    ensures Commits(q, st, op) && op.Supersede? ==> Readable(st, op.newer)
    ensures Commits(q, st, op) ==>
              match op
              case Cancel(job, reason) =>
                Tells(st, Next(q, st, op), LedgerService, job, CheckCancelled, map["reason" := JText(reason)])
              case TimeOut(job, budget) =>
                Tells(st, Next(q, st, op), LeanScratchGateway, job, CheckTimedOut,
                      map["budget_seconds" := JNumber(budget)])
              case Interrupt(job, detectedBy) =>
                Tells(st, Next(q, st, op), LedgerService, job, CheckInterrupted,
                      map["detected_by" := JText(detectedBy)])
              case Supersede(job, newer) =>
                Tells(st, Next(q, st, op), LedgerService, job, CheckSuperseded, map["superseded_by" := JText(newer)])
              case _ => true
  {
    hide RunCalls, MovedOnly, ScopeOf, Readable, Tells, OneEvent, Next;
    if Commits(q, st, op) {
      var s := Plan(q, st, op).value;
      var d := s.calls[0].op.draft;
      RecordedOnly(q, st, op, s.env, d);
      OneEventTells(q, st, Next(q, st, op), s.env.actorClass, s.env.actorId, d);
    }
  }

  lemma SubmissionFacts(q: QueueConfig, st: State, r: Request)
    ensures var op, job := QueueOp.Submit(r), JobId(q, r);
            && (job !in st.objects && |Pending(st)| >= q.maxPending ==> !Commits(q, st, op))
            && (Commits(q, st, op) && job !in st.objects && QueueInv(st) ==>
                  job !in Pending(st) && Pending(Next(q, st, op)) == Pending(st) + {job})
            && (job in st.objects ==> Quiet(st, Next(q, st, op)))
  {
    hide RunCalls, Pending, QueueInv, Quiet, JobId, Admitted, AllReadable, SubmitCalls, ScopeOf;
    var op, job := QueueOp.Submit(r), JobId(q, r);
    if job in st.objects {
      B.ReuseIsQuiet(q, st, r);
    } else if Commits(q, st, op) && QueueInv(st) {
      B.NotPending(st, job);
      AdmittedCalls(q, st, r);
      B.CommitAddsItsJob(q, st, r);
    }
  }

  lemma NothingDeclared(q: QueueConfig, ds: seq<Declaration>)
    requires ds == []
    ensures forall n :: ByDeclaration(q, ds, n) == None
  {
  }

  lemma NoMoreClaims(q: QueueConfig, st: State, job: string, goals: seq<string>, stored: string, ds: seq<Declaration>,
      made: set<string>)
    requires Readable(st, job) && ds == []
    ensures ClaimCalls(q, st, job, goals, stored, ds, made) == []
  {
  }

  lemma ClaimCallsStep(q: QueueConfig, st: State, job: string, goals: seq<string>, stored: string,
                       ds: seq<Declaration>, i: nat, made: set<string>)
    requires Readable(st, job) && i < |ds|
    ensures ClaimCalls(q, st, job, goals, stored, ds[i..], made) ==
              OneClaimCalls(q, st, job, goals, stored, ds[i], made) +
              ClaimCalls(q, st, job, goals, stored, ds[i + 1..], made + {ClaimId(q, ds[i])})
  {
    hide OneClaimCalls, ClaimId;
    assert ds[i..][0] == ds[i] && ds[i..][1..] == ds[i + 1..];
  }

  lemma ByDeclarationStep(q: QueueConfig, ds: seq<Declaration>, i: nat)
    requires i < |ds|
    ensures forall n :: ByDeclaration(q, ds[..i + 1], n) ==
              if n == ds[i].name then Some(ClaimId(q, ds[i])) else ByDeclaration(q, ds[..i], n)
  {
    hide ClaimId;
    var upTo := ds[..i + 1];
    assert upTo[..|upTo| - 1] == ds[..i] && upTo[|upTo| - 1] == ds[i];
    forall n
      ensures ByDeclaration(q, upTo, n) == if n == ds[i].name then Some(ClaimId(q, ds[i]))
              else ByDeclaration(q, ds[..i], n)
    {
    }
  }

  /** A withdrawal is its effect or nothing, and a committed one leaves the active edges of the order-free one. */
  lemma WithdrawalFacts(q: QueueConfig, st: State, job: string, reason: string)
    ensures var done := InvalidateEffect(q.ledger, st, job, reason);
            && Commits(q, st, Withdraw(job, reason)) == (Readable(st, job) && done.ok)
            && Next(q, st, Withdraw(job, reason)) == (if Readable(st, job) && done.ok then done.state else st)
            && (done.ok && C.UniqueRows(st.edges) ==>
                  C.Active(done.state.edges) == C.Withdrawn(C.WorldOf(st), C.Active(st.edges), {job}))
            && (done.ok ==> CorrectsLog(st.events, done.state.events, job, reason))
  {
    hide InvalidateEffect, C.UniqueRows, C.Active, C.Withdrawn, C.WorldOf, Readable, Plan, RunCalls, CorrectsLog;
    if InvalidateEffect(q.ledger, st, job, reason).ok { WithdrawalCorrects(q.ledger, st, job, reason); }
    if InvalidateEffect(q.ledger, st, job, reason).ok && C.UniqueRows(st.edges) {
      C.InvalidateWithdraws(q.ledger, st, job, reason);
    }
  }

  /** A running check of the checkpoint, or of any when none is named. */
  predicate Orphaned(st: State, id: string, checkpoint: Option<string>) {
    && id in st.objects && st.objects[id].kind == Check
    && (checkpoint.Some? ==> "checkpoint_key" in st.objects[id].properties
                             && st.objects[id].properties["checkpoint_key"] == JText(checkpoint.value))
    && JobState(st, id) == Running
  }

  ghost predicate SameChecks(s: State, t: State) {
    && (forall id :: id in s.objects ==> id in t.objects && t.objects[id] == s.objects[id])
    && forall id :: IsCheck(t, id) ==> IsCheck(s, id)
  }

  /** The given checks have been interrupted; every other check is where it was, and none is new. */
  ghost predicate Progress(before: State, now: State, interrupted: set<string>) {
    && SameChecks(before, now)
    && forall id :: IsCheck(before, id) ==>
         JobState(now, id) == if id in interrupted then Interrupted else JobState(before, id)
  }

  lemma ProgressStarts(st: State)
    ensures Progress(st, st, {})
  {
  }

  lemma OrphansAreChecks(st: State, checkpoint: Option<string>)
    ensures forall id :: Orphaned(st, id, checkpoint) ==> id in st.objects && st.objects[id].kind == Check
  {
  }

  lemma ProgressSoFar(before: State, now: State, interrupted: set<string>, id: string, checkpoint: Option<string>)
    requires Progress(before, now, interrupted) && IsCheck(before, id) && id !in interrupted
    ensures IsCheck(now, id) && Orphaned(now, id, checkpoint) == Orphaned(before, id, checkpoint)
  {
    hide JobState;
  }

  lemma OrphanPlan(q: QueueConfig, st: State, id: string, checkpoint: Option<string>)
    requires Orphaned(st, id, checkpoint)
    ensures IsCheck(st, id) && JobState(st, id) == Running && Plan(q, st, Reconcile(id)).Some?
  {
    hide JobState;
  }

  lemma FailedTransaction(q: QueueConfig, st: State, s: Session)
    requires !RunCalls(q.ledger, s.env, st, s.calls).ok
    ensures Transact(q.ledger, st, s) == st
  {
  }

  lemma ProgressStep(before: State, st: State, t: State, interrupted: set<string>, id: string)
    requires Progress(before, st, interrupted) && IsCheck(st, id)
    requires SameChecks(st, t) && JobState(t, id) == Interrupted
    requires forall other :: IsCheck(st, other) && other != id ==> JobState(t, other) == JobState(st, other)
    ensures Progress(before, t, interrupted + {id})
  {
    hide JobState;
  }

  /** One committed reconciliation interrupts its check and moves no other. */
  lemma ReconcileMoves(q: QueueConfig, st: State, id: string)
    requires IsCheck(st, id) && JobState(st, id) == Running
    requires var plan := Plan(q, st, QueueOp.Reconcile(id));
            plan.Some? && RunCalls(q.ledger, plan.value.env, st, plan.value.calls).ok
    ensures var t := Next(q, st, Reconcile(id));
            && SameChecks(st, t)
            && JobState(t, id) == Interrupted
            && forall other :: IsCheck(st, other) && other != id ==> JobState(t, other) == JobState(st, other)
  {
    hide RecordEffect, JobState, History, Quiet, MovedOnly, Plan, SameChecks, ScopeOf;
    ReconcilePlan(q, st, id);
    var plan := Plan(q, st, Reconcile(id)).value;
    var first := InterruptionDraft(id);
    var second := RecoveryCall(id);
    CallsAppend(q.ledger, plan.env, st, [Uncaught(Record(first))], [second]);
    SingleCall(q.ledger, plan.env, st, Record(first));
    var mid := RecordEffect(q.ledger, plan.env, st, first).state;
    RecordMoves(q.ledger, plan.env, st, first);
    HarmlessCallsAreQuiet(q.ledger, plan.env, mid, [second]);
    MoveThenQuiet(st, mid, Next(q, st, Reconcile(id)), id);
  }

  /** The log gained the interruption of the check and, in the scope of the check, what is to be done about it. */
  ghost predicate Recovered(s: seq<Event>, t: seq<Event>, id: string) {
    exists i, j :: |s| <= i < j < |t| && TellsInterruption(t[i].core, id) && TellsRecovery(t[j].core, id)
  }

  predicate TellsInterruption(e: EventCore, id: string) {
    && e.action == CheckInterrupted && e.subjectId == id && e.actorClass == LedgerService
    && e.payload == map["detected_by" := JText("worker_startup")]
  }

  predicate TellsRecovery(e: EventCore, id: string) {
    && e.action == RecoveryRecorded && e.subjectId == id && e.actorClass == LedgerService
    && e.payload == map["resolution" := JText("safe_to_resubmit_from_source_artifact")]
  }

  lemma RecoveriesStay(s: seq<Event>, t: seq<Event>, u: seq<Event>, done: set<string>, id: string)
    requires s <= t <= u && Recovered(t, u, id) && forall x :: x in done ==> Recovered(s, t, x)
    ensures forall x :: x in done + {id} ==> Recovered(s, u, x)
  {
    hide TellsInterruption, TellsRecovery;
    forall x | x in done ensures Recovered(s, u, x) {
      var i, j :| |s| <= i < j < |t| && TellsInterruption(t[i].core, x) && TellsRecovery(t[j].core, x);
      assert u[i] == t[i] && u[j] == t[j];
    }
  }

  lemma ReconcileRecords(q: QueueConfig, st: State, id: string)
    requires IsCheck(st, id) && JobState(st, id) == Running
    requires var plan := Plan(q, st, QueueOp.Reconcile(id));
            plan.Some? && RunCalls(q.ledger, plan.value.env, st, plan.value.calls).ok
    ensures var t := Next(q, st, Reconcile(id)); st.events <= t.events && Recovered(st.events, t.events, id)
  {
    hide RecordEffect, JobState, Plan, ScopeOf, Says;
    ReconcilePlan(q, st, id);
    var plan := Plan(q, st, Reconcile(id)).value;
    var first, second := InterruptionDraft(id), RecoveryCall(id);
    CallsAppend(q.ledger, plan.env, st, [Uncaught(Record(first))], [second]);
    SingleCall(q.ledger, plan.env, st, Record(first));
    var mid := RecordEffect(q.ledger, plan.env, st, first).state;
    SingleCall(q.ledger, plan.env, mid, second.op);
    K.RecordSays(q.ledger, plan.env, st, first);
    K.RecordSays(q.ledger, plan.env, mid, second.op.draft);
    RecoverySays(plan.env, id);
    var t := Next(q, st, Reconcile(id)).events;
    assert t[|st.events|] == mid.events[|st.events|];
    assert TellsInterruption(t[|st.events|].core, id) && TellsRecovery(t[|mid.events|].core, id);
  }

  lemma RecoverySays(env: Envelope, id: string)
    requires env.actorClass == LedgerService
    ensures InterruptionDraft(id).key == None && RecoveryCall(id).op.Record? && RecoveryCall(id).op.draft.key == None
    ensures forall e, now :: Says(e, env, InterruptionDraft(id), now) ==> TellsInterruption(e.core, id)
    ensures forall e, now :: Says(e, env, RecoveryCall(id).op.draft, now) ==> TellsRecovery(e.core, id)
  {
  }

  lemma MoveThenQuiet(s: State, m: State, t: State, id: string)
    requires IsCheck(s, id) && MovedOnly(s, m, id, CheckInterrupted, Interrupted) && Quiet(m, t)
    ensures SameChecks(s, t) && JobState(t, id) == Interrupted
    ensures forall other :: IsCheck(s, other) && other != id ==> JobState(t, other) == JobState(s, other)
  {
    hide History, JobState;
    assert QueueOwned(t, id) && SameHistory(m, t, id);
    forall other | IsCheck(s, other) && other != id ensures JobState(t, other) == JobState(s, other) {
      assert SameHistory(s, m, other) && QueueOwned(t, other) && SameHistory(m, t, other);
    }
  }
}
