/**
  Runs of the queue: every interleaving of queue operations and of other
  write sessions gives every check a well-shaped history.
 */
module QueueRuns {
  import opened Wrappers
  import opened Vocabulary
  import opened Events
  import opened Store
  import opened Derive
  import opened Invalidation
  import opened Queue

  // ---- Which sessions leave checks alone ----

  /** The actions that can move the operational state of their subject. */
  predicate Moving(a: Action) {
    a in {CheckSubmitted, CheckStarted, CheckCompleted, CheckFailed, CheckTimedOut, CheckInterrupted,
          CheckCancelled, CheckSuperseded, ComputationStarted, ComputationCompleted,
          CampaignStarted, EpochStarted, TurnStarted, TurnCompleted, EpochCompleted, CampaignCompleted}
  }

  /** Creates no check, and moves nothing but objects that are known not to be checks. */
  predicate Harmless(objects: map<string, ObjectRecord>, op: Op) {
    && (op.CreateObject? ==> op.kind != Check)
    && (op.Record? && Moving(op.draft.action) ==>
          op.draft.subjectId in objects && objects[op.draft.subjectId].kind != Check)
  }

  predicate IsCheck(st: State, id: string) {
    id in st.objects && st.objects[id].kind == Check
  }

  /** Ids whose operational history belongs to the queue: checks, and ids not yet taken. */
  predicate QueueOwned(st: State, id: string) {
    id in st.objects ==> st.objects[id].kind == Check
  }

  /** From `s` to `t` no check appeared and no check moved. */
  ghost predicate Quiet(s: State, t: State) {
    && (forall id :: id in s.objects ==> id in t.objects && t.objects[id] == s.objects[id])
    && (forall id :: IsCheck(t, id) ==> IsCheck(s, id))
    && (forall id :: QueueOwned(t, id) ==> SameHistory(s, t, id))
  }

  predicate SameHistory(s: State, t: State, id: string) {
    History(t, id) == History(s, id) && JobState(t, id) == JobState(s, id)
  }

  lemma QuietTransitive(a: State, b: State, c: State)
    requires Quiet(a, b) && Quiet(b, c)
    ensures Quiet(a, c)
  {
    hide SameHistory;
    forall id | QueueOwned(c, id) ensures SameHistory(a, c, id) {
      assert QueueOwned(b, id);
      SameHistoryTransitive(a, b, c, id);
    }
  }

  lemma SameHistoryTransitive(a: State, b: State, c: State, id: string)
    requires SameHistory(a, b, id) && SameHistory(b, c, id)
    ensures SameHistory(a, c, id)
  {
  }

  /** How one more event shows in the history and the state of an id. */
  lemma OneMoreEvent(events: seq<Event>, e: Event, id: string)
    ensures var old_, new_ := EventsOf(events, id, None), EventsOf(events + [e], id, None);
            if e.core.subjectId == id && OperationalEvent(e.core).Some?
            then Moves(new_) == Moves(old_) + [e.core.action] && OperationalOf(new_) == OperationalEvent(e.core)
            else Moves(new_) == Moves(old_) && OperationalOf(new_) == OperationalOf(old_)
  {
    assert (events + [e])[..|events|] == events;
    var before := EventsOf(events, id, None);
    if e.core.subjectId == id {
      assert (before + [e.core])[..|before|] == before;
    } else {
      assert before + [] == before;
    }
  }

  lemma RecordQuiet(cfg: Config, env: Envelope, st: State, d: Draft)
    requires Moving(d.action) ==> d.subjectId in st.objects && st.objects[d.subjectId].kind != Check
    ensures Quiet(st, RecordEffect(cfg, env, st, d).state)
    ensures RecordEffect(cfg, env, st, d).state == st.(events := RecordEffect(cfg, env, st, d).state.events)
  {
    hide Acceptable, EventsOf, Moves, OperationalOf;
    var after := RecordEffect(cfg, env, st, d).state;
    if after != st {
      var e := NextEvent(cfg, env, st.events, d);
      forall id | QueueOwned(after, id) ensures SameHistory(st, after, id) {
        OneMoreEvent(st.events, e, id);
      }
    }
  }

  /** Putting a row that is not a check under a fresh id. */
  lemma NewRowQuiet(s: State, t: State, o: ObjectRecord)
    requires Quiet(s, t) && o.kind != Check && o.id !in t.objects && t.objects == s.objects
    ensures Quiet(s, t.(objects := t.objects[o.id := o]))
  {
    hide SameHistory;
    var u := t.(objects := t.objects[o.id := o]);
    forall id | QueueOwned(u, id) ensures SameHistory(s, u, id) {
      assert QueueOwned(t, id);
      SameEvents(s, t, u, id);
    }
  }

  lemma SameEvents(s: State, t: State, u: State, id: string)
    requires SameHistory(s, t, id) && u.events == t.events
    ensures SameHistory(s, u, id)
  {
  }

  /** Histories are read from events and objects alone. */
  lemma OtherTablesQuiet(s: State, t: State, u: State)
    requires Quiet(s, t) && u.events == t.events && u.objects == t.objects
    ensures Quiet(s, u)
  {
    hide SameHistory;
    forall id | QueueOwned(u, id) ensures SameHistory(s, u, id) {
      assert QueueOwned(t, id);
      SameEvents(s, t, u, id);
    }
  }

  lemma CreateQuiet(cfg: Config, env: Envelope, st: State, op: Op)
    requires op.CreateObject? && op.kind != Check
    ensures Quiet(st, CreateEffect(cfg, env, st, op).state)
  {
    hide RecordEffect, SameHistory;
    var d := CreationDraft(op);
    var e := CreateEffect(cfg, env, st, op);
    QuietReflexive(st);
    RecordQuiet(cfg, env, st, d);
    if e.state != st {
      NewRowQuiet(st, RecordEffect(cfg, env, st, d).state,
        ObjectRecord(op.id, op.kind, op.name, op.format, op.content, op.properties, NextId(st.events)));
    }
  }

  lemma QuietReflexive(st: State)
    ensures Quiet(st, st)
  {
  }

  lemma HarmlessIsQuiet(cfg: Config, env: Envelope, st: State, op: Op)
    requires Harmless(st.objects, op)
    ensures Quiet(st, Apply(cfg, env, st, op).state)
  {
    hide RecordEffect, CreateEffect, Quiet;
    var after := Apply(cfg, env, st, op).state;
    QuietReflexive(st);
    match op
    case CreateObject(_, _, _, _, _, _, _) => CreateQuiet(cfg, env, st, op);
    case AddAlias(alias, id) =>
      var d := Plain(AliasAdded, id, map["alias" := JText(alias)]);
      RecordQuiet(cfg, env, st, d);
      if after != st { OtherTablesQuiet(st, RecordEffect(cfg, env, st, d).state, after); }
    case Connect(_, _, _, _, _) =>
      RecordQuiet(cfg, env, st, ConnectionDraft(op));
      if after != st { OtherTablesQuiet(st, RecordEffect(cfg, env, st, ConnectionDraft(op)).state, after); }
    case Retract(f, r, t, reason) =>
      RecordQuiet(cfg, env, st, RetractDraft(f, reason));
      if after != st { OtherTablesQuiet(st, RecordEffect(cfg, env, st, RetractDraft(f, reason)).state, after); }
    case RegisterArtifact(_, _, _, _, _) =>
      var created := CreateEffect(cfg, env, st, ArtifactCreation(op)).state;
      CreateQuiet(cfg, env, st, ArtifactCreation(op));
      RecordQuiet(cfg, env, created, RegistrationDraft(op));
      QuietTransitive(st, created, RecordEffect(cfg, env, created, RegistrationDraft(op)).state);
    case AddLocation(id, location) =>
      var d := Plain(ArtifactLocationAdded, id, map["location" := JText(location)]);
      RecordQuiet(cfg, env, st, d);
      if after != st { OtherTablesQuiet(st, RecordEffect(cfg, env, st, d).state, after); }
    case VerifyLocation(id, location, verified) =>
      var d := Plain(ArtifactLocationVerified, id, map["location" := JText(location), "verified" := JBool(verified)]);
      RecordQuiet(cfg, env, st, d);
      if after != st { OtherTablesQuiet(st, RecordEffect(cfg, env, st, d).state, after); }
    case LoseLocation(id, location, reason) =>
      var d := Plain(ArtifactLocationLost, id, map["location" := JText(location), "reason" := JText(reason)]);
      RecordQuiet(cfg, env, st, d);
      if after != st { OtherTablesQuiet(st, RecordEffect(cfg, env, st, d).state, after); }
    case ArchiveArtifact(id, retention) =>
      RecordQuiet(cfg, env, st, Plain(ArtifactArchived, id, map["retention_state" := JText(retention)]));
    case Record(d) => RecordQuiet(cfg, env, st, d);
  }

  ghost predicate AllHarmless(objects: map<string, ObjectRecord>, calls: seq<Call>) {
    forall c :: c in calls ==> Harmless(objects, c.op)
  }

  lemma {:induction false} HarmlessCallsAreQuiet(cfg: Config, env: Envelope, st: State, calls: seq<Call>)
    requires AllHarmless(st.objects, calls)
    ensures Quiet(st, RunCalls(cfg, env, st, calls).state)
    decreases |calls|
  {
    hide Apply, SameHistory, Harmless;
    if calls == [] {
      QuietReflexive(st);
    } else {
      var first := Apply(cfg, env, st, calls[0].op);
      HarmlessIsQuiet(cfg, env, st, calls[0].op);
      if first.ok || calls[0].caught {
        forall c | c in calls[1..] ensures Harmless(first.state.objects, c.op) {
          HarmlessPersists(st.objects, first.state.objects, c.op);
        }
        HarmlessCallsAreQuiet(cfg, env, first.state, calls[1..]);
        QuietTransitive(st, first.state, RunCalls(cfg, env, first.state, calls[1..]).state);
      }
    }
  }

  lemma HarmlessPersists(a: map<string, ObjectRecord>, b: map<string, ObjectRecord>, op: Op)
    requires Harmless(a, op) && forall id :: id in a ==> id in b && b[id] == a[id]
    ensures Harmless(b, op)
  {
  }

  lemma {:induction false} CallsAppend(cfg: Config, env: Envelope, st: State, a: seq<Call>, b: seq<Call>)
    ensures var first := RunCalls(cfg, env, st, a);
            RunCalls(cfg, env, st, a + b) == if first.ok then RunCalls(cfg, env, first.state, b) else first
    decreases |a|
  {
    hide Apply;
    if a == [] {
      assert a + b == b;
    } else {
      assert (a + b)[0] == a[0] && (a + b)[1..] == a[1..] + b;
      CallsAppend(cfg, env, Apply(cfg, env, st, a[0].op).state, a[1..], b);
    }
  }

  // ---- One move of one check ----

  /** From `s` to `t` exactly one id moved, by one event of action `a` that leaves it in state `to`. */
  ghost predicate MovedOnly(s: State, t: State, job: string, a: Action, to: Operational) {
    && t.objects == s.objects
    && History(t, job) == History(s, job) + [a]
    && JobState(t, job) == to
    && forall id :: id != job ==> SameHistory(s, t, id)
  }

  /** The moves the queue records name their state in the action alone. */
  function ActionState(a: Action): Option<Operational> {
    match a
    case CheckSubmitted => Some(Queued)
    case CheckStarted => Some(Running)
    case CheckCompleted => Some(Completed)
    case CheckFailed => Some(Failed)
    case CheckTimedOut => Some(TimedOut)
    case CheckInterrupted => Some(Interrupted)
    case CheckCancelled => Some(Interrupted)
    case CheckSuperseded => Some(Interrupted)
    case _ => None
  }

  lemma RecordMoves(cfg: Config, env: Envelope, st: State, d: Draft)
    requires ActionState(d.action).Some? && RecordEffect(cfg, env, st, d).ok
    ensures var t := RecordEffect(cfg, env, st, d).state;
            || (t == st && d.key.Some? && KeyUsed(st.events, d.key.value))
            || MovedOnly(st, t, d.subjectId, d.action, ActionState(d.action).value)
  {
    hide Acceptable, EventsOf, Moves, OperationalOf;
    var t := RecordEffect(cfg, env, st, d).state;
    if !(d.key.Some? && KeyUsed(st.events, d.key.value)) {
      var e := NextEvent(cfg, env, st.events, d);
      OneMoreEvent(st.events, e, d.subjectId);
      forall id | id != d.subjectId ensures SameHistory(st, t, id) {
        OneMoreEvent(st.events, e, id);
      }
    }
  }

  // ---- The invariant ----

  /** Checks have well-shaped histories, and ids nobody has taken have none. */
  ghost predicate QueueInv(st: State) {
    && (forall id :: IsCheck(st, id) ==> PhaseOf(History(st, id)).Some?)
    && (forall id :: id !in st.objects ==> History(st, id) == [])
  }

  lemma QuietKeepsInv(s: State, t: State)
    requires QueueInv(s) && Quiet(s, t)
    ensures QueueInv(t)
  {
    hide History, PhaseOf, JobState;
    forall id | IsCheck(t, id) ensures PhaseOf(History(t, id)).Some? {
      assert IsCheck(s, id) && QueueOwned(t, id) && SameHistory(s, t, id);
    }
    forall id | id !in t.objects ensures History(t, id) == [] {
      assert QueueOwned(t, id) && SameHistory(s, t, id) && id !in s.objects;
    }
  }

  lemma MoveKeepsInv(s: State, t: State, job: string, a: Action, to: Operational)
    requires QueueInv(s) && MovedOnly(s, t, job, a, to) && IsCheck(s, job)
    requires Advance(PhaseOf(History(s, job)).value, a).Some?
    ensures QueueInv(t)
  {
    hide History, JobState, Advance;
    var h := History(s, job);
    assert (h + [a])[..|h|] == h;
    forall id | id != job ensures History(t, id) == History(s, id) {
      assert SameHistory(s, t, id);
    }
  }

  lemma PhaseFromState(st: State, job: string)
    requires QueueInv(st) && IsCheck(st, job)
    ensures JobState(st, job) == PhaseState(PhaseOf(History(st, job)).value, History(st, job))
    ensures JobState(st, job) == Queued ==> Advance(PhaseOf(History(st, job)).value, CheckStarted).Some?
    ensures JobState(st, job) == Running ==> PhaseOf(History(st, job)) == Some(Begun)
  {
    hide PhaseOf, Moves, EventsOf, OperationalOf;
    StateFollowsPhase(EventsOf(st.events, job, None));
  }

  lemma AbandonAnywhere(p: Phase, a: Action)
    requires Abandons(a)
    ensures Advance(p, a) == Some(Abandoned)
  {
  }

  // ---- The sessions of the queue ----

  lemma StoreHarmless(q: QueueConfig, st: State, text: string, artifactType: string, mediaType: string, name: string)
    ensures AllHarmless(st.objects, StoreCalls(q, st, text, artifactType, mediaType, name))
  {
  }

  lemma {:induction false} AdvanceHarmless(objects: map<string, ObjectRecord>, claim: string, goals: seq<string>)
    ensures AllHarmless(objects, AdvanceCalls(claim, goals))
  {
    if goals != [] { AdvanceHarmless(objects, claim, goals[1..]); }
  }

  lemma OneClaimHarmless(q: QueueConfig, st: State, job: string, goals: seq<string>, stored: string, d: Declaration,
      made: set<string>)
    requires Readable(st, job)
    ensures AllHarmless(st.objects, OneClaimCalls(q, st, job, goals, stored, d, made))
  {
    hide AdvanceCalls, ClaimId;
    AdvanceHarmless(st.objects, ClaimId(q, d), goals);
  }

  lemma {:induction false} ClaimsHarmless(q: QueueConfig, st: State, job: string, goals: seq<string>, stored: string,
                                          ds: seq<Declaration>, made: set<string>)
    requires Readable(st, job)
    ensures AllHarmless(st.objects, ClaimCalls(q, st, job, goals, stored, ds, made))
    decreases |ds|
  {
    hide OneClaimCalls, Harmless;
    if ds != [] {
      OneClaimHarmless(q, st, job, goals, stored, ds[0], made);
      ClaimsHarmless(q, st, job, goals, stored, ds[1..], made + {ClaimId(q, ds[0])});
    }
  }

  lemma {:induction false} DependenciesHarmless(q: QueueConfig, objects: map<string, ObjectRecord>,
      ds: seq<Declaration>, source: string, names: seq<string>)
    ensures AllHarmless(objects, DependencyCalls(q, ds, source, names))
  {
    if names != [] { DependenciesHarmless(q, objects, ds, source, names[1..]); }
  }

  lemma {:induction false} AllDependenciesHarmless(q: QueueConfig, objects: map<string, ObjectRecord>,
      all: seq<Declaration>, ds: seq<Declaration>)
    ensures AllHarmless(objects, AllDependencyCalls(q, all, ds))
    decreases |ds|
  {
    if ds != [] {
      var source := ByDeclaration(q, all, ds[0].name);
      if source.Some? { DependenciesHarmless(q, objects, all, source.value, ds[0].dependencies); }
      AllDependenciesHarmless(q, objects, all, ds[1..]);
    }
  }

  lemma ResultHarmless(q: QueueConfig, st: State, op: QueueOp)
    requires op.Complete? && Readable(st, op.job)
    ensures AllHarmless(st.objects, ResultCalls(q, st, op))
  {
    hide StoreCalls, ClaimCalls, AllDependencyCalls, FocusGoals, ResultText;
    var text := ResultText(q, op);
    StoreHarmless(q, st, text, "scratch_result", "application/json", "Scratch result for " + op.job);
    ClaimsHarmless(q, st, op.job, FocusGoals(st, op.job), ArtifactId(q.sha256(text)), op.declarations, {});
    AllDependenciesHarmless(q, st.objects, op.declarations, op.declarations);
  }

  lemma SingleCall(cfg: Config, env: Envelope, st: State, op: Op)
    ensures RunCalls(cfg, env, st, [Uncaught(op)]) == Apply(cfg, env, st, op)
  {
    var calls := [Uncaught(op)];
    assert calls[1..] == [];
  }

  /** Recording one unkeyed move of a check from a phase that allows it. */
  lemma RecordedMove(q: QueueConfig, st: State, env: Envelope, d: Draft)
    requires QueueInv(st) && IsCheck(st, d.subjectId) && d.key.None?
    requires ActionState(d.action).Some?
    requires Advance(PhaseOf(History(st, d.subjectId)).value, d.action).Some?
    ensures QueueInv(Transact(q.ledger, st, Session(env, [Uncaught(Record(d))])))
  {
    hide RecordEffect, QueueInv, MovedOnly, Advance, PhaseOf, History;
    SingleCall(q.ledger, env, st, Record(d));
    if RecordEffect(q.ledger, env, st, d).ok {
      RecordMoves(q.ledger, env, st, d);
      MoveKeepsInv(st, RecordEffect(q.ledger, env, st, d).state, d.subjectId, d.action, ActionState(d.action).value);
    }
  }

  lemma CompletionKeepsInv(q: QueueConfig, st: State, op: QueueOp)
    requires QueueInv(st) && op.Complete?
    ensures QueueInv(Next(q, st, op))
  {
    hide RunCalls, ResultCalls, TerminalDraft, QueueInv, Quiet, RecordEffect, MovedOnly, PhaseOf, History,
        ArtifactCompatible, JobState, ResultText;
    var plan := Plan(q, st, op);
    if plan.Some? {
      var env, calls := plan.value.env, ResultCalls(q, st, op);
      var d := TerminalDraft(q, op);
      TerminalFacts(q, op);
      ResultHarmless(q, st, op);
      HarmlessCallsAreQuiet(q.ledger, env, st, calls);
      var mid := RunCalls(q.ledger, env, st, calls);
      QuietKeepsInv(st, mid.state);
      CallsAppend(q.ledger, env, st, calls, [Uncaught(Record(d))]);
      SingleCall(q.ledger, env, mid.state, Record(d));
      QuietHolds(st, mid.state, op.job);
      PhaseFromState(mid.state, op.job);
      if mid.ok && RecordEffect(q.ledger, env, mid.state, d).ok {
        RecordMoves(q.ledger, env, mid.state, d);
        MoveKeepsInv(mid.state, RecordEffect(q.ledger, env, mid.state, d).state, op.job, d.action,
            ActionState(d.action).value);
      }
    }
  }

  lemma TerminalFacts(q: QueueConfig, op: QueueOp)
    requires op.Complete?
    ensures var d := TerminalDraft(q, op);
            d.key.None? && d.subjectId == op.job && Terminal(d.action) && ActionState(d.action).Some?
  {
  }

  lemma QuietHolds(s: State, t: State, job: string)
    requires Quiet(s, t) && IsCheck(s, job)
    ensures IsCheck(t, job) && JobState(t, job) == JobState(s, job) && History(t, job) == History(s, job)
  {
    assert QueueOwned(t, job) && SameHistory(s, t, job);
  }

  function InterruptionDraft(id: string): Draft {
    Plain(CheckInterrupted, id, map["detected_by" := JText("worker_startup")])
  }

  function RecoveryCall(id: string): Call {
    Note(RecoveryRecorded, id, map["resolution" := JText("safe_to_resubmit_from_source_artifact")])
  }

  lemma ReconcilePlan(q: QueueConfig, st: State, id: string)
    ensures Plan(q, st, Reconcile(id)) ==
              if IsCheck(st, id) && JobState(st, id) == Running
              then Some(Session(ScopedEnvelope(LedgerService, RECONCILE_TOOL, ScopeOf(st.events, id)),
                     [Uncaught(Record(InterruptionDraft(id)))] + [RecoveryCall(id)]))
              else None
  {
    hide JobState, ScopeOf;
    assert [Uncaught(Record(InterruptionDraft(id)))] + [RecoveryCall(id)] ==
        [Uncaught(Record(InterruptionDraft(id))), RecoveryCall(id)];
  }

  lemma ReconcileKeepsInv(q: QueueConfig, st: State, op: QueueOp)
    requires QueueInv(st) && op.Reconcile?
    ensures QueueInv(Next(q, st, op))
  {
    hide Plan, QueueInv, Quiet, RecordEffect, MovedOnly, PhaseOf, History, JobState, Advance, RecoveryCall, IsCheck;
    ReconcilePlan(q, st, op.job);
    var plan := Plan(q, st, op);
    if plan.Some? {
      var env, first, second := plan.value.env, InterruptionDraft(op.job), RecoveryCall(op.job);
      CallsAppend(q.ledger, env, st, [Uncaught(Record(first))], [second]);
      SingleCall(q.ledger, env, st, Record(first));
      var mid := RecordEffect(q.ledger, env, st, first);
      if mid.ok {
        InterruptionKeepsInv(q, env, st, op.job);
        var next := RunCalls(q.ledger, env, mid.state, [second]).state;
        RecoveryIsQuiet(q, env, mid.state, op.job);
        QuietKeepsInv(mid.state, next);
      }
    }
  }

  lemma InterruptionKeepsInv(q: QueueConfig, env: Envelope, st: State, id: string)
    requires QueueInv(st) && IsCheck(st, id) && RecordEffect(q.ledger, env, st, InterruptionDraft(id)).ok
    ensures QueueInv(RecordEffect(q.ledger, env, st, InterruptionDraft(id)).state)
  {
    hide QueueInv, RecordEffect, MovedOnly, PhaseOf, History, Advance, IsCheck;
    var mid := RecordEffect(q.ledger, env, st, InterruptionDraft(id));
    RecordMoves(q.ledger, env, st, InterruptionDraft(id));
    CheckPhase(st, id);
    AbandonAnywhere(PhaseOf(History(st, id)).value, CheckInterrupted);
    MoveKeepsInv(st, mid.state, id, CheckInterrupted, Interrupted);
  }

  lemma RecoveryIsQuiet(q: QueueConfig, env: Envelope, st: State, id: string)
    ensures Quiet(st, RunCalls(q.ledger, env, st, [RecoveryCall(id)]).state)
  {
    hide RunCalls, Quiet;
    HarmlessCallsAreQuiet(q.ledger, env, st, [RecoveryCall(id)]);
  }

  lemma CheckPhase(st: State, job: string)
    requires QueueInv(st) && IsCheck(st, job)
    ensures PhaseOf(History(st, job)).Some?
  {
  }

  lemma MarkKeepsInv(q: QueueConfig, st: State, job: string, actor: Actor, tool: string, action: Action,
      payload: Properties)
    requires QueueInv(st) && Readable(st, job) && Abandons(action)
    ensures QueueInv(Transact(q.ledger, st, Marked(st, job, actor, tool, action, payload).value))
  {
    hide QueueInv, Transact, PhaseOf, History;
    CheckPhase(st, job);
    AbandonAnywhere(PhaseOf(History(st, job)).value, action);
    RecordedMove(q, st, ScopedEnvelope(actor, tool, ScopeOf(st.events, job)), Plain(action, job, payload));
  }

  lemma StartKeepsInv(q: QueueConfig, st: State, op: QueueOp)
    requires QueueInv(st) && op.Start?
    ensures QueueInv(Next(q, st, op))
  {
    hide QueueInv, Transact, PhaseOf, History, JobState, Advance;
    if Plan(q, st, op).Some? {
      PhaseFromState(st, op.job);
      RecordedMove(q, st, ScopedEnvelope(LeanScratchGateway, WORKER_TOOL, ScopeOf(st.events, op.job)),
        Plain(CheckStarted, op.job, map["worker_id" := JText(op.worker), "queue_delay_seconds" := JNumber(op.delay)]));
    }
  }

  // ---- Submissions ----

  /** Creating a check under a fresh id: the only way one appears. */
  ghost predicate CheckAppeared(s: State, t: State, job: string) {
    && (forall id :: id in s.objects ==> id in t.objects && t.objects[id] == s.objects[id])
    && (forall id :: IsCheck(t, id) ==> id == job || IsCheck(s, id))
    && (forall id :: id in t.objects ==> id == job || id in s.objects)
    && (forall id :: SameHistory(s, t, id))
  }

  lemma CheckCreation(cfg: Config, env: Envelope, st: State, op: Op)
    requires op.CreateObject?
    ensures CheckAppeared(st, CreateEffect(cfg, env, st, op).state, op.id)
    ensures CreateEffect(cfg, env, st, op).ok ==>
              op.id in CreateEffect(cfg, env, st, op).state.objects
                  && CreateEffect(cfg, env, st, op).state.objects[op.id].kind == op.kind
  {
    hide RecordEffect, History, JobState;
    var d := CreationDraft(op);
    var recorded := RecordEffect(cfg, env, st, d).state;
    RecordSilent(cfg, env, st, d);
    var t := CreateEffect(cfg, env, st, op).state;
    forall id ensures SameHistory(st, t, id) {
      if t != st {
        SameEvents(st, recorded, t, id);
      }
    }
  }

  lemma RecordSilent(cfg: Config, env: Envelope, st: State, d: Draft)
    requires !Moving(d.action)
    ensures var t := RecordEffect(cfg, env, st, d).state;
            t == st.(events := t.events) && forall id :: SameHistory(st, t, id)
  {
    hide Acceptable, EventsOf, Moves, OperationalOf;
    var t := RecordEffect(cfg, env, st, d).state;
    if t != st {
      forall id ensures SameHistory(st, t, id) {
        OneMoreEvent(st.events, NextEvent(cfg, env, st.events, d), id);
      }
    }
  }

  /** The four stages of the submission transaction. */
  lemma SubmissionStages(q: QueueConfig, st: State, r: Request) returns (stored: State, created: State, linked: State)
    requires Admitted(q, st, r).Some?
    requires RunCalls(q.ledger, Admitted(q, st, r).value.env, st, SubmitCalls(q, st, r)).ok
    ensures Quiet(st, stored)
    ensures CheckAppeared(stored, created, JobId(q, r)) && IsCheck(created, JobId(q, r))
    ensures Quiet(created, linked)
    ensures var last := Transact(q.ledger, st, Admitted(q, st, r).value);
            && last == RecordEffect(q.ledger, Admitted(q, st, r).value.env, linked, SubmissionDraft(q, r)).state
            && RecordEffect(q.ledger, Admitted(q, st, r).value.env, linked, SubmissionDraft(q, r)).ok
  {
    hide RunCalls, Quiet, CheckAppeared, RecordEffect, CreateEffect, ConnectEffect, SubmissionDraft, RequestDigest,
        JobId, StoreCalls;
    var env := Admitted(q, st, r).value.env;
    var job := JobId(q, r);
    var calls := SubmitCalls(q, st, r);
    var a := StoreCalls(q, st, r.source, "scratch_source", "text/x-lean", "Scratch source for " + job);
    var create, link, submit := calls[|a|], calls[|a| + 1], calls[|a| + 2];
    assert calls == a + ([create] + ([link] + [submit]));
    CallsAppend(q.ledger, env, st, a, [create] + ([link] + [submit]));
    StoreHarmless(q, st, r.source, "scratch_source", "text/x-lean", "Scratch source for " + job);
    HarmlessCallsAreQuiet(q.ledger, env, st, a);
    stored := RunCalls(q.ledger, env, st, a).state;
    CallsAppend(q.ledger, env, stored, [create], [link] + [submit]);
    SingleCall(q.ledger, env, stored, create.op);
    CheckCreation(q.ledger, env, stored, create.op);
    created := CreateEffect(q.ledger, env, stored, create.op).state;
    CallsAppend(q.ledger, env, created, [link], [submit]);
    SingleCall(q.ledger, env, created, link.op);
    HarmlessIsQuiet(q.ledger, env, created, link.op);
    linked := Apply(q.ledger, env, created, link.op).state;
    SingleCall(q.ledger, env, linked, submit.op);
  }

  lemma AppearanceKeepsInv(s: State, t: State, job: string)
    requires QueueInv(s) && CheckAppeared(s, t, job) && job !in s.objects
    ensures QueueInv(t) && History(t, job) == []
  {
    hide History, JobState;
    forall id ensures History(t, id) == History(s, id) { assert SameHistory(s, t, id); }
    assert PhaseOf([]) == Some(Fresh);
  }

  lemma SubmissionKeepsInv(q: QueueConfig, st: State, r: Request)
    requires QueueInv(st) && JobId(q, r) !in st.objects && Admitted(q, st, r).Some?
    ensures QueueInv(Transact(q.ledger, st, Admitted(q, st, r).value))
  {
    hide QueueInv, Quiet, CheckAppeared, RecordEffect, History, MovedOnly, Admitted, SubmitCalls, JobId, RunCalls;
    AdmittedCalls(q, st, r);
    var env, job := Admitted(q, st, r).value.env, JobId(q, r);
    if RunCalls(q.ledger, env, st, SubmitCalls(q, st, r)).ok {
      var stored, created, linked := SubmissionStages(q, st, r);
      QuietKeepsInv(st, stored);
      NotYetStored(st, stored, created, job);
      AppearanceKeepsInv(stored, created, job);
      QuietKeepsInv(created, linked);
      QuietHolds(created, linked, job);
      RecordMoves(q.ledger, env, linked, SubmissionDraft(q, r));
      var last := RecordEffect(q.ledger, env, linked, SubmissionDraft(q, r)).state;
      if last != linked {
        MoveKeepsInv(linked, last, job, CheckSubmitted, Queued);
      }
    }
  }

  lemma NotYetStored(st: State, stored: State, created: State, job: string)
    requires Quiet(st, stored) && CheckAppeared(stored, created, job) && IsCheck(created, job) && job !in st.objects
    ensures job !in stored.objects
  {
    assert job in stored.objects ==> IsCheck(stored, job);
  }

  lemma AdmittedCalls(q: QueueConfig, st: State, r: Request)
    requires Admitted(q, st, r).Some?
    ensures Admitted(q, st, r).value.calls == SubmitCalls(q, st, r)
  {
  }

  // ---- Withdrawals ----

  lemma {:induction false} RecordAllQuiet(cfg: Config, env: Envelope, st: State, drafts: seq<Draft>)
    requires forall d :: d in drafts ==> !Moving(d.action)
    ensures Quiet(st, RecordAll(cfg, env, st, drafts).state)
    decreases |drafts|
  {
    hide RecordEffect, Quiet;
    QuietReflexive(st);
    if drafts != [] {
      assert drafts[0] in drafts;
      RecordQuiet(cfg, env, st, drafts[0]);
      var first := RecordEffect(cfg, env, st, drafts[0]);
      if first.ok {
        RecordAllQuiet(cfg, env, first.state, drafts[1..]);
        QuietTransitive(st, first.state, RecordAll(cfg, env, first.state, drafts[1..]).state);
      }
    }
  }

  lemma {:induction false} RetractAllQuiet(cfg: Config, env: Envelope, st: State, triples: seq<Triple>, reason: string)
    ensures Quiet(st, RetractAll(cfg, env, st, triples, reason).state)
    decreases |triples|
  {
    hide RetractEffect, Quiet;
    QuietReflexive(st);
    if triples != [] {
      var x := triples[0];
      HarmlessIsQuiet(cfg, env, st, Retract(x.source, x.relation, x.target, reason));
      var first := RetractEffect(cfg, env, st, x.source, x.relation, x.target, reason);
      if first.ok {
        RetractAllQuiet(cfg, env, first.state, triples[1..], reason);
        QuietTransitive(st, first.state, RetractAll(cfg, env, first.state, triples[1..], reason).state);
      }
    }
  }

  lemma {:induction false} PruneAllQuiet(cfg: Config, env: Envelope, st: State, claims: seq<string>, reason: string)
    ensures Quiet(st, PruneAll(cfg, env, st, claims, reason).state)
    decreases |claims|
  {
    hide RetractAll, Quiet, Supported;
    QuietReflexive(st);
    if claims != [] {
      var c := claims[0];
      var first := PruneClaim(cfg, env, st, c, reason);
      if !Supported(st, c) {
        RetractAllQuiet(cfg, env, st, OutgoingTriples(st, c, Advances), reason);
        var advanced := RetractAll(cfg, env, st, OutgoingTriples(st, c, Advances), reason).state;
        RetractAllQuiet(cfg, env, advanced, OutgoingTriples(advanced, c, DependsOn), reason);
        QuietTransitive(st, advanced, RetractAll(cfg, env, advanced, OutgoingTriples(advanced, c, DependsOn),
            reason).state);
      }
      if first.ok {
        PruneAllQuiet(cfg, env, first.state, claims[1..], reason);
        QuietTransitive(st, first.state, PruneAll(cfg, env, first.state, claims[1..], reason).state);
      }
    }
  }

  lemma DraftsDoNotMove(st: State, job: string, reason: string)
    ensures forall d :: d in Drafts(st, job, reason) ==> !Moving(d.action)
  {
    hide Decimal, Corrected, EventsOf;
  }

  lemma WithdrawalIsQuiet(cfg: Config, st: State, job: string, reason: string)
    ensures Quiet(st, Invalidate(cfg, st, job, reason))
  {
    hide RecordAll, RetractAll, PruneAll, Quiet, Drafts, ClaimsOf, ProvenanceTriples, InvalidationEnvelope, Readable;
    QuietReflexive(st);
    var env := InvalidationEnvelope(st, job);
    var claims := ClaimsOf(st, job);
    DraftsDoNotMove(st, job, reason);
    RecordAllQuiet(cfg, env, st, Drafts(st, job, reason));
    var recorded := RecordAll(cfg, env, st, Drafts(st, job, reason));
    if recorded.ok {
      var triples := ProvenanceTriples(claims, job);
      RetractAllQuiet(cfg, env, recorded.state, triples, reason);
      var withdrawn := RetractAll(cfg, env, recorded.state, triples, reason);
      QuietTransitive(st, recorded.state, withdrawn.state);
      if withdrawn.ok {
        PruneAllQuiet(cfg, env, withdrawn.state, claims, reason);
        QuietTransitive(st, withdrawn.state, PruneAll(cfg, env, withdrawn.state, claims, reason).state);
      }
    }
  }

  // ---- Every interleaving ----

  lemma NextKeepsInv(q: QueueConfig, st: State, op: QueueOp)
    requires QueueInv(st)
    ensures QueueInv(Next(q, st, op))
  {
    hide QueueInv, Transact, Invalidate, Readable, JobState, Pending, AllReadable, Admitted, ResultCalls,
        TerminalDraft, RequestDigest;
    match op
    case Submit(r) =>
      if JobId(q, r) in st.objects {
        if Plan(q, st, op).Some? {
          ReuseKeepsInv(q, st, r, Plan(q, st, op).value);
        }
      } else if Plan(q, st, op).Some? {
        SubmissionKeepsInv(q, st, r);
      }
    case Start(_, _, _) => StartKeepsInv(q, st, op);
    case Complete(_, _, _, _, _, _) => CompletionKeepsInv(q, st, op);
    case Cancel(job, reason) =>
      if Readable(st, job) { MarkKeepsInv(q, st, job, LedgerService, SERVICE_TOOL, CheckCancelled,
          map["reason" := JText(reason)]); }
    case TimeOut(job, budget) =>
      if Readable(st, job) { MarkKeepsInv(q, st, job, LeanScratchGateway, WORKER_TOOL, CheckTimedOut,
          map["budget_seconds" := JNumber(budget)]); }
    case Interrupt(job, detectedBy) =>
      if Readable(st, job) { MarkKeepsInv(q, st, job, LedgerService, RECONCILE_TOOL, CheckInterrupted,
          map["detected_by" := JText(detectedBy)]); }
    case Supersede(job, newer) =>
      if Readable(st, job) { MarkKeepsInv(q, st, job, LedgerService, SERVICE_TOOL, CheckSuperseded,
          map["superseded_by" := JText(newer)]); }
    case Reconcile(_) => ReconcileKeepsInv(q, st, op);
    case Withdraw(job, reason) =>
      WithdrawalIsQuiet(q.ledger, st, job, reason);
      QuietKeepsInv(st, Invalidate(q.ledger, st, job, reason));
  }

  lemma ReuseKeepsInv(q: QueueConfig, st: State, r: Request, s: Session)
    requires QueueInv(st) && JobId(q, r) in st.objects && Plan(q, st, Submit(r)) == Some(s)
    ensures QueueInv(Transact(q.ledger, st, s))
  {
    hide QueueInv, RunCalls, RequestDigest, ScopeOf;
    HarmlessCallsAreQuiet(q.ledger, s.env, st, s.calls);
    QuietKeepsInv(st, RunCalls(q.ledger, s.env, st, s.calls).state);
  }

  /** A step of the system: the queue acts, or some other writer commits a session that minds its own business. */
  datatype SystemStep = Act(op: QueueOp) | Other(session: Session)

  ghost predicate Permitted(st: State, step: SystemStep) {
    step.Other? ==> AllHarmless(st.objects, step.session.calls)
  }

  function TakeStep(q: QueueConfig, st: State, step: SystemStep): State {
    match step
    case Act(op) => Next(q, st, op)
    case Other(s) => Transact(q.ledger, st, s)
  }

  lemma StepKeepsInv(q: QueueConfig, st: State, step: SystemStep)
    requires QueueInv(st) && Permitted(st, step)
    ensures QueueInv(TakeStep(q, st, step))
  {
    hide QueueInv, Next, RunCalls;
    match step
    case Act(op) => NextKeepsInv(q, st, op);
    case Other(s) =>
      HarmlessCallsAreQuiet(q.ledger, s.env, st, s.calls);
      QuietKeepsInv(st, RunCalls(q.ledger, s.env, st, s.calls).state);
  }

  function Runs(q: QueueConfig, st: State, steps: seq<SystemStep>): State
    decreases |steps|
  {
    if steps == [] then st else TakeStep(q, Runs(q, st, steps[..|steps| - 1]), steps[|steps| - 1])
  }

  ghost predicate AllPermitted(q: QueueConfig, st: State, steps: seq<SystemStep>) {
    forall i :: 0 <= i < |steps| ==> Permitted(Runs(q, st, steps[..i]), steps[i])
  }

  lemma {:induction false} EveryInterleavingKeepsInv(q: QueueConfig, st: State, steps: seq<SystemStep>)
    requires QueueInv(st) && AllPermitted(q, st, steps)
    ensures QueueInv(Runs(q, st, steps))
    decreases |steps|
  {
    hide QueueInv, TakeStep, Permitted;
    if steps != [] {
      var n := |steps| - 1;
      forall i | 0 <= i < n ensures Permitted(Runs(q, st, steps[..n][..i]), steps[..n][i]) {
        assert steps[..n][..i] == steps[..i];
      }
      EveryInterleavingKeepsInv(q, st, steps[..n]);
      StepKeepsInv(q, Runs(q, st, steps[..n]), steps[n]);
    }
  }

  /**
    Over every interleaving, each check's operational history is: its
    submission, its start, its one terminal event right after the start, each
    at most once, and then only abandonments.
   */
  lemma JobHistoriesAreShaped(q: QueueConfig, steps: seq<SystemStep>, job: string)
    requires AllPermitted(q, EMPTY, steps)
    requires IsCheck(Runs(q, EMPTY, steps), job)
    ensures Shape(History(Runs(q, EMPTY, steps), job))
  {
    hide Runs, Shape, History;
    assert QueueInv(EMPTY) by { EmptyInv(); }
    EveryInterleavingKeepsInv(q, EMPTY, steps);
    ShapeIsPhase(History(Runs(q, EMPTY, steps), job));
  }

  lemma EmptyInv()
    ensures QueueInv(EMPTY)
  {
  }

  /** A job abandoned before it finished has no terminal event, now or after any further steps. */
  lemma AbandonedJobsNeverFinish(q: QueueConfig, steps: seq<SystemStep>, job: string, i: nat, j: nat)
    requires AllPermitted(q, EMPTY, steps) && IsCheck(Runs(q, EMPTY, steps), job)
    requires var h := History(Runs(q, EMPTY, steps), job); i < j < |h| && Abandons(h[i])
    ensures var h := History(Runs(q, EMPTY, steps), job); !Terminal(h[j]) && h[j] != CheckStarted
  {
    var h := History(Runs(q, EMPTY, steps), job);
    hide Runs, Shape, History;
    JobHistoriesAreShaped(q, steps, job);
    ShapeIsPhase(h);
    AbandonedNeverFinishes(h, i, j);
  }
}
