/**
  The durable check queue: what each operation writes, and the shape of the
  history every job has, whatever the interleaving.
 */
module Queue {
  import opened Wrappers
  import opened Vocabulary
  import opened Events
  import opened Store
  import opened Derive
  import opened Invalidation

  const CHECKER_IDENTITY := "warm-lean-server-v2-direction-safe-isolated"
  const QUEUE_TOOL := "tool:durable-check-queue-v1"
  const WORKER_TOOL := "tool:warm-lean-worker-v1"
  const SERVICE_TOOL := "tool:check-queue-v1"
  const RECONCILE_TOOL := "tool:check-reconciliation-v1"

  /** The outside of the queue: the ledger's own, SHA-256 of a text, canonical JSON, and where bytes are stored. */
  datatype QueueConfig = QueueConfig(
    ledger: Config, sha256: string -> string, render: Json -> string, pathFor: string -> string, maxPending: nat)

  datatype Declaration = Declaration(name: string, proposition: string, dependencies: seq<string>)

  datatype Request = Request(
    source: string, checkpointKey: string, environment: string, requestClass: string,
    priority: int, budget: real, scope: Scope)

  datatype QueueOp =
    | Submit(request: Request)
    | Start(job: string, worker: string, delay: real)
    | Complete(job: string, outcome: string, exitCode: int, diagnostics: string,
               declarations: seq<Declaration>, timings: Json)
    | Cancel(job: string, reason: string)
    | TimeOut(job: string, budget: real)
    | Interrupt(job: string, detectedBy: string)
    | Supersede(job: string, newer: string)
    | Reconcile(job: string)
    | Withdraw(job: string, reason: string)

  // ---- Reading ----

  /** `state_of(...).operational or "queued"`. */
  function JobState(st: State, job: string): Operational {
    var s := OperationalOf(EventsOf(st.events, job, None));
    if s.Some? then s.value else Queued
  }

  predicate Truthy(s: Option<string>) {
    s.Some? && s.value != ""
  }

  function FirstTruthy(scope: Scope): Option<string> {
    if Truthy(scope.turnId) then scope.turnId
    else if Truthy(scope.epochId) then scope.epochId
    else if Truthy(scope.campaignId) then scope.campaignId
    else None
  }

  function Take(s: string, n: nat): string {
    if |s| < n then s else s[..n]
  }

  function RequestDigest(q: QueueConfig, r: Request): string {
    q.sha256(CHECKER_IDENTITY + ['\0'] + r.source + ['\0'] + r.checkpointKey + ['\0'] + r.environment + ['\0']
             + r.requestClass)
  }

  function JobId(q: QueueConfig, r: Request): string {
    "check:" + Take(RequestDigest(q, r), 24)
  }

  function ClaimId(q: QueueConfig, d: Declaration): string {
    "claim:" + Take(q.sha256(d.proposition), 12)
  }

  /** Formal claims targeted by the scopes of the job, innermost scope first, each once. */
  function FocusGoals(st: State, job: string): seq<string> {
    var scope := ScopeOf(st.events, job);
    Dedup(ScopeGoals(st, scope.turnId) + ScopeGoals(st, scope.epochId) + ScopeGoals(st, scope.campaignId))
  }

  function ScopeGoals(st: State, scope: Option<string>): seq<string> {
    if !Truthy(scope) then [] else FormalOnly(st, TargetsOf(st.edges, scope.value, Targets))
  }

  function Dedup(ids: seq<string>): seq<string> {
    if ids == [] then []
    else
      var rest := Dedup(ids[..|ids| - 1]);
      if ids[|ids| - 1] in rest then rest else rest + [ids[|ids| - 1]]
  }

  // ---- Writing ----

  function Uncaught(op: Op): Call {
    Call(op, false)
  }

  function Note(action: Action, subject: string, payload: Properties): Call {
    Uncaught(Record(Plain(action, subject, payload)))
  }

  /** An artifact of this size under this digest is already there, or nothing is. */
  predicate ArtifactCompatible(st: State, sha: string, size: nat) {
    ArtifactId(sha) in st.objects ==>
      var o := st.objects[ArtifactId(sha)];
      && o.kind == Artifact
      && "sha256" in o.properties && o.properties["sha256"] == JText(sha)
      && "byte_size" in o.properties && o.properties["byte_size"] == JNumber(size as real)
  }

  /** `store_and_register` once the bytes are in the store. */
  function StoreCalls(q: QueueConfig, st: State, text: string, artifactType: string, mediaType: string,
      name: string): seq<Call> {
    var sha := q.sha256(text);
    (if ArtifactId(sha) in st.objects then []
     else [Uncaught(RegisterArtifact(sha, artifactType, |text|, mediaType, Some(name)))]) +
    [Uncaught(AddLocation(ArtifactId(sha), q.pathFor(sha)))]
  }

  function Link(f: string, r: Relation, t: string): Call {
    Uncaught(Connect(f, r, t, map[], None))
  }

  /** The check object of a new job. */
  function JobCreation(q: QueueConfig, r: Request): Op {
    var sha := q.sha256(r.source);
    CreateObject(JobId(q, r), Check, "Scratch check " + Take(RequestDigest(q, r), 12), JsonText,
       q.render(JObject(map["input_sha256" := JText(sha), "checkpoint_key" := JText(r.checkpointKey)])),
       map["checker_identity" := JText(CHECKER_IDENTITY), "checkpoint_key" := JText(r.checkpointKey),
           "request_class" := JText(r.requestClass), "environment_identity" := JText(r.environment),
           "input_sha256" := JText(sha), "source_artifact_id" := JText(ArtifactId(sha)),
           "priority" := JNumber(r.priority as real), "budget_seconds" := JNumber(r.budget)],
       None)
  }

  function SubmitCalls(q: QueueConfig, st: State, r: Request): seq<Call> {
    var job := JobId(q, r);
    var stored := ArtifactId(q.sha256(r.source));
    StoreCalls(q, st, r.source, "scratch_source", "text/x-lean", "Scratch source for " + job) +
    [Uncaught(JobCreation(q, r)),
     Link(stored, ProducedBy, job),
     Uncaught(Record(SubmissionDraft(q, r)))]
  }

  function SubmissionDraft(q: QueueConfig, r: Request): Draft {
    var digest := RequestDigest(q, r);
    var sha := q.sha256(r.source);
    Draft(CheckSubmitted, ObjectSubject, JobId(q, r),
      map["checkpoint_key" := JText(r.checkpointKey), "environment_identity" := JText(r.environment),
          "input_sha256" := JText(sha), "request_class" := JText(r.requestClass),
          "priority" := JNumber(r.priority as real), "budget_seconds" := JNumber(r.budget),
          "idempotency_key" := JText(digest), "checker_identity" := JText(CHECKER_IDENTITY)],
      Some(ArtifactId(sha)), Some("check-submitted:" + digest), None)
  }

  function ScopeJson(scope: Scope): Json {
    JObject(map["campaign_id" := TextOrNull(scope.campaignId), "epoch_id" := TextOrNull(scope.epochId),
                "turn_id" := TextOrNull(scope.turnId)])
  }

  function TextOrNull(s: Option<string>): Json {
    if s.Some? then JText(s.value) else JNull
  }

  function ReuseDraft(st: State, job: string, reuseScope: string): Draft {
    Draft(CheckReused, ObjectSubject, job, map["original_submission_scope" := ScopeJson(ScopeOf(st.events, job))],
          None, Some("check-reused:" + job + ":" + reuseScope), None)
  }

  function ClaimCreation(q: QueueConfig, d: Declaration, environment: Json): Op {
    CreateObject(ClaimId(q, d), FormalClaim, d.name, Lean, d.proposition,
      map["formal_system" := JText("lean4"), "declaration" := JText(d.name),
          "proposition_sha256" := JText(q.sha256(d.proposition)), "environment_identity" := environment],
      None)
  }

  function ScratchDraft(q: QueueConfig, job: string, d: Declaration, checkpoint: Json, stored: string): Draft {
    Draft(ScratchKernelChecked, ObjectSubject, ClaimId(q, d),
      map["declaration" := JText(d.name), "proposition_sha256" := JText(q.sha256(d.proposition)),
          "checkpoint_key" := checkpoint,
          "direct_dependencies" := DependencyList(d)],
      Some(stored), Some("scratch-checked:" + job + ":" + q.sha256(d.proposition)), None)
  }

  function AdvanceCalls(claim: string, goals: seq<string>): seq<Call> {
    if goals == [] then []
    else (if claim == goals[0] then [] else [Link(claim, Advances, goals[0])]) + AdvanceCalls(claim, goals[1..])
  }

  /** One turn of the first loop of a successful completion: the claim of one declaration. */
  function OneClaimCalls(q: QueueConfig, st: State, job: string, goals: seq<string>, stored: string,
                         d: Declaration, made: set<string>): seq<Call>
    requires Readable(st, job)
  {
    var claim, properties := ClaimId(q, d), st.objects[job].properties;
    (if claim in st.objects || claim in made then [] else [Uncaught(ClaimCreation(q, d,
        properties["environment_identity"]))]) +
    [Link(claim, ProducedBy, job)] + AdvanceCalls(claim, goals) +
    [Uncaught(Record(ScratchDraft(q, job, d, properties["checkpoint_key"], stored)))]
  }

  function ClaimCalls(q: QueueConfig, st: State, job: string, goals: seq<string>, stored: string,
                      ds: seq<Declaration>, made: set<string>): seq<Call>
    requires Readable(st, job)
    decreases |ds|
  {
    if ds == [] then []
    else
      OneClaimCalls(q, st, job, goals, stored, ds[0], made) +
      ClaimCalls(q, st, job, goals, stored, ds[1..], made + {ClaimId(q, ds[0])})
  }

  /** The last declaration of a name decides which claim the name means. */
  function ByDeclaration(q: QueueConfig, ds: seq<Declaration>, name: string): Option<string> {
    if ds == [] then None
    else if ds[|ds| - 1].name == name then Some(ClaimId(q, ds[|ds| - 1]))
    else ByDeclaration(q, ds[..|ds| - 1], name)
  }

  function DependencyCalls(q: QueueConfig, ds: seq<Declaration>, source: string, names: seq<string>): seq<Call> {
    if names == [] then []
    else
      var target := ByDeclaration(q, ds, names[0]);
      (if target.Some? then [Link(source, DependsOn, target.value)] else []) + DependencyCalls(q, ds, source,
          names[1..])
  }

  /** The second loop: dependencies between declarations of this result. */
  function AllDependencyCalls(q: QueueConfig, all: seq<Declaration>, ds: seq<Declaration>): seq<Call>
    decreases |ds|
  {
    if ds == [] then []
    else
      var source := ByDeclaration(q, all, ds[0].name);
      (if source.Some? then DependencyCalls(q, all, source.value, ds[0].dependencies) else []) +
      AllDependencyCalls(q, all, ds[1..])
  }

  function Names(ds: seq<Declaration>): seq<Json> {
    seq(|ds|, i requires 0 <= i < |ds| => JText(ds[i].name))
  }

  function DeclarationJson(d: Declaration): Json {
    JObject(map["declaration" := JText(d.name), "proposition" := JText(d.proposition),
                "direct_dependencies" := DependencyList(d)])
  }

  function DependencyList(d: Declaration): Json {
    JList(seq(|d.dependencies|, i requires 0 <= i < |d.dependencies| => JText(d.dependencies[i])))
  }

  function ResultText(q: QueueConfig, op: QueueOp): string
    requires op.Complete?
  {
    q.render(JObject(map["format" := JText("leanevolve-scratch-result-v1"), "job_id" := JText(op.job),
      "outcome" := JText(op.outcome), "exit_code" := JNumber(op.exitCode as real),
      "diagnostics" := JText(op.diagnostics), "phase_timings" := op.timings,
      "declarations" := JList(seq(|op.declarations|, i requires 0 <= i < |op.declarations| =>
        DeclarationJson(op.declarations[i])))])) + "\n"
  }

  /** The terminal event of a result, and the only event of a completion that moves a job. */
  function TerminalDraft(q: QueueConfig, op: QueueOp): Draft
    requires op.Complete?
  {
    var digest := JText(q.sha256(op.diagnostics));
    if op.outcome == "success" then
      Draft(CheckCompleted, ObjectSubject, op.job,
        map["outcome" := JText(op.outcome), "exit_code" := JNumber(op.exitCode as real),
            "phase_timings" := op.timings, "diagnostics_sha256" := digest],
        Some(ArtifactId(q.sha256(ResultText(q, op)))), None, None)
    else
      Plain(CheckFailed, op.job,
        map["exit_code" := JNumber(op.exitCode as real), "phase_timings" := op.timings, "diagnostics_sha256" := digest])
  }

  /** Everything a completion does before its terminal event. */
  function ResultCalls(q: QueueConfig, st: State, op: QueueOp): seq<Call>
    requires op.Complete? && Readable(st, op.job)
  {
    var text := ResultText(q, op);
    var stored := ArtifactId(q.sha256(text));
    StoreCalls(q, st, text, "scratch_result", "application/json", "Scratch result for " + op.job) +
    [Link(stored, ProducedBy, op.job)] +
    if op.outcome == "success" then
      [Note(ElaborationSucceeded, op.job, map["declarations" := JList(Names(op.declarations))])] +
      ClaimCalls(q, st, op.job, FocusGoals(st, op.job), stored, op.declarations, {}) +
      AllDependencyCalls(q, op.declarations, op.declarations)
    else
      [Note(ElaborationFailed, op.job, map["diagnostics_sha256" := JText(q.sha256(op.diagnostics))])]
  }

  /** Every check row can be read, as `pending` needs. */
  predicate AllReadable(st: State) {
    forall id :: id in st.objects && st.objects[id].kind == Check ==> Readable(st, id)
  }

  /** The jobs `pending` returns, without their order. */
  function Pending(st: State): set<string> {
    set id | id in st.objects && st.objects[id].kind == Check && JobState(st, id) == Queued
  }

  /**
    The transaction an operation runs, or `None` when it raises before writing.
    Checks on the current state come first and lie outside the transaction.
   */
  function Plan(q: QueueConfig, st: State, op: QueueOp): Option<Session> {
    match op
    case Submit(r) =>
      var job := JobId(q, r);
      var env := ScopedEnvelope(LeanScratchGateway, QUEUE_TOOL, r.scope);
      if job in st.objects then
        if FirstTruthy(r.scope).None? then None
        else Some(Session(env, [Uncaught(Record(ReuseDraft(st, job, FirstTruthy(r.scope).value)))]))
      else if !AllReadable(st) || |Pending(st)| >= q.maxPending then None
      else Admitted(q, st, r)
    case Start(job, worker, delay) =>
      if !Readable(st, job) || JobState(st, job) != Queued then None
      else Some(Session(ScopedEnvelope(LeanScratchGateway, WORKER_TOOL, ScopeOf(st.events, job)),
             [Note(CheckStarted, job, map["worker_id" := JText(worker), "queue_delay_seconds" := JNumber(delay)])]))
    case Complete(job, _, _, _, _, _) =>
      if !Readable(st, job) || JobState(st, job) != Running then None
      else if !ArtifactCompatible(st, q.sha256(ResultText(q, op)), |ResultText(q, op)|) then None
      else Some(Session(ScopedEnvelope(LeanScratchGateway, WORKER_TOOL, ScopeOf(st.events, job)),
             ResultCalls(q, st, op) + [Uncaught(Record(TerminalDraft(q, op)))]))
    case Cancel(job, reason) =>
      Marked(st, job, LedgerService, SERVICE_TOOL, CheckCancelled, map["reason" := JText(reason)])
    case TimeOut(job, budget) =>
      Marked(st, job, LeanScratchGateway, WORKER_TOOL, CheckTimedOut, map["budget_seconds" := JNumber(budget)])
    case Interrupt(job, detectedBy) =>
      Marked(st, job, LedgerService, RECONCILE_TOOL, CheckInterrupted, map["detected_by" := JText(detectedBy)])
    case Supersede(job, newer) =>
      if !Readable(st, newer) then None
      else Marked(st, job, LedgerService, SERVICE_TOOL, CheckSuperseded, map["superseded_by" := JText(newer)])
    case Reconcile(job) =>
      if job !in st.objects || st.objects[job].kind != Check || JobState(st, job) != Running then None
      else Some(Session(ScopedEnvelope(LedgerService, RECONCILE_TOOL, ScopeOf(st.events, job)),
             [Note(CheckInterrupted, job, map["detected_by" := JText("worker_startup")]),
              Note(RecoveryRecorded, job, map["resolution" := JText("safe_to_resubmit_from_source_artifact")])]))
    case Withdraw(_, _) => None
  }

  /** The write transaction of a submission that has passed the checks. */
  function Admitted(q: QueueConfig, st: State, r: Request): Option<Session> {
    if !ArtifactCompatible(st, q.sha256(r.source), |r.source|) then None
    else Some(Session(ScopedEnvelope(LeanScratchGateway, QUEUE_TOOL, r.scope), SubmitCalls(q, st, r)))
  }

  function Marked(st: State, job: string, actor: Actor, tool: string, action: Action,
      payload: Properties): Option<Session> {
    if !Readable(st, job) then None
    else Some(Session(ScopedEnvelope(actor, tool, ScopeOf(st.events, job)), [Note(action, job, payload)]))
  }

  /** One queue operation as one atomic step. */
  function Next(q: QueueConfig, st: State, op: QueueOp): State {
    if op.Withdraw? then Invalidate(q.ledger, st, op.job, op.reason)
    else
      var plan := Plan(q, st, op);
      if plan.Some? then Transact(q.ledger, st, plan.value) else st
  }

  /** The operation gets past its checks and its transaction commits. */
  predicate Commits(q: QueueConfig, st: State, op: QueueOp) {
    if op.Withdraw? then Readable(st, op.job) && InvalidateEffect(q.ledger, st, op.job, op.reason).ok
    else
      var plan := Plan(q, st, op);
      plan.Some? && RunCalls(q.ledger, plan.value.env, st, plan.value.calls).ok
  }

  // ---- The operational history of a job ----

  /** The actions that moved the job, in order. */
  function Moves(events: seq<EventCore>): seq<Action> {
    if events == [] then []
    else
      var e := events[|events| - 1];
      Moves(events[..|events| - 1]) + (if OperationalEvent(e).Some? then [e.action] else [])
  }

  function History(st: State, job: string): seq<Action> {
    Moves(EventsOf(st.events, job, None))
  }

  predicate Abandons(a: Action) {
    a == CheckTimedOut || a == CheckInterrupted || a == CheckCancelled || a == CheckSuperseded
  }

  /** How far a job's history has come. */
  datatype Phase = Fresh | Waiting | Begun | Finished | Abandoned

  /** The automaton of job histories; `None` is the dead state. */
  function Advance(p: Phase, a: Action): Option<Phase> {
    match p
    case Fresh => if a == CheckSubmitted then Some(Waiting) else if a == CheckStarted then Some(Begun)
                  else if Abandons(a) then Some(Abandoned) else None
    case Waiting => if a == CheckStarted then Some(Begun) else if Abandons(a) then Some(Abandoned) else None
    case Begun => if a == CheckCompleted || a == CheckFailed then Some(Finished)
                  else if Abandons(a) then Some(Abandoned) else None
    case Finished => if Abandons(a) then Some(Abandoned) else None
    case Abandoned => if Abandons(a) then Some(Abandoned) else None
  }

  function PhaseOf(history: seq<Action>): Option<Phase> {
    if history == [] then Some(Fresh)
    else
      var p := PhaseOf(history[..|history| - 1]);
      if p.None? then None else Advance(p.value, history[|history| - 1])
  }

  /** The state the queue reads is the phase the history is in. */
  function PhaseState(p: Phase, history: seq<Action>): Operational {
    match p
    case Fresh => Queued
    case Waiting => Queued
    case Begun => Running
    case Finished => if history != [] && history[|history| - 1] == CheckFailed then Failed else Completed
    case Abandoned => if history != [] && history[|history| - 1] == CheckTimedOut then TimedOut else Interrupted
  }

  lemma MoveNamesPhase(p: Phase, e: EventCore, history: seq<Action>)
    requires Advance(p, e.action).Some? && history != [] && history[|history| - 1] == e.action
    ensures OperationalEvent(e) == Some(PhaseState(Advance(p, e.action).value, history))
  {
  }

  lemma {:induction false} StateFollowsPhase(events: seq<EventCore>)
    requires PhaseOf(Moves(events)).Some?
    ensures var h := Moves(events);
            var s := OperationalOf(events);
            (if s.Some? then s.value else Queued) == PhaseState(PhaseOf(h).value, h)
  {
    hide OperationalEvent, Advance, PhaseState;
    if events == [] {
      assert PhaseState(Fresh, []) == Queued by { FreshIsQueued(); }
    } else {
      var rest, e := events[..|events| - 1], events[|events| - 1];
      if OperationalEvent(e).Some? {
        var h := Moves(events);
        assert h[..|h| - 1] == Moves(rest);
        MoveNamesPhase(PhaseOf(Moves(rest)).value, e, h);
      } else {
        assert Moves(events) == Moves(rest);
        StateFollowsPhase(rest);
      }
    }
  }

  lemma FreshIsQueued()
    ensures PhaseState(Fresh, []) == Queued
  {
  }

  // ---- What the shape of a history means ----

  predicate Terminal(a: Action) {
    a == CheckCompleted || a == CheckFailed
  }

  lemma {:induction false} PhasePrefix(history: seq<Action>, k: nat)
    requires PhaseOf(history).Some? && k <= |history|
    ensures PhaseOf(history[..k]).Some?
  {
    if k < |history| {
      var rest := history[..|history| - 1];
      PhasePrefix(rest, k);
      assert rest[..k] == history[..k];
    } else {
      assert history[..k] == history;
    }
  }

  /** In a well-shaped history each step is taken from the phase the prefix before it reached. */
  lemma PhaseAt(history: seq<Action>, i: nat)
    requires PhaseOf(history).Some? && i < |history|
    ensures PhaseOf(history[..i]).Some? && PhaseOf(history[..i + 1]) == Advance(PhaseOf(history[..i]).value, history[i])
    ensures PhaseOf(history[..i + 1]).Some?
  {
    PhasePrefix(history, i + 1);
    assert history[..i + 1][..i] == history[..i];
  }

  function Order(p: Phase): nat {
    match p
    case Fresh => 0
    case Waiting => 1
    case Begun => 2
    case Finished => 3
    case Abandoned => 4
  }

  /** What one accepted step says about the phases around it. */
  lemma AdvanceFacts(p: Phase, a: Action)
    requires Advance(p, a).Some?
    ensures var p' := Advance(p, a).value;
            && Order(p) <= Order(p')
            && (a == CheckSubmitted ==> Order(p) == 0 && Order(p') == 1)
            && (a == CheckStarted ==> Order(p) <= 1 && Order(p') == 2)
            && (Terminal(a) ==> Order(p) == 2 && Order(p') == 3)
            && (Abandons(a) ==> Order(p') == 4)
            && (Order(p') == 2 ==> a == CheckStarted)
  {
  }

  lemma {:induction false} PhasesOnlyAdvance(history: seq<Action>, i: nat, j: nat)
    requires PhaseOf(history).Some? && i <= j <= |history|
    ensures PhaseOf(history[..i]).Some? && PhaseOf(history[..j]).Some?
    ensures Order(PhaseOf(history[..i]).value) <= Order(PhaseOf(history[..j]).value)
    decreases j
  {
    hide PhaseOf, Advance, Order;
    PhasePrefix(history, i);
    PhasePrefix(history, j);
    if i < j {
      PhasesOnlyAdvance(history, i, j - 1);
      PhaseAt(history, j - 1);
      AdvanceFacts(PhaseOf(history[..j - 1]).value, history[j - 1]);
    }
  }

  /** The phases before and after step `i`, with what the step says about them. */
  lemma StepFacts(history: seq<Action>, i: nat)
    requires PhaseOf(history).Some? && i < |history|
    ensures PhaseOf(history[..i]).Some? && PhaseOf(history[..i + 1]).Some?
    ensures var before, after, a := Order(PhaseOf(history[..i]).value), Order(PhaseOf(history[..i + 1]).value),
            history[i];
            && before <= after
            && (a == CheckSubmitted ==> before == 0 && after == 1)
            && (a == CheckStarted ==> before <= 1 && after == 2)
            && (Terminal(a) ==> before == 2 && after == 3)
            && (Abandons(a) ==> after == 4)
            && (after == 2 ==> a == CheckStarted)
  {
    hide PhaseOf, Advance, Order, Terminal, Abandons;
    PhaseAt(history, i);
    AdvanceFacts(PhaseOf(history[..i]).value, history[i]);
  }

  /** A submission comes first; a start and a terminal event happen at most once each. */
  lemma AtMostOnce(history: seq<Action>, i: nat, j: nat)
    requires PhaseOf(history).Some? && i < j < |history|
    ensures !(history[i] == CheckStarted && history[j] == CheckStarted)
    ensures !(Terminal(history[i]) && Terminal(history[j]))
    ensures history[j] != CheckSubmitted
  {
    hide PhaseOf, Order, Terminal, Abandons;
    StepFacts(history, i);
    StepFacts(history, j);
    PhasesOnlyAdvance(history, i + 1, j);
    NotFreshAfterStep(history, i);
  }

  lemma NotFreshAfterStep(history: seq<Action>, i: nat)
    requires PhaseOf(history).Some? && i < |history|
    ensures PhaseOf(history[..i + 1]).Some? && Order(PhaseOf(history[..i + 1]).value) > 0
  {
    hide PhaseOf;
    PhaseAt(history, i);
  }

  /** A terminal event immediately follows the start of its job. */
  lemma TerminalFollowsStart(history: seq<Action>, i: nat)
    requires PhaseOf(history).Some? && i < |history| && Terminal(history[i])
    ensures i > 0 && history[i - 1] == CheckStarted
  {
    FreshStart(history);
    hide PhaseOf, Order, Terminal, Abandons;
    StepFacts(history, i);
    if i > 0 {
      StepFacts(history, i - 1);
    }
  }

  lemma FreshStart(history: seq<Action>)
    ensures PhaseOf(history[..0]) == Some(Fresh) && Order(Fresh) == 0
  {
    assert history[..0] == [];
  }

  /** Once a job has been cancelled, timed out, interrupted or superseded, it neither starts nor finishes. */
  lemma AbandonedNeverFinishes(history: seq<Action>, i: nat, j: nat)
    requires PhaseOf(history).Some? && i < j < |history| && Abandons(history[i])
    ensures !Terminal(history[j]) && history[j] != CheckStarted && history[j] != CheckSubmitted
  {
    hide PhaseOf, Order, Terminal, Abandons;
    StepFacts(history, i);
    StepFacts(history, j);
    PhasesOnlyAdvance(history, i + 1, j);
  }

  /**
    The automaton accepts exactly: a submission if any, a start if any, its terminal
    event if any, then abandonments.
   */
  predicate Shape(history: seq<Action>) {
    exists a: nat, b: nat, c: nat :: a <= b <= c <= |history| && Split(history, a, b, c)
  }

  predicate Split(history: seq<Action>, a: nat, b: nat, c: nat)
    requires a <= b <= c <= |history|
  {
    && (a == 0 || (a == 1 && history[0] == CheckSubmitted))
    && (b == a || (b == a + 1 && history[a] == CheckStarted))
    && (c == b || (c == b + 1 && b == a + 1 && Terminal(history[b])))
    && forall i :: c <= i < |history| ==> Abandons(history[i])
  }

  lemma ShapeIsPhase(history: seq<Action>)
    ensures Shape(history) <==> PhaseOf(history).Some?
  {
    hide PhaseOf;
    if PhaseOf(history).Some? {
      var _, _, _ := PhaseSplits(history);
    }
    if Shape(history) {
      var a: nat, b: nat, c: nat :| a <= b <= c <= |history| && Split(history, a, b, c);
      SplitPhases(history, a, b, c);
    }
  }

  /** The phase a history of this length with this split is in. */
  function PhaseFor(n: nat, a: nat, b: nat, c: nat): Phase {
    if c < n then Abandoned else if b < c then Finished else if a < b then Begun else if a > 0 then Waiting else Fresh
  }

  lemma SplitSnoc(rest: seq<Action>, x: Action, a: nat, b: nat, c: nat) returns (a': nat, b': nat, c': nat)
    requires a <= b <= c <= |rest| && Split(rest, a, b, c)
    requires Advance(PhaseFor(|rest|, a, b, c), x).Some?
    ensures a' <= b' <= c' <= |rest| + 1 && Split(rest + [x], a', b', c')
    ensures PhaseFor(|rest| + 1, a', b', c') == Advance(PhaseFor(|rest|, a, b, c), x).value
  {
    a', b', c' := a, b, c;
    if x == CheckSubmitted {
      a', b', c' := 1, 1, 1;
    } else if x == CheckStarted {
      b', c' := a + 1, a + 1;
    } else if Terminal(x) {
      c' := b + 1;
    }
  }

  /** The split of a well-shaped history, and what its phase says about it. */
  lemma {:induction false} PhaseSplits(history: seq<Action>) returns (a: nat, b: nat, c: nat)
    requires PhaseOf(history).Some?
    ensures a <= b <= c <= |history| && Split(history, a, b, c)
    ensures PhaseOf(history).value == PhaseFor(|history|, a, b, c)
  {
    hide Advance;
    if history == [] {
      return 0, 0, 0;
    }
    var n := |history| - 1;
    var rest, x := history[..n], history[n];
    a, b, c := PhaseSplits(rest);
    a, b, c := SplitSnoc(rest, x, a, b, c);
    assert rest + [x] == history;
  }

  lemma {:induction false} SplitPhases(history: seq<Action>, a: nat, b: nat, c: nat)
    requires a <= b <= c <= |history| && Split(history, a, b, c)
    ensures PhaseOf(history) == Some(PhaseFor(|history|, a, b, c))
  {
    if history != [] {
      var n := |history| - 1;
      var rest := history[..n];
      if c <= n {
        SplitPhases(rest, a, b, c);
      } else if b <= n {
        SplitPhases(rest, a, b, b);
      } else if a <= n {
        SplitPhases(rest, a, a, a);
      } else {
        SplitPhases(rest, 0, 0, 0);
      }
    }
  }
}
