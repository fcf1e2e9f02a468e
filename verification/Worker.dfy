/**
  The warm worker and its service loop: which job is taken, what becomes of it
  whatever the backend does, and in which order a queue is drained.
 */
module Worker {
  import opened Wrappers
  import opened Vocabulary
  import opened StandardVocabulary
  import opened Events
  import opened Store
  import opened Derive
  import opened Invalidation
  import opened Queue
  import opened QueueRuns
  import opened QueueService
  import opened Confluence
  import Completion

  /** What the backend makes of one source: an answer, its time budget exceeded, or any other exception. */
  datatype Answer = Checked(returncode: int, diagnostics: string, declarations: seq<Declaration>,
      timings: Json) | OutOfTime | Crashed

  // ---- The next job ----

  predicate Awaits(st: State, id: string, checkpoint: string) {
    && IsCheck(st, id) && JobState(st, id) == Queued
    && "checkpoint_key" in st.objects[id].properties && st.objects[id].properties["checkpoint_key"] == JText(checkpoint)
  }

  function WaitingJobs(st: State, checkpoint: string): set<string> {
    set id | id in st.objects && Awaits(st, id, checkpoint)
  }

  function Priority(o: ObjectRecord): real {
    if "priority" in o.properties && o.properties["priority"].JNumber? then o.properties["priority"].n else 0.0
  }

  /** `a` is served before `b`: higher priority, or equal and created earlier. */
  predicate Before(a: ObjectRecord, b: ObjectRecord) {
    Priority(a) > Priority(b) || (Priority(a) == Priority(b) && a.createdEventId < b.createdEventId)
  }

  predicate Ahead(st: State, a: string, b: string) {
    a in st.objects && b in st.objects && Before(st.objects[a], st.objects[b])
  }

  lemma ServedFirst(st: State, job: Option<string>, checkpoint: string)
    requires job.Some? ==> job.value in WaitingJobs(st, checkpoint)
    requires job.Some? ==>
               forall other :: other in WaitingJobs(st, checkpoint) ==>
                 !Before(st.objects[other], st.objects[job.value])
    ensures job.Some? ==> forall other :: other in WaitingJobs(st, checkpoint) ==>
              var a, b := st.objects[other], st.objects[job.value];
              && Priority(a) <= Priority(b) && (Priority(a) == Priority(b) ==> b.createdEventId <= a.createdEventId)
  {
    hide Awaits, Priority;
  }

  predicate Foremost(st: State, id: string, checkpoint: string) {
    Awaits(st, id, checkpoint) &&
    forall other :: other in WaitingJobs(st, checkpoint) ==> !Ahead(st, other, id)
  }

  // ---- What a step does to the checks ----

  /** `job` is now in state `to`; every other check is where it was, and none is new. */
  ghost predicate Moved(s: State, t: State, job: string, to: Operational) {
    && SameChecks(s, t)
    && JobState(t, job) == to
    && forall other :: IsCheck(s, other) && other != job ==> JobState(t, other) == JobState(s, other)
  }

  lemma MovedTwice(a: State, b: State, c: State, job: string, x: Operational, y: Operational)
    requires IsCheck(a, job) && Moved(a, b, job, x) && Moved(b, c, job, y)
    ensures Moved(a, c, job, y)
  {
    hide JobState;
    forall other | IsCheck(a, other) && other != job ensures JobState(c, other) == JobState(a, other) {
      assert IsCheck(b, other);
    }
  }

  lemma Unmoved(st: State, job: string)
    ensures Moved(st, st, job, JobState(st, job))
  {
  }

  lemma MovedOnlyMoves(s: State, t: State, job: string, a: Action, to: Operational)
    requires IsCheck(s, job) && MovedOnly(s, t, job, a, to)
    ensures Moved(s, t, job, to)
  {
    hide JobState, History;
    forall other | IsCheck(s, other) && other != job ensures JobState(t, other) == JobState(s, other) {
      assert SameHistory(s, t, other);
    }
  }

  /** An operation that is one unkeyed record about the job. */
  predicate Simple(op: QueueOp) {
    op.Start? || op.TimeOut? || op.Interrupt?
  }

  function SimpleDraft(op: QueueOp): Draft
    requires Simple(op)
  {
    match op
    case Start(job, worker, delay) =>
      Plain(CheckStarted, job, map["worker_id" := JText(worker), "queue_delay_seconds" := JNumber(delay)])
    case TimeOut(job, budget) => Plain(CheckTimedOut, job, map["budget_seconds" := JNumber(budget)])
    case Interrupt(job, detectedBy) => Plain(CheckInterrupted, job, map["detected_by" := JText(detectedBy)])
  }

  function SimpleEnvelope(st: State, op: QueueOp): Envelope
    requires Simple(op)
  {
    if op.Interrupt? then ScopedEnvelope(LedgerService, RECONCILE_TOOL, ScopeOf(st.events, op.job))
    else ScopedEnvelope(LeanScratchGateway, WORKER_TOOL, ScopeOf(st.events, op.job))
  }

  function SimpleState(op: QueueOp): Operational
    requires Simple(op)
  {
    if op.Start? then Running else if op.TimeOut? then TimedOut else Interrupted
  }

  lemma ToolsAreIdentifiers()
    ensures ValidIdentifier(WORKER_TOOL) && ValidIdentifier(RECONCILE_TOOL)
  {
    assert forall i :: 0 <= i < |WORKER_TOOL| ==> WORKER_TOOL[i] != '\n' && WORKER_TOOL[i] != '\r';
    assert forall i :: 0 <= i < |RECONCILE_TOOL| ==> RECONCILE_TOOL[i] != '\n' && RECONCILE_TOOL[i] != '\r';
  }

  /** Under the standard vocabulary such a record is never refused. */
  lemma SimpleIsAccepted(st: State, op: QueueOp)
    requires Simple(op) && ValidIdentifier(op.job)
    ensures Acceptable(Standard(), SimpleEnvelope(st, op), SimpleDraft(op))
  {
    hide ScopeOf, ValidIdentifier;
    ToolsAreIdentifiers();
  }

  lemma SimplePlan(q: QueueConfig, st: State, op: QueueOp)
    requires Simple(op) && Readable(st, op.job) && (op.Start? ==> JobState(st, op.job) == Queued)
    ensures Plan(q, st, op) == Some(Session(SimpleEnvelope(st, op), [Uncaught(Record(SimpleDraft(op)))]))
  {
    hide ScopeOf, JobState;
  }

  /** A start, a time-out or an interruption always commits, and moves exactly its job. */
  lemma SimpleStepMoves(q: QueueConfig, st: State, op: QueueOp)
    requires q.ledger.vocab == Standard()
    requires Simple(op) && Readable(st, op.job) && ValidIdentifier(op.job)
            && (op.Start? ==> JobState(st, op.job) == Queued)
    ensures Moved(st, Next(q, st, op), op.job, SimpleState(op))
    ensures Next(q, st, op).objects == st.objects
  {
    hide Plan, ScopeOf, JobState, Acceptable, Standard, MovedOnly, Moved, RunCalls, ValidIdentifier;
    var d, env := SimpleDraft(op), SimpleEnvelope(st, op);
    SimpleIsAccepted(st, op);
    SimplePlan(q, st, op);
    SingleCall(q.ledger, env, st, Record(d));
    assert RecordEffect(q.ledger, env, st, d).ok;
    var t := RecordEffect(q.ledger, env, st, d).state;
    RecordMoves(q.ledger, env, st, d);
    assert ActionState(d.action) == Some(SimpleState(op));
    MovedOnlyMoves(st, t, op.job, d.action, SimpleState(op));
  }

  // ---- Completing ----

  lemma QuietThenMoves(s: State, m: State, t: State, job: string, a: Action, to: Operational)
    requires IsCheck(s, job) && Quiet(s, m) && MovedOnly(m, t, job, a, to)
    ensures Moved(s, t, job, to)
  {
    hide JobState, History;
    forall other | IsCheck(s, other) && other != job ensures JobState(t, other) == JobState(s, other) {
      assert QueueOwned(m, other) && SameHistory(s, m, other) && SameHistory(m, t, other);
    }
  }

  /** A completion that commits finishes exactly its job; one that does not leaves no trace. */
  lemma CompletionMoves(q: QueueConfig, st: State, op: QueueOp)
    requires op.Complete? && Readable(st, op.job)
    ensures Commits(q, st, op) ==> Moved(st, Next(q, st, op), op.job, if op.outcome == "success" then Completed
            else Failed)
    ensures !Commits(q, st, op) ==> Next(q, st, op) == st
  {
    hide RunCalls, ResultCalls, TerminalDraft, Quiet, RecordEffect, MovedOnly, History, ArtifactCompatible, JobState,
        ResultText, Moved, ScopeOf;
    var plan := Plan(q, st, op);
    if plan.Some? {
      var env, calls, d := plan.value.env, ResultCalls(q, st, op), TerminalDraft(q, op);
      TerminalFacts(q, op);
      OutcomeState(q, op);
      ResultHarmless(q, st, op);
      HarmlessCallsAreQuiet(q.ledger, env, st, calls);
      var mid := RunCalls(q.ledger, env, st, calls);
      CallsAppend(q.ledger, env, st, calls, [Uncaught(Record(d))]);
      SingleCall(q.ledger, env, mid.state, Record(d));
      if Commits(q, st, op) {
        RecordMoves(q.ledger, env, mid.state, d);
        QuietThenMoves(st, mid.state, RecordEffect(q.ledger, env, mid.state, d).state, op.job, d.action,
            ActionState(d.action).value);
      }
    }
  }

  lemma OutcomeState(q: QueueConfig, op: QueueOp)
    requires op.Complete?
    ensures ActionState(TerminalDraft(q, op).action) == Some(if op.outcome == "success" then Completed else Failed)
  {
    hide ResultText;
  }

  // ---- What the worker needs of a ledger, and keeps ----

  ghost predicate Drivable(st: State) {
    AllReadable(st) && Identified(st)
  }

  lemma {:induction false} CallsKeepIdentified(cfg: Config, env: Envelope, st: State, calls: seq<Call>)
    requires Identified(st)
    ensures Identified(RunCalls(cfg, env, st, calls).state)
    decreases |calls|
  {
    hide Apply, Identified;
    if calls != [] {
      ApplyKeepsIdentified(cfg, env, st, calls[0].op);
      CallsKeepIdentified(cfg, env, Apply(cfg, env, st, calls[0].op).state, calls[1..]);
    }
  }

  lemma NextKeepsIdentified(q: QueueConfig, st: State, op: QueueOp)
    requires Identified(st) && !op.Withdraw?
    ensures Identified(Next(q, st, op))
  {
    hide Plan, RunCalls, Identified;
    var plan := Plan(q, st, op);
    if plan.Some? {
      CallsKeepIdentified(q.ledger, plan.value.env, st, plan.value.calls);
    }
  }

  lemma MovedKeepsReadable(s: State, t: State, job: string, to: Operational)
    requires Moved(s, t, job, to) && AllReadable(s)
    ensures AllReadable(t)
  {
    forall id | id in t.objects && t.objects[id].kind == Check ensures Readable(t, id) {
      assert IsCheck(t, id);
    }
  }

  lemma BeforeIsTransitive(a: ObjectRecord, b: ObjectRecord, c: ObjectRecord)
    ensures Before(a, b) && Before(b, c) ==> Before(a, c)
    ensures !Before(a, a)
  {
  }

  lemma StillDrivable(q: QueueConfig, st: State, op: QueueOp, job: string, to: Operational)
    requires Drivable(st) && !op.Withdraw? && Moved(st, Next(q, st, op), job, to)
    ensures Drivable(Next(q, st, op))
  {
    NextKeepsIdentified(q, st, op);
    MovedKeepsReadable(st, Next(q, st, op), job, to);
  }

  lemma DrivableJob(st: State, job: string)
    requires Drivable(st) && IsCheck(st, job)
    ensures Readable(st, job) && ValidIdentifier(job)
  {
  }

  function BudgetOf(o: ObjectRecord): real {
    if "budget_seconds" in o.properties && o.properties["budget_seconds"].JNumber?
        then o.properties["budget_seconds"].n else 30.0
  }

  // ---- The worker ----

  datatype Outcome = Idle | Finished | TimedOutError | Raised

  ghost predicate Ends(s: State, t: State, job: string, outcome: Outcome) {
    match outcome
    case Idle => false
    case Finished => Moved(s, t, job, Completed) || Moved(s, t, job, Failed)
    case TimedOutError => Moved(s, t, job, TimedOut)
    case Raised => Moved(s, t, job, Queued) || Moved(s, t, job, Running)
  }

  class WarmWorker {
    const queue: DurableCheckQueue
    const checkpoint: string
    const environment: string
    const workerId: string
    var used: bool

    constructor (queue: DurableCheckQueue, checkpoint: string, environment: string, workerId: string)
      ensures this.queue == queue && this.checkpoint == checkpoint && this.environment == environment
              && this.workerId == workerId
      ensures !used
    {
      this.queue, this.checkpoint, this.environment, this.workerId := queue, checkpoint, environment, workerId;
      used := false;
    }

    ghost predicate Ready()
      reads this, queue, queue.ledger
    {
      queue.Attached() && queue.q.ledger.vocab == Standard() && Drivable(queue.ledger.Tables())
    }

    /** The head of `pending`. */
    method Pick() returns (job: Option<string>)
      ensures job.None? <==> WaitingJobs(queue.ledger.Tables(), checkpoint) == {}
      ensures job.Some? ==> Foremost(queue.ledger.Tables(), job.value, checkpoint)
      ensures job.Some? ==> forall other :: other in WaitingJobs(queue.ledger.Tables(), checkpoint) ==>
                var a, b := queue.ledger.objects[other], queue.ledger.objects[job.value];
                && Priority(a) <= Priority(b)
                && (Priority(a) == Priority(b) ==> b.createdEventId <= a.createdEventId)
    {
      hide Awaits, Before;
      var st := queue.ledger.Tables();
      var all := WaitingJobs(st, checkpoint);
      var todo := all;
      job := None;
      while todo != {}
        invariant todo <= all
        invariant job.None? ==> todo == all
        invariant job.Some? ==> job.value in all && forall other :: other in all - todo ==>
                !Before(st.objects[other], st.objects[job.value])
        decreases todo
      {
        var id :| id in todo;
        if job.None? || Before(st.objects[id], st.objects[job.value]) {
          forall other | other in all - todo ensures job.Some? && !Before(st.objects[other], st.objects[id]) {
            BeforeIsTransitive(st.objects[other], st.objects[id], st.objects[job.value]);
          }
          BeforeIsTransitive(st.objects[id], st.objects[id], st.objects[id]);
          job := Some(id);
        }
        todo := todo - {id};
      }
      ServedFirst(st, job, checkpoint);
    }

    /** `process_next`. */
    method ProcessNext(backend: string -> Answer) returns (taken: Option<string>, outcome: Outcome)
      requires Ready()
      modifies this, queue.ledger
      ensures Ready()
      ensures taken.None? <==> WaitingJobs(old(queue.ledger.Tables()), checkpoint) == {}
      ensures taken.None? ==> outcome == Idle && queue.ledger.Tables() == old(queue.ledger.Tables())
      ensures taken.Some? ==>
                && Foremost(old(queue.ledger.Tables()), taken.value, checkpoint)
                && Ends(old(queue.ledger.Tables()), queue.ledger.Tables(), taken.value, outcome)
    {
      hide Moved, Identified, AllReadable, JobState, Next, Commits, WaitingJobs, Standard, Tells, Priority;
      hide Completion.EdgesCompleted, Completion.RowsCompleted, Completion.LogCompleted, MovedOnly;
      taken := Pick();
      if taken.None? {
        return taken, Idle;
      }
      var job := taken.value;
      var st, q := queue.ledger.Tables(), queue.q;
      DrivableJob(st, job);
      if st.objects[job].properties["environment_identity"] != JText(environment) {
        Unmoved(st, job);
        return taken, Raised;
      }
      var start := QueueOp.Start(job, workerId, 0.0);
      SimpleStepMoves(q, st, start);
      StillDrivable(q, st, start, job, Running);
      var _ := queue.Start(job, workerId, 0.0);
      ghost var running := queue.ledger.Tables();
      used := true;
      match backend(job) {
        case OutOfTime =>
          var stop := QueueOp.TimeOut(job, BudgetOf(st.objects[job]));
          SimpleStepMoves(q, running, stop);
          StillDrivable(q, running, stop, job, TimedOut);
          MovedTwice(st, running, Next(q, running, stop), job, Running, TimedOut);
          var _ := queue.TimeOut(job, BudgetOf(st.objects[job]));
          outcome := TimedOutError;
        case Crashed =>
          outcome := Raised;
        case Checked(returncode, diagnostics, declarations, timings) =>
          var op := QueueOp.Complete(job, if returncode == 0 then "success" else "rejected", returncode, diagnostics,
                                     if returncode == 0 then declarations else [], timings);
          CompletionMoves(q, running, op);
          var committed := queue.Complete(op);
          if committed {
            var to := if returncode == 0 then Completed else Failed;
            StillDrivable(q, running, op, job, to);
            MovedTwice(st, running, Next(q, running, op), job, Running, to);
            outcome := Outcome.Finished;
          } else {
            outcome := Raised;
          }
      }
    }

    /** One turn of the service loop: an exception of the worker interrupts the job it had taken and ends the loop. */
    method ServeNext(backend: string -> Answer) returns (taken: Option<string>, raised: bool)
      requires Ready()
      modifies this, queue.ledger
      ensures Ready()
      ensures taken.None? <==> WaitingJobs(old(queue.ledger.Tables()), checkpoint) == {}
      ensures taken.None? ==> !raised && queue.ledger.Tables() == old(queue.ledger.Tables())
      ensures taken.Some? ==>
                && Foremost(old(queue.ledger.Tables()), taken.value, checkpoint)
                && Settles(old(queue.ledger.Tables()), queue.ledger.Tables(), taken.value, raised)
    {
      hide Moved, Identified, AllReadable, JobState;
      ghost var st := queue.ledger.Tables();
      var outcome;
      taken, outcome := ProcessNext(backend);
      raised := outcome == Raised;
      if raised {
        var job, now := taken.value, queue.ledger.Tables();
        var stop := QueueOp.Interrupt(job, "warm_worker_exception");
        StillReadable(st, now, job, outcome);
        SimpleStepMoves(queue.q, now, stop);
        StillDrivable(queue.q, now, stop, job, Interrupted);
        if Moved(st, now, job, Queued) {
          MovedTwice(st, now, Next(queue.q, now, stop), job, Queued, Interrupted);
        } else {
          MovedTwice(st, now, Next(queue.q, now, stop), job, Running, Interrupted);
        }
        var _ := queue.Interrupt(job, "warm_worker_exception");
      }
    }

    /**
      The service loop until the queue is empty or the worker raises.  Nothing
      it took is left queued or running, nothing else moved, and jobs were
      served by priority and then by age.
     */
    method Serve(backend: string -> Answer) returns (served: seq<string>, raised: bool)
      requires Ready()
      modifies this, queue.ledger
      ensures Ready()
      ensures Served(old(queue.ledger.Tables()), queue.ledger.Tables(), checkpoint, served)
      ensures !raised ==> WaitingJobs(queue.ledger.Tables(), checkpoint) == {}
                          && forall id :: id in served <==> id in WaitingJobs(old(queue.ledger.Tables()), checkpoint)
      ensures raised ==> served != [] && JobState(queue.ledger.Tables(), served[|served| - 1]) == Interrupted
    {
      hide JobState, Served, Settles, Foremost, WaitingJobs;
      ghost var st := queue.ledger.Tables();
      served, raised := [], false;
      ServingStarts(st, checkpoint);
      while true
        invariant Ready() && !raised
        invariant Served(st, queue.ledger.Tables(), checkpoint, served)
        decreases |WaitingJobs(queue.ledger.Tables(), checkpoint)|
      {
        ghost var now := queue.ledger.Tables();
        var taken;
        taken, raised := ServeNext(backend);
        if taken.None? {
          ServingEnds(st, now, checkpoint, served);
          return;
        }
        ServingGoesOn(st, now, queue.ledger.Tables(), checkpoint, served, taken.value, raised);
        served := served + [taken.value];
        if raised {
          return;
        }
      }
    }
  }

  /** The job taken has reached an end: its own when the worker lived, an interruption when it raised. */
  ghost predicate Settles(s: State, t: State, job: string, raised: bool) {
    if raised then Moved(s, t, job, Interrupted)
    else Moved(s, t, job, Completed) || Moved(s, t, job, Failed) || Moved(s, t, job, TimedOut)
  }

  lemma StillReadable(s: State, t: State, job: string, outcome: Outcome)
    requires IsCheck(s, job) && Ends(s, t, job, outcome) && Drivable(t)
    ensures Readable(t, job) && ValidIdentifier(job)
  {
    DrivableJob(t, job);
  }

  predicate Settled(state: Operational) {
    state == Completed || state == Failed || state == TimedOut || state == Interrupted
  }

  /** From `s` to `t` exactly the jobs `served` were taken, in the order of the queue, and each has reached an end. */
  ghost predicate Served(s: State, t: State, checkpoint: string, served: seq<string>) {
    && SameChecks(s, t)
    && (forall i, j :: 0 <= i < j < |served| ==> served[i] != served[j])
    && (forall id :: id in served ==> id in WaitingJobs(s, checkpoint) && Settled(JobState(t, id)))
    && (forall id :: IsCheck(s, id) && id !in served ==> JobState(t, id) == JobState(s, id))
    && (forall i, j :: 0 <= i < j < |served| ==> !Ahead(s, served[j], served[i]))
    && (forall i, w :: 0 <= i < |served| && w in WaitingJobs(t, checkpoint) ==> !Ahead(s, w, served[i]))
  }

  lemma ServingStarts(st: State, checkpoint: string)
    ensures Served(st, st, checkpoint, [])
  {
  }

  lemma StillWaiting(s: State, t: State, checkpoint: string, served: seq<string>, id: string)
    requires Served(s, t, checkpoint, served)
    ensures id in WaitingJobs(t, checkpoint) <==> id in WaitingJobs(s, checkpoint) && id !in served
  {
    hide JobState, Before;
    if IsCheck(t, id) { assert IsCheck(s, id); }
  }

  lemma ServingEnds(s: State, t: State, checkpoint: string, served: seq<string>)
    requires Served(s, t, checkpoint, served) && WaitingJobs(t, checkpoint) == {}
    ensures forall id :: id in served <==> id in WaitingJobs(s, checkpoint)
  {
    forall id ensures id in served <==> id in WaitingJobs(s, checkpoint) {
      StillWaiting(s, t, checkpoint, served, id);
    }
  }

  lemma WaitingShrinks(now: State, t: State, checkpoint: string, id: string, to: Operational)
    requires Moved(now, t, id, to) && to != Queued && id in WaitingJobs(now, checkpoint)
    ensures WaitingJobs(t, checkpoint) == WaitingJobs(now, checkpoint) - {id}
    ensures |WaitingJobs(t, checkpoint)| < |WaitingJobs(now, checkpoint)|
  {
    hide JobState;
    forall w ensures w in WaitingJobs(t, checkpoint) <==> w in WaitingJobs(now, checkpoint) && w != id {
      if IsCheck(t, w) { assert IsCheck(now, w); }
    }
  }

  lemma WaitingAreChecks(st: State, checkpoint: string, id: string)
    requires id in WaitingJobs(st, checkpoint)
    ensures IsCheck(st, id)
  {
  }

  lemma ServedStates(s: State, now: State, t: State, checkpoint: string, served: seq<string>, id: string,
      to: Operational)
    requires Served(s, now, checkpoint, served) && Moved(now, t, id, to) && Settled(to)
    requires id in WaitingJobs(s, checkpoint) && id !in served
    ensures SameChecks(s, t)
    ensures forall x :: x in served + [id] ==> x in WaitingJobs(s, checkpoint) && Settled(JobState(t, x))
    ensures forall x :: IsCheck(s, x) && x !in served + [id] ==> JobState(t, x) == JobState(s, x)
  {
    hide JobState, Ahead, WaitingJobs, Settled;
    forall x | x in served + [id] ensures x in WaitingJobs(s, checkpoint) && Settled(JobState(t, x)) {
      if x in served {
        WaitingAreChecks(s, checkpoint, x);
        assert IsCheck(now, x);
      }
    }
    forall x | IsCheck(s, x) && x !in served + [id] ensures JobState(t, x) == JobState(s, x) {
      assert id in served + [id];
      assert IsCheck(now, x);
    }
  }

  lemma ServedOrder(s: State, now: State, t: State, checkpoint: string, served: seq<string>, id: string)
    requires Served(s, now, checkpoint, served) && Foremost(now, id, checkpoint) && id in WaitingJobs(now, checkpoint)
    requires WaitingJobs(t, checkpoint) <= WaitingJobs(now, checkpoint)
    ensures var longer := served + [id];
            && (forall i, j :: 0 <= i < j < |longer| ==> !Ahead(s, longer[j], longer[i]))
            && (forall i, w :: 0 <= i < |longer| && w in WaitingJobs(t, checkpoint) ==> !Ahead(s, w, longer[i]))
  {
    forall w | w in WaitingJobs(now, checkpoint) ensures w in s.objects && now.objects[w] == s.objects[w] {
      StillWaiting(s, now, checkpoint, served, w);
    }
    assert forall w :: w in WaitingJobs(now, checkpoint) ==> !Ahead(s, w, id);
    hide JobState, Ahead, WaitingJobs, Awaits, SameChecks;
    var longer := served + [id];
    forall i, j | 0 <= i < j < |longer| ensures !Ahead(s, longer[j], longer[i]) {
      assert longer[i] == served[i];
      if j < |served| { assert longer[j] == served[j]; }
    }
  }

  lemma ForemostWaits(st: State, id: string, checkpoint: string)
    requires Foremost(st, id, checkpoint)
    ensures id in WaitingJobs(st, checkpoint)
  {
  }

  lemma SettledIsNotQueued(to: Operational)
    requires Settled(to)
    ensures to != Queued
  {
  }

  lemma ServedOneMore(s: State, now: State, t: State, checkpoint: string, served: seq<string>, id: string,
      to: Operational)
    requires Served(s, now, checkpoint, served) && Foremost(now, id, checkpoint)
    requires Moved(now, t, id, to) && Settled(to)
    ensures Served(s, t, checkpoint, served + [id])
    ensures |WaitingJobs(t, checkpoint)| < |WaitingJobs(now, checkpoint)|
  {
    hide JobState, Ahead, WaitingJobs, Awaits, SameChecks, Foremost, Moved, Settled, IsCheck;
    ForemostWaits(now, id, checkpoint);
    SettledIsNotQueued(to);
    WaitingShrinks(now, t, checkpoint, id, to);
    StillWaiting(s, now, checkpoint, served, id);
    ServedStates(s, now, t, checkpoint, served, id, to);
    ServedOrder(s, now, t, checkpoint, served, id);
  }

  lemma ServingGoesOn(s: State, now: State, t: State, checkpoint: string, served: seq<string>, id: string, raised: bool)
    requires Served(s, now, checkpoint, served) && Foremost(now, id, checkpoint) && Settles(now, t, id, raised)
    ensures Served(s, t, checkpoint, served + [id])
    ensures |WaitingJobs(t, checkpoint)| < |WaitingJobs(now, checkpoint)|
    ensures raised ==> JobState(t, id) == Interrupted
  {
    hide JobState, Served, WaitingJobs, Foremost;
    var to := JobState(t, id);
    assert Settled(to) && Moved(now, t, id, to);
    ServedOneMore(s, now, t, checkpoint, served, id, to);
  }
}
