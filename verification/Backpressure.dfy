/**
  The bound on queued work when the pending check and the submission's
  transaction are separate steps, as they are in `submit`.
 */
module Backpressure {
  import opened Wrappers
  import opened Vocabulary
  import opened Events
  import opened Store
  import opened Derive
  import opened Invalidation
  import opened Queue
  import opened QueueRuns
  import opened StandardVocabulary
  import opened Submission

  // ---- Nothing but a submission adds queued work ----

  /** Harmless, or a recorded move to some state other than queued. */
  predicate Dull(objects: map<string, ObjectRecord>, op: Op) {
    Harmless(objects, op) ||
    (op.Record? && ActionState(op.draft.action).Some? && ActionState(op.draft.action) != Some(Queued))
  }

  ghost predicate Fewer(s: State, t: State) {
    && (forall id :: id in s.objects ==> id in t.objects && t.objects[id] == s.objects[id])
    && Pending(t) <= Pending(s)
  }

  lemma QuietIsFewer(s: State, t: State)
    requires Quiet(s, t)
    ensures Fewer(s, t)
  {
    forall id | id in Pending(t) ensures id in Pending(s) {
      assert IsCheck(t, id) && QueueOwned(t, id) && SameHistory(s, t, id);
    }
  }

  lemma MoveIsFewer(s: State, t: State, job: string, a: Action, to: Operational)
    requires MovedOnly(s, t, job, a, to) && to != Queued
    ensures Fewer(s, t)
  {
    forall id | id in Pending(t) ensures id in Pending(s) {
      assert id != job && SameHistory(s, t, id);
    }
  }

  lemma DullIsFewer(cfg: Config, env: Envelope, st: State, op: Op)
    requires Dull(st.objects, op)
    ensures Fewer(st, Apply(cfg, env, st, op).state)
  {
    hide Quiet, MovedOnly, RecordEffect, Harmless, Apply;
    if Harmless(st.objects, op) {
      HarmlessIsQuiet(cfg, env, st, op);
      QuietIsFewer(st, Apply(cfg, env, st, op).state);
    } else {
      RecordIsFewer(cfg, env, st, op.draft);
      assert Apply(cfg, env, st, op) == RecordEffect(cfg, env, st, op.draft) by { ApplyRecord(cfg, env, st, op.draft); }
    }
  }

  lemma ApplyRecord(cfg: Config, env: Envelope, st: State, d: Draft)
    ensures Apply(cfg, env, st, Record(d)) == RecordEffect(cfg, env, st, d)
  {
  }

  lemma RecordIsFewer(cfg: Config, env: Envelope, st: State, d: Draft)
    requires ActionState(d.action).Some? && ActionState(d.action) != Some(Queued)
    ensures Fewer(st, RecordEffect(cfg, env, st, d).state)
  {
    hide Pending, MovedOnly, Acceptable;
    if RecordEffect(cfg, env, st, d).state != st {
      RecordMoves(cfg, env, st, d);
      MoveIsFewer(st, RecordEffect(cfg, env, st, d).state, d.subjectId, d.action, ActionState(d.action).value);
    }
  }

  lemma {:induction false} DullCallsAreFewer(cfg: Config, env: Envelope, st: State, calls: seq<Call>)
    requires forall c :: c in calls ==> Dull(st.objects, c.op)
    ensures Fewer(st, RunCalls(cfg, env, st, calls).state)
    decreases |calls|
  {
    hide Apply, Pending, Dull;
    if calls != [] {
      var first := Apply(cfg, env, st, calls[0].op);
      DullIsFewer(cfg, env, st, calls[0].op);
      if first.ok || calls[0].caught {
        forall c | c in calls[1..] ensures Dull(first.state.objects, c.op) {
          DullPersists(st.objects, first.state.objects, c.op);
        }
        DullCallsAreFewer(cfg, env, first.state, calls[1..]);
      }
    }
  }

  lemma DullPersists(a: map<string, ObjectRecord>, b: map<string, ObjectRecord>, op: Op)
    requires Dull(a, op) && forall id :: id in a ==> id in b && b[id] == a[id]
    ensures Dull(b, op)
  {
  }

  /** No operation but a submission makes any job pending. */
  lemma OthersAddNothing(q: QueueConfig, st: State, op: QueueOp)
    requires !op.Submit?
    ensures Fewer(st, Next(q, st, op))
  {
    hide Pending, RunCalls, Invalidate, Plan;
    if op.Withdraw? {
      WithdrawalIsQuiet(q.ledger, st, op.job, op.reason);
      QuietIsFewer(st, Invalidate(q.ledger, st, op.job, op.reason));
    } else if Plan(q, st, op).Some? {
      var s := Plan(q, st, op).value;
      PlanIsDull(q, st, op);
      DullCallsAreFewer(q.ledger, s.env, st, s.calls);
    } else {
      NothingMore(st);
    }
  }

  lemma NothingMore(st: State)
    ensures Fewer(st, st)
  {
  }

  lemma PlanIsDull(q: QueueConfig, st: State, op: QueueOp)
    requires !op.Submit? && Plan(q, st, op).Some?
    ensures forall c :: c in Plan(q, st, op).value.calls ==> Dull(st.objects, c.op)
  {
    hide JobState, Readable, ResultCalls, TerminalDraft, ScopeOf, ResultText, ArtifactCompatible, AllReadable, Admitted;
    if op.Complete? {
      TerminalFacts(q, op);
      CompletionReads(q, st, op);
      ResultHarmless(q, st, op);
    }
  }

  lemma CompletionReads(q: QueueConfig, st: State, op: QueueOp)
    requires op.Complete? && Plan(q, st, op).Some?
    ensures Readable(st, op.job)
  {
    hide ResultCalls, TerminalDraft, ResultText;
  }

  /** A session that harms no check adds no queued work either. */
  lemma StrangersAddNothing(q: QueueConfig, st: State, s: Session)
    requires AllHarmless(st.objects, s.calls)
    ensures Fewer(st, Transact(q.ledger, st, s))
  {
    hide RunCalls;
    HarmlessCallsAreQuiet(q.ledger, s.env, st, s.calls);
    QuietIsFewer(st, RunCalls(q.ledger, s.env, st, s.calls).state);
  }

  // ---- A submission adds at most its own job ----

  lemma AppearanceAdds(s: State, t: State, job: string)
    requires CheckAppeared(s, t, job)
    ensures Pending(t) <= Pending(s) + {job}
  {
    forall id | id in Pending(t) ensures id in Pending(s) + {job} {
      assert SameHistory(s, t, id) && (id == job || IsCheck(s, id));
    }
  }

  lemma SubmissionMoveAdds(s: State, t: State, job: string, a: Action, to: Operational)
    requires MovedOnly(s, t, job, a, to)
    ensures Pending(t) <= Pending(s) + {job}
  {
    forall id | id in Pending(t) && id != job ensures id in Pending(s) {
      assert SameHistory(s, t, id);
    }
  }

  lemma CommitAddsAtMostOne(q: QueueConfig, st: State, r: Request)
    requires Admitted(q, st, r).Some?
    ensures Pending(Transact(q.ledger, st, Admitted(q, st, r).value)) <= Pending(st) + {JobId(q, r)}
  {
    hide Pending, Quiet, CheckAppeared, RecordEffect, MovedOnly, Admitted, SubmitCalls, JobId, RunCalls;
    AdmittedCalls(q, st, r);
    var env, job := Admitted(q, st, r).value.env, JobId(q, r);
    if RunCalls(q.ledger, env, st, SubmitCalls(q, st, r)).ok {
      var stored, created, linked := SubmissionStages(q, st, r);
      QuietIsFewer(st, stored);
      AppearanceAdds(stored, created, job);
      QuietIsFewer(created, linked);
      RecordMoves(q.ledger, env, linked, SubmissionDraft(q, r));
      var last := RecordEffect(q.ledger, env, linked, SubmissionDraft(q, r)).state;
      if last != linked {
        SubmissionMoveAdds(linked, last, job, CheckSubmitted, Queued);
      }
    }
  }

  // ---- Submitters in flight ----

  /** A ledger and the requests of the submitters that have passed the pending check but not yet committed. */
  datatype System = System(st: State, slots: seq<Option<Request>>)

  datatype Step =
    | Check(i: nat, request: Request)
    | Commit(i: nat)
    | Crash(i: nat)
    | Queue(op: QueueOp)
    | Foreign(session: Session)

  ghost predicate Enabled(s: System, step: Step) {
    match step
    case Check(i, _) => i < |s.slots| && s.slots[i].None?
    case Commit(i) => i < |s.slots| && s.slots[i].Some?
    case Crash(i) => i < |s.slots|
    case Queue(op) => !op.Submit?
    case Foreign(session) => AllHarmless(s.st.objects, session.calls)
  }

  /** The part of `submit` before its transaction: reuse at once, refuse, or go on to commit. */
  function CheckStep(q: QueueConfig, s: System, i: nat, r: Request): System
    requires i < |s.slots|
  {
    if JobId(q, r) in s.st.objects then
      var plan := Plan(q, s.st, Submit(r));
      if plan.Some? then s.(st := Transact(q.ledger, s.st, plan.value)) else s
    else if !AllReadable(s.st) || |Pending(s.st)| >= q.maxPending then s
    else s.(slots := s.slots[i := Some(r)])
  }

  function TakeStep(q: QueueConfig, s: System, step: Step): System
    requires step.Check? || step.Commit? || step.Crash? ==> step.i < |s.slots|
    requires step.Commit? ==> s.slots[step.i].Some?
  {
    match step
    case Check(i, r) => CheckStep(q, s, i, r)
    case Commit(i) =>
      var plan := Admitted(q, s.st, s.slots[i].value);
      System(if plan.Some? then Transact(q.ledger, s.st, plan.value) else s.st, s.slots[i := None])
    case Crash(i) => s.(slots := s.slots[i := None])
    case Queue(op) => s.(st := Next(q, s.st, op))
    case Foreign(session) => s.(st := Transact(q.ledger, s.st, session))
  }

  function InFlight(slots: seq<Option<Request>>): nat {
    if slots == [] then 0
    else InFlight(slots[..|slots| - 1]) + (if slots[|slots| - 1].Some? then 1 else 0)
  }

  lemma {:induction false} InFlightUpdate(slots: seq<Option<Request>>, i: nat, v: Option<Request>)
    requires i < |slots|
    ensures InFlight(slots[i := v]) == InFlight(slots) - (if slots[i].Some? then 1 else 0) + (if v.Some? then 1 else 0)
  {
    var n := |slots| - 1;
    if i < n {
      assert slots[i := v][..n] == slots[..n][i := v];
      InFlightUpdate(slots[..n], i, v);
    } else {
      assert slots[i := v][..n] == slots[..n];
    }
  }

  lemma {:induction false} InFlightBounded(slots: seq<Option<Request>>)
    ensures InFlight(slots) <= |slots|
  {
    if slots != [] { InFlightBounded(slots[..|slots| - 1]); }
  }

  /** Work queued, plus work about to be queued, stays below the limit plus the number of submitters. */
  ghost predicate Bounded(q: QueueConfig, s: System) {
    |Pending(s.st)| + InFlight(s.slots) < q.maxPending + |s.slots|
  }

  lemma StepKeepsBound(q: QueueConfig, s: System, step: Step)
    requires Bounded(q, s) && Enabled(s, step)
    ensures Bounded(q, TakeStep(q, s, step)) && |TakeStep(q, s, step).slots| == |s.slots|
  {
    hide Pending, Next, Transact, Admitted, AllReadable, JobId, AllHarmless;
    var t := TakeStep(q, s, step);
    match step
    case Check(i, r) =>
      if JobId(q, r) in s.st.objects {
        ReuseAddsNothing(q, s.st, r);
        FewerCounts(s.st, t.st);
      } else {
        InFlightUpdate(s.slots, i, Some(r));
        InFlightBounded(s.slots[i := Some(r)]);
      }
    case Commit(i) =>
      InFlightUpdate(s.slots, i, None);
      var r := s.slots[i].value;
      if Admitted(q, s.st, r).Some? {
        CommitAddsAtMostOne(q, s.st, r);
        OneMoreCounts(Pending(t.st), Pending(s.st), JobId(q, r));
      }
    case Crash(i) => InFlightUpdate(s.slots, i, None);
    case Queue(op) =>
      OthersAddNothing(q, s.st, op);
      FewerCounts(s.st, t.st);
    case Foreign(session) =>
      StrangersAddNothing(q, s.st, session);
      FewerCounts(s.st, t.st);
  }

  /** Reusing a known job moves no check. */
  lemma ReuseIsQuiet(q: QueueConfig, st: State, r: Request)
    requires JobId(q, r) in st.objects
    ensures Quiet(st, Next(q, st, Submit(r)))
  {
    hide RunCalls, RequestDigest, ScopeOf, Quiet;
    var plan := Plan(q, st, Submit(r));
    QuietReflexive(st);
    if plan.Some? {
      HarmlessCallsAreQuiet(q.ledger, plan.value.env, st, plan.value.calls);
    }
  }

  lemma ReuseAddsNothing(q: QueueConfig, st: State, r: Request)
    requires JobId(q, r) in st.objects
    ensures var plan := Plan(q, st, Submit(r));
            plan.Some? ==> Fewer(st, Transact(q.ledger, st, plan.value))
  {
    hide RunCalls, RequestDigest, ScopeOf, Pending, Quiet, Plan;
    ReuseIsQuiet(q, st, r);
    QuietIsFewer(st, Next(q, st, Submit(r)));
  }

  lemma FewerCounts(s: State, t: State)
    requires Fewer(s, t)
    ensures |Pending(t)| <= |Pending(s)|
  {
    SubsetCounts(Pending(t), Pending(s));
  }

  lemma OneMoreCounts(a: set<string>, b: set<string>, x: string)
    requires a <= b + {x}
    ensures |a| <= |b| + 1
  {
    SubsetCounts(a, b + {x});
  }

  lemma SubsetCounts(a: set<string>, b: set<string>)
    requires a <= b
    ensures |a| <= |b|
  {
    assert b == a + (b - a);
  }

  // ---- Runs ----

  ghost predicate Valid(q: QueueConfig, s: System, steps: seq<Step>)
    decreases |steps|
  {
    steps == [] || (Enabled(s, steps[0]) && Valid(q, TakeStep(q, s, steps[0]), steps[1..]))
  }

  function Play(q: QueueConfig, s: System, steps: seq<Step>): System
    requires Valid(q, s, steps)
    decreases |steps|
  {
    if steps == [] then s else Play(q, TakeStep(q, s, steps[0]), steps[1..])
  }

  /** In every run with `k` submitters the queue never holds more than `maxPending + k - 1` jobs. */
  lemma {:induction false} QueueIsBounded(q: QueueConfig, s: System, steps: seq<Step>)
    requires Bounded(q, s) && Valid(q, s, steps)
    ensures |Pending(Play(q, s, steps).st)| <= q.maxPending + |s.slots| - 1
    decreases |steps|
  {
    hide Pending;
    if steps != [] {
      StepKeepsBound(q, s, steps[0]);
      QueueIsBounded(q, TakeStep(q, s, steps[0]), steps[1..]);
    }
  }

  /** With one submitter at a time the configured limit itself is never exceeded. */
  lemma SequentialSubmitsRespectTheLimit(q: QueueConfig, st: State, steps: seq<Step>)
    requires |Pending(st)| <= q.maxPending
    requires Valid(q, System(st, [None]), steps)
    ensures |Pending(Play(q, System(st, [None]), steps).st)| <= q.maxPending
  {
    var s := System(st, [None]);
    assert InFlight(s.slots) == 0;
    QueueIsBounded(q, s, steps);
  }

  // ---- The bound is attained ----

  /** The commit of slot `i` creates a new job and does not raise. */
  ghost predicate Fruitful(q: QueueConfig, s: System, i: nat) {
    && i < |s.slots| && s.slots[i].Some?
    && var r := s.slots[i].value;
    JobId(q, r) !in s.st.objects && Admitted(q, s.st, r).Some?
    && RunCalls(q.ledger, Admitted(q, s.st, r).value.env, s.st, SubmitCalls(q, s.st, r)).ok
  }

  lemma AppearanceShows(s: State, t: State, job: string)
    requires CheckAppeared(s, t, job) && IsCheck(t, job) && JobState(s, job) == Queued
    ensures Pending(t) == Pending(s) + {job}
  {
    AppearanceAdds(s, t, job);
    assert SameHistory(s, t, job);
    forall id | id in Pending(s) ensures id in Pending(t) { assert SameHistory(s, t, id); }
  }

  lemma QuietShows(s: State, t: State)
    requires Quiet(s, t)
    ensures Pending(s) == Pending(t)
  {
    QuietIsFewer(s, t);
    forall id | id in Pending(s) ensures id in Pending(t) {
      assert QueueOwned(t, id) && SameHistory(s, t, id);
    }
  }

  lemma MoveToQueuedShows(s: State, t: State, job: string)
    requires MovedOnly(s, t, job, CheckSubmitted, Queued) && IsCheck(s, job)
    ensures Pending(t) == Pending(s) + {job}
  {
    SubmissionMoveAdds(s, t, job, CheckSubmitted, Queued);
    forall id | id in Pending(s) && id != job ensures id in Pending(t) { assert SameHistory(s, t, id); }
  }

  lemma UntakenIsQueued(st: State, job: string)
    requires QueueInv(st) && job !in st.objects
    ensures JobState(st, job) == Queued
  {
    assert PhaseOf(Moves(EventsOf(st.events, job, None))) == Some(Fresh);
    StateFollowsPhase(EventsOf(st.events, job, None));
  }

  lemma CommitAddsItsJob(q: QueueConfig, st: State, r: Request)
    requires QueueInv(st) && Fruitful(q, System(st, [Some(r)]), 0)
    ensures Pending(Transact(q.ledger, st, Admitted(q, st, r).value)) == Pending(st) + {JobId(q, r)}
  {
    hide Pending, QueueInv, Quiet, CheckAppeared, RecordEffect, MovedOnly, Admitted, SubmitCalls, JobId, RunCalls,
        JobState;
    AdmittedCalls(q, st, r);
    var env, job := Admitted(q, st, r).value.env, JobId(q, r);
    var stored, created, linked := SubmissionStages(q, st, r);
    QuietKeepsInv(st, stored);
    NotYetStored(st, stored, created, job);
    UntakenIsQueued(stored, job);
    QuietShows(st, stored);
    AppearanceShows(stored, created, job);
    QuietShows(created, linked);
    QuietHolds(created, linked, job);
    RecordMoves(q.ledger, env, linked, SubmissionDraft(q, r));
    var last := RecordEffect(q.ledger, env, linked, SubmissionDraft(q, r)).state;
    if last != linked {
      MoveToQueuedShows(linked, last, job);
    }
  }

  /** Commits one after another, each of them fruitful. */
  ghost predicate AllFruitful(q: QueueConfig, s: System, steps: seq<Step>)
    decreases |steps|
  {
    steps == [] || (steps[0].Commit? && Fruitful(q, s, steps[0].i)
        && AllFruitful(q, TakeStep(q, s, steps[0]), steps[1..]))
  }

  /**
    Submitters that all passed the check while one place was free do fill the
    queue beyond its limit: `k` of them reach `maxPending + k - 1`.
   */
  lemma {:induction false} BoundIsAttained(q: QueueConfig, s: System, steps: seq<Step>)
    requires QueueInv(s.st) && AllFruitful(q, s, steps)
    ensures Valid(q, s, steps)
    ensures |Pending(Play(q, s, steps).st)| == |Pending(s.st)| + |steps|
    decreases |steps|
  {
    hide Pending, QueueInv, Admitted, JobId, RunCalls, SubmitCalls;
    if steps != [] {
      var i := steps[0].i;
      var r := s.slots[i].value;
      CommitAddsItsJob(q, s.st, r);
      SubmissionKeepsInv(q, s.st, r);
      NotPending(s.st, JobId(q, r));
      BoundIsAttained(q, TakeStep(q, s, steps[0]), steps[1..]);
    }
  }

  lemma NotPending(st: State, job: string)
    requires job !in st.objects
    ensures job !in Pending(st)
  {
  }

  // ---- A run that attains it ----

  /** New submissions that nothing but the limit stands in the way of. */
  ghost predicate Welcome(q: QueueConfig, st: State, rs: seq<Request>) {
    && (forall i :: 0 <= i < |rs| ==> Submittable(q, st, rs[i]))
    && (forall i, j :: 0 <= i < j < |rs| ==> Apart(q, rs[i], rs[j]))
  }

  /** Different jobs, and no two sources of different length under one digest. */
  predicate Apart(q: QueueConfig, a: Request, b: Request) {
    JobId(q, a) != JobId(q, b) && (q.sha256(a.source) == q.sha256(b.source) ==> |a.source| == |b.source|)
  }

  ghost predicate Ready(q: QueueConfig, st: State) {
    q.ledger.vocab == Standard() && QueueInv(st) && Grounded(st) && AllReadable(st)
  }

  lemma StillSubmittable(q: QueueConfig, s: State, t: State, r: Request, other: Request)
    requires Submittable(q, s, r) && Submittable(q, s, other) && Apart(q, r, other) && Submitted(q, s, t, r)
    ensures Submittable(q, t, other)
  {
    IdsDiffer(q, other, q.sha256(r.source));
    IdsDiffer(q, r, q.sha256(other.source));
    SameArtifact(q.sha256(r.source), q.sha256(other.source));
    hide LowercaseSha256, RequestDigest, JobId, ArtifactId, Readable, Grounded;
  }

  lemma SameArtifact(a: string, b: string)
    ensures ArtifactId(a) == ArtifactId(b) <==> a == b
  {
    assert ArtifactId(a)[|ARTIFACT_ID_PREFIX|..] == a && ArtifactId(b)[|ARTIFACT_ID_PREFIX|..] == b;
  }

  /** One commit: its job is pending, the state is still ready, and the others are still welcome. */
  lemma CommitGoesOn(q: QueueConfig, st: State, rs: seq<Request>)
    requires Ready(q, st) && Welcome(q, st, rs) && rs != []
    ensures Fruitful(q, System(st, [Some(rs[0])]), 0) && Admitted(q, st, rs[0]).Some?
    ensures var t := Transact(q.ledger, st, Admitted(q, st, rs[0]).value);
            Ready(q, t) && Welcome(q, t, rs[1..]) && |Pending(t)| == |Pending(st)| + 1
  {
    hide Submittable, Admitted, Transact, RunCalls, QueueInv, Grounded, Pending, SubmitCalls, Standard, AllReadable,
        Apart, JobId;
    var r := rs[0];
    assert Submittable(q, st, r);
    SubmissionCommits(q, st, r);
    AdmittedCalls(q, st, r);
    var t := Transact(q.ledger, st, Admitted(q, st, r).value);
    FreeJob(q, st, r);
    CommitAddsItsJob(q, st, r);
    NotPending(st, JobId(q, r));
    SubmissionKeepsInv(q, st, r);
    StillReadable(q, st, t, r);
    OthersStayWelcome(q, st, t, rs);
  }

  lemma FreeJob(q: QueueConfig, st: State, r: Request)
    requires Submittable(q, st, r)
    ensures JobId(q, r) !in st.objects
  {
  }

  lemma OthersStayWelcome(q: QueueConfig, st: State, t: State, rs: seq<Request>)
    requires Welcome(q, st, rs) && rs != [] && Submitted(q, st, t, rs[0])
    ensures Welcome(q, t, rs[1..])
  {
    hide Submittable, Submitted, Apart;
    var rest := rs[1..];
    forall i | 0 <= i < |rest| ensures Submittable(q, t, rest[i]) {
      assert rest[i] == rs[i + 1] && Apart(q, rs[0], rs[i + 1]) && Submittable(q, st, rs[i + 1])
          && Submittable(q, st, rs[0]);
      StillSubmittable(q, st, t, rs[0], rs[i + 1]);
    }
    forall i, j | 0 <= i < j < |rest| ensures Apart(q, rest[i], rest[j]) {
      assert Apart(q, rs[i + 1], rs[j + 1]);
    }
  }

  lemma StillReadable(q: QueueConfig, s: State, t: State, r: Request)
    requires AllReadable(s) && Submitted(q, s, t, r)
    ensures AllReadable(t) && Grounded(t)
  {
    hide JobId, ArtifactId;
  }

  // The slots when the first `i` of the submitters have passed the check and the first `j` of them have committed.
  function Slots(rs: seq<Request>, i: nat, j: nat): (slots: seq<Option<Request>>)
    ensures |slots| == |rs|
  {
    seq(|rs|, k requires 0 <= k < |rs| => if j <= k < i then Some(rs[k]) else None)
  }

  function ChecksFrom(rs: seq<Request>, i: nat): seq<Step>
    requires i <= |rs|
    decreases |rs| - i
  {
    if i == |rs| then [] else [Step.Check(i, rs[i])] + ChecksFrom(rs, i + 1)
  }

  function CommitsFrom(k: nat, i: nat): (steps: seq<Step>)
    requires i <= k
    ensures |steps| == k - i
    decreases k - i
  {
    if i == k then [] else [Commit(i)] + CommitsFrom(k, i + 1)
  }

  /** With room for one more, every submitter passes the check, one after another. */
  lemma {:induction false} AllPassTheCheck(q: QueueConfig, st: State, rs: seq<Request>, i: nat)
    requires Ready(q, st) && Welcome(q, st, rs) && |Pending(st)| < q.maxPending && i <= |rs|
    ensures Valid(q, System(st, Slots(rs, i, 0)), ChecksFrom(rs, i))
    ensures Play(q, System(st, Slots(rs, i, 0)), ChecksFrom(rs, i)) == System(st, Slots(rs, |rs|, 0))
    decreases |rs| - i
  {
    hide Pending, Ready, Submittable, Apart, JobId, AllReadable;
    if i < |rs| {
      var s := System(st, Slots(rs, i, 0));
      assert Submittable(q, st, rs[i]);
      PassesTheCheck(q, s, i, rs[i]);
      assert Slots(rs, i, 0)[i := Some(rs[i])] == Slots(rs, i + 1, 0);
      AllPassTheCheck(q, st, rs, i + 1);
      assert ChecksFrom(rs, i)[1..] == ChecksFrom(rs, i + 1);
    }
  }

  lemma PassesTheCheck(q: QueueConfig, s: System, i: nat, r: Request)
    requires i < |s.slots| && s.slots[i].None?
    requires Ready(q, s.st) && Submittable(q, s.st, r) && |Pending(s.st)| < q.maxPending
    ensures Enabled(s, Step.Check(i, r)) && TakeStep(q, s, Step.Check(i, r)) == s.(slots := s.slots[i := Some(r)])
  {
    hide Pending, JobId, QueueInv, Grounded, Standard, RequestDigest;
  }

  /** And then every one of them commits. */
  lemma {:induction false} AllCommit(q: QueueConfig, st: State, rs: seq<Request>, i: nat)
    requires i <= |rs| && Ready(q, st) && Welcome(q, st, rs[i..])
    ensures AllFruitful(q, System(st, Slots(rs, |rs|, i)), CommitsFrom(|rs|, i))
    decreases |rs| - i
  {
    hide Pending, Ready, Submittable, Apart, JobId, Admitted, RunCalls, SubmitCalls;
    if i < |rs| {
      var s := System(st, Slots(rs, |rs|, i));
      assert rs[i..][0] == rs[i] && rs[i..][1..] == rs[i + 1..];
      CommitGoesOn(q, st, rs[i..]);
      FruitfulAnywhere(q, st, rs[i], s.slots, i);
      var t := Transact(q.ledger, st, Admitted(q, st, rs[i]).value);
      assert Slots(rs, |rs|, i)[i := None] == Slots(rs, |rs|, i + 1);
      AllCommit(q, t, rs, i + 1);
      assert CommitsFrom(|rs|, i)[1..] == CommitsFrom(|rs|, i + 1);
    }
  }

  lemma FruitfulAnywhere(q: QueueConfig, st: State, r: Request, slots: seq<Option<Request>>, i: nat)
    requires Fruitful(q, System(st, [Some(r)]), 0) && i < |slots| && slots[i] == Some(r)
    ensures Fruitful(q, System(st, slots), i)
  {
  }

  lemma {:induction false} PlayAppends(q: QueueConfig, s: System, a: seq<Step>, b: seq<Step>)
    requires Valid(q, s, a) && Valid(q, Play(q, s, a), b)
    ensures Valid(q, s, a + b) && Play(q, s, a + b) == Play(q, Play(q, s, a), b)
    decreases |a|
  {
    hide TakeStep;
    if a == [] {
      assert a + b == b;
    } else {
      assert (a + b)[0] == a[0] && (a + b)[1..] == a[1..] + b;
      PlayAppends(q, TakeStep(q, s, a[0]), a[1..], b);
    }
  }

  /**
    The bound is reached: from any ready state with one place free, `k`
    submitters who all check before any of them commits end with
    `maxPending + k - 1` jobs queued.
   */
  lemma LimitIsOverrun(q: QueueConfig, st: State, rs: seq<Request>)
    requires Ready(q, st) && Welcome(q, st, rs) && |Pending(st)| == q.maxPending - 1
    ensures var s, steps := System(st, Slots(rs, 0, 0)), ChecksFrom(rs, 0) + CommitsFrom(|rs|, 0);
            Valid(q, s, steps) && |Pending(Play(q, s, steps).st)| == q.maxPending + |rs| - 1
  {
    hide Pending, Welcome, AllFruitful, QueueInv, Grounded, AllReadable, Standard;
    AllPassTheCheck(q, st, rs, 0);
    assert rs[0..] == rs;
    AllCommit(q, st, rs, 0);
    BoundIsAttained(q, System(st, Slots(rs, |rs|, 0)), CommitsFrom(|rs|, 0));
    PlayAppends(q, System(st, Slots(rs, 0, 0)), ChecksFrom(rs, 0), CommitsFrom(|rs|, 0));
  }

  /** Submitting one after another through slot 0. */
  function OneByOne(rs: seq<Request>): seq<Step> {
    if rs == [] then [] else [Step.Check(0, rs[0]), Commit(0)] + OneByOne(rs[1..])
  }

  lemma {:induction false} OneByOneFills(q: QueueConfig, s: System, rs: seq<Request>, more: seq<Request>)
    requires s.slots != [] && s.slots[0].None?
    requires Ready(q, s.st) && Welcome(q, s.st, rs + more) && |Pending(s.st)| + |rs| <= q.maxPending
    ensures Valid(q, s, OneByOne(rs))
    ensures var t := Play(q, s, OneByOne(rs));
            t.slots == s.slots && Ready(q, t.st) && Welcome(q, t.st, more) && |Pending(t.st)| == |Pending(s.st)| + |rs|
    decreases |rs|
  {
    hide Pending, Ready, Submittable, Apart, JobId, Admitted, RunCalls, SubmitCalls, Fruitful;
    if rs == [] {
      assert rs + more == more;
    } else {
      var r := rs[0];
      assert (rs + more)[0] == r && (rs + more)[1..] == rs[1..] + more;
      assert Submittable(q, s.st, (rs + more)[0]);
      PassesTheCheck(q, s, 0, r);
      CommitGoesOn(q, s.st, rs + more);
      var a, b := Step.Check(0, r), Commit(0);
      var mid := TakeStep(q, s, a);
      var t := TakeStep(q, mid, b);
      assert t.slots == s.slots;
      OneByOneFills(q, t, rs[1..], more);
      TwoSteps(q, s, a, b, OneByOne(rs[1..]));
    }
  }

  lemma TwoSteps(q: QueueConfig, s: System, a: Step, b: Step, rest: seq<Step>)
    requires Enabled(s, a) && Enabled(TakeStep(q, s, a), b) && Valid(q, TakeStep(q, TakeStep(q, s, a), b), rest)
    ensures Valid(q, s, [a, b] + rest)
    ensures Play(q, s, [a, b] + rest) == Play(q, TakeStep(q, TakeStep(q, s, a), b), rest)
  {
    hide TakeStep, Enabled;
    var steps := [a, b] + rest;
    assert steps[0] == a && steps[1..] == [b] + rest && steps[1..][0] == b && steps[1..][1..] == rest;
  }

  /** From an empty ledger: fill all places but one in turn, and let `k` submitters race for the last. */
  lemma LimitIsOverrunFromEmpty(q: QueueConfig, filling: seq<Request>, racing: seq<Request>)
    requires q.ledger.vocab == Standard() && Welcome(q, EMPTY, filling + racing) && racing != []
    requires |filling| == q.maxPending - 1
    ensures var s := System(EMPTY, Slots(racing, 0, 0));
            var steps := OneByOne(filling) + (ChecksFrom(racing, 0) + CommitsFrom(|racing|, 0));
            Valid(q, s, steps) && |Pending(Play(q, s, steps).st)| == q.maxPending + |racing| - 1
  {
    EmptyIsReady(q);
    hide Welcome, Ready, Pending;
    var s := System(EMPTY, Slots(racing, 0, 0));
    OneByOneFills(q, s, filling, racing);
    var t := Play(q, s, OneByOne(filling));
    LimitIsOverrun(q, t.st, racing);
    PlayAppends(q, s, OneByOne(filling), ChecksFrom(racing, 0) + CommitsFrom(|racing|, 0));
  }

  lemma EmptyIsReady(q: QueueConfig)
    requires q.ledger.vocab == Standard()
    ensures Ready(q, EMPTY) && Pending(EMPTY) == {}
  {
    EmptyInv();
  }
}
