/**
  What a newly admitted check leaves in the ledger, stated on the tables before
  and after, and the scope that is read back from the log.
 */
module Admission {
  import opened Wrappers
  import opened Vocabulary
  import opened Events
  import opened Store
  import opened Invalidation
  import opened Queue
  import opened QueueRuns
  import opened Confluence
  import opened Blocks

  // ---- The scope of a job ----

  predicate Submits(e: Event, job: string) {
    e.core.subjectId == job && e.core.action == CheckSubmitted
  }

  ghost predicate FirstSubmission(events: seq<Event>, job: string, i: nat) {
    i < |events| && Submits(events[i], job) && forall j :: 0 <= j < i ==> !Submits(events[j], job)
  }

  ghost predicate Unsubmitted(events: seq<Event>, job: string) {
    forall e :: e in events ==> !Submits(e, job)
  }

  predicate InScope(e: EventCore, scope: Scope) {
    e.campaignId == scope.campaignId && e.epochId == scope.epochId && e.turnId == scope.turnId
  }

  /** The scope of a job is that of its first submission; without one it has none. */
  lemma {:induction false} ScopeIsOfFirst(events: seq<Event>, job: string)
    ensures forall i: nat :: FirstSubmission(events, job, i) ==> InScope(events[i].core, ScopeOf(events, job))
    ensures Unsubmitted(events, job) ==> ScopeOf(events, job) == Scope(None, None, None)
  {
    if events == [] {
    } else if Submits(events[0], job) {
      assert events[0] in events;
    } else {
      var rest := events[1..];
      ScopeIsOfFirst(rest, job);
      forall i: nat | FirstSubmission(events, job, i) ensures InScope(events[i].core, ScopeOf(events, job)) {
        assert forall j :: 0 <= j < |rest| ==> rest[j] == events[j + 1];
        assert FirstSubmission(rest, job, i - 1);
      }
      assert Unsubmitted(events, job) ==> Unsubmitted(rest, job);
    }
  }

  // ---- The id of a job ----

  /** What the id digests: the checker and the four parts of a request, separated by NUL. */
  function RequestText(r: Request): string {
    CHECKER_IDENTITY + "\0" + (r.source + "\0" + (r.checkpointKey + "\0" + (r.environment + "\0" + r.requestClass)))
  }

  predicate SameContent(r: Request, s: Request) {
    r.source == s.source && r.checkpointKey == s.checkpointKey && r.environment == s.environment
    && r.requestClass == s.requestClass
  }

  /** The checkpoint, the environment and the class hold no NUL; the source may. */
  predicate Separable(r: Request) {
    '\0' !in r.checkpointKey && '\0' !in r.environment && '\0' !in r.requestClass
  }

  lemma DigestOfText(q: QueueConfig, r: Request)
    ensures RequestDigest(q, r) == q.sha256(RequestText(r))
  {
    assert CHECKER_IDENTITY + ['\0'] + r.source + ['\0'] + r.checkpointKey + ['\0'] + r.environment + ['\0']
           + r.requestClass == RequestText(r);
  }

  /** The part after the last NUL, and what stands before it. */
  lemma LastPart(a: string, b: string, c: string, d: string)
    requires a + "\0" + b == c + "\0" + d && '\0' !in b && '\0' !in d
    ensures a == c && b == d
  {
    var t := a + "\0" + b;
    assert t[|a|] == '\0' && t[|c|] == '\0';
    forall i | |a| < i < |t| ensures t[i] != '\0' { assert t[i] == b[i - |a| - 1]; }
    forall i | |c| < i < |t| ensures t[i] != '\0' { assert t[i] == d[i - |c| - 1]; }
    assert t[..|a|] == a && t[..|c|] == c && t[|a| + 1..] == b && t[|c| + 1..] == d;
  }

  lemma TextIsSeparable(r: Request, s: Request)
    requires Separable(r) && Separable(s) && RequestText(r) == RequestText(s)
    ensures SameContent(r, s)
  {
    var a, b := CHECKER_IDENTITY + "\0" + r.source, CHECKER_IDENTITY + "\0" + s.source;
    var c, d := a + "\0" + r.checkpointKey, b + "\0" + s.checkpointKey;
    assert RequestText(r) == c + "\0" + r.environment + "\0" + r.requestClass;
    assert RequestText(s) == d + "\0" + s.environment + "\0" + s.requestClass;
    LastPart(c + "\0" + r.environment, r.requestClass, d + "\0" + s.environment, s.requestClass);
    LastPart(c, r.environment, d, s.environment);
    LastPart(a, r.checkpointKey, b, s.checkpointKey);
    assert a[|CHECKER_IDENTITY| + 1..] == r.source && b[|CHECKER_IDENTITY| + 1..] == s.source;
  }

  /** One job id means one content, unless two texts share the first 24 characters of their digests. */
  lemma OneIdOneContent(q: QueueConfig, r: Request, s: Request)
    requires Separable(r) && Separable(s) && JobId(q, r) == JobId(q, s)
    ensures SameContent(r, s) ||
            (RequestText(r) != RequestText(s)
             && Take(q.sha256(RequestText(r)), 24) == Take(q.sha256(RequestText(s)), 24))
  {
    hide RequestDigest, RequestText;
    DigestOfText(q, r);
    DigestOfText(q, s);
    assert JobId(q, r)[6..] == Take(RequestDigest(q, r), 24) && JobId(q, s)[6..] == Take(RequestDigest(q, s), 24);
    if RequestText(r) == RequestText(s) { TextIsSeparable(r, s); }
  }

  /** A NUL in a part can move its border: two requests of different content and one id, whatever the digest. */
  lemma NulMovesTheBorder(q: QueueConfig, scope: Scope)
    ensures var r := Request("s", "k\0e", "x", "proof", 0, 30.0, scope);
            var s := Request("s", "k", "e\0x", "proof", 0, 30.0, scope);
            !SameContent(r, s) && JobId(q, r) == JobId(q, s)
  {
    var r := Request("s", "k\0e", "x", "proof", 0, 30.0, scope);
    var s := Request("s", "k", "e\0x", "proof", 0, 30.0, scope);
    assert "k\0e" + ("\0" + ("x" + "\0" + "proof")) == "k" + ("\0" + ("e\0x" + "\0" + "proof"));
    assert RequestText(r) == RequestText(s);
    DigestOfText(q, r);
    DigestOfText(q, s);
    assert r.checkpointKey[1] == '\0' && |s.checkpointKey| == 1;
  }

  // ---- What is left behind ----

  /** The row of a new job says everything the request says but its scope. */
  predicate JobRow(q: QueueConfig, r: Request, o: ObjectRecord) {
    && o.kind == Check && o.contentFormat == JsonText
    && o.properties == map["checker_identity" := JText(CHECKER_IDENTITY), "checkpoint_key" := JText(r.checkpointKey),
                           "request_class" := JText(r.requestClass), "environment_identity" := JText(r.environment),
                           "input_sha256" := JText(q.sha256(r.source)),
                           "source_artifact_id" := JText(ArtifactId(q.sha256(r.source))),
                           "priority" := JNumber(r.priority as real), "budget_seconds" := JNumber(r.budget)]
  }

  ghost predicate RowsAdmitted(q: QueueConfig, st: State, t: State, r: Request) {
    var job, source := JobId(q, r), ArtifactId(q.sha256(r.source));
    && RowsKept(st, t)
    && job in t.objects && JobRow(q, r, t.objects[job])
    && source in t.objects && t.objects[source].kind == Artifact
    && (forall id :: id in t.objects ==> id in st.objects || id == job || id == source)
    && Active(t.edges) == Active(st.edges) + {Triple(source, ProducedBy, job)}
  }

  function SubmissionKey(q: QueueConfig, r: Request): string {
    "check-submitted:" + RequestDigest(q, r)
  }

  /** The event that submits the job. */
  predicate SubmissionEvent(q: QueueConfig, r: Request, e: EventCore) {
    && e.action == CheckSubmitted && e.subjectId == JobId(q, r) && InScope(e, r.scope)
    && e.actorClass == LeanScratchGateway && e.evidence == Some(ArtifactId(q.sha256(r.source)))
    && e.payload == map["checkpoint_key" := JText(r.checkpointKey), "environment_identity" := JText(r.environment),
                        "input_sha256" := JText(q.sha256(r.source)), "request_class" := JText(r.requestClass),
                        "priority" := JNumber(r.priority as real), "budget_seconds" := JNumber(r.budget),
                        "idempotency_key" := JText(RequestDigest(q, r)),
                        "checker_identity" := JText(CHECKER_IDENTITY)]
  }

  /** Unless its key was taken, the log ends with the submission and the job's scope is the request's. */
  ghost predicate LogAdmitted(q: QueueConfig, st: State, t: State, r: Request) {
    && st.events <= t.events
    && (!KeyUsed(st.events, SubmissionKey(q, r)) ==>
          |st.events| < |t.events| && SubmissionEvent(q, r, t.events[|t.events| - 1].core))
    && (Unsubmitted(st.events, JobId(q, r)) ==>
          ScopeOf(t.events, JobId(q, r)) ==
            if KeyUsed(st.events, SubmissionKey(q, r)) then Scope(None, None, None) else r.scope)
  }

  // ---- The calls ----

  /** The calls of a submission before its event. */
  function AdmissionCalls(q: QueueConfig, st: State, r: Request): seq<Call> {
    var job, source := JobId(q, r), ArtifactId(q.sha256(r.source));
    StoreCalls(q, st, r.source, "scratch_source", "text/x-lean", "Scratch source for " + job)
    + [Uncaught(JobCreation(q, r)), Link(source, ProducedBy, job)]
  }

  lemma AdmissionCallsAre(q: QueueConfig, st: State, r: Request)
    ensures SubmitCalls(q, st, r) == AdmissionCalls(q, st, r) + [Uncaught(Record(SubmissionDraft(q, r)))]
    ensures Plainly(AdmissionCalls(q, st, r))
    ensures LinksOf(AdmissionCalls(q, st, r)) == {Triple(ArtifactId(q.sha256(r.source)), ProducedBy, JobId(q, r))}
    ensures forall c :: c in AdmissionCalls(q, st, r) ==> !c.op.Record?
    ensures forall c, id :: c in AdmissionCalls(q, st, r) && Creates(c.op, id) ==>
              id == JobId(q, r) || id == ArtifactId(q.sha256(r.source))
    ensures Uncaught(JobCreation(q, r)) in AdmissionCalls(q, st, r)
    ensures Uncaught(AddLocation(ArtifactId(q.sha256(r.source)), q.pathFor(q.sha256(r.source)))) in
              AdmissionCalls(q, st, r)
  {
    hide JobId, ArtifactId, SubmissionDraft, RequestDigest, LinksOf;
    var job, source := JobId(q, r), ArtifactId(q.sha256(r.source));
    var store := StoreCalls(q, st, r.source, "scratch_source", "text/x-lean", "Scratch source for " + job);
    var create, link := [Uncaught(JobCreation(q, r))], [Link(source, ProducedBy, job)];
    assert AdmissionCalls(q, st, r) == store + create + link;
    NoLinks(store);
    NoLinks(create);
    LinksAppend(store + create, link);
    LinksAppend(store, create);
    LinksOfOne(link[0]);
  }

  /** What a committed submission of a free id runs. */
  lemma AdmissionRuns(q: QueueConfig, st: State, r: Request)
    requires Commits(q, st, QueueOp.Submit(r)) && JobId(q, r) !in st.objects
    ensures var env, calls := ScopedEnvelope(LeanScratchGateway, QUEUE_TOOL, r.scope), AdmissionCalls(q, st, r);
            var before := RunCalls(q.ledger, env, st, calls);
            var done := RecordEffect(q.ledger, env, before.state, SubmissionDraft(q, r));
            before.ok && done.ok && done.state == Next(q, st, QueueOp.Submit(r))
  {
    hide RunCalls, SubmitCalls, AdmissionCalls, SubmissionDraft, JobId, RequestDigest, Pending, RecordEffect,
        AllReadable, ArtifactCompatible;
    var env, calls := ScopedEnvelope(LeanScratchGateway, QUEUE_TOOL, r.scope), AdmissionCalls(q, st, r);
    var last := Uncaught(Record(SubmissionDraft(q, r)));
    AdmissionCallsAre(q, st, r);
    CallsAppend(q.ledger, env, st, calls, [last]);
    SingleCall(q.ledger, env, RunCalls(q.ledger, env, st, calls).state, last.op);
  }

  lemma AdmissionRows(q: QueueConfig, st: State, r: Request)
    requires Commits(q, st, QueueOp.Submit(r)) && JobId(q, r) !in st.objects
    ensures RowsAdmitted(q, st, Next(q, st, QueueOp.Submit(r)), r)
  {
    hide RunCalls, SubmitCalls, AdmissionCalls, SubmissionDraft, JobId, RequestDigest, RecordEffect, Commits, Next,
        JobCreation, HasRowFor, Creates, JobRow, LinksOf, Active, ArtifactId;
    AdmissionRuns(q, st, r);
    AdmissionCallsAre(q, st, r);
    var env, calls := ScopedEnvelope(LeanScratchGateway, QUEUE_TOOL, r.scope), AdmissionCalls(q, st, r);
    var before := RunCalls(q.ledger, env, st, calls).state;
    BlockRows(q.ledger, env, st, calls);
    BlockLinks(q.ledger, env, st, calls);
    RecordsKeepRows(q.ledger, env);
    JobHasRow(q, before, r);
    StoredIsArtifact(before, ArtifactId(q.sha256(r.source)), q.pathFor(q.sha256(r.source)));
  }

  lemma JobHasRow(q: QueueConfig, st: State, r: Request)
    requires HasRowFor(st, JobCreation(q, r))
    ensures JobId(q, r) in st.objects && JobRow(q, r, st.objects[JobId(q, r)])
  {
    hide RequestDigest, JobId;
  }

  lemma StoredIsArtifact(st: State, id: string, location: string)
    requires HasRowFor(st, AddLocation(id, location))
    ensures id in st.objects && st.objects[id].kind == Artifact
  {
  }

  lemma AdmissionLog(q: QueueConfig, st: State, r: Request)
    requires Commits(q, st, QueueOp.Submit(r)) && JobId(q, r) !in st.objects
    ensures LogAdmitted(q, st, Next(q, st, QueueOp.Submit(r)), r)
  {
    hide RunCalls, SubmitCalls, AdmissionCalls, SubmissionDraft, JobId, RequestDigest, RecordEffect, Commits, Next,
        Wrote, SubmissionKey, ScopeOf, KeyUsed, Says, SubmissionEvent;
    AdmissionRuns(q, st, r);
    AdmissionCallsAre(q, st, r);
    var env, calls := ScopedEnvelope(LeanScratchGateway, QUEUE_TOOL, r.scope), AdmissionCalls(q, st, r);
    var before, after := RunCalls(q.ledger, env, st, calls).state, Next(q, st, QueueOp.Submit(r));
    var d := SubmissionDraft(q, r);
    BlockEvents(q.ledger, env, st, calls);
    DraftOf(q, r);
    NothingSubmitted(q, st, before, env, r);
    KeyBefore(st.events, before.events, SubmissionKey(q, r));
    RecordSays(q.ledger, env, before, d);
    if after.events != before.events {
      var e := after.events[|before.events|];
      assert after.events == before.events + [e];
      SubmissionSays(q, r, e, q.ledger.clock(NextId(before.events)));
    }
    ScopeAfter(q, st, before, after, r);
  }

  lemma NothingSubmitted(q: QueueConfig, st: State, before: State, env: Envelope, r: Request)
    requires forall i :: |st.events| <= i < |before.events| ==>
               WrittenIn(q.ledger, env, AdmissionCalls(q, st, r), before.events[i])
    ensures forall i :: |st.events| <= i < |before.events| ==>
              before.events[i].core.action != CheckSubmitted
              && before.events[i].idempotencyKey != Some(SubmissionKey(q, r))
  {
    hide AdmissionCalls, SubmissionKey, Wrote;
    AdmissionCallsAre(q, st, r);
    var calls := AdmissionCalls(q, st, r);
    forall i | |st.events| <= i < |before.events|
      ensures before.events[i].core.action != CheckSubmitted
      ensures before.events[i].idempotencyKey != Some(SubmissionKey(q, r))
    {
      assert WrittenIn(q.ledger, env, calls, before.events[i]);
      var c :| c in calls && Wrote(q.ledger, env, c.op, before.events[i]);
      NoRecordSubmits(q, r, env, c.op, before.events[i]);
    }
  }

  lemma NoRecordSubmits(q: QueueConfig, r: Request, env: Envelope, op: Op, e: Event)
    requires !op.Record? && Wrote(q.ledger, env, op, e)
    ensures e.core.action != CheckSubmitted && e.idempotencyKey != Some(SubmissionKey(q, r))
  {
    hide RequestDigest;
    if e.idempotencyKey.Some? {
      assert e.idempotencyKey.value[0] == 'a' && SubmissionKey(q, r)[0] == 'c';
    }
  }

  lemma KeyBefore(s: seq<Event>, t: seq<Event>, key: string)
    requires s <= t && forall i :: |s| <= i < |t| ==> t[i].idempotencyKey != Some(key)
    ensures KeyUsed(t, key) <==> KeyUsed(s, key)
  {
    if KeyUsed(s, key) {
      var i :| 0 <= i < |s| && s[i].idempotencyKey == Some(key);
      assert t[i] in t;
    }
    if KeyUsed(t, key) {
      var i :| 0 <= i < |t| && t[i].idempotencyKey == Some(key);
      assert s[i] in s;
    }
  }

  lemma SubmissionSays(q: QueueConfig, r: Request, e: Event, now: string)
    requires Says(e, ScopedEnvelope(LeanScratchGateway, QUEUE_TOOL, r.scope), SubmissionDraft(q, r), now)
    ensures SubmissionEvent(q, r, e.core)
  {
    hide RequestDigest, JobId, ArtifactId;
  }

  lemma ScopeAfter(q: QueueConfig, s: State, b: State, t: State, r: Request)
    requires s.events <= b.events
    requires forall i :: |s.events| <= i < |b.events| ==> b.events[i].core.action != CheckSubmitted
    requires t.events == b.events || (|t.events| == |b.events| + 1 && b.events <= t.events
                                      && SubmissionEvent(q, r, t.events[|b.events|].core))
    ensures Unsubmitted(s.events, JobId(q, r)) ==>
              ScopeOf(t.events, JobId(q, r)) == if t.events == b.events then Scope(None, None, None) else r.scope
  {
    hide JobId, ScopeOf, RequestDigest, ArtifactId;
    var job := JobId(q, r);
    if Unsubmitted(s.events, job) {
      forall i | 0 <= i < |b.events| ensures !Submits(b.events[i], job) {
        if i < |s.events| { assert b.events[i] == s.events[i] && s.events[i] in s.events; }
      }
      ScopeIsOfFirst(t.events, job);
      if t.events != b.events { assert FirstSubmission(t.events, job, |b.events|); }
    }
  }

  lemma DraftOf(q: QueueConfig, r: Request)
    ensures SubmissionDraft(q, r).key == Some(SubmissionKey(q, r))
  {
  }
}
