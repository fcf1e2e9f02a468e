/**
  Submitting under the version-1 vocabulary: when the transaction of a new
  submission commits, and what it leaves.
 */
module Submission {
  import opened Wrappers
  import opened Vocabulary
  import opened StandardVocabulary
  import opened Events
  import opened Store
  import opened Invalidation
  import opened Queue
  import opened QueueRuns

  // ---- Identifiers ----

  predicate Printable(s: string) {
    forall i :: 0 <= i < |s| ==> s[i] != '\n' && s[i] != '\r'
  }

  lemma PrintableIdentifier(s: string)
    requires Printable(s) && 0 < |s| <= MAX_IDENTIFIER_CHARS
    ensures ValidIdentifier(s)
  {
  }

  lemma ArtifactIdentifier(sha: string)
    requires LowercaseSha256(sha)
    ensures ValidIdentifier(ArtifactId(sha)) && ArtifactId(sha) != "" && ArtifactId(sha)[0] == 'a'
  {
    assert Printable(ARTIFACT_ID_PREFIX);
    assert forall i :: 0 <= i < |sha| ==> sha[i] in sha;
    var id := ArtifactId(sha);
    assert forall i :: 0 <= i < |id| ==>
      id[i] == if i < |ARTIFACT_ID_PREFIX| then ARTIFACT_ID_PREFIX[i] else sha[i - |ARTIFACT_ID_PREFIX|];
    PrintableIdentifier(id);
  }

  lemma JobIdentifier(q: QueueConfig, r: Request)
    requires LowercaseSha256(RequestDigest(q, r))
    ensures ValidIdentifier(JobId(q, r)) && JobId(q, r) != "" && JobId(q, r)[0] == 'c'
  {
    var prefix, digest := "check:", Take(RequestDigest(q, r), 24);
    hide RequestDigest;
    assert Printable(prefix);
    assert forall i :: 0 <= i < |digest| ==> digest[i] in RequestDigest(q, r);
    var id := JobId(q, r);
    assert forall i :: 0 <= i < |id| ==> id[i] == if i < 6 then prefix[i] else digest[i - 6];
    PrintableIdentifier(id);
  }

  lemma IdsDiffer(q: QueueConfig, r: Request, sha: string)
    requires LowercaseSha256(RequestDigest(q, r)) && LowercaseSha256(sha)
    ensures JobId(q, r) != ArtifactId(sha)
  {
    hide RequestDigest, JobId, ArtifactId;
    JobIdentifier(q, r);
    ArtifactIdentifier(sha);
  }

  lemma QueueToolIdentifier()
    ensures ValidIdentifier(QUEUE_TOOL)
  {
    assert Printable(QUEUE_TOOL);
    PrintableIdentifier(QUEUE_TOOL);
  }

  // ---- Records that are accepted ----

  predicate Gateway(env: Envelope) {
    env.actorClass == LeanScratchGateway && ValidIdentifier(env.actorId)
  }

  /** An accepted record appends to the log, or was there already, and touches no other table. */
  lemma RecordCommits(cfg: Config, env: Envelope, st: State, d: Draft)
    requires Acceptable(cfg.vocab, env, d) && (d.evidence.Some? ==> d.evidence.value in st.objects)
    ensures var r := RecordEffect(cfg, env, st, d);
            r.ok && r.state == st.(events := r.state.events)
  {
    hide Acceptable, NextEvent;
  }

  lemma ArtifactCommits(cfg: Config, env: Envelope, st: State, op: Op)
    requires cfg.vocab == Standard() && Gateway(env) && op.RegisterArtifact?
    requires LowercaseSha256(op.sha256) && op.byteSize >= 0 && ArtifactId(op.sha256) !in st.objects
    ensures var r := RegisterEffect(cfg, env, st, op);
            var id := ArtifactId(op.sha256);
            && r.ok && r.state.edges == st.edges && r.state.objects.Keys == st.objects.Keys + {id}
            && (forall x :: x in st.objects ==> r.state.objects[x] == st.objects[x])
            && var o := r.state.objects[id];
               && o.kind == Artifact && "sha256" in o.properties && o.properties["sha256"] == JText(op.sha256)
               && "byte_size" in o.properties && o.properties["byte_size"] == JNumber(op.byteSize as real)
  {
    hide RecordEffect, Acceptable, Standard, LowercaseSha256, RegistrationDraft;
    var creation := ArtifactCreation(op);
    ArtifactDraftsAreAcceptable(env, op);
    RecordCommits(cfg, env, st, CreationDraft(creation));
    RecordCommits(cfg, env, CreateEffect(cfg, env, st, creation).state, RegistrationDraft(op));
  }

  lemma ArtifactDraftsAreAcceptable(env: Envelope, op: Op)
    requires Gateway(env) && op.RegisterArtifact? && LowercaseSha256(op.sha256)
    ensures Acceptable(Standard(), env, CreationDraft(ArtifactCreation(op)))
    ensures Acceptable(Standard(), env, RegistrationDraft(op)) && RegistrationDraft(op).evidence.None?
    ensures var c := ArtifactCreation(op); ObjectWellFormed(Standard(), c.kind, c.format, c.properties)
  {
    ArtifactIdentifier(op.sha256);
    hide ValidIdentifier, ArtifactId;
  }

  lemma LocationCommits(cfg: Config, env: Envelope, st: State, id: string, location: string)
    requires cfg.vocab == Standard() && Gateway(env) && ValidIdentifier(id) && IsArtifact(st, id)
    ensures var r := AddLocationEffect(cfg, env, st, id, location);
            r.ok && r.state.objects == st.objects && r.state.edges == st.edges
  {
    hide RecordEffect, Acceptable, Standard;
    LocationIsAcceptable(env, id, location);
    RecordCommits(cfg, env, st, Plain(ArtifactLocationAdded, id, map["location" := JText(location)]));
  }

  lemma LocationIsAcceptable(env: Envelope, id: string, location: string)
    requires Gateway(env) && ValidIdentifier(id)
    ensures Acceptable(Standard(), env, Plain(ArtifactLocationAdded, id, map["location" := JText(location)]))
  {
    hide ValidIdentifier;
  }

  // ---- The stages of a submission ----

  /** Edges join objects, as the foreign keys demand. */
  ghost predicate Grounded(st: State) {
    forall e :: e in st.edges ==> e.source in st.objects && e.target in st.objects
  }

  /**
    What a submission finds when nothing stands in its way: its job id is free and its
    source is not stored otherwise.
   */
  predicate Submittable(q: QueueConfig, st: State, r: Request) {
    && LowercaseSha256(RequestDigest(q, r)) && LowercaseSha256(q.sha256(r.source))
    && JobId(q, r) !in st.objects && ArtifactCompatible(st, q.sha256(r.source), |r.source|)
  }

  predicate SourceStored(q: QueueConfig, st: State, r: Request) {
    ArtifactId(q.sha256(r.source)) in st.objects && ArtifactCompatible(st, q.sha256(r.source), |r.source|)
  }

  ghost predicate Grows(s: State, t: State, added: set<string>) {
    && (forall x :: x in s.objects ==> x in t.objects && t.objects[x] == s.objects[x])
    && t.objects.Keys <= s.objects.Keys + added
  }

  lemma StoreCommits(q: QueueConfig, env: Envelope, st: State, r: Request, name: string)
    requires q.ledger.vocab == Standard() && Gateway(env) && Submittable(q, st, r)
    ensures var sha := q.sha256(r.source);
            var done := RunCalls(q.ledger, env, st, StoreCalls(q, st, r.source, "scratch_source", "text/x-lean", name));
            && done.ok && SourceStored(q, done.state, r) && done.state.edges == st.edges
                && Grows(st, done.state, {ArtifactId(sha)})
  {
    hide Standard, RegisterEffect, AddLocationEffect, ArtifactId, LowercaseSha256, RequestDigest, JobId;
    var sha := q.sha256(r.source);
    var id := ArtifactId(sha);
    ArtifactIdentifier(sha);
    var register := RegisterArtifact(sha, "scratch_source", |r.source|, "text/x-lean", Some(name));
    var locate := AddLocation(id, q.pathFor(sha));
    if id in st.objects {
      assert StoreCalls(q, st, r.source, "scratch_source", "text/x-lean", name) == [Uncaught(locate)];
      SingleCall(q.ledger, env, st, locate);
      LocationCommits(q.ledger, env, st, id, q.pathFor(sha));
    } else {
      assert StoreCalls(q, st, r.source, "scratch_source", "text/x-lean", name) ==
          [Uncaught(register)] + [Uncaught(locate)];
      CallsAppend(q.ledger, env, st, [Uncaught(register)], [Uncaught(locate)]);
      SingleCall(q.ledger, env, st, register);
      ArtifactCommits(q.ledger, env, st, register);
      var mid := RegisterEffect(q.ledger, env, st, register).state;
      SingleCall(q.ledger, env, mid, locate);
      LocationCommits(q.ledger, env, mid, id, q.pathFor(sha));
    }
  }

  lemma JobIsAcceptable(q: QueueConfig, env: Envelope, r: Request)
    requires Gateway(env) && LowercaseSha256(RequestDigest(q, r))
    ensures var op := JobCreation(q, r);
            ObjectWellFormed(Standard(), op.kind, op.format, op.properties)
                && Acceptable(Standard(), env, CreationDraft(op))
  {
    JobIdentifier(q, r);
    hide ValidIdentifier, JobId, ArtifactId, RequestDigest;
  }

  lemma JobCommits(q: QueueConfig, env: Envelope, st: State, r: Request)
    requires q.ledger.vocab == Standard() && Gateway(env) && LowercaseSha256(RequestDigest(q, r))
            && JobId(q, r) !in st.objects
    ensures var done := Apply(q.ledger, env, st, JobCreation(q, r));
            done.ok && done.state.edges == st.edges && Grows(st, done.state, {JobId(q, r)})
                && Readable(done.state, JobId(q, r))
  {
    hide Standard, RecordEffect, Acceptable, ObjectWellFormed, JobId, RequestDigest, LowercaseSha256;
    JobIsAcceptable(q, env, r);
    RecordCommits(q.ledger, env, st, CreationDraft(JobCreation(q, r)));
  }

  lemma LinkIsAcceptable(env: Envelope, source: string, job: string)
    requires Gateway(env) && ValidIdentifier(source)
    ensures ConnectionValid(Standard(), ProducedBy, Artifact, Check, map[])
    ensures Acceptable(Standard(), env, ConnectionDraft(Connect(source, ProducedBy, job, map[], None)))
  {
    hide ValidIdentifier;
  }

  lemma LinkCommits(cfg: Config, env: Envelope, st: State, source: string, job: string)
    requires cfg.vocab == Standard() && Gateway(env) && ValidIdentifier(source)
    requires source in st.objects && st.objects[source].kind == Artifact && job in st.objects
            && st.objects[job].kind == Check
    requires forall e :: e in st.edges ==> e.target != job
    ensures var done := Apply(cfg, env, st, Connect(source, ProducedBy, job, map[], None));
            && done.ok && done.state.objects == st.objects && |done.state.edges| == |st.edges| + 1
            && done.state.edges[..|st.edges|] == st.edges && done.state.edges[|st.edges|].Is(source, ProducedBy, job)
  {
    hide Standard, RecordEffect, Acceptable, ConnectionValid;
    LinkIsAcceptable(env, source, job);
    RecordCommits(cfg, env, st, ConnectionDraft(Connect(source, ProducedBy, job, map[], None)));
    assert EdgeIndex(st.edges, source, ProducedBy, job) == |st.edges|;
  }

  lemma DraftIsAcceptable(q: QueueConfig, env: Envelope, r: Request)
    requires Gateway(env) && LowercaseSha256(RequestDigest(q, r)) && LowercaseSha256(q.sha256(r.source))
    ensures Acceptable(Standard(), env, SubmissionDraft(q, r))
  {
    JobIdentifier(q, r);
    ArtifactIdentifier(q.sha256(r.source));
    hide ValidIdentifier, JobId, ArtifactId, RequestDigest, LowercaseSha256;
  }

  lemma NobodyPointsThere(s: State, t: State, job: string)
    requires Grounded(s) && job !in s.objects && t.edges == s.edges
    ensures forall e :: e in t.edges ==> e.target != job
  {
  }

  /** What a committed submission leaves behind. */
  ghost predicate Submitted(q: QueueConfig, s: State, t: State, r: Request) {
    && Grows(s, t, {ArtifactId(q.sha256(r.source)), JobId(q, r)})
    && SourceStored(q, t, r) && Readable(t, JobId(q, r)) && Grounded(t)
  }

  lemma StagesSubmit(q: QueueConfig, s: State, a: State, b: State, c: State, d: State, r: Request)
    requires Grounded(s) && SourceStored(q, a, r) && a.edges == s.edges && Grows(s, a, {ArtifactId(q.sha256(r.source))})
    requires b.edges == a.edges && Grows(a, b, {JobId(q, r)}) && Readable(b, JobId(q, r))
    requires c.objects == b.objects && |c.edges| == |b.edges| + 1 && c.edges[..|b.edges|] == b.edges
    requires c.edges[|b.edges|].Is(ArtifactId(q.sha256(r.source)), ProducedBy, JobId(q, r))
    requires d == c.(events := d.events)
    ensures Submitted(q, s, d, r)
  {
    hide ArtifactId, JobId;
    forall e | e in d.edges ensures e.source in d.objects && e.target in d.objects {
      if e in b.edges {
        assert e in s.edges;
      } else {
        assert c.edges == b.edges + [c.edges[|b.edges|]];
      }
    }
  }

  /** The calls after the source is stored, from the state in which it is. */
  lemma JobStages(q: QueueConfig, env: Envelope, st: State, a: State, r: Request)
    requires q.ledger.vocab == Standard() && Gateway(env) && Submittable(q, st, r) && Grounded(st)
    requires SourceStored(q, a, r) && a.edges == st.edges && Grows(st, a, {ArtifactId(q.sha256(r.source))})
    ensures var source, job := ArtifactId(q.sha256(r.source)), JobId(q, r);
            var calls := [Uncaught(JobCreation(q, r))] + ([Link(source, ProducedBy,
                job)] + [Uncaught(Record(SubmissionDraft(q, r)))]);
            var done := RunCalls(q.ledger, env, a, calls);
            done.ok && Submitted(q, st, done.state, r)
  {
    hide RunCalls, Standard, JobCreation, SubmissionDraft, JobId, ArtifactId, RequestDigest, Apply;
    hide LowercaseSha256, ValidIdentifier, RecordEffect, Submitted, Grounded, Acceptable;
    var source, job := ArtifactId(q.sha256(r.source)), JobId(q, r);
    ArtifactIdentifier(q.sha256(r.source));
    IdsDiffer(q, r, q.sha256(r.source));
    var create, link, note := Uncaught(JobCreation(q, r)), Link(source, ProducedBy, job),
        Uncaught(Record(SubmissionDraft(q, r)));
    CallsAppend(q.ledger, env, a, [create], [link] + [note]);
    SingleCall(q.ledger, env, a, create.op);
    JobCommits(q, env, a, r);
    var b := Apply(q.ledger, env, a, create.op).state;
    NobodyPointsThere(st, b, job);
    CallsAppend(q.ledger, env, b, [link], [note]);
    SingleCall(q.ledger, env, b, link.op);
    LinkCommits(q.ledger, env, b, source, job);
    var c := Apply(q.ledger, env, b, link.op).state;
    SingleCall(q.ledger, env, c, note.op);
    NoteCommits(q, env, c, r);
    StagesSubmit(q, st, a, b, c, Apply(q.ledger, env, c, note.op).state, r);
  }

  lemma NoteCommits(q: QueueConfig, env: Envelope, c: State, r: Request)
    requires q.ledger.vocab == Standard() && Gateway(env) && ArtifactId(q.sha256(r.source)) in c.objects
    requires LowercaseSha256(RequestDigest(q, r)) && LowercaseSha256(q.sha256(r.source))
    ensures var done := Apply(q.ledger, env, c, Record(SubmissionDraft(q, r)));
            done.ok && done.state == c.(events := done.state.events)
  {
    hide Acceptable, RecordEffect, Standard, SubmissionDraft, LowercaseSha256, RequestDigest;
    DraftIsAcceptable(q, env, r);
    DraftEvidence(q, r);
    RecordCommits(q.ledger, env, c, SubmissionDraft(q, r));
  }

  /** Under the version-1 vocabulary nothing but what `Submittable` names can make a new submission raise. */
  lemma SubmissionCommits(q: QueueConfig, st: State, r: Request)
    requires q.ledger.vocab == Standard() && Submittable(q, st, r) && Grounded(st)
    ensures Admitted(q, st, r).Some?
    ensures var done := RunCalls(q.ledger, Admitted(q, st, r).value.env, st, SubmitCalls(q, st, r));
            done.ok && Submitted(q, st, done.state, r) && Transact(q.ledger, st, Admitted(q, st, r).value) == done.state
  {
    hide RunCalls, Standard, StoreCalls, JobCreation, SubmissionDraft, JobId, ArtifactId, RequestDigest;
    hide LowercaseSha256, ValidIdentifier, Submitted, Grounded;
    var env := ScopedEnvelope(LeanScratchGateway, QUEUE_TOOL, r.scope);
    var source, job := ArtifactId(q.sha256(r.source)), JobId(q, r);
    QueueToolIdentifier();
    var name := "Scratch source for " + job;
    var store := StoreCalls(q, st, r.source, "scratch_source", "text/x-lean", name);
    var rest := [Uncaught(JobCreation(q, r))] + ([Link(source, ProducedBy,
        job)] + [Uncaught(Record(SubmissionDraft(q, r)))]);
    assert SubmitCalls(q, st, r) == store + rest;
    CallsAppend(q.ledger, env, st, store, rest);
    StoreCommits(q, env, st, r, name);
    JobStages(q, env, st, RunCalls(q.ledger, env, st, store).state, r);
  }

  lemma DraftEvidence(q: QueueConfig, r: Request)
    ensures SubmissionDraft(q, r).evidence == Some(ArtifactId(q.sha256(r.source)))
  {
  }
}
