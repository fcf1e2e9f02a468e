/**
  Withdrawing a false check result: which edges go, which stay, and why the
  order of withdrawals does not matter.
 */
module Invalidation {
  import opened Wrappers
  import opened Vocabulary
  import opened Events
  import opened Store
  import opened Derive

  // ---- What the queue reads about a check ----

  /** A check row `_from_record` can turn into a job. */
  predicate Readable(st: State, job: string) {
    && job in st.objects && st.objects[job].kind == Check
    && {"checkpoint_key", "environment_identity", "input_sha256", "source_artifact_id", "request_class"}
       <= st.objects[job].properties.Keys
  }

  datatype Scope = Scope(campaignId: Option<string>, epochId: Option<string>, turnId: Option<string>)

  /** The scope of the first submission of the job. */
  function ScopeOf(events: seq<Event>, job: string): Scope {
    if events == [] then Scope(None, None, None)
    else if events[0].core.subjectId == job && events[0].core.action == CheckSubmitted
    then Scope(events[0].core.campaignId, events[0].core.epochId, events[0].core.turnId)
    else ScopeOf(events[1..], job)
  }

  function ScopedEnvelope(actor: Actor, tool: string, scope: Scope): Envelope {
    Envelope(actor, tool, scope.campaignId, scope.epochId, scope.turnId)
  }

  // ---- The operation ----

  /** Sources of the active edges into `target`, in row order. */
  function SourcesOf(edges: seq<Edge>, r: Relation, target: string): seq<string> {
    if edges == [] then []
    else
      var e := edges[|edges| - 1];
      SourcesOf(edges[..|edges| - 1], r, target) +
      (if e.Active() && e.relation == r && e.target == target then [e.source] else [])
  }

  /** Targets of the active edges out of `source`, in row order. */
  function TargetsOf(edges: seq<Edge>, source: string, r: Relation): seq<string> {
    if edges == [] then []
    else
      var e := edges[|edges| - 1];
      TargetsOf(edges[..|edges| - 1], source, r) +
      (if e.Active() && e.source == source && e.relation == r then [e.target] else [])
  }

  predicate IsFormalClaim(st: State, id: string) {
    id in st.objects && st.objects[id].kind == FormalClaim
  }

  function FormalOnly(st: State, ids: seq<string>): seq<string> {
    if ids == [] then []
    else FormalOnly(st, ids[..|ids| - 1]) + (if IsFormalClaim(st, ids[|ids| - 1]) then [ids[|ids| - 1]] else [])
  }

  /** The claims whose provenance the invalidation withdraws. */
  function ClaimsOf(st: State, job: string): seq<string> {
    FormalOnly(st, SourcesOf(st.edges, ProducedBy, job))
  }

  function Digit(n: nat): char
    requires n < 10
  {
    "0123456789"[n]
  }

  function Decimal(n: nat): string {
    if n < 10 then [Digit(n)] else Decimal(n / 10) + [Digit(n % 10)]
  }

  function CorrectionDraft(job: string, reason: string, id: nat): Draft {
    Draft(CorrectionRecorded, ObjectSubject, job,
          map["reason" := JText(reason), "corrects_event_id" := JNumber(id as real)],
          None, Some("invalidate-check-event:" + Decimal(id)), None)
  }

  function WithdrawalDraft(job: string, reason: string): Draft {
    Draft(ObjectRetracted, ObjectSubject, job, map["reason" := JText(reason)],
          None, Some("invalidate-check:" + job), None)
  }

  /** The events of the check an invalidation corrects. */
  function Corrected(events: seq<EventCore>): seq<nat> {
    if events == [] then []
    else
      var e := events[|events| - 1];
      Corrected(events[..|events| - 1]) +
      (if e.action == ElaborationSucceeded || e.action == CheckCompleted then [e.id] else [])
  }

  function RecordAll(cfg: Config, env: Envelope, st: State, drafts: seq<Draft>): Effect
    decreases |drafts|
  {
    if drafts == [] then Effect(st, true)
    else
      var first := RecordEffect(cfg, env, st, drafts[0]);
      if !first.ok then first else RecordAll(cfg, env, first.state, drafts[1..])
  }

  function Corrections(job: string, reason: string, ids: seq<nat>): seq<Draft> {
    seq(|ids|, i requires 0 <= i < |ids| => CorrectionDraft(job, reason, ids[i]))
  }

  datatype Triple = Triple(source: string, relation: Relation, target: string)

  function RetractAll(cfg: Config, env: Envelope, st: State, triples: seq<Triple>, reason: string): Effect
    decreases |triples|
  {
    if triples == [] then Effect(st, true)
    else
      var x := triples[0];
      var first := RetractEffect(cfg, env, st, x.source, x.relation, x.target, reason);
      if !first.ok then first else RetractAll(cfg, env, first.state, triples[1..], reason)
  }

  function ProvenanceTriples(claims: seq<string>, job: string): seq<Triple> {
    seq(|claims|, i requires 0 <= i < |claims| => Triple(claims[i], ProducedBy, job))
  }

  function OutgoingTriples(st: State, claim: string, r: Relation): seq<Triple> {
    var targets := TargetsOf(st.edges, claim, r);
    seq(|targets|, i requires 0 <= i < |targets| => Triple(claim, r, targets[i]))
  }

  /** Some check that has not been retired still produces the claim. */
  predicate ActivelyChecked(st: State, claim: string) {
    exists i :: 0 <= i < |st.edges| && st.edges[i].Active() && st.edges[i].source == claim
                && st.edges[i].relation == ProducedBy
                && st.edges[i].target in st.objects && st.objects[st.edges[i].target].kind == Check
                && LifecycleOf(EventsOf(st.events, st.edges[i].target, None)) == ActiveObject
  }

  predicate Promoted(st: State, claim: string) {
    exists i :: 0 <= i < |st.edges| && st.edges[i].Active() && st.edges[i].source == claim
        && st.edges[i].relation == IncludedIn
  }

  predicate Supported(st: State, claim: string) {
    ActivelyChecked(st, claim) || Promoted(st, claim)
  }

  /** The relevance edges of one claim, withdrawn unless something else supports it. */
  function PruneClaim(cfg: Config, env: Envelope, st: State, claim: string, reason: string): Effect {
    if Supported(st, claim) then Effect(st, true)
    else
      var advanced := RetractAll(cfg, env, st, OutgoingTriples(st, claim, Advances), reason);
      if !advanced.ok then advanced
      else RetractAll(cfg, env, advanced.state, OutgoingTriples(advanced.state, claim, DependsOn), reason)
  }

  function PruneAll(cfg: Config, env: Envelope, st: State, claims: seq<string>, reason: string): Effect
    decreases |claims|
  {
    if claims == [] then Effect(st, true)
    else
      var first := PruneClaim(cfg, env, st, claims[0], reason);
      if !first.ok then first else PruneAll(cfg, env, first.state, claims[1..], reason)
  }

  const INVALIDATION_TOOL := "tool:scratch-check-invalidation-v1"

  function InvalidationEnvelope(st: State, job: string): Envelope {
    ScopedEnvelope(LedgerService, INVALIDATION_TOOL, ScopeOf(st.events, job))
  }

  /** The corrections and the retirement of the check, each under a key of its own. */
  function Drafts(st: State, job: string, reason: string): seq<Draft> {
    Corrections(job, reason, Corrected(EventsOf(st.events, job, None))) + [WithdrawalDraft(job, reason)]
  }

  /** The body of the `with` block of `invalidate`. */
  function InvalidateEffect(cfg: Config, st: State, job: string, reason: string): Effect {
    var env := InvalidationEnvelope(st, job);
    var claims := ClaimsOf(st, job);
    var recorded := RecordAll(cfg, env, st, Drafts(st, job, reason));
    if !recorded.ok then recorded
    else
      var withdrawn := RetractAll(cfg, env, recorded.state, ProvenanceTriples(claims, job), reason);
      if !withdrawn.ok then withdrawn
      else PruneAll(cfg, env, withdrawn.state, claims, reason)
  }

  /** One call of `invalidate`: refused for anything but a check, otherwise one transaction. */
  function Invalidate(cfg: Config, st: State, job: string, reason: string): State {
    if !Readable(st, job) then st
    else
      var done := InvalidateEffect(cfg, st, job, reason);
      if done.ok then done.state else st
  }
}
