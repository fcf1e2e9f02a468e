/**
  The tables of a ledger and what each operation of a write session does to
  them, as functions on values.  `Sessions` implements these on mutable tables.
 */
module Store {
  import opened Wrappers
  import opened Vocabulary
  import opened Events

  const ARTIFACT_ID_PREFIX := "artifact:sha256:"

  datatype ObjectRecord = ObjectRecord(
    id: string, kind: Kind, canonicalName: string, contentFormat: ContentFormat,
    content: string, properties: Properties, createdEventId: nat)

  datatype Alias = Alias(objectId: string, createdEventId: nat)

  /** One row of the connections table; rows keep their position for ever. */
  datatype Edge = Edge(
    source: string, relation: Relation, target: string, properties: Properties,
    created: nat, retracted: Option<nat>)
  {
    predicate Active() { retracted.None? }
    predicate Is(f: string, r: Relation, t: string) { source == f && relation == r && target == t }
  }

  datatype LocationState = Present | Lost

  datatype Location = Location(state: LocationState, verifiedAt: Option<string>, createdEventId: nat)

  datatype State = State(
    events: seq<Event>,
    objects: map<string, ObjectRecord>,
    aliases: map<string, Alias>,
    edges: seq<Edge>,
    locations: map<(string, string), Location>)

  const EMPTY := State([], map[], map[], [], map[])

  /** What the model takes from outside: the tables, the digest, and a clock read once per event id. */
  datatype Config = Config(vocab: Vocabulary, hash: Hash, clock: nat -> string)

  datatype Op =
    | CreateObject(id: string, kind: Kind, name: string, format: ContentFormat, content: string,
                   properties: Properties, occurredAt: Option<string>)
    | AddAlias(alias: string, id: string)
    | Connect(source: string, relation: Relation, target: string, properties: Properties,
              occurredAt: Option<string>)
    | Retract(source: string, relation: Relation, target: string, reason: string)
    | RegisterArtifact(sha256: string, artifactType: string, byteSize: int, mediaType: string,
                       artifactName: Option<string>)
    | AddLocation(id: string, location: string)
    | VerifyLocation(id: string, location: string, verified: bool)
    | LoseLocation(id: string, location: string, reason: string)
    | ArchiveArtifact(id: string, retention: string)
    | Record(draft: Draft)

  /** The tables after an operation, and whether it returned rather than raised. */
  datatype Effect = Effect(state: State, ok: bool)

  // ---- Lookups ----

  function KeyIndex(events: seq<Event>, key: string): (i: nat)
    ensures i <= |events|
    ensures i < |events| ==> events[i].idempotencyKey == Some(key)
    ensures forall j :: 0 <= j < i ==> events[j].idempotencyKey != Some(key)
  {
    if events == [] then 0
    else
      var i := KeyIndex(events[..|events| - 1], key);
      if i < |events| - 1 || events[|events| - 1].idempotencyKey == Some(key) then i else |events|
  }

  predicate KeyUsed(events: seq<Event>, key: string) {
    exists e :: e in events && e.idempotencyKey == Some(key)
  }

  function EdgeIndex(edges: seq<Edge>, f: string, r: Relation, t: string): (i: nat)
    ensures i <= |edges|
    ensures i < |edges| ==> edges[i].Is(f, r, t)
    ensures forall j :: 0 <= j < i ==> !edges[j].Is(f, r, t)
  {
    if edges == [] then 0
    else
      var i := EdgeIndex(edges[..|edges| - 1], f, r, t);
      if i < |edges| - 1 || edges[|edges| - 1].Is(f, r, t) then i else |edges|
  }

  /** `[0-9a-f]{64}` in full. */
  predicate LowercaseSha256(s: string) {
    |s| == 64 && forall c :: c in s ==> '0' <= c <= '9' || 'a' <= c <= 'f'
  }

  predicate RetentionState(s: string) {
    s in {"retained", "archived", "external_only", "lost"}
  }

  // ---- Operations ----

  /** The event a draft becomes when it is the next one of the chain. */
  function NextEvent(cfg: Config, env: Envelope, events: seq<Event>, d: Draft): Event {
    var id := NextId(events);
    Build(cfg.hash, env, d, id, HeadHash(events), cfg.clock(id))
  }

  /** `record`: a known key changes nothing; otherwise the event is validated and appended. */
  function RecordEffect(cfg: Config, env: Envelope, st: State, d: Draft): Effect {
    if d.key.Some? && KeyUsed(st.events, d.key.value) then Effect(st, true)
    else if d.evidence.Some? && d.evidence.value !in st.objects then Effect(st, false)
    else if !Acceptable(cfg.vocab, env, d) then Effect(st, false)
    else Effect(st.(events := st.events + [NextEvent(cfg, env, st.events, d)]), true)
  }

  function Plain(action: Action, subject: string, payload: Properties): Draft {
    Draft(action, ObjectSubject, subject, payload, None, None, None)
  }

  function FormatName(f: ContentFormat): string {
    match f
    case Lean => "lean"
    case Text => "text"
    case Markdown => "markdown"
    case JsonText => "json"
    case NoContent => "none"
    case OtherFormat(n) => n
  }

  function KindName(k: Kind): string {
    match k
    case FormalClaim => "formal_claim"
    case ResearchClaim => "research_claim"
    case Counterexample => "counterexample"
    case Computation => "computation"
    case Publication => "publication"
    case SourceVersion => "source_version"
    case SourceClaim => "source_claim"
    case Artifact => "artifact"
    case Campaign => "campaign"
    case Epoch => "epoch"
    case Turn => "turn"
    case Check => "check"
    case Annotation => "annotation"
    case OtherKind(n) => n
  }

  function RelationName(r: Relation): string {
    match r
    case DependsOn => "depends_on"
    case DecomposesInto => "decomposes_into"
    case Supports => "supports"
    case Refutes => "refutes"
    case Supersedes => "supersedes"
    case Advances => "advances"
    case EquivalentTo => "equivalent_to"
    case Specializes => "specializes"
    case Strengthens => "strengthens"
    case Weakens => "weakens"
    case FormalizedAs => "formalized_as"
    case ProducedBy => "produced_by"
    case CertifiedBy => "certified_by"
    case IncludedIn => "included_in"
    case Targets => "targets"
    case Annotates => "annotates"
    case HasVersion => "has_version"
    case HasSource => "has_source"
    case Contains => "contains"
    case OtherRelation(n) => n
  }

  /** The kind accepts the format and has its required properties. */
  predicate ObjectWellFormed(vocab: Vocabulary, kind: Kind, format: ContentFormat, properties: Properties) {
    && vocab.objectKinds(kind).Some?
    && !format.OtherFormat?
    && var declared := vocab.objectKinds(kind).value;
    && (declared.contentFormats != {} ==> format in declared.contentFormats)
    && declared.requiredProperties <= properties.Keys
  }

  predicate SameIdentity(o: ObjectRecord, op: Op)
    requires op.CreateObject?
  {
    && o.kind == op.kind && o.canonicalName == op.name && o.contentFormat == op.format
    && o.content == op.content && o.properties == op.properties
  }

  function CreationDraft(op: Op): Draft
    requires op.CreateObject?
  {
    Draft(ObjectCreated, ObjectSubject, op.id,
          map["kind" := JText(KindName(op.kind)), "canonical_name" := JText(op.name),
              "content_format" := JText(FormatName(op.format)), "properties" := JObject(op.properties)],
          None, None, op.occurredAt)
  }

  function CreateEffect(cfg: Config, env: Envelope, st: State, op: Op): Effect
    requires op.CreateObject?
  {
    if !ObjectWellFormed(cfg.vocab, op.kind, op.format, op.properties) then Effect(st, false)
    else if op.id in st.objects then Effect(st, SameIdentity(st.objects[op.id], op))
    else
      var recorded := RecordEffect(cfg, env, st, CreationDraft(op));
      if !recorded.ok then Effect(st, false)
      else
        var row := ObjectRecord(op.id, op.kind, op.name, op.format, op.content, op.properties, NextId(st.events));
        Effect(recorded.state.(objects := st.objects[op.id := row]), true)
  }

  function AliasEffect(cfg: Config, env: Envelope, st: State, alias: string, id: string): Effect {
    if id !in st.objects then Effect(st, false)
    else if alias in st.aliases then Effect(st, st.aliases[alias].objectId == id)
    else
      var recorded := RecordEffect(cfg, env, st, Plain(AliasAdded, id, map["alias" := JText(alias)]));
      if !recorded.ok then Effect(st, false)
      else Effect(recorded.state.(aliases := st.aliases[alias := Alias(id, NextId(st.events))]), true)
  }

  function ConnectionDraft(op: Op): Draft
    requires op.Connect?
  {
    Draft(ConnectionCreated, ConnectionSubject, op.source,
          map["relation" := JText(RelationName(op.relation)), "from_id" := JText(op.source),
              "to_id" := JText(op.target), "properties" := JObject(op.properties)],
          None, None, op.occurredAt)
  }

  function ConnectEffect(cfg: Config, env: Envelope, st: State, op: Op): Effect
    requires op.Connect?
  {
    if op.source !in st.objects || op.target !in st.objects then Effect(st, false)
    else if !ConnectionValid(cfg.vocab, op.relation, st.objects[op.source].kind, st.objects[op.target].kind,
        op.properties)
    then Effect(st, false)
    else
      var i := EdgeIndex(st.edges, op.source, op.relation, op.target);
      if i < |st.edges| && st.edges[i].Active() then Effect(st, st.edges[i].properties == op.properties)
      else
        var recorded := RecordEffect(cfg, env, st, ConnectionDraft(op));
        if !recorded.ok then Effect(st, false)
        else
          var row := Edge(op.source, op.relation, op.target, op.properties, NextId(st.events), None);
          Effect(recorded.state.(edges := if i < |st.edges| then st.edges[i := row] else st.edges + [row]), true)
  }

  function RetractDraft(source: string, reason: string): Draft {
    Draft(ConnectionRetracted, ConnectionSubject, source, map["reason" := JText(reason)], None, None, None)
  }

  function RetractEffect(cfg: Config, env: Envelope, st: State, f: string, r: Relation, t: string,
      reason: string): Effect {
    var i := EdgeIndex(st.edges, f, r, t);
    if i == |st.edges| then Effect(st, false)
    else if !st.edges[i].Active() then Effect(st, true)
    else
      var recorded := RecordEffect(cfg, env, st, RetractDraft(f, reason));
      if !recorded.ok then Effect(st, false)
      else Effect(recorded.state.(edges := st.edges[i := st.edges[i].(retracted := Some(NextId(st.events)))]), true)
  }

  function ArtifactId(sha256: string): string {
    ARTIFACT_ID_PREFIX + sha256
  }

  /** The creation that `register_artifact` performs first. */
  function ArtifactCreation(op: Op): Op
    requires op.RegisterArtifact?
  {
    var id := ArtifactId(op.sha256);
    var name := if op.artifactName.Some? && op.artifactName.value != "" then op.artifactName.value else id;
    CreateObject(id, Artifact, name, NoContent, "",
                 map["sha256" := JText(op.sha256), "artifact_type" := JText(op.artifactType),
                     "byte_size" := JNumber(op.byteSize as real), "media_type" := JText(op.mediaType)],
                 None)
  }

  function RegistrationDraft(op: Op): Draft
    requires op.RegisterArtifact?
  {
    Draft(ArtifactRegistered, ObjectSubject, ArtifactId(op.sha256),
          map["sha256" := JText(op.sha256), "byte_size" := JNumber(op.byteSize as real),
              "artifact_type" := JText(op.artifactType)],
          None, Some("artifact_registered:" + op.sha256), None)
  }

  function RegisterEffect(cfg: Config, env: Envelope, st: State, op: Op): Effect
    requires op.RegisterArtifact?
  {
    if !LowercaseSha256(op.sha256) || op.byteSize < 0 then Effect(st, false)
    else
      var created := CreateEffect(cfg, env, st, ArtifactCreation(op));
      if !created.ok then created else RecordEffect(cfg, env, created.state, RegistrationDraft(op))
  }

  predicate IsArtifact(st: State, id: string) {
    id in st.objects && st.objects[id].kind == Artifact
  }

  function AddLocationEffect(cfg: Config, env: Envelope, st: State, id: string, location: string): Effect {
    if !IsArtifact(st, id) then Effect(st, false)
    else if (id, location) in st.locations && st.locations[(id, location)].state == Present then Effect(st, true)
    else
      var recorded := RecordEffect(cfg, env, st, Plain(ArtifactLocationAdded, id, map["location" := JText(location)]));
      if !recorded.ok then Effect(st, false)
      else
        var at := NextId(st.events);
        var row := if (id, location) in st.locations
                   then st.locations[(id, location)].(state := Present, createdEventId := at)
                   else Location(Present, None, at);
        Effect(recorded.state.(locations := st.locations[(id, location) := row]), true)
  }

  /** An SQL UPDATE of one location row: nothing happens when there is no such row. */
  function UpdateLocation(st: State, id: string, location: string, state: LocationState,
      verifiedAt: Option<string>): State {
    if (id, location) !in st.locations then st
    else st.(locations := st.locations[(id, location) :=
               st.locations[(id, location)].(state := state, verifiedAt := verifiedAt)])
  }

  function VerifyLocationEffect(cfg: Config, env: Envelope, st: State, id: string, location: string,
      verified: bool): Effect {
    if !IsArtifact(st, id) then Effect(st, false)
    else
      var d := Plain(ArtifactLocationVerified, id, map["location" := JText(location), "verified" := JBool(verified)]);
      var recorded := RecordEffect(cfg, env, st, d);
      if !recorded.ok then Effect(st, false)
      else
        var at := NextEvent(cfg, env, st.events, d).core.occurredAt;
        Effect(UpdateLocation(recorded.state, id, location, if verified then Present else Lost,
                              if verified then Some(at) else None), true)
  }

  function LoseLocationEffect(cfg: Config, env: Envelope, st: State, id: string, location: string,
      reason: string): Effect {
    if !IsArtifact(st, id) then Effect(st, false)
    else
      var d := Plain(ArtifactLocationLost, id, map["location" := JText(location), "reason" := JText(reason)]);
      var recorded := RecordEffect(cfg, env, st, d);
      if !recorded.ok then Effect(st, false)
      else
        var verifiedAt := if (id, location) in st.locations then st.locations[(id, location)].verifiedAt else None;
        Effect(UpdateLocation(recorded.state, id, location, Lost, verifiedAt), true)
  }

  function ArchiveEffect(cfg: Config, env: Envelope, st: State, id: string, retention: string): Effect {
    if !IsArtifact(st, id) || !RetentionState(retention) then Effect(st, false)
    else RecordEffect(cfg, env, st, Plain(ArtifactArchived, id, map["retention_state" := JText(retention)]))
  }

  function Apply(cfg: Config, env: Envelope, st: State, op: Op): Effect {
    match op
    case CreateObject(_, _, _, _, _, _, _) => CreateEffect(cfg, env, st, op)
    case AddAlias(alias, id) => AliasEffect(cfg, env, st, alias, id)
    case Connect(_, _, _, _, _) => ConnectEffect(cfg, env, st, op)
    case Retract(f, r, t, reason) => RetractEffect(cfg, env, st, f, r, t, reason)
    case RegisterArtifact(_, _, _, _, _) => RegisterEffect(cfg, env, st, op)
    case AddLocation(id, location) => AddLocationEffect(cfg, env, st, id, location)
    case VerifyLocation(id, location, verified) => VerifyLocationEffect(cfg, env, st, id, location, verified)
    case LoseLocation(id, location, reason) => LoseLocationEffect(cfg, env, st, id, location, reason)
    case ArchiveArtifact(id, retention) => ArchiveEffect(cfg, env, st, id, retention)
    case Record(d) => RecordEffect(cfg, env, st, d)
  }

  // ---- Sessions and runs ----

  /** One call inside a `with` block; `caught` when the caller swallows what it raises. */
  datatype Call = Call(op: Op, caught: bool)

  /** The calls of one block in order; stops at the first exception nobody catches. */
  function RunCalls(cfg: Config, env: Envelope, st: State, calls: seq<Call>): Effect
    decreases |calls|
  {
    if calls == [] then Effect(st, true)
    else
      var first := Apply(cfg, env, st, calls[0].op);
      if !first.ok && !calls[0].caught then first
      else RunCalls(cfg, env, first.state, calls[1..])
  }

  datatype Session = Session(env: Envelope, calls: seq<Call>)

  /** One transaction: everything the block did, or nothing. */
  function Transact(cfg: Config, st: State, s: Session): State {
    var done := RunCalls(cfg, s.env, st, s.calls);
    if done.ok then done.state else st
  }

  function Run(cfg: Config, st: State, sessions: seq<Session>): State
    decreases |sessions|
  {
    if sessions == [] then st
    else Run(cfg, Transact(cfg, st, sessions[0]), sessions[1..])
  }
}
