/**
  The independent verifier, and why it finds nothing to report on any ledger
  that was only ever written through write sessions.
 */
module Integrity {
  import opened Wrappers
  import opened Vocabulary
  import opened Events
  import opened Store

  // ---- Findings ----

  datatype Code =
    | ForeignKeyViolation
    | EventIdGap | ChainBreak | EventHashMismatch
    | UnauthorizedEvent | InvalidPayload | MissingEvidence
    | UnknownKind | MissingProperties | ArtifactIdentityMismatch
    | UnknownRelation | DanglingConnection | InvalidConnection
    | TruthFromWrongActor | RefutationWithoutKernelTrust
    | SchemaVersionMismatch | VocabularyUnbound | ArtifactCorrupt

  datatype Subject = OfEvent(id: nat) | OfObject(objectId: string) | OfEdge(f: string, r: Relation,
      t: string) | OfTable(table: string)

  /** Every finding modelled here has severity ERROR. */
  datatype Finding = Finding(code: Code, subject: Subject)

  predicate EndsWith(s: string, suffix: string) {
    |suffix| <= |s| && s[|s| - |suffix|..] == suffix
  }

  /** What the chain check holds against event `k`, given how it resynchronizes after a gap. */
  ghost predicate ChainFault(hash: Hash, events: seq<Event>, k: nat, code: Code)
    requires k < |events|
  {
    || (code == EventIdGap && events[k].core.id != NextId(events[..k]))
    || (code == ChainBreak && events[k].core.previousHash != HeadHash(events[..k]))
    || (code == EventHashMismatch && events[k].eventHash != hash(events[k].core))
  }

  ghost predicate EventFault(vocab: Vocabulary, st: State, e: EventCore, code: Code) {
    || (code == UnauthorizedEvent && !Authorized(vocab, e.actorClass, e.action))
    || (code == InvalidPayload && !PayloadValid(vocab, e.action, e.payload, e.evidence))
    || (code == MissingEvidence && e.evidence.Some? && e.evidence.value !in st.objects)
  }

  ghost predicate TruthFault(e: EventCore) {
    e.action == KernelCertified && e.actorClass != AuthoritativeEvaluator
  }

  predicate NamedByDigest(o: ObjectRecord) {
    "sha256" in o.properties && o.properties["sha256"].JText? && EndsWith(o.id, o.properties["sha256"].s)
  }

  ghost predicate ObjectFault(vocab: Vocabulary, o: ObjectRecord, code: Code) {
    if vocab.objectKinds(o.kind).None? then code == UnknownKind
    else
      || (code == MissingProperties && !(vocab.objectKinds(o.kind).value.requiredProperties <= o.properties.Keys))
      || (code == ArtifactIdentityMismatch && o.kind == Artifact && !NamedByDigest(o))
  }

  ghost predicate EdgeFault(vocab: Vocabulary, st: State, e: Edge, code: Code) {
    if vocab.relations(e.relation).None? then code == UnknownRelation
    else if e.source !in st.objects || e.target !in st.objects then code == DanglingConnection
    else code == InvalidConnection &&
         !ConnectionValid(vocab, e.relation, st.objects[e.source].kind, st.objects[e.target].kind, e.properties)
  }

  predicate WeakRefutation(e: Edge) {
    e.relation == Refutes && e.Active() &&
    !("trust_level" in e.properties && e.properties["trust_level"] == JText("kernel"))
  }

  function EdgeSubject(e: Edge): Subject {
    OfEdge(e.source, e.relation, e.target)
  }

  // ---- The checks, each exact about what it reports ----

  method CheckChain(hash: Hash, events: seq<Event>) returns (findings: seq<Finding>)
    ensures forall f :: f in findings <==>
              exists k: nat :: k < |events| && f.subject == OfEvent(events[k].core.id)
                  && ChainFault(hash, events, k, f.code)
  {
    hide HeadHash, NextId;
    findings := [];
    var previousHash := GENESIS_HASH;
    var expectedId := 1;
    NothingRecorded();
    assert events[..0] == [];
    for i := 0 to |events|
      invariant previousHash == HeadHash(events[..i])
      invariant expectedId == NextId(events[..i])
      invariant forall f :: f in findings <==>
                  exists k: nat :: k < i && f.subject == OfEvent(events[k].core.id)
                      && ChainFault(hash, events, k, f.code)
    {
      var event := events[i];
      var subject := OfEvent(event.core.id);
      ghost var before := findings;
      if event.core.id != expectedId {
        findings := findings + [Finding(EventIdGap, subject)];
        expectedId := event.core.id;
      }
      if event.core.previousHash != previousHash {
        findings := findings + [Finding(ChainBreak, subject)];
      }
      if event.eventHash != hash(event.core) {
        findings := findings + [Finding(EventHashMismatch, subject)];
      }
      assert forall f :: f in findings <==>
          f in before || (f.subject == subject && ChainFault(hash, events, i, f.code));
      previousHash := event.eventHash;
      expectedId := expectedId + 1;
      HeadAfter(events, i);
    }
  }

  lemma NothingRecorded()
    ensures HeadHash([]) == GENESIS_HASH && NextId([]) == 1
  {
  }

  lemma HeadAfter(events: seq<Event>, i: nat)
    requires i < |events|
    ensures HeadHash(events[..i + 1]) == events[i].eventHash && NextId(events[..i + 1]) == events[i].core.id + 1
  {
  }

  method CheckAuthority(vocab: Vocabulary, st: State) returns (findings: seq<Finding>)
    ensures forall f :: f in findings <==>
              exists k: nat :: k < |st.events| && f.subject == OfEvent(st.events[k].core.id)
                               && EventFault(vocab, st, st.events[k].core, f.code)
  {
    findings := [];
    for i := 0 to |st.events|
      invariant forall f :: f in findings <==>
                  exists k: nat :: k < i && f.subject == OfEvent(st.events[k].core.id)
                                   && EventFault(vocab, st, st.events[k].core, f.code)
    {
      var event := st.events[i].core;
      var subject := OfEvent(event.id);
      ghost var before := findings;
      if !Authorized(vocab, event.actorClass, event.action) {
        findings := findings + [Finding(UnauthorizedEvent, subject)];
      }
      if !PayloadValid(vocab, event.action, event.payload, event.evidence) {
        findings := findings + [Finding(InvalidPayload, subject)];
      }
      if event.evidence.Some? && event.evidence.value !in st.objects {
        findings := findings + [Finding(MissingEvidence, subject)];
      }
      assert forall f :: f in findings <==>
          f in before || (f.subject == subject && EventFault(vocab, st, event, f.code));
    }
  }

  method CheckObjects(vocab: Vocabulary, st: State) returns (findings: seq<Finding>)
    ensures forall f :: f in findings <==>
              exists id :: id in st.objects && f.subject == OfObject(st.objects[id].id)
                           && ObjectFault(vocab, st.objects[id], f.code)
  {
    findings := [];
    var todo := st.objects.Keys;
    while todo != {}
      invariant todo <= st.objects.Keys
      invariant forall f :: f in findings <==>
                  exists id :: id in st.objects && id !in todo && f.subject == OfObject(st.objects[id].id)
                               && ObjectFault(vocab, st.objects[id], f.code)
      decreases todo
    {
      var id :| id in todo;
      var record := st.objects[id];
      var subject := OfObject(record.id);
      ghost var before := findings;
      var declared := vocab.objectKinds(record.kind);
      if declared.None? {
        findings := findings + [Finding(UnknownKind, subject)];
      } else {
        if !(declared.value.requiredProperties <= record.properties.Keys) {
          findings := findings + [Finding(MissingProperties, subject)];
        }
        if record.kind == Artifact && !NamedByDigest(record) {
          findings := findings + [Finding(ArtifactIdentityMismatch, subject)];
        }
      }
      assert forall f :: f in findings <==> f in before || (f.subject == subject && ObjectFault(vocab, record, f.code));
      todo := todo - {id};
    }
  }

  method CheckConnections(vocab: Vocabulary, st: State) returns (findings: seq<Finding>)
    ensures forall f :: f in findings <==>
              exists k: nat :: k < |st.edges| && f.subject == EdgeSubject(st.edges[k])
                               && EdgeFault(vocab, st, st.edges[k], f.code)
  {
    findings := [];
    for i := 0 to |st.edges|
      invariant forall f :: f in findings <==>
                  exists k: nat :: k < i && f.subject == EdgeSubject(st.edges[k])
                                   && EdgeFault(vocab, st, st.edges[k], f.code)
    {
      var edge := st.edges[i];
      var subject := EdgeSubject(edge);
      ghost var before := findings;
      if vocab.relations(edge.relation).None? {
        findings := findings + [Finding(UnknownRelation, subject)];
      } else if edge.source !in st.objects || edge.target !in st.objects {
        findings := findings + [Finding(DanglingConnection, subject)];
      } else if !ConnectionValid(vocab, edge.relation, st.objects[edge.source].kind, st.objects[edge.target].kind,
          edge.properties) {
        findings := findings + [Finding(InvalidConnection, subject)];
      }
      assert forall f :: f in findings <==> f in before || (f.subject == subject && EdgeFault(vocab, st, edge, f.code));
    }
  }

  method CheckTruthInvariants(st: State) returns (findings: seq<Finding>)
    ensures forall f :: f in findings <==>
              || (f.code == TruthFromWrongActor &&
                  exists k: nat :: k < |st.events| && f.subject == OfEvent(st.events[k].core.id)
                      && TruthFault(st.events[k].core))
              || (f.code == RefutationWithoutKernelTrust &&
                  exists k: nat :: k < |st.edges| && f.subject == EdgeSubject(st.edges[k])
                      && WeakRefutation(st.edges[k]))
  {
    findings := [];
    for i := 0 to |st.events|
      invariant forall f :: f in findings <==>
                  f.code == TruthFromWrongActor &&
                  exists k: nat :: k < i && f.subject == OfEvent(st.events[k].core.id) && TruthFault(st.events[k].core)
    {
      var event := st.events[i].core;
      if event.action == KernelCertified && event.actorClass != AuthoritativeEvaluator {
        findings := findings + [Finding(TruthFromWrongActor, OfEvent(event.id))];
      }
    }
    ghost var first := findings;
    for i := 0 to |st.edges|
      invariant forall f :: f in findings <==>
                  || f in first
                  || (f.code == RefutationWithoutKernelTrust &&
                      exists k: nat :: k < i && f.subject == EdgeSubject(st.edges[k]) && WeakRefutation(st.edges[k]))
    {
      var edge := st.edges[i];
      if WeakRefutation(edge) {
        findings := findings + [Finding(RefutationWithoutKernelTrust, EdgeSubject(edge))];
      }
    }
  }

  // ---- What a clean report means ----

  ghost function EventIds(events: seq<Event>): set<nat> {
    set e | e in events :: e.core.id
  }

  /** `PRAGMA foreign_key_check` would return no row: every reference names a row that exists. */
  ghost predicate ForeignKeysOk(st: State) {
    var ids := EventIds(st.events);
    && ObjectRefs(ids, st.objects)
    && AliasRefs(ids, st.objects.Keys, st.aliases)
    && EdgeRefs(ids, st.objects.Keys, st.edges)
    && LocationRefs(ids, st.objects.Keys, st.locations)
  }

  ghost predicate ObjectRefs(ids: set<nat>, objects: map<string, ObjectRecord>) {
    forall id :: id in objects ==> objects[id].createdEventId in ids
  }

  ghost predicate AliasRefs(ids: set<nat>, objects: set<string>, aliases: map<string, Alias>) {
    forall a :: a in aliases ==> aliases[a].objectId in objects && aliases[a].createdEventId in ids
  }

  ghost predicate EdgeRefs(ids: set<nat>, objects: set<string>, edges: seq<Edge>) {
    forall e :: e in edges ==>
      e.source in objects && e.target in objects && e.created in ids && (e.retracted.Some? ==> e.retracted.value in ids)
  }

  ghost predicate LocationRefs(ids: set<nat>, objects: set<string>, locations: map<(string, string), Location>) {
    forall l :: l in locations ==> l.0 in objects && locations[l].createdEventId in ids
  }

  ghost predicate EventsClean(vocab: Vocabulary, objects: set<string>, events: seq<Event>) {
    forall e :: e in events ==>
      && Authorized(vocab, e.core.actorClass, e.core.action)
      && PayloadValid(vocab, e.core.action, e.core.payload, e.core.evidence)
      && (e.core.evidence.Some? ==> e.core.evidence.value in objects)
  }

  ghost predicate ObjectClean(vocab: Vocabulary, o: ObjectRecord) {
    && vocab.objectKinds(o.kind).Some?
    && vocab.objectKinds(o.kind).value.requiredProperties <= o.properties.Keys
    && (o.kind == Artifact ==> NamedByDigest(o))
  }

  ghost predicate ObjectsClean(vocab: Vocabulary, objects: map<string, ObjectRecord>) {
    forall id :: id in objects ==> ObjectClean(vocab, objects[id])
  }

  ghost predicate EdgeClean(vocab: Vocabulary, objects: map<string, ObjectRecord>, e: Edge) {
    && e.source in objects && e.target in objects
    && ConnectionValid(vocab, e.relation, objects[e.source].kind, objects[e.target].kind, e.properties)
  }

  ghost predicate EdgesClean(vocab: Vocabulary, objects: map<string, ObjectRecord>, edges: seq<Edge>) {
    forall e :: e in edges ==> EdgeClean(vocab, objects, e)
  }

  ghost predicate TruthClean(events: seq<Event>, edges: seq<Edge>) {
    && (forall e :: e in events ==> !TruthFault(e.core))
    && (forall e :: e in edges ==> !WeakRefutation(e))
  }

  ghost predicate Clean(cfg: Config, st: State) {
    && ForeignKeysOk(st)
    && ChainOk(cfg.hash, st.events)
    && EventsClean(cfg.vocab, st.objects.Keys, st.events)
    && ObjectsClean(cfg.vocab, st.objects)
    && EdgesClean(cfg.vocab, st.objects, st.edges)
    && TruthClean(st.events, st.edges)
  }

  const SCHEMA_VERSION := 1

  /** What the database says of itself: its schema version, and whether a vocabulary digest is recorded. */
  datatype Database = Database(version: int, bound: bool)

  /** For a digest, what the local file stored under it hashes to, if there is one. */
  type Bytes = string -> Option<string>

  predicate DigestOf(o: ObjectRecord, digest: string) {
    "sha256" in o.properties && o.properties["sha256"] == JText(digest)
  }

  predicate Corrupt(stored: Bytes, o: ObjectRecord) {
    && o.kind == Artifact && "sha256" in o.properties && o.properties["sha256"].JText?
    && var digest := o.properties["sha256"].s;
       stored(digest).Some? && stored(digest).value != digest
  }

  /** No artifact's local bytes hash to anything but their name. */
  ghost predicate BytesClean(stored: Bytes, objects: map<string, ObjectRecord>) {
    forall id, digest :: id in objects && objects[id].kind == Artifact && DigestOf(objects[id], digest) ==>
      stored(digest) in {None, Some(digest)}
  }

  method CheckSchema(db: Database) returns (findings: seq<Finding>)
    ensures findings == [] <==> db.version == SCHEMA_VERSION && db.bound
    ensures forall f :: f in findings <==>
              && f.subject == OfTable("database")
              && ((f.code == SchemaVersionMismatch && db.version != SCHEMA_VERSION)
                  || (f.code == VocabularyUnbound && !db.bound))
  {
    findings := if db.version != SCHEMA_VERSION then [Finding(SchemaVersionMismatch, OfTable("database"))] else [];
    if !db.bound {
      findings := findings + [Finding(VocabularyUnbound, OfTable("database"))];
    }
  }

  /** The deep check: local bytes are hashed again. */
  method CheckBytes(stored: Bytes, st: State) returns (findings: seq<Finding>)
    ensures forall f :: f in findings <==>
              exists id :: id in st.objects && Corrupt(stored, st.objects[id])
                           && f == Finding(ArtifactCorrupt, OfObject(st.objects[id].id))
  {
    findings := [];
    var todo := st.objects.Keys;
    while todo != {}
      invariant todo <= st.objects.Keys
      invariant forall f :: f in findings <==>
                  exists id :: id in st.objects && id !in todo && Corrupt(stored, st.objects[id])
                               && f == Finding(ArtifactCorrupt, OfObject(st.objects[id].id))
      decreases todo
    {
      var id :| id in todo;
      if Corrupt(stored, st.objects[id]) {
        findings := findings + [Finding(ArtifactCorrupt, OfObject(st.objects[id].id))];
      }
      todo := todo - {id};
    }
  }

  lemma BytesReported(stored: Bytes, st: State, s: seq<Finding>)
    requires forall f :: f in s <==>
               exists id :: id in st.objects && Corrupt(stored, st.objects[id])
                            && f == Finding(ArtifactCorrupt, OfObject(st.objects[id].id))
    ensures s == [] <==> BytesClean(stored, st.objects)
  {
    EmptyIff(s);
    if s == [] {
      forall id, digest | id in st.objects && st.objects[id].kind == Artifact && DigestOf(st.objects[id], digest)
        ensures stored(digest) in {None, Some(digest)}
      {
        assert Finding(ArtifactCorrupt, OfObject(st.objects[id].id)) !in s;
      }
    }
    if BytesClean(stored, st.objects) {
      forall id | id in st.objects ensures !Corrupt(stored, st.objects[id]) {
        if Corrupt(stored, st.objects[id]) {
          assert DigestOf(st.objects[id], st.objects[id].properties["sha256"].s);
        }
      }
    }
  }

  /**
    `verify`, with the foreign-key check of the database engine passed in as a
    flag and the local files, when a deep check is asked for, as a function.
    It reports no ERROR exactly when the database is bound to the schema, the
    ledger is clean, and no stored bytes have changed.
   */
  method Verify(cfg: Config, db: Database, st: State, foreignKeysOk: bool, stored: Option<Bytes>, deep: bool)
    returns (findings: seq<Finding>)
    requires foreignKeysOk <==> ForeignKeysOk(st)
    ensures findings == [] <==>
              && db.version == SCHEMA_VERSION && db.bound && Clean(cfg, st)
              && (stored.Some? && deep ==> BytesClean(stored.value, st.objects))
  {
    var schema := CheckSchema(db);
    var keys: seq<Finding> := if foreignKeysOk then [] else [Finding(ForeignKeyViolation, OfTable("database"))];
    var chain := CheckChain(cfg.hash, st.events);
    var authority := CheckAuthority(cfg.vocab, st);
    var objects := CheckObjects(cfg.vocab, st);
    var edges := CheckConnections(cfg.vocab, st);
    var truth := CheckTruthInvariants(st);
    var bytes: seq<Finding> := [];
    if stored.Some? && deep {
      bytes := CheckBytes(stored.value, st);
      BytesReported(stored.value, st, bytes);
    }
    findings := schema + keys + chain + authority + objects + edges + truth + bytes;
    ChainReported(cfg.hash, st.events, chain);
    AuthorityReported(cfg.vocab, st, authority);
    ObjectsReported(cfg.vocab, st, objects);
    EdgesReported(cfg.vocab, st, edges);
    TruthReported(st, truth);
  }

  lemma EmptyIff(s: seq<Finding>)
    ensures s == [] <==> forall f :: f !in s
  {
    if s != [] {
      assert s[0] in s;
    }
  }

  lemma ChainReported(hash: Hash, events: seq<Event>, s: seq<Finding>)
    requires forall f :: f in s <==>
               exists k: nat :: k < |events| && f.subject == OfEvent(events[k].core.id)
                   && ChainFault(hash, events, k, f.code)
    ensures s == [] <==> ChainOk(hash, events)
  {
    EmptyIff(s);
    if s == [] {
      forall k: nat | k < |events| ensures Linked(hash, events, k) {
        var subject := OfEvent(events[k].core.id);
        assert Finding(ChainBreak, subject) !in s && Finding(EventHashMismatch, subject) !in s;
        GapFree(hash, events, s, k);
      }
    }
    if ChainOk(hash, events) && s != [] {
      var k: nat :| k < |events| && s[0].subject == OfEvent(events[k].core.id)
          && ChainFault(hash, events, k, s[0].code);
      assert Linked(hash, events, k);
      ChainPrefix(hash, events, k);
      ChainNextId(hash, events[..k]);
    }
  }

  lemma {:induction false} GapFree(hash: Hash, events: seq<Event>, s: seq<Finding>, k: nat)
    requires forall f :: f in s <==>
               exists k: nat :: k < |events| && f.subject == OfEvent(events[k].core.id)
                   && ChainFault(hash, events, k, f.code)
    requires s == [] && k < |events|
    ensures events[k].core.id == k + 1
  {
    assert Finding(EventIdGap, OfEvent(events[k].core.id)) !in s;
    if k > 0 {
      GapFree(hash, events, s, k - 1);
    }
  }

  lemma AuthorityReported(vocab: Vocabulary, st: State, s: seq<Finding>)
    requires forall f :: f in s <==>
               exists k: nat :: k < |st.events| && f.subject == OfEvent(st.events[k].core.id)
                                && EventFault(vocab, st, st.events[k].core, f.code)
    ensures s == [] <==> EventsClean(vocab, st.objects.Keys, st.events)
  {
    EmptyIff(s);
    if s == [] {
      forall e | e in st.events
        ensures && Authorized(vocab, e.core.actorClass, e.core.action)
                && PayloadValid(vocab, e.core.action, e.core.payload, e.core.evidence)
                && (e.core.evidence.Some? ==> e.core.evidence.value in st.objects)
      {
        var k: nat :| k < |st.events| && st.events[k] == e;
        var subject := OfEvent(e.core.id);
        assert Finding(UnauthorizedEvent, subject) !in s && Finding(InvalidPayload, subject) !in s
               && Finding(MissingEvidence, subject) !in s;
      }
    }
  }

  lemma ObjectsReported(vocab: Vocabulary, st: State, s: seq<Finding>)
    requires forall f :: f in s <==>
               exists id :: id in st.objects && f.subject == OfObject(st.objects[id].id)
                            && ObjectFault(vocab, st.objects[id], f.code)
    ensures s == [] <==> ObjectsClean(vocab, st.objects)
  {
    EmptyIff(s);
    if s == [] {
      forall id | id in st.objects
        ensures ObjectClean(vocab, st.objects[id])
      {
        var subject := OfObject(st.objects[id].id);
        assert Finding(UnknownKind, subject) !in s && Finding(MissingProperties, subject) !in s
               && Finding(ArtifactIdentityMismatch, subject) !in s;
      }
    }
  }

  lemma EdgesReported(vocab: Vocabulary, st: State, s: seq<Finding>)
    requires forall f :: f in s <==>
               exists k: nat :: k < |st.edges| && f.subject == EdgeSubject(st.edges[k])
                                && EdgeFault(vocab, st, st.edges[k], f.code)
    ensures s == [] <==> EdgesClean(vocab, st.objects, st.edges)
  {
    EmptyIff(s);
    if s == [] {
      forall e | e in st.edges
        ensures EdgeClean(vocab, st.objects, e)
      {
        var k: nat :| k < |st.edges| && st.edges[k] == e;
        var subject := EdgeSubject(e);
        assert Finding(UnknownRelation, subject) !in s && Finding(DanglingConnection, subject) !in s
               && Finding(InvalidConnection, subject) !in s;
      }
    } else {
      var k: nat :| k < |st.edges| && s[0].subject == EdgeSubject(st.edges[k])
          && EdgeFault(vocab, st, st.edges[k], s[0].code);
      assert st.edges[k] in st.edges && !EdgeClean(vocab, st.objects, st.edges[k]);
    }
  }

  lemma TruthReported(st: State, s: seq<Finding>)
    requires forall f :: f in s <==>
               || (f.code == TruthFromWrongActor &&
                   exists k: nat :: k < |st.events| && f.subject == OfEvent(st.events[k].core.id)
                       && TruthFault(st.events[k].core))
               || (f.code == RefutationWithoutKernelTrust &&
                   exists k: nat :: k < |st.edges| && f.subject == EdgeSubject(st.edges[k])
                       && WeakRefutation(st.edges[k]))
    ensures s == [] <==> TruthClean(st.events, st.edges)
  {
    EmptyIff(s);
    if s == [] {
      forall e | e in st.events ensures !TruthFault(e.core) {
        var k: nat :| k < |st.events| && st.events[k] == e;
        assert Finding(TruthFromWrongActor, OfEvent(e.core.id)) !in s;
      }
      forall e | e in st.edges ensures !WeakRefutation(e) {
        var k: nat :| k < |st.edges| && st.edges[k] == e;
        assert Finding(RefutationWithoutKernelTrust, EdgeSubject(e)) !in s;
      }
    }
  }

  // ---- Sessions keep a ledger clean ----

  /** The references of every table survive new event ids and new objects. */
  lemma RefsGrow(st: State, ids: set<nat>, objects: set<string>)
    requires ForeignKeysOk(st)
    requires EventIds(st.events) <= ids && st.objects.Keys <= objects
    ensures ObjectRefs(ids, st.objects)
    ensures AliasRefs(ids, objects, st.aliases)
    ensures EdgeRefs(ids, objects, st.edges)
    ensures LocationRefs(ids, objects, st.locations)
  {
  }

  lemma IdsGrow(events: seq<Event>, e: Event)
    ensures EventIds(events + [e]) == EventIds(events) + {e.core.id}
  {
    assert e in events + [e];
    forall x | x in EventIds(events + [e]) ensures x in EventIds(events) + {e.core.id} {
      var y :| y in events + [e] && y.core.id == x;
    }
    forall x | x in EventIds(events) + {e.core.id} ensures x in EventIds(events + [e]) {
      if x in EventIds(events) {
        var y :| y in events && y.core.id == x;
        assert y in events + [e];
      }
    }
  }

  /** Appending an acceptable event keeps everything that is said about events. */
  lemma AppendKeepsEvents(cfg: Config, env: Envelope, st: State, d: Draft)
    requires TruthContract(cfg.vocab)
    requires ChainOk(cfg.hash, st.events)
    requires EventsClean(cfg.vocab, st.objects.Keys, st.events)
    requires TruthClean(st.events, st.edges)
    requires Acceptable(cfg.vocab, env, d)
    requires d.evidence.Some? ==> d.evidence.value in st.objects
    ensures var events' := st.events + [NextEvent(cfg, env, st.events, d)];
            && ChainOk(cfg.hash, events')
            && EventsClean(cfg.vocab, st.objects.Keys, events')
            && TruthClean(events', st.edges)
  {
    ChainExtends(cfg.hash, st.events, NextEvent(cfg, env, st.events, d));
  }

  /** What `record` leaves behind; a fresh row may refer to the event it appended. */
  lemma RecordKeepsClean(cfg: Config, env: Envelope, st: State, d: Draft)
    requires TruthContract(cfg.vocab) && Clean(cfg, st)
    ensures Clean(cfg, RecordEffect(cfg, env, st, d).state)
    ensures EventIds(st.events) <= EventIds(RecordEffect(cfg, env, st, d).state.events)
    ensures RecordEffect(cfg, env, st, d).ok && d.key.None? ==>
              NextId(st.events) in EventIds(RecordEffect(cfg, env, st, d).state.events)
  {
    var e := RecordEffect(cfg, env, st, d);
    if e.state != st {
      var event := NextEvent(cfg, env, st.events, d);
      AppendKeepsEvents(cfg, env, st, d);
      IdsGrow(st.events, event);
      RefsGrow(st, EventIds(st.events + [event]), st.objects.Keys);
    }
  }

  /** The one way to break a clean ledger through a session: an artifact not named by its digest. */
  predicate Honest(op: Op) {
    op.CreateObject? && op.kind == Artifact ==>
      "sha256" in op.properties && op.properties["sha256"].JText? && EndsWith(op.id, op.properties["sha256"].s)
  }

  /** Putting a well-formed row for a fresh id into a clean ledger. */
  lemma NewObjectKeepsClean(cfg: Config, st: State, o: ObjectRecord)
    requires Clean(cfg, st)
    requires o.id !in st.objects && ObjectClean(cfg.vocab, o) && o.createdEventId in EventIds(st.events)
    ensures Clean(cfg, st.(objects := st.objects[o.id := o]))
  {
    var st' := st.(objects := st.objects[o.id := o]);
    RefsGrow(st, EventIds(st.events), st'.objects.Keys);
    forall e | e in st.edges ensures EdgeClean(cfg.vocab, st'.objects, e) {
      assert EdgeClean(cfg.vocab, st.objects, e);
    }
  }

  lemma CreateKeepsClean(cfg: Config, env: Envelope, st: State, op: Op)
    requires TruthContract(cfg.vocab) && Clean(cfg, st)
    requires op.CreateObject? && Honest(op)
    ensures Clean(cfg, CreateEffect(cfg, env, st, op).state)
  {
    hide Clean;
    var e := CreateEffect(cfg, env, st, op);
    if e.state != st {
      var d := CreationDraft(op);
      var recorded := RecordEffect(cfg, env, st, d);
      RecordKeepsClean(cfg, env, st, d);
      var row := ObjectRecord(op.id, op.kind, op.name, op.format, op.content, op.properties, NextId(st.events));
      assert recorded.ok && e.state == recorded.state.(objects := recorded.state.objects[row.id := row]);
      assert ObjectClean(cfg.vocab, row);
      NewObjectKeepsClean(cfg, recorded.state, row);
    }
  }

  /** Replacing or adding one edge row by a clean one. */
  lemma NewEdgeKeepsClean(cfg: Config, st: State, edges: seq<Edge>, row: Edge)
    requires Clean(cfg, st)
    requires forall x :: x in edges ==> x in st.edges || x == row
    requires EdgeClean(cfg.vocab, st.objects, row) && !WeakRefutation(row)
    requires row.created in EventIds(st.events) && (row.retracted.Some? ==> row.retracted.value in EventIds(st.events))
    ensures Clean(cfg, st.(edges := edges))
  {
  }

  lemma ConnectKeepsClean(cfg: Config, env: Envelope, st: State, op: Op)
    requires TruthContract(cfg.vocab) && Clean(cfg, st)
    requires op.Connect?
    ensures Clean(cfg, ConnectEffect(cfg, env, st, op).state)
  {
    hide Clean;
    var e := ConnectEffect(cfg, env, st, op);
    if e.state != st {
      var recorded := RecordEffect(cfg, env, st, ConnectionDraft(op)).state;
      RecordKeepsClean(cfg, env, st, ConnectionDraft(op));
      var row := Edge(op.source, op.relation, op.target, op.properties, NextId(st.events), None);
      if op.relation == Refutes {
        RefutationCarriesKernelTrust(cfg.vocab, st.objects[op.source].kind, st.objects[op.target].kind, op.properties);
      }
      NewEdgeKeepsClean(cfg, recorded, e.state.edges, row);
    }
  }

  lemma RetractKeepsClean(cfg: Config, env: Envelope, st: State, f: string, r: Relation, t: string, reason: string)
    requires TruthContract(cfg.vocab) && Clean(cfg, st)
    ensures Clean(cfg, RetractEffect(cfg, env, st, f, r, t, reason).state)
  {
    hide RecordEffect, EdgeClean;
    var e := RetractEffect(cfg, env, st, f, r, t, reason);
    var i := EdgeIndex(st.edges, f, r, t);
    var d := RetractDraft(f, reason);
    var recorded := RecordEffect(cfg, env, st, d);
    RecordKeepsClean(cfg, env, st, d);
    RecordKeepsRows(cfg, env, st, d);
    if i < |st.edges| && st.edges[i].Active() && recorded.ok {
      RetractedRowIsClean(cfg, st, i, NextId(st.events));
      NewEdgeKeepsClean(cfg, recorded.state, e.state.edges, st.edges[i].(retracted := Some(NextId(st.events))));
    }
  }

  lemma RecordKeepsRows(cfg: Config, env: Envelope, st: State, d: Draft)
    ensures var next := RecordEffect(cfg, env, st, d);
            next.state == st.(events := next.state.events) && (!next.ok ==> next.state == st)
  {
    hide Acceptable, Build;
  }

  lemma RetractedRowIsClean(cfg: Config, st: State, i: nat, at: nat)
    requires Clean(cfg, st) && i < |st.edges|
    ensures var row := st.edges[i].(retracted := Some(at));
            EdgeClean(cfg.vocab, st.objects, row) && !WeakRefutation(row) && row.created in EventIds(st.events)
  {
    assert st.edges[i] in st.edges;
  }

  /** One new alias row within its references. */
  lemma NewAliasKeepsClean(cfg: Config, st: State, alias: string, row: Alias)
    requires Clean(cfg, st)
    requires row.objectId in st.objects && row.createdEventId in EventIds(st.events)
    ensures Clean(cfg, st.(aliases := st.aliases[alias := row]))
  {
  }

  lemma AliasKeepsClean(cfg: Config, env: Envelope, st: State, alias: string, id: string)
    requires TruthContract(cfg.vocab) && Clean(cfg, st)
    ensures Clean(cfg, AliasEffect(cfg, env, st, alias, id).state)
  {
    hide Clean;
    var d := Plain(AliasAdded, id, map["alias" := JText(alias)]);
    var e := AliasEffect(cfg, env, st, alias, id);
    if e.state != st {
      RecordKeepsClean(cfg, env, st, d);
      NewAliasKeepsClean(cfg, RecordEffect(cfg, env, st, d).state, alias, Alias(id, NextId(st.events)));
    }
  }

  /** One location row written within its references. */
  lemma NewLocationKeepsClean(cfg: Config, st: State, id: string, location: string, row: Location)
    requires Clean(cfg, st)
    requires id in st.objects && row.createdEventId in EventIds(st.events)
    ensures Clean(cfg, st.(locations := st.locations[(id, location) := row]))
  {
  }

  lemma AddLocationKeepsClean(cfg: Config, env: Envelope, st: State, id: string, location: string)
    requires TruthContract(cfg.vocab) && Clean(cfg, st)
    ensures Clean(cfg, AddLocationEffect(cfg, env, st, id, location).state)
  {
    hide Clean;
    var d := Plain(ArtifactLocationAdded, id, map["location" := JText(location)]);
    var e := AddLocationEffect(cfg, env, st, id, location);
    if e.state != st {
      RecordKeepsClean(cfg, env, st, d);
      NewLocationKeepsClean(cfg, RecordEffect(cfg, env, st, d).state, id, location, e.state.locations[(id, location)]);
    }
  }

  lemma UpdateLocationKeepsClean(cfg: Config, st: State, id: string, location: string, state: LocationState,
      at: Option<string>)
    requires Clean(cfg, st)
    ensures Clean(cfg, UpdateLocation(st, id, location, state, at))
  {
    if (id, location) in st.locations {
      NewLocationKeepsClean(cfg, st, id, location, st.locations[(id, location)].(state := state, verifiedAt := at));
    }
  }

  lemma VerifyLocationKeepsClean(cfg: Config, env: Envelope, st: State, id: string, location: string, verified: bool)
    requires TruthContract(cfg.vocab) && Clean(cfg, st)
    ensures Clean(cfg, VerifyLocationEffect(cfg, env, st, id, location, verified).state)
  {
    hide Clean;
    var d := Plain(ArtifactLocationVerified, id, map["location" := JText(location), "verified" := JBool(verified)]);
    RecordKeepsClean(cfg, env, st, d);
    var at := NextEvent(cfg, env, st.events, d).core.occurredAt;
    UpdateLocationKeepsClean(cfg, RecordEffect(cfg, env, st, d).state, id, location,
                             if verified then Present else Lost, if verified then Some(at) else None);
  }

  lemma LoseLocationKeepsClean(cfg: Config, env: Envelope, st: State, id: string, location: string, reason: string)
    requires TruthContract(cfg.vocab) && Clean(cfg, st)
    ensures Clean(cfg, LoseLocationEffect(cfg, env, st, id, location, reason).state)
  {
    hide Clean;
    var d := Plain(ArtifactLocationLost, id, map["location" := JText(location), "reason" := JText(reason)]);
    RecordKeepsClean(cfg, env, st, d);
    var verifiedAt := if (id, location) in st.locations then st.locations[(id, location)].verifiedAt else None;
    UpdateLocationKeepsClean(cfg, RecordEffect(cfg, env, st, d).state, id, location, Lost, verifiedAt);
  }

  lemma RegisterKeepsClean(cfg: Config, env: Envelope, st: State, op: Op)
    requires TruthContract(cfg.vocab) && Clean(cfg, st)
    requires op.RegisterArtifact?
    ensures Clean(cfg, RegisterEffect(cfg, env, st, op).state)
  {
    hide Clean;
    CreateKeepsClean(cfg, env, st, ArtifactCreation(op));
    RecordKeepsClean(cfg, env, CreateEffect(cfg, env, st, ArtifactCreation(op)).state, RegistrationDraft(op));
  }

  lemma ApplyKeepsClean(cfg: Config, env: Envelope, st: State, op: Op)
    requires TruthContract(cfg.vocab) && Clean(cfg, st) && Honest(op)
    ensures Clean(cfg, Apply(cfg, env, st, op).state)
  {
    hide Clean;
    match op
    case CreateObject(_, _, _, _, _, _, _) => CreateKeepsClean(cfg, env, st, op);
    case AddAlias(alias, id) => AliasKeepsClean(cfg, env, st, alias, id);
    case Connect(_, _, _, _, _) => ConnectKeepsClean(cfg, env, st, op);
    case Retract(f, r, t, reason) => RetractKeepsClean(cfg, env, st, f, r, t, reason);
    case RegisterArtifact(_, _, _, _, _) => RegisterKeepsClean(cfg, env, st, op);
    case AddLocation(id, location) => AddLocationKeepsClean(cfg, env, st, id, location);
    case VerifyLocation(id, location, verified) => VerifyLocationKeepsClean(cfg, env, st, id, location, verified);
    case LoseLocation(id, location, reason) => LoseLocationKeepsClean(cfg, env, st, id, location, reason);
    case ArchiveArtifact(id, retention) =>
      RecordKeepsClean(cfg, env, st, Plain(ArtifactArchived, id, map["retention_state" := JText(retention)]));
    case Record(d) => RecordKeepsClean(cfg, env, st, d);
  }

  lemma {:induction false} CallsKeepClean(cfg: Config, env: Envelope, st: State, calls: seq<Call>)
    requires TruthContract(cfg.vocab) && Clean(cfg, st)
    requires forall c :: c in calls ==> Honest(c.op)
    ensures Clean(cfg, RunCalls(cfg, env, st, calls).state)
    decreases |calls|
  {
    if calls != [] {
      ApplyKeepsClean(cfg, env, st, calls[0].op);
      var first := Apply(cfg, env, st, calls[0].op);
      if first.ok || calls[0].caught {
        CallsKeepClean(cfg, env, first.state, calls[1..]);
      }
    }
  }

  ghost predicate HonestSession(s: Session) {
    forall c :: c in s.calls ==> Honest(c.op)
  }

  /** Any run of write sessions, committed or rolled back, exceptions caught or not, leaves the ledger clean. */
  lemma {:induction false} EveryRunIsClean(cfg: Config, st: State, sessions: seq<Session>)
    requires TruthContract(cfg.vocab) && Clean(cfg, st)
    requires forall s :: s in sessions ==> HonestSession(s)
    ensures Clean(cfg, Run(cfg, st, sessions))
    decreases |sessions|
  {
    if sessions != [] {
      assert HonestSession(sessions[0]);
      CallsKeepClean(cfg, sessions[0].env, st, sessions[0].calls);
      EveryRunIsClean(cfg, Transact(cfg, st, sessions[0]), sessions[1..]);
    }
  }

  lemma EmptyIsClean(cfg: Config)
    ensures Clean(cfg, EMPTY)
  {
  }

  /** Creating an object that was not there leaves the ledger clean if and only if `Honest` allows it. */
  lemma HonestyIsExact(cfg: Config, env: Envelope, st: State, op: Op)
    requires TruthContract(cfg.vocab) && Clean(cfg, st)
    requires op.CreateObject? && op.id !in st.objects && Apply(cfg, env, st, op).ok
    ensures Clean(cfg, Apply(cfg, env, st, op).state) <==> Honest(op)
  {
    if Honest(op) {
      CreateKeepsClean(cfg, env, st, op);
    } else {
      var after := Apply(cfg, env, st, op).state;
      assert op.id in after.objects && !NamedByDigest(after.objects[op.id]);
    }
  }
}
