/**
  The transactional API on mutable tables: a ledger, and the write session it
  hands out.  Every method is proved to do to the tables exactly what the
  corresponding function of `Store` says.
 */
module Sessions {
  import opened Wrappers
  import opened Vocabulary
  import opened Events
  import opened Store

  datatype Error = LedgerError | ConflictError

  class Ledger {
    const cfg: Config
    var events: seq<Event>
    var objects: map<string, ObjectRecord>
    var aliases: map<string, Alias>
    var edges: seq<Edge>
    var locations: map<(string, string), Location>

    constructor (cfg: Config)
      ensures this.cfg == cfg && Tables() == EMPTY
    {
      this.cfg := cfg;
      events, objects, aliases, edges, locations := [], map[], map[], [], map[];
    }

    function Tables(): State
      reads this
    {
      State(events, objects, aliases, edges, locations)
    }

    /** One `with ledger.write(...)` block: its calls commit together or not at all. */
    method Write(env: Envelope, calls: seq<Call>) returns (committed: bool)
      modifies this
      ensures Tables() == Transact(cfg, old(Tables()), Session(env, calls))
      ensures committed == RunCalls(cfg, env, old(Tables()), calls).ok
    {
      var snapshot := Tables();
      var session := new WriteSession(this, env);
      var i := 0;
      while i < |calls|
        invariant 0 <= i <= |calls|
        invariant session.ledger == this && session.envelope == env && session.Valid()
        invariant RunCalls(cfg, env, snapshot, calls) == RunCalls(cfg, env, Tables(), calls[i..])
        modifies this, session
      {
        var ok := session.Perform(calls[i].op);
        if !ok && !calls[i].caught {
          // ROLLBACK
          events, objects, aliases := snapshot.events, snapshot.objects, snapshot.aliases;
          edges, locations := snapshot.edges, snapshot.locations;
          return false;
        }
        assert calls[i..][1..] == calls[i + 1..];
        i := i + 1;
      }
      return true;
    }
  }

  /** What a session wrote stays the tail of the log when it writes one more. */
  lemma TailGrows(events: seq<Event>, n: nat, event: Event)
    requires n <= |events|
    ensures (events + [event])[|events|..] == [event]
    ensures (events + [event])[|events| - n..] == events[|events| - n..] + [event]
    ensures NextId(events + [event]) == event.core.id + 1 && HeadHash(events + [event]) == event.eventHash
  {
  }

  lemma KnownKey(events: seq<Event>, key: Option<string>)
    ensures key.Some? ==> (KeyUsed(events, key.value) <==> KeyIndex(events, key.value) < |events|)
  {
  }

  /**
    What a call of `record` did to the log: an accepted one whose key is new
    appended one event that says what the session and the draft say, and
    returned it; a repeated one returned an event under that key.
   */
  ghost predicate Recorded(before: seq<Event>, after: seq<Event>, env: Envelope, d: Draft, now: string,
                           r: Result<Event, Error>) {
    && before <= after && |after| <= |before| + 1
    && (r.Ok? ==> (after == before <==> exists e :: e in before && d.key.Some? && e.idempotencyKey == d.key))
    && (r.Ok? && after == before ==> r.value in before && r.value.idempotencyKey == d.key)
    && (after != before ==> r.Ok? && r.value == after[|before|] && Says(r.value, env, d, now))
  }

  lemma BuiltIsRecorded(before: seq<Event>, hash: Hash, env: Envelope, d: Draft, id: nat, previous: string, now: string)
    requires d.key.Some? ==> !KeyUsed(before, d.key.value)
    ensures var e := Build(hash, env, d, id, previous, now);
            && Recorded(before, before + [e], env, d, now, Ok(e))
            && e.core.id == id && e.core.previousHash == previous && e.idempotencyKey == d.key
  {
    var e := Build(hash, env, d, id, previous, now);
    assert |before + [e]| == |before| + 1 && (before + [e])[|before|] == e;
  }

  lemma WellFormedMeans(vocab: Vocabulary, op: Op)
    requires op.CreateObject? && ObjectWellFormed(vocab, op.kind, op.format, op.properties)
    ensures && vocab.objectKinds(op.kind).Some? && !op.format.OtherFormat?
            && var declared := vocab.objectKinds(op.kind).value;
               && (declared.contentFormats == {} || op.format in declared.contentFormats)
               && forall name :: name in declared.requiredProperties ==> name in op.properties
  {
  }

  lemma ConnectionMeans(vocab: Vocabulary, from: Kind, to: Kind, op: Op)
    requires op.Connect? && ConnectionValid(vocab, op.relation, from, to, op.properties)
    ensures && vocab.relations(op.relation).Some?
            && var declared := vocab.relations(op.relation).value;
               && from in declared.fromKinds && to in declared.toKinds
               && forall name :: name in declared.requiredProperties ==> name in op.properties
  {
  }

  lemma SaysItsDraft()
    ensures forall e: Event, env: Envelope, d: Draft, now: string :: Says(e, env, d, now) ==>
              e.core.action == d.action && e.core.subjectId == d.subjectId && e.core.payload == d.payload
  {
  }

  lemma NothingRecorded(before: seq<Event>, env: Envelope, d: Draft, now: string, r: Result<Event, Error>)
    requires r.Ok? ==> r.value in before && r.value.idempotencyKey == d.key && d.key.Some?
    ensures Recorded(before, before, env, d, now, r)
  {
  }

  class WriteSession {
    const ledger: Ledger
    const envelope: Envelope
    var nextId: nat
    var previousHash: string
    var written: seq<Event>

    /** The session's private cursor points at the head, and what it wrote is the tail of the log. */
    ghost predicate Valid()
      reads this, ledger
    {
      AtHead(ledger.events)
    }

    ghost predicate AtHead(events: seq<Event>)
      reads this
    {
      && nextId == NextId(events)
      && previousHash == HeadHash(events)
      && |written| <= |events|
      && events[|events| - |written|..] == written
    }

    constructor (ledger: Ledger, envelope: Envelope)
      ensures this.ledger == ledger && this.envelope == envelope && written == [] && Valid()
    {
      this.ledger, this.envelope := ledger, envelope;
      nextId, previousHash, written := NextId(ledger.events), HeadHash(ledger.events), [];
    }

    method Record(d: Draft) returns (r: Result<Event, Error>)
      requires Valid()
      modifies this, ledger
      ensures Valid()
      ensures var effect := RecordEffect(ledger.cfg, envelope, old(ledger.Tables()), d);
              && ledger.Tables() == effect.state
              && r.Ok? == effect.ok
              && written == old(written) + effect.state.events[|old(ledger.events)|..]
      ensures ledger.Tables() == old(ledger.Tables()).(events := ledger.events)
      ensures r.Err? ==> ledger.Tables() == old(ledger.Tables())
      ensures r.Ok? ==> r.value in ledger.events && r.value.idempotencyKey == d.key
      ensures r.Ok? && d.key.None? ==>
                r.value == NextEvent(ledger.cfg, envelope, old(ledger.events), d)
                    && r.value.core.id == old(NextId(ledger.events))
      ensures Recorded(old(ledger.events), ledger.events, envelope, d, ledger.cfg.clock(old(NextId(ledger.events))), r)
      ensures r.Ok? <==>
                (d.key.Some? && KeyUsed(old(ledger.events), d.key.value))
                || Permitted(ledger.cfg.vocab, old(ledger.objects).Keys, envelope, d)
    {
      KnownKey(ledger.events, d.key);
      AcceptableIsPermitted(ledger.cfg.vocab, ledger.objects.Keys, envelope, d);
      hide Permitted, Acceptable, KeyUsed, NextId, HeadHash, Build, Recorded;
      ghost var now := ledger.cfg.clock(nextId);
      NothingRecorded(ledger.events, envelope, d, now, Err(LedgerError));
      if d.key.Some? {
        var known := KeyIndex(ledger.events, d.key.value);
        if known < |ledger.events| {
          NothingRecorded(ledger.events, envelope, d, now, Ok(ledger.events[known]));
          return Ok(ledger.events[known]);
        }
      }
      if d.evidence.Some? && d.evidence.value !in ledger.objects {
        return Err(LedgerError);
      }
      if !Acceptable(ledger.cfg.vocab, envelope, d) {
        return Err(LedgerError);
      }
      var event := Build(ledger.cfg.hash, envelope, d, nextId, previousHash, ledger.cfg.clock(nextId));
      TailGrows(ledger.events, |written|, event);
      BuiltIsRecorded(ledger.events, ledger.cfg.hash, envelope, d, nextId, previousHash, ledger.cfg.clock(nextId));
      ledger.events := ledger.events + [event];
      nextId := nextId + 1;
      previousHash := event.eventHash;
      written := written + [event];
      return Ok(event);
    }

    method CreateObject(op: Op) returns (r: Result<ObjectRecord, Error>)
      requires Valid() && op.CreateObject?
      modifies this, ledger
      ensures Valid()
      ensures var effect := CreateEffect(ledger.cfg, envelope, old(ledger.Tables()), op);
              ledger.Tables() == effect.state && r.Ok? == effect.ok
      ensures r.Ok? ==>
                && op.id in ledger.objects && r.value == ledger.objects[op.id]
                && r.value.kind == op.kind && r.value.canonicalName == op.name && r.value.contentFormat == op.format
                && r.value.content == op.content && r.value.properties == op.properties
      ensures r.Ok? ==>
                && ledger.cfg.vocab.objectKinds(op.kind).Some? && !op.format.OtherFormat?
                && var declared := ledger.cfg.vocab.objectKinds(op.kind).value;
                   && (declared.contentFormats == {} || op.format in declared.contentFormats)
                   && forall name :: name in declared.requiredProperties ==> name in op.properties
      ensures r == Err(ConflictError) <==>
                && ObjectWellFormed(ledger.cfg.vocab, op.kind, op.format, op.properties)
                && op.id in old(ledger.objects) && !SameIdentity(old(ledger.objects)[op.id], op)
    {
      hide RecordEffect, NextEvent, ObjectWellFormed, ConnectionValid, AtHead, NextId, Recorded,
          Permitted;
      if !ObjectWellFormed(ledger.cfg.vocab, op.kind, op.format, op.properties) {
        return Err(LedgerError);
      }
      WellFormedMeans(ledger.cfg.vocab, op);
      if op.id in ledger.objects {
        var existing := ledger.objects[op.id];
        if !SameIdentity(existing, op) {
          return Err(ConflictError);
        }
        return Ok(existing);
      }
      var recorded := Record(CreationDraft(op));
      if recorded.Err? {
        return Err(LedgerError);
      }
      var row := ObjectRecord(op.id, op.kind, op.name, op.format, op.content, op.properties, recorded.value.core.id);
      ledger.objects := ledger.objects[op.id := row];
      return Ok(row);
    }

    method AddAlias(alias: string, id: string) returns (r: Result<(), Error>)
      requires Valid()
      modifies this, ledger
      ensures Valid()
      ensures var effect := AliasEffect(ledger.cfg, envelope, old(ledger.Tables()), alias, id);
              ledger.Tables() == effect.state && r.Ok? == effect.ok
      ensures r.Ok? ==> alias in ledger.aliases && ledger.aliases[alias].objectId == id
      ensures r == Err(ConflictError) <==>
                && id in old(ledger.objects) && alias in old(ledger.aliases)
                    && old(ledger.aliases)[alias].objectId != id
    {
      hide RecordEffect, NextEvent, ObjectWellFormed, ConnectionValid, AtHead, NextId, Recorded,
          Permitted;
      if id !in ledger.objects {
        return Err(LedgerError);
      }
      if alias in ledger.aliases {
        return if ledger.aliases[alias].objectId == id then Ok(()) else Err(ConflictError);
      }
      var recorded := Record(Plain(AliasAdded, id, map["alias" := JText(alias)]));
      if recorded.Err? {
        return Err(LedgerError);
      }
      ledger.aliases := ledger.aliases[alias := Alias(id, recorded.value.core.id)];
      return Ok(());
    }

    method Connect(op: Op) returns (r: Result<Edge, Error>)
      requires Valid() && op.Connect?
      modifies this, ledger
      ensures Valid()
      ensures var effect := ConnectEffect(ledger.cfg, envelope, old(ledger.Tables()), op);
              ledger.Tables() == effect.state && r.Ok? == effect.ok
      ensures r.Ok? ==> r.value in ledger.edges && r.value.Is(op.source, op.relation, op.target)
                        && r.value.Active() && r.value.properties == op.properties
      ensures r.Ok? ==>
                && op.source in ledger.objects && op.target in ledger.objects
                && ledger.cfg.vocab.relations(op.relation).Some?
                && var declared := ledger.cfg.vocab.relations(op.relation).value;
                   && ledger.objects[op.source].kind in declared.fromKinds
                   && ledger.objects[op.target].kind in declared.toKinds
                   && forall name :: name in declared.requiredProperties ==> name in op.properties
      ensures r == Err(ConflictError) <==>
                && op.source in old(ledger.objects) && op.target in old(ledger.objects)
                && ConnectionValid(ledger.cfg.vocab, op.relation, old(ledger.objects)[op.source].kind,
                                   old(ledger.objects)[op.target].kind, op.properties)
                && var i := EdgeIndex(old(ledger.edges), op.source, op.relation, op.target);
                   i < |old(ledger.edges)| && old(ledger.edges)[i].Active()
                       && old(ledger.edges)[i].properties != op.properties
    {
      hide RecordEffect, NextEvent, ObjectWellFormed, ConnectionValid, AtHead, NextId, Recorded,
          Permitted;
      if op.source !in ledger.objects || op.target !in ledger.objects {
        return Err(LedgerError);
      }
      if !ConnectionValid(ledger.cfg.vocab, op.relation, ledger.objects[op.source].kind,
                          ledger.objects[op.target].kind, op.properties) {
        return Err(LedgerError);
      }
      ConnectionMeans(ledger.cfg.vocab, ledger.objects[op.source].kind, ledger.objects[op.target].kind, op);
      var i := EdgeIndex(ledger.edges, op.source, op.relation, op.target);
      if i < |ledger.edges| && ledger.edges[i].Active() {
        if ledger.edges[i].properties != op.properties {
          return Err(ConflictError);
        }
        return Ok(ledger.edges[i]);
      }
      var recorded := Record(ConnectionDraft(op));
      if recorded.Err? {
        return Err(LedgerError);
      }
      var row := Edge(op.source, op.relation, op.target, op.properties, recorded.value.core.id, None);
      if i < |ledger.edges| {
        ledger.edges := ledger.edges[i := row];
      } else {
        ledger.edges := ledger.edges + [row];
      }
      assert ledger.edges[i] == row;
      return Ok(row);
    }

    method Retract(source: string, relation: Relation, target: string, reason: string) returns (r: Result<(), Error>)
      requires Valid()
      modifies this, ledger
      ensures Valid()
      ensures var effect := RetractEffect(ledger.cfg, envelope, old(ledger.Tables()), source, relation, target, reason);
              ledger.Tables() == effect.state && r.Ok? == effect.ok
      ensures r.Ok? ==>
                exists e :: e in ledger.edges && e.Is(source, relation, target) && !e.Active()
    {
      hide RecordEffect, NextEvent, ObjectWellFormed, ConnectionValid, AtHead, NextId, Recorded,
          Permitted;
      var i := EdgeIndex(ledger.edges, source, relation, target);
      if i == |ledger.edges| {
        return Err(LedgerError);
      }
      if !ledger.edges[i].Active() {
        assert ledger.edges[i] in ledger.edges;
        return Ok(());
      }
      var recorded := Record(RetractDraft(source, reason));
      if recorded.Err? {
        return Err(LedgerError);
      }
      ledger.edges := ledger.edges[i := ledger.edges[i].(retracted := Some(recorded.value.core.id))];
      assert ledger.edges[i] in ledger.edges;
      return Ok(());
    }

    method RegisterArtifact(op: Op) returns (r: Result<ObjectRecord, Error>)
      requires Valid() && op.RegisterArtifact?
      modifies this, ledger
      ensures Valid()
      ensures var effect := RegisterEffect(ledger.cfg, envelope, old(ledger.Tables()), op);
              ledger.Tables() == effect.state && r.Ok? == effect.ok
      ensures r.Ok? ==>
                && ArtifactId(op.sha256) in ledger.objects && r.value == ledger.objects[ArtifactId(op.sha256)]
                && r.value.kind == Artifact && r.value.contentFormat == NoContent && r.value.content == ""
                && r.value.properties == map["sha256" := JText(op.sha256), "artifact_type" := JText(op.artifactType),
                                             "byte_size" := JNumber(op.byteSize as real),
                                             "media_type" := JText(op.mediaType)]
                && (op.artifactName.Some? && op.artifactName.value != "" ==>
                      r.value.canonicalName == op.artifactName.value)
    {
      hide RecordEffect, CreateEffect, RegistrationDraft, LowercaseSha256, Recorded, Permitted;
      if !LowercaseSha256(op.sha256) || op.byteSize < 0 {
        return Err(LedgerError);
      }
      r := CreateObject(ArtifactCreation(op));
      if r.Err? {
        return r;
      }
      var recorded := Record(RegistrationDraft(op));
      if recorded.Err? {
        return Err(LedgerError);
      }
    }

    method AddLocation(id: string, location: string) returns (r: Result<(), Error>)
      requires Valid()
      modifies this, ledger
      ensures Valid()
      ensures var effect := AddLocationEffect(ledger.cfg, envelope, old(ledger.Tables()), id, location);
              ledger.Tables() == effect.state && r.Ok? == effect.ok
      ensures r.Ok? ==> (id, location) in ledger.locations && ledger.locations[(id, location)].state == Present
    {
      hide RecordEffect, NextEvent, ObjectWellFormed, ConnectionValid, AtHead, NextId, Recorded,
          Permitted;
      if !IsArtifact(ledger.Tables(), id) {
        return Err(LedgerError);
      }
      var known := (id, location) in ledger.locations;
      if known && ledger.locations[(id, location)].state == Present {
        return Ok(());
      }
      var recorded := Record(Plain(ArtifactLocationAdded, id, map["location" := JText(location)]));
      if recorded.Err? {
        return Err(LedgerError);
      }
      var at := recorded.value.core.id;
      var row := if known then ledger.locations[(id, location)].(state := Present, createdEventId := at)
                 else Location(Present, None, at);
      ledger.locations := ledger.locations[(id, location) := row];
      return Ok(());
    }

    method VerifyLocation(id: string, location: string, verified: bool) returns (r: Result<(), Error>)
      requires Valid()
      modifies this, ledger
      ensures Valid()
      ensures var effect := VerifyLocationEffect(ledger.cfg, envelope, old(ledger.Tables()), id, location, verified);
              ledger.Tables() == effect.state && r.Ok? == effect.ok
      ensures r.Ok? && (id, location) in ledger.locations ==>
                && ledger.locations[(id, location)].state == (if verified then Present else Lost)
                && ledger.locations[(id, location)].verifiedAt.Some? == verified
    {
      hide RecordEffect, NextEvent, ObjectWellFormed, ConnectionValid, AtHead, NextId, Recorded,
          Permitted;
      if !IsArtifact(ledger.Tables(), id) {
        return Err(LedgerError);
      }
      var recorded := Record(Plain(ArtifactLocationVerified, id,
                                   map["location" := JText(location), "verified" := JBool(verified)]));
      if recorded.Err? {
        return Err(LedgerError);
      }
      if (id, location) in ledger.locations {
        var row := ledger.locations[(id, location)];
        row := row.(state := if verified then Present else Lost,
                    verifiedAt := if verified then Some(recorded.value.core.occurredAt) else None);
        ledger.locations := ledger.locations[(id, location) := row];
      }
      return Ok(());
    }

    method LoseLocation(id: string, location: string, reason: string) returns (r: Result<(), Error>)
      requires Valid()
      modifies this, ledger
      ensures Valid()
      ensures var effect := LoseLocationEffect(ledger.cfg, envelope, old(ledger.Tables()), id, location, reason);
              ledger.Tables() == effect.state && r.Ok? == effect.ok
      ensures r.Ok? && (id, location) in ledger.locations ==>
                && ledger.locations[(id, location)].state == Lost
                && ledger.locations[(id, location)].verifiedAt == old(ledger.locations)[(id, location)].verifiedAt
    {
      hide RecordEffect, NextEvent, ObjectWellFormed, ConnectionValid, AtHead, NextId, Recorded,
          Permitted;
      if !IsArtifact(ledger.Tables(), id) {
        return Err(LedgerError);
      }
      var recorded := Record(Plain(ArtifactLocationLost, id,
                                   map["location" := JText(location), "reason" := JText(reason)]));
      if recorded.Err? {
        return Err(LedgerError);
      }
      if (id, location) in ledger.locations {
        ledger.locations := ledger.locations[(id, location) := ledger.locations[(id, location)].(state := Lost)];
      }
      return Ok(());
    }

    method ArchiveArtifact(id: string, retention: string) returns (r: Result<(), Error>)
      requires Valid()
      modifies this, ledger
      ensures Valid()
      ensures var effect := ArchiveEffect(ledger.cfg, envelope, old(ledger.Tables()), id, retention);
              ledger.Tables() == effect.state && r.Ok? == effect.ok
      ensures r.Ok? ==>
                && |ledger.events| == |old(ledger.events)| + 1
                && var e := ledger.events[|old(ledger.events)|].core;
                   && e.action == ArtifactArchived && e.subjectId == id
                   && e.payload == map["retention_state" := JText(retention)]
    {
      hide RecordEffect, NextEvent, ObjectWellFormed, ConnectionValid, AtHead, NextId, Says, Permitted;
      if !IsArtifact(ledger.Tables(), id) || !RetentionState(retention) {
        return Err(LedgerError);
      }
      var recorded := Record(Plain(ArtifactArchived, id, map["retention_state" := JText(retention)]));
      SaysItsDraft();
      return if recorded.Ok? then Ok(()) else Err(LedgerError);
    }

    /** Any one of the operations. */
    method Perform(op: Op) returns (ok: bool)
      requires Valid()
      modifies this, ledger
      ensures Valid()
      ensures var effect := Apply(ledger.cfg, envelope, old(ledger.Tables()), op);
              ledger.Tables() == effect.state && ok == effect.ok
    {
      hide RecordEffect, CreateEffect, AliasEffect, ConnectEffect, RetractEffect, RegisterEffect, AddLocationEffect,
          VerifyLocationEffect, LoseLocationEffect, ArchiveEffect;
      match op {
        case CreateObject(_, _, _, _, _, _, _) => var r := CreateObject(op); ok := r.Ok?;
        case AddAlias(alias, id) => var r := AddAlias(alias, id); ok := r.Ok?;
        case Connect(_, _, _, _, _) => var r := Connect(op); ok := r.Ok?;
        case Retract(f, relation, t, reason) => var r := Retract(f, relation, t, reason); ok := r.Ok?;
        case RegisterArtifact(_, _, _, _, _) => var r := RegisterArtifact(op); ok := r.Ok?;
        case AddLocation(id, location) => var r := AddLocation(id, location); ok := r.Ok?;
        case VerifyLocation(id, location, verified) => var r := VerifyLocation(id, location, verified); ok := r.Ok?;
        case LoseLocation(id, location, reason) => var r := LoseLocation(id, location, reason); ok := r.Ok?;
        case ArchiveArtifact(id, retention) => var r := ArchiveArtifact(id, retention); ok := r.Ok?;
        case Record(d) => var r := Record(d); ok := r.Ok?;
      }
    }
  }
}
