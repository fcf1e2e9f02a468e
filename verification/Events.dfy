/** Event envelopes, validation before a write, and the hash chain. */
module Events {
  import opened Wrappers
  import opened Vocabulary

  const GENESIS_HASH: string := "0000000000000000000000000000000000000000000000000000000000000000"
  const MAX_IDENTIFIER_CHARS := 200

  /** The scope every event of one write session inherits. */
  datatype Envelope = Envelope(
    actorClass: Actor, actorId: string,
    campaignId: Option<string>, epochId: Option<string>, turnId: Option<string>)

  /** Exactly the fields the chain commits to; `recordedAt` and the idempotency key stay outside. */
  datatype EventCore = EventCore(
    id: nat, occurredAt: string,
    campaignId: Option<string>, epochId: Option<string>, turnId: Option<string>,
    actorClass: Actor, actorId: string,
    action: Action, subjectType: SubjectType, subjectId: string,
    payload: Properties, evidence: Option<string>, previousHash: string)

  datatype Event = Event(
    core: EventCore, recordedAt: string, idempotencyKey: Option<string>, eventHash: string)

  /** The digest of a core.  SHA-256 over canonical JSON is an arbitrary function here. */
  type Hash = EventCore -> string

  /** What a caller asks to have recorded. */
  datatype Draft = Draft(
    action: Action, subjectType: SubjectType, subjectId: string, payload: Properties,
    evidence: Option<string>, key: Option<string>, occurredAt: Option<string>)

  predicate ValidIdentifier(s: string) {
    0 < |s| <= MAX_IDENTIFIER_CHARS && '\n' !in s && '\r' !in s
  }

  /** The checks `prepare` makes before it builds an event. */
  predicate Acceptable(vocab: Vocabulary, env: Envelope, d: Draft) {
    && !d.subjectType.OtherSubject?
    && ValidIdentifier(d.subjectId)
    && ValidIdentifier(env.actorId)
    && Authorized(vocab, env.actorClass, d.action)
    && PayloadValid(vocab, d.action, d.payload, d.evidence)
    && d.subjectType in vocab.actions(d.action).value.subjectTypes
  }

  /** `prepare` without the validation: the core, stamped and linked, with its digest. */
  function Build(hash: Hash, env: Envelope, d: Draft, id: nat, previousHash: string, now: string): Event {
    var occurredAt := if d.occurredAt.Some? && d.occurredAt.value != "" then d.occurredAt.value else now;
    var core := EventCore(id, occurredAt, env.campaignId, env.epochId, env.turnId,
                          env.actorClass, env.actorId, d.action, d.subjectType, d.subjectId,
                          d.payload, d.evidence, previousHash);
    Event(core, now, d.key, hash(core))
  }

  /** What the tables of the vocabulary let an actor record, and what a record must bring along. */
  ghost predicate Permitted(vocab: Vocabulary, known: set<string>, env: Envelope, d: Draft) {
    && vocab.actions(d.action).Some?
    && var row := vocab.actions(d.action).value;
       && env.actorClass in row.actors && d.subjectType in row.subjectTypes
       && !env.actorClass.OtherActor? && !d.subjectType.OtherSubject?
       && (forall key :: key in row.requiredPayload ==> key in d.payload)
       && (forall key :: key in d.payload ==> key in row.requiredPayload || key in row.optionalPayload)
       && (row.requiresEvidence ==> d.evidence.Some? && d.evidence.value != "")
       && (d.evidence.Some? ==> d.evidence.value in known)
       && 1 <= |d.subjectId| <= 200 && (forall c :: c in d.subjectId ==> c != '\n' && c != '\r')
       && 1 <= |env.actorId| <= 200 && (forall c :: c in env.actorId ==> c != '\n' && c != '\r')
  }

  lemma AcceptableIsPermitted(vocab: Vocabulary, known: set<string>, env: Envelope, d: Draft)
    ensures Acceptable(vocab, env, d) && (d.evidence.Some? ==> d.evidence.value in known) <==>
              Permitted(vocab, known, env, d)
  {
  }

  /** What an event must say: the scope and actor of its session, the draft's subject matter, and when it happened. */
  ghost predicate Says(e: Event, env: Envelope, d: Draft, now: string) {
    && e.core.campaignId == env.campaignId && e.core.epochId == env.epochId && e.core.turnId == env.turnId
    && e.core.actorClass == env.actorClass && e.core.actorId == env.actorId
    && e.core.action == d.action && e.core.subjectType == d.subjectType && e.core.subjectId == d.subjectId
    && e.core.payload == d.payload && e.core.evidence == d.evidence
    && (d.occurredAt.Some? && d.occurredAt.value != "" ==> e.core.occurredAt == d.occurredAt.value)
    && (d.occurredAt.None? || d.occurredAt.value == "" ==> e.core.occurredAt == now)
    && e.recordedAt == now && e.idempotencyKey == d.key
  }

  function NextId(events: seq<Event>): nat {
    if events == [] then 1 else events[|events| - 1].core.id + 1
  }

  function HeadHash(events: seq<Event>): string {
    if events == [] then GENESIS_HASH else events[|events| - 1].eventHash
  }

  /** One event carries the next id, links to its predecessor, and hashes to its content. */
  ghost predicate Linked(hash: Hash, events: seq<Event>, i: nat)
    requires i < |events|
  {
    && events[i].core.id == i + 1
    && events[i].core.previousHash == HeadHash(events[..i])
    && events[i].eventHash == hash(events[i].core)
  }

  ghost predicate ChainOk(hash: Hash, events: seq<Event>) {
    forall i: nat :: i < |events| ==> Linked(hash, events, i)
  }

  lemma ChainNextId(hash: Hash, events: seq<Event>)
    requires ChainOk(hash, events)
    ensures NextId(events) == |events| + 1
  {
    if events != [] {
      assert Linked(hash, events, |events| - 1);
    }
  }

  /** Appending the next built event keeps the chain. */
  lemma ChainExtends(hash: Hash, events: seq<Event>, e: Event)
    requires ChainOk(hash, events)
    requires e.core.id == NextId(events)
    requires e.core.previousHash == HeadHash(events)
    requires e.eventHash == hash(e.core)
    ensures ChainOk(hash, events + [e])
  {
    ChainNextId(hash, events);
    forall i: nat | i < |events| + 1 ensures Linked(hash, events + [e], i) {
      if i < |events| {
        assert Linked(hash, events, i);
        assert (events + [e])[..i] == events[..i];
      } else {
        assert (events + [e])[..i] == events;
      }
    }
  }

  lemma ChainPrefix(hash: Hash, events: seq<Event>, k: nat)
    requires ChainOk(hash, events) && k <= |events|
    ensures ChainOk(hash, events[..k])
  {
    forall i: nat | i < k ensures Linked(hash, events[..k], i) {
      assert Linked(hash, events, i);
      assert events[..k][..i] == events[..i];
    }
  }

  // ---- The head determines the history ----

  /** Two different cores with one digest. */
  ghost predicate Collision(hash: Hash, a: EventCore, b: EventCore) {
    a != b && hash(a) == hash(b)
  }

  ghost predicate SameCores(a: seq<Event>, b: seq<Event>) {
    |a| == |b| && forall i :: 0 <= i < |a| ==> a[i].core == b[i].core && a[i].eventHash == b[i].eventHash
  }

  /**
    Two valid nonempty chains with the same head hash record the same history,
    up to `recordedAt` and the idempotency keys, unless they exhibit a
    collision of the hash.
   */
  lemma {:induction false} HeadDeterminesHistory(hash: Hash, a: seq<Event>, b: seq<Event>)
    requires ChainOk(hash, a) && ChainOk(hash, b)
    requires a != [] && b != []
    requires HeadHash(a) == HeadHash(b)
    ensures SameCores(a, b) ||
            exists i, j :: 0 <= i < |a| && 0 <= j < |b| && Collision(hash, a[i].core, b[j].core)
    decreases |a|
  {
    var m, n := |a| - 1, |b| - 1;
    assert Linked(hash, a, m) && Linked(hash, b, n);
    if a[m].core != b[n].core {
      assert Collision(hash, a[m].core, b[n].core);
    } else if m > 0 {
      var p, q := a[..m], b[..n];
      ChainPrefix(hash, a, m);
      ChainPrefix(hash, b, n);
      HeadDeterminesHistory(hash, p, q);
      if !SameCores(p, q) {
        var i, j :| 0 <= i < |p| && 0 <= j < |q| && Collision(hash, p[i].core, q[j].core);
        assert a[i] == p[i] && b[j] == q[j];
      } else {
        forall i | 0 <= i < |a| ensures a[i].core == b[i].core && a[i].eventHash == b[i].eventHash {
          if i < m {
            assert a[i] == p[i] && b[i] == q[i];
          }
        }
      }
    }
  }

  /**
    Tampering shows: put any other history in the place of a valid one, of the
    same length or not, even the empty one, and it is no valid chain, or its
    head is another, or a collision was found, or a core that hashes to the
    head of the empty chain.
   */
  lemma RewriteIsVisible(hash: Hash, a: seq<Event>, b: seq<Event>)
    requires ChainOk(hash, a) && !SameCores(a, b)
    ensures !ChainOk(hash, b) || HeadHash(b) != HeadHash(a) ||
            (exists j, k :: 0 <= j < |a| && 0 <= k < |b| && Collision(hash, a[j].core, b[k].core)) ||
            exists e :: e in a + b && hash(e.core) == GENESIS_HASH
  {
    if ChainOk(hash, b) && HeadHash(b) == HeadHash(a) {
      if a != [] && b != [] {
        HeadDeterminesHistory(hash, a, b);
      } else {
        var longer := a + b;
        var n := |longer| - 1;
        assert longer == if a == [] then b else a;
        assert Linked(hash, longer, n) && longer[n] in longer;
      }
    }
  }
}
