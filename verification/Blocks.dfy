/**
  What a block of calls that commits leaves behind, read off the calls: the
  edges they link, the rows they create and the events they write.
 */
module Blocks {
  import opened Wrappers
  import opened Vocabulary
  import opened Events
  import opened Store
  import opened Invalidation
  import opened Confluence

  // ---- Edges ----

  ghost function LinkOf(op: Op): set<Triple> {
    if op.Connect? then {Triple(op.source, op.relation, op.target)} else {}
  }

  /** The connections the calls ask for. */
  ghost function LinksOf(calls: seq<Call>): set<Triple> {
    set c | c in calls && c.op.Connect? :: Triple(c.op.source, c.op.relation, c.op.target)
  }

  lemma LinksAppend(a: seq<Call>, b: seq<Call>)
    ensures LinksOf(a + b) == LinksOf(a) + LinksOf(b)
  {
    assert forall c :: c in a + b <==> c in a || c in b;
  }

  lemma LinksOfOne(c: Call)
    ensures LinksOf([c]) == LinkOf(c.op)
  {
    assert c in [c];
  }

  lemma ConnectLinks(cfg: Config, env: Envelope, st: State, op: Op)
    requires op.Connect? && ConnectEffect(cfg, env, st, op).ok
    ensures Active(ConnectEffect(cfg, env, st, op).state.edges) == Active(st.edges) + LinkOf(op)
  {
    hide RecordEffect, ConnectionValid;
    var x := Triple(op.source, op.relation, op.target);
    var i := EdgeIndex(st.edges, op.source, op.relation, op.target);
    var after := ConnectEffect(cfg, env, st, op).state.edges;
    if i < |st.edges| && st.edges[i].Active() {
      assert st.edges[i] in st.edges && TripleOf(st.edges[i]) == x;
    } else {
      assert after[i].Active() && TripleOf(after[i]) == x && after[i] in after;
      forall y | y in Active(st.edges) ensures y in Active(after) {
        var k :| 0 <= k < |st.edges| && st.edges[k].Active() && TripleOf(st.edges[k]) == y;
        assert after[k] == st.edges[k] && after[k] in after;
      }
      forall y | y in Active(after) ensures y in Active(st.edges) || y == x {
        var k :| 0 <= k < |after| && after[k].Active() && TripleOf(after[k]) == y;
        if k != i { assert after[k] == st.edges[k] && st.edges[k] in st.edges; }
      }
    }
  }

  lemma ApplyLinks(cfg: Config, env: Envelope, st: State, op: Op)
    requires !op.Retract? && Apply(cfg, env, st, op).ok
    ensures Active(Apply(cfg, env, st, op).state.edges) == Active(st.edges) + LinkOf(op)
  {
    hide RecordEffect, ObjectWellFormed, LowercaseSha256, RetentionState, ConnectEffect, Active;
    RecordsKeepRows(cfg, env);
    if op.Connect? { ConnectLinks(cfg, env, st, op); }
  }

  // ---- Rows ----

  /** The creation an operation performs, if it performs one. */
  function CreationIn(op: Op): Option<Op> {
    if op.CreateObject? then Some(op) else if op.RegisterArtifact? then Some(ArtifactCreation(op)) else None
  }

  lemma CreationIsOne(op: Op)
    ensures CreationIn(op).Some? ==> CreationIn(op).value.CreateObject?
  {
  }

  /** The row is there, with the identity the call gives it; what gets a location is an artifact. */
  ghost predicate HasRowFor(st: State, op: Op) {
    && (CreationIn(op).Some? ==>
          var c := CreationIn(op).value;
          c.CreateObject? && c.id in st.objects && SameIdentity(st.objects[c.id], c))
    && (op.AddLocation? ==> IsArtifact(st, op.id))
  }

  ghost predicate RowsKept(s: State, t: State) {
    forall id :: id in s.objects ==> id in t.objects && t.objects[id] == s.objects[id]
  }

  predicate Creates(op: Op, id: string) {
    CreationIn(op).Some? && CreationIn(op).value.CreateObject? && CreationIn(op).value.id == id
  }

  lemma ApplyCreates(cfg: Config, env: Envelope, st: State, op: Op)
    requires Apply(cfg, env, st, op).ok
    ensures var after := Apply(cfg, env, st, op).state;
            && RowsKept(st, after) && HasRowFor(after, op)
            && forall id :: id in after.objects ==> id in st.objects || Creates(op, id)
  {
    hide RecordEffect, ObjectWellFormed, LowercaseSha256, RetentionState, ConnectionValid, RegistrationDraft;
    RecordsKeepRows(cfg, env);
  }

  // ---- Events ----

  /** The actions of the events an operation other than `record` writes. */
  function OwnActions(op: Op): set<Action>
    requires !op.Record?
  {
    match op
    case CreateObject(_, _, _, _, _, _, _) => {ObjectCreated}
    case AddAlias(_, _) => {AliasAdded}
    case Connect(_, _, _, _, _) => {ConnectionCreated}
    case Retract(_, _, _, _) => {ConnectionRetracted}
    case RegisterArtifact(_, _, _, _, _) => {ObjectCreated, ArtifactRegistered}
    case AddLocation(_, _) => {ArtifactLocationAdded}
    case VerifyLocation(_, _, _) => {ArtifactLocationVerified}
    case LoseLocation(_, _, _) => {ArtifactLocationLost}
    case ArchiveArtifact(_, _) => {ArtifactArchived}
  }

  /** The event is one the operation writes; a record's says all its draft says. */
  ghost predicate Wrote(cfg: Config, env: Envelope, op: Op, e: Event) {
    if op.Record? then Says(e, env, op.draft, cfg.clock(e.core.id))
    else e.core.action in OwnActions(op) && e.idempotencyKey in OwnKeys(op)
  }

  /** The keys they may carry. */
  function OwnKeys(op: Op): set<Option<string>>
    requires !op.Record?
  {
    if op.RegisterArtifact? then {None, Some("artifact_registered:" + op.sha256)} else {None}
  }

  /** The log has only grown, by events the operation writes. */
  ghost predicate Gained(cfg: Config, env: Envelope, s: State, t: State, op: Op) {
    && s.events <= t.events
    && forall i :: |s.events| <= i < |t.events| ==> Wrote(cfg, env, op, t.events[i])
  }

  /** What `record` appends says what its draft says. */
  lemma RecordSays(cfg: Config, env: Envelope, st: State, d: Draft)
    ensures var r := RecordEffect(cfg, env, st, d);
            && st.events <= r.state.events && |r.state.events| <= |st.events| + 1
            && (|r.state.events| > |st.events| ==>
                  Says(r.state.events[|st.events|], env, d, cfg.clock(NextId(st.events)))
                      && r.state.events[|st.events|].core.id == NextId(st.events))
            && (r.ok && (d.key.None? || !KeyUsed(st.events, d.key.value)) ==> |r.state.events| > |st.events|)
            && (!r.ok || (d.key.Some? && KeyUsed(st.events, d.key.value)) ==> r.state == st)
  {
    hide Acceptable;
    var r := RecordEffect(cfg, env, st, d);
    if r.state != st {
      var e := NextEvent(cfg, env, st.events, d);
      assert r.state.events == st.events + [e] && (st.events + [e])[|st.events|] == e;
    }
  }

  /** The log has only grown, by events of these actions under these keys. */
  ghost predicate Grew(s: seq<Event>, t: seq<Event>, actions: set<Action>, keys: set<Option<string>>) {
    && s <= t
    && forall i :: |s| <= i < |t| ==> t[i].core.action in actions && t[i].idempotencyKey in keys
  }

  lemma RecordGrows(cfg: Config, env: Envelope, st: State, d: Draft)
    ensures Grew(st.events, RecordEffect(cfg, env, st, d).state.events, {d.action}, {d.key})
  {
    hide RecordEffect;
    RecordSays(cfg, env, st, d);
  }

  lemma GrewTwice(s: seq<Event>, t: seq<Event>, u: seq<Event>, actions: set<Action>, keys: set<Option<string>>)
    requires Grew(s, t, actions, keys) && Grew(t, u, actions, keys)
    ensures Grew(s, u, actions, keys)
  {
    forall i | |s| <= i < |u| ensures u[i].core.action in actions && u[i].idempotencyKey in keys {
      if i < |t| { assert u[i] == t[i]; }
    }
  }

  lemma OwnEvents(cfg: Config, env: Envelope, st: State, op: Op)
    requires !op.Record? && !op.RegisterArtifact?
    ensures Grew(st.events, Apply(cfg, env, st, op).state.events, OwnActions(op), {None})
  {
    hide RecordEffect, ObjectWellFormed, RetentionState, ConnectionValid, Grew;
    NothingGrew(st.events, OwnActions(op), {None});
    match op
    case CreateObject(_, _, _, _, _, _, _) => RecordGrows(cfg, env, st, CreationDraft(op));
    case AddAlias(alias, id) => RecordGrows(cfg, env, st, Plain(AliasAdded, id, map["alias" := JText(alias)]));
    case Connect(_, _, _, _, _) => RecordGrows(cfg, env, st, ConnectionDraft(op));
    case Retract(f, _, _, reason) => RecordGrows(cfg, env, st, RetractDraft(f, reason));
    case AddLocation(id, l) => RecordGrows(cfg, env, st, Plain(ArtifactLocationAdded, id, map["location" := JText(l)]));
    case VerifyLocation(id, l, v) =>
      RecordGrows(cfg, env, st,
                  Plain(ArtifactLocationVerified, id, map["location" := JText(l), "verified" := JBool(v)]));
    case LoseLocation(id, l, r) =>
      RecordGrows(cfg, env, st, Plain(ArtifactLocationLost, id, map["location" := JText(l), "reason" := JText(r)]));
    case ArchiveArtifact(id, r) =>
      RecordGrows(cfg, env, st, Plain(ArtifactArchived, id, map["retention_state" := JText(r)]));
  }

  lemma NothingGrew(s: seq<Event>, actions: set<Action>, keys: set<Option<string>>)
    ensures Grew(s, s, actions, keys)
  {
  }

  lemma RegistrationEvents(cfg: Config, env: Envelope, st: State, op: Op)
    requires op.RegisterArtifact?
    ensures Grew(st.events, RegisterEffect(cfg, env, st, op).state.events, OwnActions(op), OwnKeys(op))
  {
    hide RecordEffect, CreateEffect, Grew, LowercaseSha256;
    var actions, keys := OwnActions(op), OwnKeys(op);
    NothingGrew(st.events, actions, keys);
    var creation := ArtifactCreation(op);
    OwnEvents(cfg, env, st, creation);
    var created := CreateEffect(cfg, env, st, creation).state.events;
    var registered := RecordEffect(cfg, env, CreateEffect(cfg, env, st, creation).state, RegistrationDraft(op)).state;
    RecordGrows(cfg, env, CreateEffect(cfg, env, st, creation).state, RegistrationDraft(op));
    GrewMore(st.events, created, {ObjectCreated}, {None}, actions, keys);
    GrewMore(created, registered.events, {ArtifactRegistered}, {RegistrationDraft(op).key}, actions, keys);
    GrewTwice(st.events, created, registered.events, actions, keys);
  }

  lemma GrewMore(s: seq<Event>, t: seq<Event>, a: set<Action>, k: set<Option<string>>, b: set<Action>,
      m: set<Option<string>>)
    requires Grew(s, t, a, k) && a <= b && k <= m
    ensures Grew(s, t, b, m)
  {
  }

  lemma ApplyWrites(cfg: Config, env: Envelope, st: State, op: Op)
    ensures Gained(cfg, env, st, Apply(cfg, env, st, op).state, op)
  {
    if op.Record? {
      hide RecordEffect, Says;
      RecordSays(cfg, env, st, op.draft);
    } else {
      hide Apply;
      if op.RegisterArtifact? {
        ApplyIsRegistration(cfg, env, st, op);
        RegistrationEvents(cfg, env, st, op);
      } else {
        OwnEvents(cfg, env, st, op);
      }
    }
  }

  lemma ApplyIsRegistration(cfg: Config, env: Envelope, st: State, op: Op)
    requires op.RegisterArtifact?
    ensures Apply(cfg, env, st, op) == RegisterEffect(cfg, env, st, op)
  {
  }

  // ---- Blocks ----

  predicate Plainly(calls: seq<Call>) {
    forall c :: c in calls ==> !c.caught && !c.op.Retract?
  }

  lemma {:induction false} BlockLinks(cfg: Config, env: Envelope, st: State, calls: seq<Call>)
    requires Plainly(calls) && RunCalls(cfg, env, st, calls).ok
    ensures Active(RunCalls(cfg, env, st, calls).state.edges) == Active(st.edges) + LinksOf(calls)
    decreases |calls|
  {
    hide Apply, Active, LinksOf;
    if calls == [] {
      assert LinksOf(calls) == {} by { NoLinks(calls); }
    } else {
      assert calls[0] in calls && forall c :: c in calls[1..] ==> c in calls;
      assert calls == [calls[0]] + calls[1..];
      LinksAppend([calls[0]], calls[1..]);
      LinksOfOne(calls[0]);
      ApplyLinks(cfg, env, st, calls[0].op);
      BlockLinks(cfg, env, Apply(cfg, env, st, calls[0].op).state, calls[1..]);
    }
  }

  lemma NoLinks(calls: seq<Call>)
    requires forall c :: c in calls ==> !c.op.Connect?
    ensures LinksOf(calls) == {}
  {
  }

  lemma {:induction false} BlockRows(cfg: Config, env: Envelope, st: State, calls: seq<Call>)
    requires Plainly(calls) && RunCalls(cfg, env, st, calls).ok
    ensures var after := RunCalls(cfg, env, st, calls).state;
            && RowsKept(st, after)
            && (forall c :: c in calls ==> HasRowFor(after, c.op))
            && (forall id :: id in after.objects ==> id in st.objects || exists c :: c in calls && Creates(c.op, id))
    decreases |calls|
  {
    hide Apply, Creates;
    if calls != [] {
      assert calls[0] in calls && forall c :: c in calls[1..] ==> c in calls;
      ApplyCreates(cfg, env, st, calls[0].op);
      BlockRows(cfg, env, Apply(cfg, env, st, calls[0].op).state, calls[1..]);
    }
  }

  /** Some call of the block wrote the event. */
  ghost predicate WrittenIn(cfg: Config, env: Envelope, calls: seq<Call>, e: Event) {
    exists c :: c in calls && Wrote(cfg, env, c.op, e)
  }

  /** The call is a record whose event is there: appended now, or before under its key. */
  ghost predicate OnRecord(cfg: Config, env: Envelope, s: State, t: State, op: Op) {
    op.Record? ==>
      exists i :: 0 <= i < |t.events| &&
        if op.draft.key.Some? then t.events[i].idempotencyKey == op.draft.key
        else |s.events| <= i && Says(t.events[i], env, op.draft, cfg.clock(t.events[i].core.id))
  }

  lemma {:induction false} BlockEvents(cfg: Config, env: Envelope, st: State, calls: seq<Call>)
    requires Plainly(calls) && RunCalls(cfg, env, st, calls).ok
    ensures var after := RunCalls(cfg, env, st, calls).state;
            && st.events <= after.events
            && (forall i :: |st.events| <= i < |after.events| ==> WrittenIn(cfg, env, calls, after.events[i]))
            && (forall c :: c in calls ==> OnRecord(cfg, env, st, after, c.op))
    decreases |calls|
  {
    hide Apply, Wrote, OnRecord, Says;
    if calls != [] {
      assert calls[0] in calls && forall c :: c in calls[1..] ==> c in calls;
      var first := Apply(cfg, env, st, calls[0].op).state;
      ApplyWrites(cfg, env, st, calls[0].op);
      ApplyRecords(cfg, env, st, calls[0].op);
      BlockEvents(cfg, env, first, calls[1..]);
      var after := RunCalls(cfg, env, first, calls[1..]).state;
      forall i | |st.events| <= i < |after.events| ensures WrittenIn(cfg, env, calls, after.events[i]) {
        if i < |first.events| {
          assert after.events[i] == first.events[i];
        } else {
          assert WrittenIn(cfg, env, calls[1..], after.events[i]);
        }
      }
      forall c | c in calls ensures OnRecord(cfg, env, st, after, c.op) {
        if c == calls[0] {
          RecordLasts(cfg, env, st, st, first, after, c.op);
        } else {
          assert c in calls[1..];
          RecordLasts(cfg, env, st, first, after, after, c.op);
        }
      }
    }
  }

  lemma ApplyRecords(cfg: Config, env: Envelope, st: State, op: Op)
    requires Apply(cfg, env, st, op).ok
    ensures OnRecord(cfg, env, st, Apply(cfg, env, st, op).state, op)
  {
    hide RecordEffect;
    if op.Record? {
      RecordSays(cfg, env, st, op.draft);
      var after := Apply(cfg, env, st, op).state;
      if op.draft.key.Some? && KeyUsed(st.events, op.draft.key.value) {
        var i :| 0 <= i < |st.events| && st.events[i].idempotencyKey == op.draft.key;
        assert after.events[i] == st.events[i];
      } else {
        assert Says(after.events[|st.events|], env, op.draft, cfg.clock(NextId(st.events)));
      }
    }
  }

  lemma RecordLasts(cfg: Config, env: Envelope, r: State, s: State, t: State, u: State, op: Op)
    requires OnRecord(cfg, env, s, t, op) && |r.events| <= |s.events| && t.events <= u.events
    ensures OnRecord(cfg, env, r, u, op)
  {
    hide Says;
    if op.Record? {
      var i :| 0 <= i < |t.events| &&
        if op.draft.key.Some? then t.events[i].idempotencyKey == op.draft.key
        else |s.events| <= i && Says(t.events[i], env, op.draft, cfg.clock(t.events[i].core.id));
      assert u.events[i] == t.events[i];
    }
  }

  /** A block that ends in an unkeyed record ends the log with its event. */
  lemma LastRecord(cfg: Config, env: Envelope, st: State, d: Draft)
    requires d.key.None? && RecordEffect(cfg, env, st, d).ok
    ensures var after := RecordEffect(cfg, env, st, d).state;
            && |after.events| == |st.events| + 1
            && Says(after.events[|st.events|], env, d, cfg.clock(after.events[|st.events|].core.id))
  {
    hide RecordEffect;
    RecordSays(cfg, env, st, d);
  }
}
