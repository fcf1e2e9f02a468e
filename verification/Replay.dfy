/**
  The audit history explains the tables: which of them can be rebuilt from the
  event log alone, after which runs, and what the log does not say.
 */
module Replay {
  import opened Wrappers
  import opened Vocabulary
  import opened Events
  import opened Store

  /** What the log says an object was created as, and by which event. */
  datatype Header = Header(payload: Properties, created: nat)

  datatype View = View(objects: map<string, Header>, aliases: map<string, Alias>, locations: map<(string, string),
      Location>)

  const NOTHING := View(map[], map[], map[])

  function TextField(payload: Properties, name: string): string {
    if name in payload && payload[name].JText? then payload[name].s else ""
  }

  predicate SaysVerified(payload: Properties) {
    "verified" in payload && payload["verified"] == JBool(true)
  }

  /** What one event changes, read off the event alone. */
  function After(v: View, e: EventCore): View {
    var at := (e.subjectId, TextField(e.payload, "location"));
    match e.action
    case ObjectCreated => v.(objects := v.objects[e.subjectId := Header(e.payload, e.id)])
    case AliasAdded => v.(aliases := v.aliases[TextField(e.payload, "alias") := Alias(e.subjectId, e.id)])
    case ArtifactLocationAdded =>
      var verifiedAt := if at in v.locations then v.locations[at].verifiedAt else None;
      v.(locations := v.locations[at := Location(Present, verifiedAt, e.id)])
    case ArtifactLocationVerified =>
      if at !in v.locations then v
      else
        var good := SaysVerified(e.payload);
        v.(locations := v.locations[at := Location(if good then Present else Lost, if good then Some(e.occurredAt)
            else None,
                                                   v.locations[at].createdEventId)])
    case ArtifactLocationLost =>
      if at !in v.locations then v
      else v.(locations := v.locations[at := v.locations[at].(state := Lost)])
    case _ => v
  }

  /** The tables rebuilt by reading the log from its beginning. */
  function Rebuilt(events: seq<Event>): View {
    if events == [] then NOTHING
    else After(Rebuilt(events[..|events| - 1]), events[|events| - 1].core)
  }

  /** The tables of a ledger, an object's content left aside. */
  function ViewOf(st: State): View {
    View(map id | id in st.objects :: HeaderOf(st.objects[id]), st.aliases, st.locations)
  }

  function HeaderOf(o: ObjectRecord): Header {
    Header(map["kind" := JText(KindName(o.kind)), "canonical_name" := JText(o.canonicalName),
               "content_format" := JText(FormatName(o.contentFormat)), "properties" := JObject(o.properties)],
           o.createdEventId)
  }

  ghost predicate Explained(st: State) {
    ViewOf(st) == Rebuilt(st.events)
  }

  // ---- Events written by hand ----

  /** The record is accepted and repeats no key, so that its event is appended. */
  predicate Appends(cfg: Config, env: Envelope, st: State, d: Draft) {
    RecordEffect(cfg, env, st, d).ok && (d.key.Some? ==> !KeyUsed(st.events, d.key.value))
  }

  /** When the next event will say it happened. */
  function Stamp(cfg: Config, st: State, d: Draft): string {
    if d.occurredAt.Some? && d.occurredAt.value != "" then d.occurredAt.value else cfg.clock(NextId(st.events))
  }

  /**
    Anybody may `record` the action of an operation without doing it.  The
    tables still agree with the log when the event tells nothing new; a
    creation or an addition always does, for it brings its own event id.
   */
  predicate Silent(cfg: Config, st: State, d: Draft) {
    var at := (d.subjectId, TextField(d.payload, "location"));
    match d.action
    case ObjectCreated => false
    case AliasAdded => false
    case ArtifactLocationAdded => false
    case ArtifactLocationVerified =>
      at in st.locations ==>
        && st.locations[at].state == (if SaysVerified(d.payload) then Present else Lost)
        && st.locations[at].verifiedAt == if SaysVerified(d.payload) then Some(Stamp(cfg, st, d)) else None
    case ArtifactLocationLost => at in st.locations ==> st.locations[at].state == Lost
    case _ => true
  }

  /** Whatever the call appends by hand tells nothing new: something a caller can check. */
  predicate Tidy(cfg: Config, env: Envelope, st: State, op: Op) {
    op.Record? && Appends(cfg, env, st, op.draft) ==> Silent(cfg, st, op.draft)
  }

  /** Every row was created by an event before the `n`th. */
  ghost predicate Older(v: View, n: nat) {
    && (forall id :: id in v.objects ==> v.objects[id].created < n)
    && (forall alias :: alias in v.aliases ==> v.aliases[alias].createdEventId < n)
    && (forall at :: at in v.locations ==> v.locations[at].createdEventId < n)
  }

  lemma AfterIsOlder(v: View, e: EventCore)
    requires Older(v, e.id)
    ensures Older(After(v, e), e.id + 1)
  {
  }

  lemma {:induction false} RebuiltIsOlder(hash: Hash, events: seq<Event>)
    requires ChainOk(hash, events)
    ensures Older(Rebuilt(events), NextId(events))
  {
    hide After, Older;
    if events == [] {
      assert Older(NOTHING, 1) by { NothingIsOlder(); }
    } else {
      var n := |events| - 1;
      ChainPrefix(hash, events, n);
      RebuiltIsOlder(hash, events[..n]);
      ChainNextId(hash, events[..n]);
      assert Linked(hash, events, n);
      AfterIsOlder(Rebuilt(events[..n]), events[n].core);
    }
  }

  lemma NothingIsOlder()
    ensures Older(NOTHING, 1)
  {
  }

  /** The next event changes what is read off the log exactly when the draft is not silent. */
  lemma SilenceIsExact(cfg: Config, env: Envelope, st: State, d: Draft)
    requires Older(ViewOf(st), NextId(st.events))
    ensures After(ViewOf(st), NextEvent(cfg, env, st.events, d).core) == ViewOf(st) <==> Silent(cfg, st, d)
  {
    var e := NextEvent(cfg, env, st.events, d).core;
    StampOf(cfg, env, st, d);
    hide NextEvent, HeaderOf, Stamp, TextField, SaysVerified;
    var v := ViewOf(st);
    var at := (d.subjectId, TextField(d.payload, "location"));
    match d.action
    case ObjectCreated => assert After(v, e).objects[d.subjectId].created == e.id;
    case AliasAdded => assert After(v, e).aliases[TextField(d.payload, "alias")].createdEventId == e.id;
    case ArtifactLocationAdded => assert After(v, e).locations[at].createdEventId == e.id;
    case ArtifactLocationVerified =>
      if at in st.locations {
        LocationUpdate(v, at, Location(if SaysVerified(d.payload) then Present else Lost,
            if SaysVerified(d.payload) then Some(e.occurredAt) else None, v.locations[at].createdEventId));
      }
    case ArtifactLocationLost =>
      if at in st.locations { LocationUpdate(v, at, v.locations[at].(state := Lost)); }
    case _ =>
  }

  lemma LocationUpdate(v: View, at: (string, string), row: Location)
    requires at in v.locations
    ensures v.(locations := v.locations[at := row]) == v <==> v.locations[at] == row
  {
    assert v.locations[at := row][at] == row;
    if v.locations[at] == row { assert v.locations[at := row] == v.locations; }
  }

  lemma StampOf(cfg: Config, env: Envelope, st: State, d: Draft)
    ensures var e := NextEvent(cfg, env, st.events, d).core;
            && e.id == NextId(st.events) && e.occurredAt == Stamp(cfg, st, d)
            && e.action == d.action && e.subjectId == d.subjectId && e.payload == d.payload
  {
  }

  lemma AppendsItsEvent(cfg: Config, env: Envelope, st: State, d: Draft)
    ensures RecordEffect(cfg, env, st, d).state ==
              if Appends(cfg, env, st, d) then st.(events := st.events + [NextEvent(cfg, env, st.events, d)]) else st
  {
    hide Acceptable, KeyUsed, NextEvent;
  }

  /**
    A record by hand keeps the tables explained if and only if it appends
    nothing or tells nothing new.
   */
  lemma RecordIsExplained(cfg: Config, env: Envelope, st: State, d: Draft)
    requires Explained(st) && ChainOk(cfg.hash, st.events)
    ensures Explained(RecordEffect(cfg, env, st, d).state) <==> (Appends(cfg, env, st, d) ==> Silent(cfg, st, d))
  {
    AppendsItsEvent(cfg, env, st, d);
    RebuiltIsOlder(cfg.hash, st.events);
    SilenceIsExact(cfg, env, st, d);
    hide RecordEffect, NextEvent, Rebuilt, After, Appends, Silent, Older;
    OneMore(st.events, NextEvent(cfg, env, st.events, d));
    var next := RecordEffect(cfg, env, st, d).state;
    SameHeaders(st, next);
  }

  // ---- One operation ----

  lemma OneMore(events: seq<Event>, e: Event)
    ensures Rebuilt(events + [e]) == After(Rebuilt(events), e.core)
  {
    assert (events + [e])[..|events|] == events;
  }

  /** A record that is no repetition appends one event, whose fields are the draft's. */
  lemma Recorded(cfg: Config, env: Envelope, st: State, d: Draft)
    ensures var r := RecordEffect(cfg, env, st, d);
            || r.state == st
            || (r.ok && r.state == st.(events := st.events + [NextEvent(cfg, env, st.events, d)]))
    ensures d.key.None? && RecordEffect(cfg, env, st, d).ok ==>
              RecordEffect(cfg, env, st, d).state == st.(events := st.events + [NextEvent(cfg, env, st.events, d)])
    ensures !RecordEffect(cfg, env, st, d).ok ==> RecordEffect(cfg, env, st, d).state == st
    ensures var e := NextEvent(cfg, env, st.events, d).core;
            e.action == d.action && e.subjectId == d.subjectId && e.payload == d.payload && e.id == NextId(st.events)
            && Rebuilt(st.events + [NextEvent(cfg, env, st.events, d)]) == After(Rebuilt(st.events), e)
  {
    RecordCases(cfg, env, st, d);
    NextFields(cfg, env, st.events, d);
    hide RecordEffect, NextEvent, Rebuilt, After;
    OneMore(st.events, NextEvent(cfg, env, st.events, d));
  }

  lemma NextFields(cfg: Config, env: Envelope, events: seq<Event>, d: Draft)
    ensures var e := NextEvent(cfg, env, events, d).core;
            e.action == d.action && e.subjectId == d.subjectId && e.payload == d.payload && e.id == NextId(events)
  {
  }

  lemma RecordCases(cfg: Config, env: Envelope, st: State, d: Draft)
    ensures var r := RecordEffect(cfg, env, st, d);
            || (r.state == st && (r.ok ==> d.key.Some?))
            || (r.ok && r.state == st.(events := st.events + [NextEvent(cfg, env, st.events, d)]))
  {
    hide Acceptable, KeyUsed, NextEvent;
  }

  lemma CreateKeepsExplained(cfg: Config, env: Envelope, st: State, op: Op)
    requires op.CreateObject? && Explained(st)
    ensures Explained(CreateEffect(cfg, env, st, op).state)
  {
    hide RecordEffect, NextEvent, ObjectWellFormed, Rebuilt;
    var d := CreationDraft(op);
    Recorded(cfg, env, st, d);
    var next := CreateEffect(cfg, env, st, op).state;
    if next != st {
      assert ViewOf(next).objects == ViewOf(st).objects[op.id := Header(d.payload, NextId(st.events))];
    }
  }

  /** A record whose action has no table. */
  lemma UntabledKeepsExplained(cfg: Config, env: Envelope, st: State, d: Draft)
    requires (d.action == ArtifactRegistered || d.action == ArtifactArchived) && Explained(st)
    ensures Explained(RecordEffect(cfg, env, st, d).state)
  {
    hide RecordEffect, NextEvent, Rebuilt;
    Recorded(cfg, env, st, d);
  }

  lemma AliasKeepsExplained(cfg: Config, env: Envelope, st: State, alias: string, id: string)
    requires Explained(st)
    ensures Explained(AliasEffect(cfg, env, st, alias, id).state)
  {
    hide RecordEffect, NextEvent, Rebuilt;
    Recorded(cfg, env, st, Plain(AliasAdded, id, map["alias" := JText(alias)]));
  }

  lemma EdgesKeepExplained(cfg: Config, env: Envelope, st: State, op: Op)
    requires (op.Connect? || op.Retract?) && Explained(st)
    ensures Explained(Apply(cfg, env, st, op).state)
  {
    hide RecordEffect, NextEvent, Rebuilt, ConnectionValid;
    if op.Connect? {
      Recorded(cfg, env, st, ConnectionDraft(op));
    } else {
      Recorded(cfg, env, st, RetractDraft(op.source, op.reason));
    }
  }

  lemma RegisterKeepsExplained(cfg: Config, env: Envelope, st: State, op: Op)
    requires op.RegisterArtifact? && Explained(st)
    ensures Explained(RegisterEffect(cfg, env, st, op).state)
  {
    hide RecordEffect, CreateEffect, Explained, LowercaseSha256;
    CreateKeepsExplained(cfg, env, st, ArtifactCreation(op));
    var created := CreateEffect(cfg, env, st, ArtifactCreation(op)).state;
    UntabledKeepsExplained(cfg, env, created, RegistrationDraft(op));
  }

  lemma AddLocationKeepsExplained(cfg: Config, env: Envelope, st: State, id: string, location: string)
    requires Explained(st)
    ensures Explained(AddLocationEffect(cfg, env, st, id, location).state)
  {
    hide RecordEffect, NextEvent, Rebuilt;
    Recorded(cfg, env, st, Plain(ArtifactLocationAdded, id, map["location" := JText(location)]));
  }

  /** What the two events about a known location say of it. */
  lemma LocationEvent(v: View, e: EventCore)
    ensures var at := (e.subjectId, TextField(e.payload, "location"));
            && (e.action == ArtifactLocationLost ==>
                  After(v, e) == if at !in v.locations then v
                  else v.(locations := v.locations[at := v.locations[at].(state := Lost)]))
            && (e.action == ArtifactLocationVerified ==>
                  After(v, e) == if at !in v.locations then v
                  else v.(locations := v.locations[at := v.locations[at].(
                      state := if SaysVerified(e.payload) then Present else Lost,
                      verifiedAt := if SaysVerified(e.payload) then Some(e.occurredAt) else None)]))
  {
  }

  lemma VerifyLocationKeepsExplained(cfg: Config, env: Envelope, st: State, id: string, location: string,
      verified: bool)
    requires Explained(st)
    ensures Explained(VerifyLocationEffect(cfg, env, st, id, location, verified).state)
  {
    hide RecordEffect, NextEvent, Rebuilt, ViewOf;
    var d := Plain(ArtifactLocationVerified, id, map["location" := JText(location), "verified" := JBool(verified)]);
    Recorded(cfg, env, st, d);
    assert TextField(d.payload, "location") == location && SaysVerified(d.payload) == verified;
    LocationEvent(Rebuilt(st.events), NextEvent(cfg, env, st.events, d).core);
    StampOf(cfg, env, st, d);
    hide TextField, HeaderOf, After, SaysVerified, Stamp;
    SameHeaders(st, VerifyLocationEffect(cfg, env, st, id, location, verified).state);
  }

  lemma LoseLocationKeepsExplained(cfg: Config, env: Envelope, st: State, id: string, location: string, reason: string)
    requires Explained(st)
    ensures Explained(LoseLocationEffect(cfg, env, st, id, location, reason).state)
  {
    hide RecordEffect, NextEvent, Rebuilt, ViewOf;
    var d := Plain(ArtifactLocationLost, id, map["location" := JText(location), "reason" := JText(reason)]);
    Recorded(cfg, env, st, d);
    assert TextField(d.payload, "location") == location;
    LocationEvent(Rebuilt(st.events), NextEvent(cfg, env, st.events, d).core);
    StampOf(cfg, env, st, d);
    hide TextField, HeaderOf, After, SaysVerified, Stamp;
    SameHeaders(st, LoseLocationEffect(cfg, env, st, id, location, reason).state);
  }

  lemma SameHeaders(s: State, t: State)
    ensures ViewOf(s).aliases == s.aliases && ViewOf(s).locations == s.locations
    ensures ViewOf(t).aliases == t.aliases && ViewOf(t).locations == t.locations
    ensures s.objects == t.objects ==> ViewOf(s).objects == ViewOf(t).objects
  {
  }

  /** An operation keeps the tables explained, unless it is a record that tells something new. */
  lemma ApplyKeepsExplained(cfg: Config, env: Envelope, st: State, op: Op)
    requires Explained(st) && ChainOk(cfg.hash, st.events)
    ensures Explained(Apply(cfg, env, st, op).state) <==> Tidy(cfg, env, st, op)
  {
    hide Explained, RecordEffect, CreateEffect, AliasEffect, RegisterEffect, AddLocationEffect, VerifyLocationEffect,
        LoseLocationEffect, Appends, Silent, ChainOk;
    match op
    case CreateObject(_, _, _, _, _, _, _) => CreateKeepsExplained(cfg, env, st, op);
    case AddAlias(alias, id) => AliasKeepsExplained(cfg, env, st, alias, id);
    case Connect(_, _, _, _, _) => EdgesKeepExplained(cfg, env, st, op);
    case Retract(_, _, _, _) => EdgesKeepExplained(cfg, env, st, op);
    case RegisterArtifact(_, _, _, _, _) => RegisterKeepsExplained(cfg, env, st, op);
    case AddLocation(id, location) => AddLocationKeepsExplained(cfg, env, st, id, location);
    case VerifyLocation(id, location, verified) => VerifyLocationKeepsExplained(cfg, env, st, id, location, verified);
    case LoseLocation(id, location, reason) => LoseLocationKeepsExplained(cfg, env, st, id, location, reason);
    case ArchiveArtifact(id, retention) =>
      UntabledKeepsExplained(cfg, env, st, Plain(ArtifactArchived, id, map["retention_state" := JText(retention)]));
    case Record(d) => RecordIsExplained(cfg, env, st, d);
  }

  lemma ApplyKeepsChain(cfg: Config, env: Envelope, st: State, op: Op)
    requires ChainOk(cfg.hash, st.events)
    ensures ChainOk(cfg.hash, Apply(cfg, env, st, op).state.events)
  {
    hide RecordEffect, NextEvent, ObjectWellFormed, LowercaseSha256, ConnectionValid, ChainOk, RetentionState;
    forall s: State, d: Draft
      ensures ChainOk(cfg.hash, s.events) ==> ChainOk(cfg.hash, RecordEffect(cfg, env, s, d).state.events)
    {
      if ChainOk(cfg.hash, s.events) { RecordKeepsChain(cfg, env, s, d); }
    }
  }

  lemma RecordKeepsChain(cfg: Config, env: Envelope, st: State, d: Draft)
    requires ChainOk(cfg.hash, st.events)
    ensures ChainOk(cfg.hash, RecordEffect(cfg, env, st, d).state.events)
  {
    ChainExtends(cfg.hash, st.events, NextEvent(cfg, env, st.events, d));
    hide Acceptable, KeyUsed, NextEvent, ChainOk;
  }

  // ---- Every run ----

  /** The tables are explained before and after every call of a block that commits. */
  ghost predicate CallsExplained(cfg: Config, env: Envelope, st: State, calls: seq<Call>)
    decreases |calls|
  {
    && Explained(st)
    && (calls != [] ==>
          var first := Apply(cfg, env, st, calls[0].op);
          first.ok || calls[0].caught ==> CallsExplained(cfg, env, first.state, calls[1..]))
  }

  predicate CallsTidy(cfg: Config, env: Envelope, st: State, calls: seq<Call>)
    decreases |calls|
  {
    calls != [] ==>
      var first := Apply(cfg, env, st, calls[0].op);
      first.ok || calls[0].caught ==>
        Tidy(cfg, env, st, calls[0].op) && CallsTidy(cfg, env, first.state, calls[1..])
  }

  /** The tables are explained at every moment of the run, those inside committed sessions included. */
  ghost predicate RunExplained(cfg: Config, st: State, sessions: seq<Session>)
    decreases |sessions|
  {
    && Explained(st)
    && (sessions != [] ==>
          && (RunCalls(cfg, sessions[0].env, st, sessions[0].calls).ok ==>
              CallsExplained(cfg, sessions[0].env, st, sessions[0].calls))
          && RunExplained(cfg, Transact(cfg, st, sessions[0]), sessions[1..]))
  }

  /** Whatever committed sessions recorded by hand told nothing new. */
  predicate RunTidy(cfg: Config, st: State, sessions: seq<Session>)
    decreases |sessions|
  {
    sessions != [] ==>
      && (RunCalls(cfg, sessions[0].env, st, sessions[0].calls).ok ==>
          CallsTidy(cfg, sessions[0].env, st, sessions[0].calls))
      && RunTidy(cfg, Transact(cfg, st, sessions[0]), sessions[1..])
  }

  lemma {:induction false} CallsKeepChain(cfg: Config, env: Envelope, st: State, calls: seq<Call>)
    requires ChainOk(cfg.hash, st.events)
    ensures ChainOk(cfg.hash, RunCalls(cfg, env, st, calls).state.events)
    decreases |calls|
  {
    hide Apply, ChainOk;
    if calls != [] {
      ApplyKeepsChain(cfg, env, st, calls[0].op);
      CallsKeepChain(cfg, env, Apply(cfg, env, st, calls[0].op).state, calls[1..]);
    }
  }

  lemma {:induction false} CallsKeepExplained(cfg: Config, env: Envelope, st: State, calls: seq<Call>)
    requires Explained(st) && ChainOk(cfg.hash, st.events) && RunCalls(cfg, env, st, calls).ok
    ensures CallsExplained(cfg, env, st, calls) <==> CallsTidy(cfg, env, st, calls)
    ensures CallsTidy(cfg, env, st, calls) ==> Explained(RunCalls(cfg, env, st, calls).state)
    decreases |calls|
  {
    hide Explained, Apply, Tidy, ChainOk;
    if calls != [] {
      var first := Apply(cfg, env, st, calls[0].op).state;
      ApplyKeepsExplained(cfg, env, st, calls[0].op);
      ApplyKeepsChain(cfg, env, st, calls[0].op);
      if Explained(first) {
        CallsKeepExplained(cfg, env, first, calls[1..]);
      } else {
        NotExplained(cfg, env, first, calls[1..]);
      }
    }
  }

  lemma NotExplained(cfg: Config, env: Envelope, st: State, calls: seq<Call>)
    requires !Explained(st)
    ensures !CallsExplained(cfg, env, st, calls)
  {
    hide Explained, Apply;
  }

  /**
    In any run of sessions, committed or rolled back, whatever they retract,
    the objects (but for their content), the aliases and the locations with
    their states and verification dates are at every moment what reading the
    log from its beginning gives, if and only if nobody recorded by hand an
    event that tells something new of them.
   */
  lemma {:induction false} EveryRunIsExplained(cfg: Config, st: State, sessions: seq<Session>)
    requires Explained(st) && ChainOk(cfg.hash, st.events)
    ensures RunExplained(cfg, st, sessions) <==> RunTidy(cfg, st, sessions)
    ensures RunTidy(cfg, st, sessions) ==> Explained(Run(cfg, st, sessions))
    decreases |sessions|
  {
    hide Explained, RunCalls, CallsExplained, CallsTidy, ChainOk;
    if sessions != [] {
      var s := sessions[0];
      var next := Transact(cfg, st, s);
      CallsKeepChain(cfg, s.env, st, s.calls);
      if RunCalls(cfg, s.env, st, s.calls).ok {
        CallsKeepExplained(cfg, s.env, st, s.calls);
      }
      if Explained(next) {
        EveryRunIsExplained(cfg, next, sessions[1..]);
      }
    }
  }

  lemma EmptyIsExplained()
    ensures Explained(EMPTY)
  {
    assert ViewOf(EMPTY).objects == map[];
  }

  // ---- What the log does not say ----

  /** The event of a creation does not carry the content. */
  lemma ContentIsNotLogged(cfg: Config, env: Envelope, st: State, op: Op, content: string)
    requires op.CreateObject? && op.id !in st.objects && content != op.content
    requires CreateEffect(cfg, env, st, op).ok
    ensures var a := CreateEffect(cfg, env, st, op).state;
            var b := CreateEffect(cfg, env, st, op.(content := content)).state;
            a.events == b.events && a.objects[op.id] != b.objects[op.id]
  {
    hide RecordEffect, ObjectWellFormed, NextEvent;
    assert CreationDraft(op) == CreationDraft(op.(content := content));
  }
}
