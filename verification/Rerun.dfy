/**
  Crash and rerun is exactly-once: a script of write sessions that was cut off
  any number of times, after any number of committed sessions, and then run to
  the end, leaves the tables and the history of one clean run.
 */
module Rerun {
  import opened Wrappers
  import opened Vocabulary
  import opened Events
  import opened Store

  /** The operations that recognize their own earlier effect. */
  predicate Rerunnable(op: Op) {
    op.CreateObject? || op.AddAlias? || op.Connect? || op.RegisterArtifact? || op.AddLocation?
    || (op.Record? && op.draft.key.Some?)
  }

  // ---- An operation that has been done stays done ----

  /** The tables already show the effect of the operation. */
  predicate Done(vocab: Vocabulary, st: State, op: Op) {
    match op
    case CreateObject(id, kind, _, format, _, properties, _) =>
      ObjectWellFormed(vocab, kind, format, properties) && id in st.objects && SameIdentity(st.objects[id], op)
    case AddAlias(alias, id) =>
      id in st.objects && alias in st.aliases && st.aliases[alias].objectId == id
    case Connect(f, r, t, properties, _) =>
      && f in st.objects && t in st.objects
      && ConnectionValid(vocab, r, st.objects[f].kind, st.objects[t].kind, properties)
      && var i := EdgeIndex(st.edges, f, r, t);
         i < |st.edges| && st.edges[i].Active() && st.edges[i].properties == properties
    case RegisterArtifact(sha256, _, byteSize, _, _) =>
      var c := ArtifactCreation(op);
      && LowercaseSha256(sha256) && byteSize >= 0
      && ObjectWellFormed(vocab, c.kind, c.format, c.properties) && c.id in st.objects
          && SameIdentity(st.objects[c.id], c)
      && KeyUsed(st.events, RegistrationDraft(op).key.value)
    case AddLocation(id, location) =>
      IsArtifact(st, id) && (id, location) in st.locations && st.locations[(id, location)].state == Present
    case Record(d) => d.key.Some? && KeyUsed(st.events, d.key.value)
    case _ => false
  }

  /** Everything the earlier tables assert, the later ones assert too. */
  ghost predicate Extends(s: State, t: State) {
    && (forall id :: id in s.objects ==> id in t.objects && t.objects[id] == s.objects[id])
    && (forall a :: a in s.aliases ==> a in t.aliases && t.aliases[a] == s.aliases[a])
    && |s.edges| <= |t.edges|
    && (forall i :: 0 <= i < |s.edges| ==>
          && t.edges[i].Is(s.edges[i].source, s.edges[i].relation, s.edges[i].target)
          && (s.edges[i].Active() ==> t.edges[i] == s.edges[i]))
    && (forall l :: l in s.locations && s.locations[l].state == Present ==>
          l in t.locations && t.locations[l].state == Present)
    && s.events <= t.events
  }

  lemma EdgeFound(edges: seq<Edge>, f: string, r: Relation, t: string, i: nat)
    requires i < |edges| && edges[i].Is(f, r, t)
    requires forall j :: 0 <= j < i ==> !edges[j].Is(f, r, t)
    ensures EdgeIndex(edges, f, r, t) == i
  {
  }

  lemma DoneStaysDone(vocab: Vocabulary, s: State, t: State, op: Op)
    requires Done(vocab, s, op) && Extends(s, t)
    ensures Done(vocab, t, op)
  {
    if op.Connect? {
      EdgeFound(t.edges, op.source, op.relation, op.target, EdgeIndex(s.edges, op.source, op.relation, op.target));
    }
  }

  /** Doing a finished operation again changes nothing, whoever does it and whenever. */
  lemma DoneIsNoOp(cfg: Config, env: Envelope, st: State, op: Op)
    requires Done(cfg.vocab, st, op)
    ensures Apply(cfg, env, st, op) == Effect(st, true)
  {
  }

  /** `record` touches the log and nothing else. */
  lemma RecordTables(cfg: Config, env: Envelope, st: State, d: Draft)
    ensures var after := RecordEffect(cfg, env, st, d).state;
            after == st.(events := after.events) && st.events <= after.events
  {
  }

  lemma KeyNowUsed(cfg: Config, env: Envelope, st: State, d: Draft)
    requires d.key.Some? && RecordEffect(cfg, env, st, d).ok
    ensures KeyUsed(RecordEffect(cfg, env, st, d).state.events, d.key.value)
  {
    var after := RecordEffect(cfg, env, st, d).state;
    if after != st {
      assert NextEvent(cfg, env, st.events, d) in after.events;
    }
  }

  lemma CreationDone(cfg: Config, env: Envelope, st: State, op: Op)
    requires op.CreateObject? && CreateEffect(cfg, env, st, op).ok
    ensures Done(cfg.vocab, CreateEffect(cfg, env, st, op).state, op)
  {
    hide RecordEffect;
  }

  lemma DoneAfterwards(cfg: Config, env: Envelope, st: State, op: Op)
    requires Rerunnable(op) && Apply(cfg, env, st, op).ok
    ensures Done(cfg.vocab, Apply(cfg, env, st, op).state, op)
  {
    hide RecordEffect;
    var after := Apply(cfg, env, st, op).state;
    match op
    case CreateObject(_, _, _, _, _, _, _) =>
    case AddAlias(alias, id) => RecordTables(cfg, env, st, Plain(AliasAdded, id, map["alias" := JText(alias)]));
    case Connect(f, r, t, _, _) =>
      RecordTables(cfg, env, st, ConnectionDraft(op));
      EdgeFound(after.edges, f, r, t, EdgeIndex(st.edges, f, r, t));
    case RegisterArtifact(_, _, _, _, _) =>
      var created := CreateEffect(cfg, env, st, ArtifactCreation(op)).state;
      CreationDone(cfg, env, st, ArtifactCreation(op));
      RecordTables(cfg, env, created, RegistrationDraft(op));
      KeyNowUsed(cfg, env, created, RegistrationDraft(op));
    case AddLocation(id, location) =>
      RecordTables(cfg, env, st, Plain(ArtifactLocationAdded, id, map["location" := JText(location)]));
    case Record(d) => KeyNowUsed(cfg, env, st, d);
  }

  lemma CreateExtends(cfg: Config, env: Envelope, st: State, op: Op)
    requires op.CreateObject?
    ensures Extends(st, CreateEffect(cfg, env, st, op).state)
  {
    hide RecordEffect;
    RecordTables(cfg, env, st, CreationDraft(op));
  }

  lemma ApplyExtends(cfg: Config, env: Envelope, st: State, op: Op)
    requires Rerunnable(op)
    ensures Extends(st, Apply(cfg, env, st, op).state)
  {
    hide RecordEffect, CreateEffect, ConnectEffect, RegisterEffect;
    match op
    case CreateObject(_, _, _, _, _, _, _) => CreateExtends(cfg, env, st, op);
    case AddAlias(alias, id) => RecordTables(cfg, env, st, Plain(AliasAdded, id, map["alias" := JText(alias)]));
    case Connect(_, _, _, _, _) => ConnectExtends(cfg, env, st, op);
    case RegisterArtifact(_, _, _, _, _) => RegisterExtends(cfg, env, st, op);
    case AddLocation(id, location) =>
      RecordTables(cfg, env, st, Plain(ArtifactLocationAdded, id, map["location" := JText(location)]));
    case Record(d) => RecordTables(cfg, env, st, d);
  }

  lemma ConnectExtends(cfg: Config, env: Envelope, st: State, op: Op)
    requires op.Connect?
    ensures Extends(st, ConnectEffect(cfg, env, st, op).state)
  {
    hide RecordEffect, ConnectionValid;
    RecordTables(cfg, env, st, ConnectionDraft(op));
  }

  lemma RegisterExtends(cfg: Config, env: Envelope, st: State, op: Op)
    requires op.RegisterArtifact?
    ensures Extends(st, RegisterEffect(cfg, env, st, op).state)
  {
    hide RecordEffect, CreateEffect, RegistrationDraft, LowercaseSha256;
    CreateExtends(cfg, env, st, ArtifactCreation(op));
    RecordTables(cfg, env, CreateEffect(cfg, env, st, ArtifactCreation(op)).state, RegistrationDraft(op));
  }

  // ---- Sessions and scripts ----

  predicate CallsRerunnable(calls: seq<Call>) {
    forall c :: c in calls ==> Rerunnable(c.op)
  }

  predicate ScriptRerunnable(script: seq<Session>) {
    forall s :: s in script ==> CallsRerunnable(s.calls)
  }

  predicate CallsSucceed(cfg: Config, env: Envelope, st: State, calls: seq<Call>)
    decreases |calls|
  {
    calls == [] ||
    (Apply(cfg, env, st, calls[0].op).ok && CallsSucceed(cfg, env, Apply(cfg, env, st, calls[0].op).state, calls[1..]))
  }

  /** No operation of the script raises. */
  predicate Succeeds(cfg: Config, st: State, script: seq<Session>)
    decreases |script|
  {
    script == [] ||
    (CallsSucceed(cfg, script[0].env, st, script[0].calls) && Succeeds(cfg, Transact(cfg, st, script[0]), script[1..]))
  }

  ghost predicate CallsDone(vocab: Vocabulary, st: State, calls: seq<Call>) {
    forall c :: c in calls ==> Done(vocab, st, c.op)
  }

  ghost predicate ScriptDone(vocab: Vocabulary, st: State, script: seq<Session>) {
    forall s :: s in script ==> CallsDone(vocab, st, s.calls)
  }

  lemma {:induction false} CallsLeaveTrace(cfg: Config, env: Envelope, st: State, calls: seq<Call>)
    requires CallsRerunnable(calls) && CallsSucceed(cfg, env, st, calls)
    ensures RunCalls(cfg, env, st, calls).ok
    ensures Extends(st, RunCalls(cfg, env, st, calls).state)
    ensures CallsDone(cfg.vocab, RunCalls(cfg, env, st, calls).state, calls)
    decreases |calls|
  {
    hide Apply, Done;
    if calls != [] {
      var first := Apply(cfg, env, st, calls[0].op).state;
      ApplyExtends(cfg, env, st, calls[0].op);
      DoneAfterwards(cfg, env, st, calls[0].op);
      CallsLeaveTrace(cfg, env, first, calls[1..]);
      var last := RunCalls(cfg, env, first, calls[1..]).state;
      DoneStaysDone(cfg.vocab, first, last, calls[0].op);
      forall c | c in calls ensures Done(cfg.vocab, last, c.op) {
        if c != calls[0] { assert c in calls[1..]; }
      }
    }
  }

  lemma {:induction false} ScriptLeavesTrace(cfg: Config, st: State, script: seq<Session>)
    requires ScriptRerunnable(script) && Succeeds(cfg, st, script)
    ensures Extends(st, Run(cfg, st, script))
    ensures ScriptDone(cfg.vocab, Run(cfg, st, script), script)
    decreases |script|
  {
    hide Done;
    if script != [] {
      var s := script[0];
      CallsLeaveTrace(cfg, s.env, st, s.calls);
      var first := Transact(cfg, st, s);
      ScriptLeavesTrace(cfg, first, script[1..]);
      var last := Run(cfg, first, script[1..]);
      forall x, c | x in script && c in x.calls ensures Done(cfg.vocab, last, c.op) {
        if x == s {
          DoneStaysDone(cfg.vocab, first, last, c.op);
        } else {
          assert x in script[1..] && CallsDone(cfg.vocab, last, x.calls);
        }
      }
    }
  }

  lemma {:induction false} DoneCallsAreNoOps(cfg: Config, env: Envelope, st: State, calls: seq<Call>)
    requires CallsDone(cfg.vocab, st, calls)
    ensures RunCalls(cfg, env, st, calls) == Effect(st, true)
    ensures CallsSucceed(cfg, env, st, calls)
    decreases |calls|
  {
    hide Apply, Done;
    if calls != [] {
      DoneIsNoOp(cfg, env, st, calls[0].op);
      DoneCallsAreNoOps(cfg, env, st, calls[1..]);
    }
  }

  lemma {:induction false} DoneScriptIsNoOp(cfg: Config, st: State, script: seq<Session>)
    requires ScriptDone(cfg.vocab, st, script)
    ensures Run(cfg, st, script) == st && Succeeds(cfg, st, script)
    decreases |script|
  {
    hide Done;
    if script != [] {
      assert CallsDone(cfg.vocab, st, script[0].calls);
      DoneCallsAreNoOps(cfg, script[0].env, st, script[0].calls);
      DoneScriptIsNoOp(cfg, st, script[1..]);
    }
  }

  // ---- The same history up to timestamps and hashes ----

  function Erase(e: Event): Event {
    Event(e.core.(occurredAt := "", previousHash := ""), "", e.idempotencyKey, "")
  }

  ghost predicate Same(s: State, t: State) {
    && |s.events| == |t.events|
    && (forall i :: 0 <= i < |s.events| ==> Erase(s.events[i]) == Erase(t.events[i]))
    && s.objects == t.objects && s.aliases == t.aliases && s.edges == t.edges && s.locations == t.locations
  }

  lemma SameKeys(s: State, t: State, key: string)
    requires Same(s, t)
    ensures KeyUsed(s.events, key) == KeyUsed(t.events, key)
  {
    if KeyUsed(s.events, key) {
      var i :| 0 <= i < |s.events| && s.events[i].idempotencyKey == Some(key);
      assert Erase(s.events[i]) == Erase(t.events[i]);
      assert t.events[i] in t.events;
    }
    if KeyUsed(t.events, key) {
      var i :| 0 <= i < |t.events| && t.events[i].idempotencyKey == Some(key);
      assert Erase(s.events[i]) == Erase(t.events[i]);
      assert s.events[i] in s.events;
    }
  }

  lemma SameNextId(s: State, t: State)
    requires Same(s, t)
    ensures NextId(s.events) == NextId(t.events)
  {
    if s.events != [] {
      assert Erase(s.events[|s.events| - 1]) == Erase(t.events[|t.events| - 1]);
    }
  }

  lemma RecordSame(c: Config, d: Config, env: Envelope, s: State, t: State, draft: Draft)
    requires Same(s, t) && c.vocab == d.vocab
    ensures Same(RecordEffect(c, env, s, draft).state, RecordEffect(d, env, t, draft).state)
    ensures RecordEffect(c, env, s, draft).ok == RecordEffect(d, env, t, draft).ok
  {
    if draft.key.Some? { SameKeys(s, t, draft.key.value); }
    SameNextId(s, t);
  }

  lemma CreateSame(c: Config, d: Config, env: Envelope, s: State, t: State, op: Op)
    requires op.CreateObject? && Same(s, t) && c.vocab == d.vocab
    ensures Same(CreateEffect(c, env, s, op).state, CreateEffect(d, env, t, op).state)
    ensures CreateEffect(c, env, s, op).ok == CreateEffect(d, env, t, op).ok
  {
    hide RecordEffect;
    SameNextId(s, t);
    RecordBoth(c, d, env, s, t, CreationDraft(op));
  }

  lemma RecordBoth(c: Config, d: Config, env: Envelope, s: State, t: State, draft: Draft)
    requires Same(s, t) && c.vocab == d.vocab
    ensures var a, b := RecordEffect(c, env, s, draft), RecordEffect(d, env, t, draft);
            && a.ok == b.ok && Same(a.state, b.state)
            && a.state == s.(events := a.state.events) && b.state == t.(events := b.state.events)
  {
    RecordSame(c, d, env, s, t, draft);
    RecordTables(c, env, s, draft);
    RecordTables(d, env, t, draft);
  }

  lemma ConnectSame(c: Config, d: Config, env: Envelope, s: State, t: State, op: Op)
    requires op.Connect? && Same(s, t) && c.vocab == d.vocab
    ensures Same(ConnectEffect(c, env, s, op).state, ConnectEffect(d, env, t, op).state)
    ensures ConnectEffect(c, env, s, op).ok == ConnectEffect(d, env, t, op).ok
  {
    hide RecordEffect, ConnectionValid, Erase;
    SameNextId(s, t);
    RecordBoth(c, d, env, s, t, ConnectionDraft(op));
  }

  lemma RegisterSame(c: Config, d: Config, env: Envelope, s: State, t: State, op: Op)
    requires op.RegisterArtifact? && Same(s, t) && c.vocab == d.vocab
    ensures Same(RegisterEffect(c, env, s, op).state, RegisterEffect(d, env, t, op).state)
    ensures RegisterEffect(c, env, s, op).ok == RegisterEffect(d, env, t, op).ok
  {
    hide RecordEffect, CreateEffect, RegistrationDraft, LowercaseSha256, Same;
    var creation := ArtifactCreation(op);
    CreateSame(c, d, env, s, t, creation);
    RecordBoth(c, d, env, CreateEffect(c, env, s, creation).state, CreateEffect(d, env, t, creation).state,
        RegistrationDraft(op));
  }

  /** Two runs of one operation at different times do the same thing. */
  lemma ApplySame(c: Config, d: Config, env: Envelope, s: State, t: State, op: Op)
    requires Rerunnable(op) && Same(s, t) && c.vocab == d.vocab
    ensures Same(Apply(c, env, s, op).state, Apply(d, env, t, op).state)
    ensures Apply(c, env, s, op).ok == Apply(d, env, t, op).ok
  {
    hide RecordEffect, CreateEffect, ConnectEffect, RegisterEffect, Erase;
    SameNextId(s, t);
    match op
    case CreateObject(_, _, _, _, _, _, _) => CreateSame(c, d, env, s, t, op);
    case AddAlias(alias, id) => RecordBoth(c, d, env, s, t, Plain(AliasAdded, id, map["alias" := JText(alias)]));
    case Connect(_, _, _, _, _) => ConnectSame(c, d, env, s, t, op);
    case RegisterArtifact(_, _, _, _, _) => RegisterSame(c, d, env, s, t, op);
    case AddLocation(id, location) =>
      RecordBoth(c, d, env, s, t, Plain(ArtifactLocationAdded, id, map["location" := JText(location)]));
    case Record(draft) => RecordBoth(c, d, env, s, t, draft);
  }

  lemma {:induction false} CallsSame(c: Config, d: Config, env: Envelope, s: State, t: State, calls: seq<Call>)
    requires CallsRerunnable(calls) && Same(s, t) && c.vocab == d.vocab
    ensures Same(RunCalls(c, env, s, calls).state, RunCalls(d, env, t, calls).state)
    ensures RunCalls(c, env, s, calls).ok == RunCalls(d, env, t, calls).ok
    ensures CallsSucceed(c, env, s, calls) == CallsSucceed(d, env, t, calls)
    decreases |calls|
  {
    hide Apply;
    if calls != [] {
      var op := calls[0].op;
      ApplySame(c, d, env, s, t, op);
      CallsSame(c, d, env, Apply(c, env, s, op).state, Apply(d, env, t, op).state, calls[1..]);
    }
  }

  lemma {:induction false} RunSame(c: Config, d: Config, s: State, t: State, script: seq<Session>)
    requires ScriptRerunnable(script) && Same(s, t) && c.vocab == d.vocab
    ensures Same(Run(c, s, script), Run(d, t, script))
    ensures Succeeds(c, s, script) == Succeeds(d, t, script)
    decreases |script|
  {
    if script != [] {
      CallsSame(c, d, script[0].env, s, t, script[0].calls);
      RunSame(c, d, Transact(c, s, script[0]), Transact(d, t, script[0]), script[1..]);
    }
  }

  lemma DoneTransfers(vocab: Vocabulary, s: State, t: State, op: Op)
    requires Same(s, t) && Done(vocab, s, op)
    ensures Done(vocab, t, op)
  {
    if op.RegisterArtifact? { SameKeys(s, t, RegistrationDraft(op).key.value); }
    if op.Record? { SameKeys(s, t, op.draft.key.value); }
  }

  // ---- Crash and rerun ----

  lemma {:induction false} RunAppend(cfg: Config, st: State, a: seq<Session>, b: seq<Session>)
    ensures Run(cfg, st, a + b) == Run(cfg, Run(cfg, st, a), b)
    ensures Succeeds(cfg, st, a + b) <==> Succeeds(cfg, st, a) && Succeeds(cfg, Run(cfg, st, a), b)
    decreases |a|
  {
    if a == [] {
      assert a + b == b;
    } else {
      assert (a + b)[0] == a[0] && (a + b)[1..] == a[1..] + b;
      RunAppend(cfg, Transact(cfg, st, a[0]), a[1..], b);
    }
  }

  function Max(a: nat, b: nat): nat {
    if a < b then b else a
  }

  /** Running the first `k` sessions over a ledger that already holds the first `m`. */
  lemma AttemptOver(c: Config, d: Config, st: State, s: State, script: seq<Session>, m: nat, k: nat)
    requires ScriptRerunnable(script) && Succeeds(c, st, script) && c.vocab == d.vocab
    requires m <= |script| && k <= |script|
    requires Same(s, Run(c, st, script[..m]))
    ensures Succeeds(d, s, script[..k])
    ensures Same(Run(d, s, script[..k]), Run(c, st, script[..Max(m, k)]))
  {
    hide Same, Done, Transact;
    var held := Run(c, st, script[..m]);
    assert script == script[..m] + script[m..];
    RunAppend(c, st, script[..m], script[m..]);
    ScriptLeavesTrace(c, st, script[..m]);
    forall x, call | x in script[..m] && call in x.calls ensures Done(d.vocab, s, call.op) {
      assert CallsDone(c.vocab, held, x.calls);
      SameSymmetric(s, held);
      DoneTransfers(c.vocab, held, s, call.op);
    }
    assert ScriptDone(d.vocab, s, script[..m]);
    if k <= m {
      assert ScriptDone(d.vocab, s, script[..k]) by {
        assert forall x :: x in script[..k] ==> x in script[..m];
      }
      DoneScriptIsNoOp(d, s, script[..k]);
    } else {
      DoneScriptIsNoOp(d, s, script[..m]);
      var middle := script[m..k];
      assert script[..k] == script[..m] + middle;
      assert script[m..] == middle + script[k..];
      RunAppend(d, s, script[..m], middle);
      RunAppend(c, st, script[..m], middle);
      RunAppend(c, held, middle, script[k..]);
      SameSymmetric(s, held);
      RunSame(c, d, held, s, middle);
      SameSymmetric(Run(c, held, middle), Run(d, s, middle));
    }
  }

  lemma SameSymmetric(s: State, t: State)
    ensures Same(s, t) == Same(t, s)
  {
  }

  /** One attempt at the script, with its own clock, cut off after `cut` committed sessions. */
  datatype Attempt = Attempt(cfg: Config, cut: nat)

  function AfterAttempts(st: State, script: seq<Session>, attempts: seq<Attempt>): State
    requires forall a :: a in attempts ==> a.cut <= |script|
    decreases |attempts|
  {
    if attempts == [] then st
    else
      var a := attempts[|attempts| - 1];
      Run(a.cfg, AfterAttempts(st, script, attempts[..|attempts| - 1]), script[..a.cut])
  }

  lemma {:induction false} AttemptsReachAPrefix(c: Config, st: State, script: seq<Session>, attempts: seq<Attempt>)
      returns (m: nat)
    requires ScriptRerunnable(script) && Succeeds(c, st, script)
    requires forall a :: a in attempts ==> a.cut <= |script| && a.cfg.vocab == c.vocab
    ensures m <= |script|
    ensures Same(AfterAttempts(st, script, attempts), Run(c, st, script[..m]))
    decreases |attempts|
  {
    if attempts == [] {
      return 0;
    }
    var earlier, a := attempts[..|attempts| - 1], attempts[|attempts| - 1];
    var before := AttemptsReachAPrefix(c, st, script, earlier);
    AttemptOver(c, a.cfg, st, AfterAttempts(st, script, earlier), script, before, a.cut);
    m := Max(before, a.cut);
  }

  /**
    Exactly once: after any number of interrupted attempts, a complete run
    raises nothing and ends where one clean run ends.
   */
  lemma ExactlyOnce(c: Config, st: State, script: seq<Session>, attempts: seq<Attempt>, last: Config)
    requires ScriptRerunnable(script) && Succeeds(c, st, script)
    requires last.vocab == c.vocab
    requires forall a :: a in attempts ==> a.cut <= |script| && a.cfg.vocab == c.vocab
    ensures var interrupted := AfterAttempts(st, script, attempts);
            Succeeds(last, interrupted, script) && Same(Run(last, interrupted, script), Run(c, st, script))
  {
    hide Same, Run, Succeeds;
    var m := AttemptsReachAPrefix(c, st, script, attempts);
    AttemptOver(c, last, st, AfterAttempts(st, script, attempts), script, m, |script|);
    assert script[..|script|] == script && Max(m, |script|) == |script|;
  }

  /** Without a key an event is appended on every attempt: the hypothesis on `record` is needed. */
  lemma UnkeyedRecordRepeats(cfg: Config, env: Envelope, st: State, d: Draft)
    requires d.key.None? && RecordEffect(cfg, env, st, d).ok
    ensures var once := RecordEffect(cfg, env, st, d).state;
            && RecordEffect(cfg, env, once, d).ok
            && |RecordEffect(cfg, env, once, d).state.events| == |st.events| + 2
  {
  }

  /**
    Retracting is not rerunnable either: once a script has connected an edge and
    then retracted it, running the script again appends to the history.
   */
  lemma RetractionIsUndoneByRerun(cfg: Config, env: Envelope, st: State, connect: Op, reason: string)
    requires connect.Connect? && Apply(cfg, env, st, connect).ok
    requires var connected := Apply(cfg, env, st, connect).state;
             RetractEffect(cfg, env, connected, connect.source, connect.relation, connect.target, reason).ok
    requires Acceptable(cfg.vocab, env, ConnectionDraft(connect))
    ensures var connected := Apply(cfg, env, st, connect).state;
            var retracted := RetractEffect(cfg, env, connected, connect.source, connect.relation, connect.target,
                reason).state;
            !Done(cfg.vocab, retracted, connect) && Apply(cfg, env, retracted, connect).ok
            && |Apply(cfg, env, retracted, connect).state.events| == |retracted.events| + 1
  {
    var connected := Apply(cfg, env, st, connect).state;
    DoneAfterwards(cfg, env, st, connect);
    var i := EdgeIndex(connected.edges, connect.source, connect.relation, connect.target);
    var retracted := RetractEffect(cfg, env, connected, connect.source, connect.relation, connect.target, reason).state;
    RecordTables(cfg, env, connected, RetractDraft(connect.source, reason));
    RecordTables(cfg, env, st, ConnectionDraft(connect));
    EdgeFound(retracted.edges, connect.source, connect.relation, connect.target, i);
  }
}
