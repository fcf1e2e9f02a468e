/**
  Short histories from the empty ledger, under the version-1 vocabulary, that
  reach the cases the exact conditions elsewhere single out.
 */
module Scenarios {
  import opened Wrappers
  import opened Vocabulary
  import opened StandardVocabulary
  import opened Events
  import opened Store
  import opened Derive
  import opened Integrity
  import opened Replay
  import opened EdgeReplay
  import QueueRuns

  // ---- Operations that commit ----

  /** A session of the evaluator, who may write everything the scenarios need. */
  const EVALUATOR := Envelope(AuthoritativeEvaluator, "evaluator", None, None, None)

  /** The actors and objects of the loaded example below. */
  const IMPORTER := Envelope(Importer, "tool:import", None, None, None)
  const AGENT := Envelope(ResearchAgent, "agent:fixture", None, None, None)
  const OBSTRUCTION := "claim:route_obstruction"
  const RESOLUTION := "claim:route_resolution"

  predicate Plainly(id: string) {
    id in {"a", "b", "c", "evidence", "evaluator", "artifact:1", "tool:import", "agent:fixture", OBSTRUCTION,
           RESOLUTION}
  }

  lemma PlainIdentifiers(id: string)
    requires Plainly(id)
    ensures ValidIdentifier(id)
  {
    assert forall i :: 0 <= i < |id| ==> id[i] != '\n' && id[i] != '\r';
  }

  /** `st` and one more event about `subject`. */
  ghost predicate OneEventLater(st: State, next: State, subject: string, action: Action) {
    && |next.events| == |st.events| + 1 && next.events[..|st.events|] == st.events
    && next.events[|st.events|].core.subjectId == subject && next.events[|st.events|].core.action == action
  }

  lemma Accepted(cfg: Config, env: Envelope, st: State, d: Draft)
    requires cfg.vocab == Standard() && Acceptable(Standard(), env, d) && d.key.None?
    requires d.evidence.Some? ==> d.evidence.value in st.objects
    ensures var r := RecordEffect(cfg, env, st, d);
            r.ok && r.state == st.(events := r.state.events) && OneEventLater(st, r.state, d.subjectId, d.action)
  {
    hide Acceptable, Standard;
  }

  lemma CreationCommits(cfg: Config, env: Envelope, st: State, op: Op)
    requires cfg.vocab == Standard() && op.CreateObject? && Plainly(op.id) && op.id !in st.objects
    requires env == EVALUATOR || env == IMPORTER
    requires ObjectWellFormed(Standard(), op.kind, op.format, op.properties)
    ensures var r := Apply(cfg, env, st, op);
            && r.ok && OneEventLater(st, r.state, op.id, ObjectCreated) && r.state.edges == st.edges
            && r.state.objects == st.objects[op.id := ObjectRecord(op.id, op.kind, op.name, op.format, op.content,
                op.properties, NextId(st.events))]
  {
    PlainIdentifiers(op.id);
    PlainIdentifiers(env.actorId);
    assert Acceptable(Standard(), env, CreationDraft(op)) by {
      hide ObjectWellFormed, ValidIdentifier;
    }
    Accepted(cfg, env, st, CreationDraft(op));
    hide RecordEffect, Acceptable, ObjectWellFormed, Standard;
  }

  lemma ConnectionCommits(cfg: Config, st: State, op: Op)
    requires cfg.vocab == Standard() && op.Connect? && Plainly(op.source)
    requires op.source in st.objects && op.target in st.objects
    requires ConnectionValid(Standard(), op.relation, st.objects[op.source].kind, st.objects[op.target].kind,
            op.properties)
    requires EdgeIndex(st.edges, op.source, op.relation, op.target) == |st.edges|
    ensures var r := Apply(cfg, EVALUATOR, st, op);
            && r.ok && OneEventLater(st, r.state, op.source, ConnectionCreated) && r.state.objects == st.objects
            && r.state.edges == st.edges + [Edge(op.source, op.relation, op.target, op.properties, NextId(st.events),
                None)]
  {
    hide RecordEffect, Acceptable, ConnectionValid, Standard;
    ConnectionIsAcceptable(op);
    Accepted(cfg, EVALUATOR, st, ConnectionDraft(op));
  }

  lemma ConnectionIsAcceptable(op: Op)
    requires op.Connect? && Plainly(op.source)
    ensures Acceptable(Standard(), EVALUATOR, ConnectionDraft(op))
  {
    PlainIdentifiers(op.source);
    PlainIdentifiers("evaluator");
    hide ValidIdentifier, RelationName;
  }

  lemma RetractionCommits(cfg: Config, st: State, op: Op)
    requires cfg.vocab == Standard() && op.Retract? && Plainly(op.source) && Retractable(st, op)
    ensures var r := Apply(cfg, EVALUATOR, st, op);
            var i := EdgeIndex(st.edges, op.source, op.relation, op.target);
            && r.ok && OneEventLater(st, r.state, op.source, ConnectionRetracted) && r.state.objects == st.objects
            && r.state.edges == st.edges[i := st.edges[i].(retracted := Some(NextId(st.events)))]
  {
    PlainIdentifiers(op.source);
    PlainIdentifiers("evaluator");
    assert Acceptable(Standard(), EVALUATOR, RetractDraft(op.source, op.reason)) by {
      hide ValidIdentifier;
    }
    Accepted(cfg, EVALUATOR, st, RetractDraft(op.source, op.reason));
    hide RecordEffect, Acceptable, Standard;
  }

  // ---- Histories ----

  function Calls(ops: seq<Op>): (calls: seq<Call>)
    ensures |calls| == |ops| && forall i :: 0 <= i < |ops| ==> calls[i] == Call(ops[i], false)
  {
    seq(|ops|, i requires 0 <= i < |ops| => Call(ops[i], false))
  }

  /** One session of the evaluator that does `ops` on the empty ledger. */
  function RunOps(cfg: Config, ops: seq<Op>): Effect {
    RunCalls(cfg, EVALUATOR, EMPTY, Calls(ops))
  }

  lemma RunOneMore(cfg: Config, ops: seq<Op>, op: Op)
    requires RunOps(cfg, ops).ok
    ensures RunOps(cfg, ops + [op]) == Apply(cfg, EVALUATOR, RunOps(cfg, ops).state, op)
  {
    hide Apply;
    assert Calls(ops + [op]) == Calls(ops) + [Call(op, false)];
    QueueRuns.CallsAppend(cfg, EVALUATOR, EMPTY, Calls(ops), [Call(op, false)]);
    QueueRuns.SingleCall(cfg, EVALUATOR, RunOps(cfg, ops).state, op);
  }

  lemma Committed(cfg: Config, ops: seq<Op>)
    requires RunOps(cfg, ops).ok
    ensures Run(cfg, EMPTY, [Session(EVALUATOR, Calls(ops))]) == RunOps(cfg, ops).state
  {
    hide RunCalls;
    assert [Session(EVALUATOR, Calls(ops))][1..] == [];
  }

  lemma NothingYet(cfg: Config)
    ensures RunOps(cfg, []) == Effect(EMPTY, true)
  {
  }

  // ---- An artifact under a false name ----

  function FalseArtifact(): Op {
    CreateObject("artifact:1", Artifact, "artifact:1", NoContent, "",
      map["sha256" := JText("2"), "artifact_type" := JText("t"), "byte_size" := JNumber(0.0),
          "media_type" := JText("m")], None)
  }

  /** Creating an artifact by hand under an id that is not its digest's commits, and the verifier reports it. */
  lemma FalseArtifactCommits(cfg: Config)
    requires cfg.vocab == Standard()
    ensures RunOps(cfg, [FalseArtifact()]).ok && !Clean(cfg, RunOps(cfg, [FalseArtifact()]).state)
  {
    hide RunOps, Clean;
    NothingYet(cfg);
    RunOneMore(cfg, [], FalseArtifact());
    assert [] + [FalseArtifact()] == [FalseArtifact()];
    assert ObjectWellFormed(Standard(), Artifact, NoContent, FalseArtifact().properties);
    CreationCommits(cfg, EVALUATOR, EMPTY, FalseArtifact());
    StandardMeetsTruthContract();
    EmptyIsClean(cfg);
    assert !Honest(FalseArtifact()) by { assert "artifact:1"[9..] == "1" && "1" != "2"; }
    HonestyIsExact(cfg, EVALUATOR, EMPTY, FalseArtifact());
  }

  // ---- Two edges of one source ----

  function Claim(id: string): Op {
    CreateObject(id, ResearchClaim, id, Markdown, "", map[], None)
  }

  function Depends(f: string, t: string): Op {
    Connect(f, DependsOn, t, map[], None)
  }

  function ThreeClaims(): seq<Op> {
    [Claim("a"), Claim("b"), Claim("c")]
  }

  function TwoEdges(): seq<Op> {
    ThreeClaims() + [Depends("a", "b")] + [Depends("a", "c")]
  }

  lemma ClaimCommits(cfg: Config, st: State, id: string)
    requires cfg.vocab == Standard() && Plainly(id) && id !in st.objects
    ensures var r := Apply(cfg, EVALUATOR, st, Claim(id));
            r.ok && r.state.edges == st.edges && r.state.objects.Keys == st.objects.Keys + {id}
            && (forall x :: x in st.objects ==> r.state.objects[x] == st.objects[x])
                && r.state.objects[id].kind == ResearchClaim
  {
    hide Apply, ObjectWellFormed, Standard, OneEventLater;
    ClaimsAreWellFormed();
    CreationCommits(cfg, EVALUATOR, st, Claim(id));
  }

  lemma ClaimsAreWellFormed()
    ensures ObjectWellFormed(Standard(), ResearchClaim, Markdown, map[])
  {
  }

  ghost predicate Claims(st: State) {
    st.objects.Keys == {"a", "b", "c"} && forall id :: id in st.objects ==> st.objects[id].kind == ResearchClaim
  }

  lemma ThreeClaimsCommit(cfg: Config)
    requires cfg.vocab == Standard()
    ensures RunOps(cfg, ThreeClaims()).ok && RunOps(cfg, ThreeClaims()).state.edges == []
            && Claims(RunOps(cfg, ThreeClaims()).state)
  {
    hide RunOps, Apply;
    NothingYet(cfg);
    RunOneMore(cfg, [], Claim("a"));
    ClaimCommits(cfg, EMPTY, "a");
    RunOneMore(cfg, [] + [Claim("a")], Claim("b"));
    ClaimCommits(cfg, RunOps(cfg, [] + [Claim("a")]).state, "b");
    RunOneMore(cfg, [] + [Claim("a")] + [Claim("b")], Claim("c"));
    ClaimCommits(cfg, RunOps(cfg, [] + [Claim("a")] + [Claim("b")]).state, "c");
    assert ThreeClaims() == [] + [Claim("a")] + [Claim("b")] + [Claim("c")];
  }

  lemma DependencyCommits(cfg: Config, st: State, f: string, t: string)
    requires cfg.vocab == Standard() && Plainly(f) && f in st.objects && t in st.objects
    requires st.objects[f].kind == ResearchClaim && st.objects[t].kind == ResearchClaim
    requires EdgeIndex(st.edges, f, DependsOn, t) == |st.edges|
    ensures var r := Apply(cfg, EVALUATOR, st, Depends(f, t));
            r.ok && r.state.objects == st.objects && r.state.edges ==
                st.edges + [Edge(f, DependsOn, t, map[], NextId(st.events), None)]
  {
    assert ConnectionValid(Standard(), DependsOn, ResearchClaim, ResearchClaim, map[]);
    hide Apply, ConnectionValid;
    ConnectionCommits(cfg, st, Depends(f, t));
  }

  lemma TwoEdgesCommit(cfg: Config)
    requires cfg.vocab == Standard()
    ensures var r := RunOps(cfg, TwoEdges());
            && r.ok && Claims(r.state) && |r.state.edges| == 2
            && r.state.edges[0].Is("a", DependsOn, "b") && r.state.edges[1].Is("a", DependsOn, "c")
            && r.state.edges[0].Active() && r.state.edges[1].Active()
  {
    hide RunOps, Apply;
    ThreeClaimsCommit(cfg);
    var three := RunOps(cfg, ThreeClaims()).state;
    RunOneMore(cfg, ThreeClaims(), Depends("a", "b"));
    DependencyCommits(cfg, three, "a", "b");
    var four := RunOps(cfg, ThreeClaims() + [Depends("a", "b")]).state;
    RunOneMore(cfg, ThreeClaims() + [Depends("a", "b")], Depends("a", "c"));
    assert !four.edges[0].Is("a", DependsOn, "c");
    DependencyCommits(cfg, four, "a", "c");
  }

  function Undo(t: string): Op {
    Retract("a", DependsOn, t, "mistaken")
  }

  /** Two sessions that write the same log and leave different connections. */
  lemma SameLogDifferentEdges(cfg: Config)
    requires cfg.vocab == Standard()
    ensures var one := Run(cfg, EMPTY, [Session(EVALUATOR, Calls(TwoEdges() + [Undo("b")]))]);
            var two := Run(cfg, EMPTY, [Session(EVALUATOR, Calls(TwoEdges() + [Undo("c")]))]);
            one.events == two.events && |one.events| > 0 && one.edges != two.edges
  {
    hide RunOps, RunCalls, Run, Apply, Claims;
    TwoEdgesCommit(cfg);
    var st := RunOps(cfg, TwoEdges()).state;
    RunOneMore(cfg, TwoEdges(), Undo("b"));
    RunOneMore(cfg, TwoEdges(), Undo("c"));
    EitherCanGo(st);
    RetractionCommits(cfg, st, Undo("b"));
    RetractionCommits(cfg, st, Undo("c"));
    Committed(cfg, TwoEdges() + [Undo("b")]);
    Committed(cfg, TwoEdges() + [Undo("c")]);
    SameRetraction(cfg, st);
    assert Apply(cfg, EVALUATOR, st, Undo("b")).state.edges[0].retracted.Some?;
    assert Apply(cfg, EVALUATOR, st, Undo("c")).state.edges[0].retracted.None?;
  }

  lemma EitherCanGo(st: State)
    requires |st.edges| == 2 && st.edges[0].Active() && st.edges[1].Active()
    requires st.edges[0].Is("a", DependsOn, "b") && st.edges[1].Is("a", DependsOn, "c")
    ensures EdgeIndex(st.edges, "a", DependsOn, "b") == 0 && EdgeIndex(st.edges, "a", DependsOn, "c") == 1
    ensures Retractable(st, Undo("b")) && Retractable(st, Undo("c"))
  {
    assert !st.edges[0].Is("a", DependsOn, "c");
  }

  lemma SameRetraction(cfg: Config, st: State)
    requires Retractable(st, Undo("b")) && Retractable(st, Undo("c"))
    ensures Apply(cfg, EVALUATOR, st, Undo("b")).state.events == Apply(cfg, EVALUATOR, st, Undo("c")).state.events
  {
    hide RecordEffect;
  }

  // ---- A refuter that is retracted later ----

  function FormalFields(): Properties {
    map["formal_system" := JText("lean4"), "declaration" := JText("b"), "proposition_sha256" := JText("p"),
        "environment_identity" := JText("e")]
  }

  /** `a`, its refuter `b`, the certification of `b` on evidence `a`, and the refutation. */
  function Refutation(): seq<Op> {
    [Claim("a")] + [FormalB()] + [CertifyB()] + [RefuteA()]
  }

  function FormalB(): Op {
    CreateObject("b", FormalClaim, "b", Lean, "False", FormalFields(), None)
  }

  function CertifyB(): Op {
    Record(Draft(KernelCertified, ObjectSubject, "b",
      map["declaration" := JText("b"), "proposition_sha256" := JText("p"), "toolchain" := JText("t"),
          "evaluator_version" := JText("v"), "axiom_policy" := JText("x")],
      Some("a"), None, None))
  }

  function RefuteA(): Op {
    Connect("b", Refutes, "a", map["trust_level" := JText("kernel")], None)
  }

  function WithdrawRefutation(): Op {
    Retract("b", Refutes, "a", "mistaken")
  }

  lemma FormalBCommits(cfg: Config, st: State)
    requires cfg.vocab == Standard() && "b" !in st.objects
    ensures var r := Apply(cfg, EVALUATOR, st, FormalB());
            && r.ok && r.state.edges == st.edges && OneEventLater(st, r.state, "b", ObjectCreated)
            && (forall x :: x in st.objects ==> x in r.state.objects && r.state.objects[x] == st.objects[x])
            && "b" in r.state.objects && r.state.objects["b"].kind == FormalClaim
  {
    hide Apply, ObjectWellFormed, Standard, OneEventLater, FormalFields;
    FormalClaimsAreWellFormed();
    CreationCommits(cfg, EVALUATOR, st, FormalB());
  }

  lemma FormalClaimsAreWellFormed()
    ensures ObjectWellFormed(Standard(), FormalClaim, Lean, FormalFields())
  {
  }

  lemma CertifyBCommits(cfg: Config, st: State)
    requires cfg.vocab == Standard() && "a" in st.objects
    ensures var r := Apply(cfg, EVALUATOR, st, CertifyB());
            r.ok && r.state.edges == st.edges && r.state.objects == st.objects
                && OneEventLater(st, r.state, "b", KernelCertified)
  {
    hide RecordEffect, Acceptable, Standard, OneEventLater;
    CertificationIsAcceptable();
    Accepted(cfg, EVALUATOR, st, CertifyB().draft);
  }

  lemma CertificationIsAcceptable()
    ensures Acceptable(Standard(), EVALUATOR, CertifyB().draft)
  {
    PlainIdentifiers("b");
    PlainIdentifiers("evaluator");
    hide ValidIdentifier;
  }

  lemma RefuteACommits(cfg: Config, st: State)
    requires cfg.vocab == Standard() && "a" in st.objects && "b" in st.objects && st.edges == []
    requires st.objects["a"].kind == ResearchClaim && st.objects["b"].kind == FormalClaim
    ensures var r := Apply(cfg, EVALUATOR, st, RefuteA());
            && r.ok && OneEventLater(st, r.state, "b", ConnectionCreated)
            && |r.state.edges| == 1 && r.state.edges[0].Is("b", Refutes, "a") && r.state.edges[0].Active()
                && KernelTrusted(r.state.edges[0])
  {
    hide Apply, ConnectionValid, Standard, OneEventLater, KernelTrusted;
    RefutationIsValid();
    ConnectionCommits(cfg, st, RefuteA());
    KernelProperties(Apply(cfg, EVALUATOR, st, RefuteA()).state.edges[0]);
  }

  lemma RefutationIsValid()
    ensures ConnectionValid(Standard(), Refutes, FormalClaim, ResearchClaim, RefuteA().properties)
  {
  }

  lemma KernelProperties(e: Edge)
    requires e.properties == RefuteA().properties
    ensures KernelTrusted(e)
  {
  }

  /** One more event about `subject` decides or leaves certification. */
  lemma CertificationStep(st: State, next: State, subject: string, action: Action, id: string)
    requires OneEventLater(st, next, subject, action) && action != ObjectRetracted
    ensures IsProved(EventsOf(next.events, id, None)) <==>
              IsProved(EventsOf(st.events, id, None)) || (subject == id && action == KernelCertified)
  {
    var n := |st.events|;
    assert next.events[..n] == st.events;
    var before := EventsOf(st.events, id, None);
    if subject == id {
      assert EventsOf(next.events, id, None) == before + [next.events[n].core];
      assert (before + [next.events[n].core])[..|before|] == before;
    } else {
      assert EventsOf(next.events, id, None) == before + [] == before;
    }
  }

  predicate Uncertified(events: seq<Event>, id: string) {
    forall e :: e in events ==> e.core.subjectId != id || e.core.action != KernelCertified
  }

  lemma StaysUncertified(st: State, next: State, subject: string, action: Action, id: string)
    requires OneEventLater(st, next, subject, action) && Uncertified(st.events, id)
            && (subject != id || action != KernelCertified)
    ensures Uncertified(next.events, id)
  {
    var n := |st.events|;
    assert next.events == st.events + [next.events[n]];
  }

  lemma RefutationCommits(cfg: Config)
    requires cfg.vocab == Standard()
    ensures var r := RunOps(cfg, Refutation());
            && r.ok && Uncertified(r.state.events, "a") && IsProved(EventsOf(r.state.events, "b", None))
            && |r.state.edges| == 1 && r.state.edges[0].Is("b", Refutes, "a") && r.state.edges[0].Active()
                && KernelTrusted(r.state.edges[0])
  {
    hide RunOps, Apply, OneEventLater, Uncertified, EventsOf, IsProved, KernelTrusted;
    NothingYet(cfg);
    var one, two, three := [] + [Claim("a")], [Claim("a")] + [FormalB()], [Claim("a")] + [FormalB()] + [CertifyB()];
    RunOneMore(cfg, [], Claim("a"));
    ClaimCommits(cfg, EMPTY, "a");
    assert one == [Claim("a")];
    var s1 := RunOps(cfg, one).state;
    RunOneMore(cfg, one, FormalB());
    FormalBCommits(cfg, s1);
    var s2 := RunOps(cfg, two).state;
    RunOneMore(cfg, two, CertifyB());
    CertifyBCommits(cfg, s2);
    var s3 := RunOps(cfg, three).state;
    RunOneMore(cfg, three, RefuteA());
    RefuteACommits(cfg, s3);
    var s4 := RunOps(cfg, Refutation()).state;
    CertificationStep(s2, s3, "b", KernelCertified, "b");
    CertificationStep(s3, s4, "b", ConnectionCreated, "b");
    FirstEvent(cfg);
    StaysUncertified(EMPTY, s1, "a", ObjectCreated, "a");
    StaysUncertified(s1, s2, "b", ObjectCreated, "a");
    StaysUncertified(s2, s3, "b", KernelCertified, "a");
    StaysUncertified(s3, s4, "b", ConnectionCreated, "a");
  }

  lemma FirstEvent(cfg: Config)
    requires cfg.vocab == Standard()
    ensures OneEventLater(EMPTY, Apply(cfg, EVALUATOR, EMPTY, Claim("a")).state, "a", ObjectCreated)
            && Uncertified(EMPTY.events, "a")
  {
    hide Apply, ObjectWellFormed, Standard, OneEventLater;
    ClaimsAreWellFormed();
    CreationCommits(cfg, EVALUATOR, EMPTY, Claim("a"));
  }

  /** Refuted at the time, open when replayed to that time after the refutation was withdrawn. */
  lemma RetractedRefuterIsLost(cfg: Config)
    requires cfg.vocab == Standard()
    ensures var refuting, withdrawing := Session(EVALUATOR, Calls(Refutation())),
            Session(EVALUATOR, Calls([WithdrawRefutation()]));
            var s, t := Run(cfg, EMPTY, [refuting]), Run(cfg, EMPTY, [refuting, withdrawing]);
            TruthOf(s, "a", None) == Refuted && TruthOf(t, "a", Some(|s.events|)) == Open
  {
    hide RunOps, RunCalls, Apply, OneEventLater, Uncertified, EventsOf, IsProved, KernelTrusted;
    RefutationCommits(cfg);
    Committed(cfg, Refutation());
    var s := RunOps(cfg, Refutation()).state;
    RetractionCommits(cfg, s, WithdrawRefutation());
    var t := Apply(cfg, EVALUATOR, s, WithdrawRefutation()).state;
    LaterSession(cfg, s, WithdrawRefutation());
    UncertifiedTables(s, "a", None);
    StaysUncertified(s, t, "b", ConnectionRetracted, "a");
    UncertifiedTables(t, "a", Some(|s.events|));
    assert Refuter(s, s.edges[0], "a", None);
    assert !t.edges[0].Active() && |t.edges| == 1;
  }

  /** Without a certifying event about it, nothing is proved, whenever one looks. */
  lemma UncertifiedTables(st: State, id: string, until: Option<nat>)
    requires Uncertified(st.events, id)
    ensures !IsProved(EventsOf(st.events, id, until))
  {
    EventsAreOf(st.events, id, until);
    UncertifiedIsUnproved(EventsOf(st.events, id, until));
  }

  lemma {:induction false} EventsAreOf(events: seq<Event>, id: string, until: Option<nat>)
    ensures forall c :: c in EventsOf(events, id, until) ==> c.subjectId == id && exists e :: e in events && e.core == c
  {
    if events != [] {
      var n := |events| - 1;
      EventsAreOf(events[..n], id, until);
      forall c | c in EventsOf(events, id, until) ensures c.subjectId == id && exists e :: e in events && e.core == c {
        if c in EventsOf(events[..n], id, until) {
          var e :| e in events[..n] && e.core == c;
          assert e in events;
        } else {
          assert events[n] in events && events[n].core == c;
        }
      }
    }
  }

  lemma {:induction false} UncertifiedIsUnproved(cores: seq<EventCore>)
    requires forall c :: c in cores ==> c.action != KernelCertified
    ensures !IsProved(cores)
  {
    if cores != [] {
      assert cores[|cores| - 1] in cores && forall c :: c in cores[..|cores| - 1] ==> c in cores;
      UncertifiedIsUnproved(cores[..|cores| - 1]);
    }
  }

  lemma LaterSession(cfg: Config, st: State, op: Op)
    requires Apply(cfg, EVALUATOR, st, op).ok
    ensures forall first: Session :: Transact(cfg, EMPTY, first) == st ==>
              Run(cfg, EMPTY, [first, Session(EVALUATOR, Calls([op]))]) == Apply(cfg, EVALUATOR, st, op).state
  {
    hide Apply;
    var second := Session(EVALUATOR, Calls([op]));
    assert Calls([op]) == [Call(op, false)];
    QueueRuns.SingleCall(cfg, EVALUATOR, st, op);
    forall first: Session | Transact(cfg, EMPTY, first) == st
      ensures Run(cfg, EMPTY, [first, second]) == Apply(cfg, EVALUATOR, st, op).state
    {
      hide RunCalls, Transact;
      assert [first, second][1..] == [second] && [second][1..] == [];
      assert Run(cfg, EMPTY, [first, second]) == Run(cfg, st, [second]) == Run(cfg, Transact(cfg, st, second), []);
    }
  }

  // ---- An encoding that is retracted later ----

  function Encode(): Op {
    Connect("a", FormalizedAs, "b",
      map["formalization_relationship" := JText("literal_encoding"), "changed_assumptions" := JText("none")], None)
  }

  function Formalization(): seq<Op> {
    [Claim("a")] + [FormalB()] + [Encode()]
  }

  function WithdrawEncoding(): Op {
    Retract("a", FormalizedAs, "b", "mistaken")
  }

  lemma EncodeCommits(cfg: Config, st: State)
    requires cfg.vocab == Standard() && "a" in st.objects && "b" in st.objects && st.edges == []
    requires st.objects["a"].kind == ResearchClaim && st.objects["b"].kind == FormalClaim
    ensures var r := Apply(cfg, EVALUATOR, st, Encode());
            && r.ok && |r.state.edges| == 1 && Encodes(r.state.edges[0], "a", None)
            && r.state.edges[0].Is("a", FormalizedAs, "b")
  {
    hide Apply, ConnectionValid, Standard, OneEventLater;
    EncodingIsValid();
    ConnectionCommits(cfg, st, Encode());
  }

  lemma EncodingIsValid()
    ensures ConnectionValid(Standard(), FormalizedAs, ResearchClaim, FormalClaim, Encode().properties)
  {
  }

  /** Encoded at the time, not encoded when replayed to that time after the edge was withdrawn. */
  lemma RetractedEncodingIsLost(cfg: Config)
    requires cfg.vocab == Standard()
    ensures var encoding := Session(EVALUATOR, Calls(Formalization()));
            var withdrawing := Session(EVALUATOR, Calls([WithdrawEncoding()]));
            var s, t := Run(cfg, EMPTY, [encoding]), Run(cfg, EMPTY, [encoding, withdrawing]);
            EncodingOf(s, "a", None) != NotEncoded && EncodingOf(t, "a", Some(|s.events|)) == NotEncoded
  {
    hide RunOps, RunCalls, Apply, OneEventLater, EncodedBy;
    NothingYet(cfg);
    var one, two := [] + [Claim("a")], [Claim("a")] + [FormalB()];
    RunOneMore(cfg, [], Claim("a"));
    ClaimCommits(cfg, EMPTY, "a");
    assert one == [Claim("a")];
    RunOneMore(cfg, one, FormalB());
    FormalBCommits(cfg, RunOps(cfg, one).state);
    RunOneMore(cfg, two, Encode());
    EncodeCommits(cfg, RunOps(cfg, two).state);
    Committed(cfg, Formalization());
    var s := RunOps(cfg, Formalization()).state;
    RetractionCommits(cfg, s, WithdrawEncoding());
    LaterSession(cfg, s, WithdrawEncoding());
    assert Encodes(s.edges[0], "a", None);
    assert !Apply(cfg, EVALUATOR, s, WithdrawEncoding()).state.edges[0].Active();
  }
  // ---- An event written by hand ----

  function Proposed(): Op {
    CreateObject(OBSTRUCTION, ResearchClaim, "Proposed route has an obstruction", Markdown, "", map[], None)
  }

  function Dissolved(): Op {
    CreateObject(RESOLUTION, ResearchClaim, "Route obstruction dissolves under a stronger invariant", Markdown, "",
      map[], None)
  }

  /** The importer creates the two claims. */
  function Loading(): Session {
    Session(IMPORTER, Calls([Proposed(), Dissolved()]))
  }

  /** The agent records the creation of the first one once more, under another name. */
  function Recreation(): Draft {
    Plain(ObjectCreated, OBSTRUCTION,
          map["kind" := JText("research_claim"), "canonical_name" := JText("Route obstruction")])
  }

  function Telling(): Session {
    Session(AGENT, Calls([Record(Recreation())]))
  }

  lemma RecreationIsAcceptable()
    ensures Acceptable(Standard(), AGENT, Recreation())
  {
    PlainIdentifiers(OBSTRUCTION);
    PlainIdentifiers("agent:fixture");
    hide ValidIdentifier;
  }

  lemma LoadingCommits(cfg: Config)
    requires cfg.vocab == Standard()
    ensures var r := RunCalls(cfg, IMPORTER, EMPTY, Loading().calls); r.ok && OBSTRUCTION in r.state.objects
    ensures CallsTidy(cfg, IMPORTER, EMPTY, Loading().calls)
  {
    ClaimsAreWellFormed();
    hide Apply, ObjectWellFormed, Standard, OneEventLater;
    var calls := Loading().calls;
    CreationCommits(cfg, IMPORTER, EMPTY, Proposed());
    var one := Apply(cfg, IMPORTER, EMPTY, Proposed()).state;
    CreationCommits(cfg, IMPORTER, one, Dissolved());
    assert calls[0].op == Proposed() && calls[1..][0].op == Dissolved() && calls[1..][1..] == [];
    var two := Apply(cfg, IMPORTER, one, Dissolved()).state;
    assert RunCalls(cfg, IMPORTER, two, []) == Effect(two, true) && CallsTidy(cfg, IMPORTER, two, []);
    assert RunCalls(cfg, IMPORTER, one, calls[1..]) == Effect(two, true) && CallsTidy(cfg, IMPORTER, one, calls[1..]);
  }

  /**
    The golden scenario `superseded_without_refutation` as it is loaded: the
    agent's event is accepted, no table changes, and the log now tells of
    another creation than the objects table holds.
   */
  lemma LoadedScenarioIsUnexplained(cfg: Config)
    requires cfg.vocab == Standard()
    ensures var before, after := Run(cfg, EMPTY, [Loading()]), Run(cfg, EMPTY, [Loading(), Telling()]);
            && OBSTRUCTION in before.objects && Explained(before)
            && after == before.(events := after.events) && |after.events| == |before.events| + 1 && !Explained(after)
  {
    hide RunCalls, Explained, Acceptable, Standard, ChainOk, CallsTidy, OneEventLater;
    LoadingCommits(cfg);
    var before := RunCalls(cfg, IMPORTER, EMPTY, Loading().calls).state;
    assert [Loading()][1..] == [] && [Loading(), Telling()][1..] == [Telling()] && [Telling()][1..] == [];
    EmptyIsFullyExplained();
    CallsKeepExplained(cfg, IMPORTER, EMPTY, Loading().calls);
    CallsKeepChain(cfg, IMPORTER, EMPTY, Loading().calls);
    RecreationIsAcceptable();
    Accepted(cfg, AGENT, before, Recreation());
    assert Telling().calls == [Call(Record(Recreation()), false)];
    QueueRuns.SingleCall(cfg, AGENT, before, Record(Recreation()));
    RecordIsExplained(cfg, AGENT, before, Recreation());
    var after := Transact(cfg, before, Telling());
    assert OneLonger(before, after) by { OneLongerIs(before, after, OBSTRUCTION, ObjectCreated); }
    assert Run(cfg, EMPTY, [Loading()]) == Run(cfg, before, []) == before;
    assert Run(cfg, EMPTY, [Loading(), Telling()]) == Run(cfg, before, [Telling()]) == Run(cfg, after, []) == after;
  }

  ghost predicate OneLonger(s: State, t: State) {
    |t.events| == |s.events| + 1
  }

  lemma OneLongerIs(s: State, t: State, subject: string, action: Action)
    requires OneEventLater(s, t, subject, action)
    ensures OneLonger(s, t)
  {
  }

  // ---- An alias that is only told ----

  /** Recorded by hand on the empty ledger, an alias is in the log and not in the table. */
  lemma ToldAliasIsUnexplained(cfg: Config)
    requires cfg.vocab == Standard()
    ensures var told := Record(Plain(AliasAdded, "a", map["alias" := JText("b")]));
            RunOps(cfg, [told]).ok && !Explained(RunOps(cfg, [told]).state)
  {
    var d := Plain(AliasAdded, "a", map["alias" := JText("b")]);
    AliasIsAcceptable();
    hide RunOps, Explained, Acceptable, Standard, OneEventLater;
    NothingYet(cfg);
    RunOneMore(cfg, [], Record(d));
    assert [] + [Record(d)] == [Record(d)];
    Accepted(cfg, EVALUATOR, EMPTY, d);
    EmptyIsFullyExplained();
    RecordIsExplained(cfg, EVALUATOR, EMPTY, d);
  }

  lemma AliasIsAcceptable()
    ensures Acceptable(Standard(), EVALUATOR, Plain(AliasAdded, "a", map["alias" := JText("b")]))
  {
    PlainIdentifiers("a");
    PlainIdentifiers("evaluator");
    hide ValidIdentifier;
  }
}
