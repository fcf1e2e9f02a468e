/**
  Derived state: every dimension of an object is a projection of events and
  edges, now or as it stood after an earlier event.
 */
module Derive {
  import opened Wrappers
  import opened Vocabulary
  import opened Events
  import opened Store

  datatype Truth = Open | Proved | Refuted

  datatype Level =
    | Untested | ElaborationRejected | ScratchChecked | AxiomAudited | Evaluated | PromotionPassed

  datatype Lifecycle = ActiveObject | SupersededObject | RetractedObject | ArchivedObject

  datatype Operational =
    | Queued | Running | Completed | Failed | TimedOut | Interrupted | Recoverable | OtherState(text: string)

  datatype Encoding = NotEncoded | PropositionOnly | PartiallyFormalized | FullyEncoded

  datatype DerivedState = DerivedState(
    truth: Truth, verification: Level, encoding: Encoding, lifecycle: Lifecycle,
    operational: Option<Operational>, sourceEvidence: Option<string>)

  // ---- Event tables ----

  /** `VERIFICATION_ORDER`: a failed elaboration is an outcome, not a rung. */
  function Rank(level: Level): nat {
    match level
    case Untested => 0
    case ElaborationRejected => 0
    case ScratchChecked => 1
    case AxiomAudited => 2
    case Evaluated => 3
    case PromotionPassed => 4
  }

  function VerificationEvent(action: Action): Option<Level> {
    match action
    case ScratchKernelChecked => Some(ScratchChecked)
    case AxiomPolicyAudited => Some(AxiomAudited)
    case AuthoritativeEvaluationRecorded => Some(Evaluated)
    case KernelCertified => Some(Evaluated)
    case PromotionAudited => Some(PromotionPassed)
    case PromotionRecorded => Some(PromotionPassed)
    case ElaborationFailed => Some(ElaborationRejected)
    case _ => None
  }

  function LifecycleEvent(action: Action): Option<Lifecycle> {
    match action
    case ObjectSuperseded => Some(SupersededObject)
    case ObjectRetracted => Some(RetractedObject)
    case ArtifactArchived => Some(ArchivedObject)
    case _ => None
  }

  function StateNamed(text: string): Operational {
    if text == "queued" then Queued
    else if text == "running" then Running
    else if text == "completed" then Completed
    else if text == "failed" then Failed
    else if text == "timed_out" then TimedOut
    else if text == "interrupted" then Interrupted
    else if text == "recoverable" then Recoverable
    else OtherState(text)
  }

  /** The operational state an event moves its subject to, if it moves it at all. */
  function OperationalEvent(e: EventCore): Option<Operational> {
    match e.action
    case CheckSubmitted => Some(Queued)
    case CheckStarted => Some(Running)
    case CheckCompleted => Some(Completed)
    case CheckFailed => Some(Failed)
    case CheckTimedOut => Some(TimedOut)
    case CheckInterrupted => Some(Interrupted)
    case CheckCancelled => Some(Interrupted)
    case CheckSuperseded => Some(Interrupted)
    case ComputationStarted => Some(Running)
    case ComputationCompleted => Some(Completed)
    case CampaignStarted => Some(Running)
    case EpochStarted => Some(Running)
    case TurnStarted => Some(Running)
    case TurnCompleted => Reported(e)
    case EpochCompleted => Reported(e)
    case CampaignCompleted => Reported(e)
    case _ => None
  }

  function Reported(e: EventCore): Option<Operational> {
    if "operational_state" in e.payload && e.payload["operational_state"].JText?
    then Some(StateNamed(e.payload["operational_state"].s)) else None
  }

  // ---- Queries ----

  predicate Within(id: nat, until: Option<nat>) {
    until.Some? ==> id <= until.value
  }

  /** `events(subject_id=..., until=...)` in authoritative order; `until` is inclusive. */
  function EventsOf(events: seq<Event>, subject: string, until: Option<nat>): seq<EventCore> {
    if events == [] then []
    else
      var e := events[|events| - 1].core;
      EventsOf(events[..|events| - 1], subject, until) +
      (if e.subjectId == subject && Within(e.id, until) then [e] else [])
  }

  // ---- Folds, each decided by the latest event that bears on it ----

  function IsProved(events: seq<EventCore>): bool {
    if events == [] then false
    else match events[|events| - 1].action
      case KernelCertified => true
      case ObjectRetracted => false
      case _ => IsProved(events[..|events| - 1])
  }

  function LifecycleOf(events: seq<EventCore>): Lifecycle {
    if events == [] then ActiveObject
    else
      var moved := LifecycleEvent(events[|events| - 1].action);
      if moved.Some? then moved.value else LifecycleOf(events[..|events| - 1])
  }

  function OperationalOf(events: seq<EventCore>): Option<Operational> {
    if events == [] then None
    else
      var moved := OperationalEvent(events[|events| - 1]);
      if moved.Some? then moved else OperationalOf(events[..|events| - 1])
  }

  function VerificationOf(events: seq<EventCore>): Level {
    if events == [] then Untested
    else
      var best := VerificationOf(events[..|events| - 1]);
      var level := VerificationEvent(events[|events| - 1].action);
      if level.Some? && Rank(level.value) > Rank(best) then level.value else best
  }

  /** The verification level is the strongest one recorded, and nothing weaker than a rung is ever reported. */
  lemma {:induction false} VerificationIsStrongest(events: seq<EventCore>)
    ensures VerificationOf(events) != Untested ==>
              exists e :: e in events && VerificationEvent(e.action) == Some(VerificationOf(events))
    ensures forall e :: e in events && VerificationEvent(e.action).Some? ==>
              Rank(VerificationEvent(e.action).value) <= Rank(VerificationOf(events))
    ensures VerificationOf(events) != ElaborationRejected
  {
    if events != [] {
      var last, rest := events[|events| - 1], events[..|events| - 1];
      VerificationIsStrongest(rest);
      assert events == rest + [last];
      if VerificationOf(events) != Untested {
        if VerificationOf(events) == VerificationOf(rest) {
          var e :| e in rest && VerificationEvent(e.action) == Some(VerificationOf(rest));
          assert e in events;
        } else {
          assert last in events;
        }
      }
    }
  }

  method LoopIsProved(events: seq<EventCore>) returns (certified: bool)
    ensures certified == IsProved(events)
  {
    certified := false;
    for i := 0 to |events|
      invariant certified == IsProved(events[..i])
    {
      assert events[..i + 1][..i] == events[..i];
      match events[i].action {
        case KernelCertified => certified := true;
        case ObjectRetracted => certified := false;
        case _ =>
      }
    }
    assert events[..|events|] == events;
  }

  method LoopLifecycle(events: seq<EventCore>) returns (state: Lifecycle)
    ensures state == LifecycleOf(events)
  {
    state := ActiveObject;
    for i := 0 to |events|
      invariant state == LifecycleOf(events[..i])
    {
      assert events[..i + 1][..i] == events[..i];
      var moved := LifecycleEvent(events[i].action);
      if moved.Some? {
        state := moved.value;
      }
    }
    assert events[..|events|] == events;
  }

  method LoopOperational(events: seq<EventCore>) returns (state: Option<Operational>)
    ensures state == OperationalOf(events)
  {
    state := None;
    for i := 0 to |events|
      invariant state == OperationalOf(events[..i])
    {
      assert events[..i + 1][..i] == events[..i];
      var moved := OperationalEvent(events[i]);
      if moved.Some? {
        state := moved;
      }
    }
    assert events[..|events|] == events;
  }

  method LoopVerification(events: seq<EventCore>) returns (best: Level)
    ensures best == VerificationOf(events)
  {
    best := Untested;
    for i := 0 to |events|
      invariant best == VerificationOf(events[..i])
    {
      assert events[..i + 1][..i] == events[..i];
      var level := VerificationEvent(events[i].action);
      if level.Some? && Rank(level.value) > Rank(best) {
        best := level.value;
      }
    }
    assert events[..|events|] == events;
  }

  // ---- Truth and encoding ----

  predicate KernelTrusted(e: Edge) {
    "trust_level" in e.properties && e.properties["trust_level"] == JText("kernel")
  }

  /** An edge the default query returns (it drops retracted rows) that refutes `id` as of `until`. */
  predicate Refuter(st: State, e: Edge, id: string, until: Option<nat>) {
    && e.Active() && e.relation == Refutes && e.target == id
    && KernelTrusted(e) && Within(e.created, until)
    && IsProved(EventsOf(st.events, e.source, until))
  }

  function TruthOf(st: State, id: string, until: Option<nat>): Truth {
    if IsProved(EventsOf(st.events, id, until)) then Proved
    else if exists i :: 0 <= i < |st.edges| && Refuter(st, st.edges[i], id, until) then Refuted
    else Open
  }

  method LoopTruth(st: State, id: string, until: Option<nat>) returns (truth: Truth)
    ensures truth == TruthOf(st, id, until)
  {
    var proved := LoopIsProved(EventsOf(st.events, id, until));
    if proved {
      return Proved;
    }
    for i := 0 to |st.edges|
      invariant forall j :: 0 <= j < i ==> !Refuter(st, st.edges[j], id, until)
    {
      var edge := st.edges[i];
      if edge.Active() && edge.target == id && edge.relation == Refutes && KernelTrusted(edge)
          && Within(edge.created, until) {
        var sourceProved := LoopIsProved(EventsOf(st.events, edge.source, until));
        if sourceProved {
          return Refuted;
        }
      }
    }
    return Open;
  }

  predicate Encodes(e: Edge, id: string, until: Option<nat>) {
    e.Active() && e.relation == FormalizedAs && e.source == id && Within(e.created, until)
  }

  /** Some encoding of `id` has one of the named relationships. */
  predicate EncodedBy(edges: seq<Edge>, id: string, until: Option<nat>, names: set<string>) {
    exists i :: 0 <= i < |edges| && Encodes(edges[i], id, until)
                && "formalization_relationship" in edges[i].properties
                && edges[i].properties["formalization_relationship"].JText?
                && edges[i].properties["formalization_relationship"].s in names
  }

  function EncodingOf(st: State, id: string, until: Option<nat>): Encoding {
    if !exists i :: 0 <= i < |st.edges| && Encodes(st.edges[i], id, until) then NotEncoded
    else if EncodedBy(st.edges, id, until, {"literal_encoding", "equivalence"}) then FullyEncoded
    else if EncodedBy(st.edges, id, until, {"specialization", "strengthening", "weakening", "consequence"})
        then PartiallyFormalized
    else PropositionOnly
  }

  function SourceEvidence(st: State, id: string): Option<string> {
    if id in st.objects && "source_evidence_state" in st.objects[id].properties
       && st.objects[id].properties["source_evidence_state"].JText?
    then Some(st.objects[id].properties["source_evidence_state"].s) else None
  }

  function StateOf(st: State, id: string, until: Option<nat>): DerivedState {
    var events := EventsOf(st.events, id, until);
    DerivedState(TruthOf(st, id, until), VerificationOf(events), EncodingOf(st, id, until),
                 LifecycleOf(events), OperationalOf(events), SourceEvidence(st, id))
  }
}
