/**
  The derived dimensions said by the actions themselves: which events must be
  there, and which of them must be the latest.
 */
module Readings {
  import opened Wrappers
  import opened Vocabulary
  import opened Events
  import opened Derive

  ghost predicate Seen(events: seq<EventCore>, actions: set<Action>) {
    exists e :: e in events && e.action in actions
  }

  /** `i` is the latest event with one of the actions. */
  ghost predicate Latest(events: seq<EventCore>, actions: set<Action>, i: nat) {
    i < |events| && events[i].action in actions && forall j :: i < j < |events| ==> events[j].action !in actions
  }

  // ---- The verification ladder ----

  const PROMOTED := {PromotionAudited, PromotionRecorded}
  const EVALUATED := {KernelCertified, AuthoritativeEvaluationRecorded}

  lemma RungOf(action: Action)
    ensures VerificationEvent(action) == Some(PromotionPassed) <==> action in PROMOTED
    ensures VerificationEvent(action) == Some(Evaluated) <==> action in EVALUATED
    ensures VerificationEvent(action) == Some(AxiomAudited) <==> action == AxiomPolicyAudited
    ensures VerificationEvent(action) == Some(ScratchChecked) <==> action == ScratchKernelChecked
    ensures VerificationEvent(action) == Some(ElaborationRejected) <==> action == ElaborationFailed
    ensures VerificationEvent(action) != Some(Untested)
  {
  }

  /** The level is the highest rung any event reached, whatever the order and the failures between. */
  lemma LevelByActions(events: seq<EventCore>)
    ensures VerificationOf(events) == PromotionPassed <==> Seen(events, PROMOTED)
    ensures VerificationOf(events) == Evaluated <==> !Seen(events, PROMOTED) && Seen(events, EVALUATED)
    ensures VerificationOf(events) == AxiomAudited <==>
              !Seen(events, PROMOTED + EVALUATED) && Seen(events, {AxiomPolicyAudited})
    ensures VerificationOf(events) == ScratchChecked <==>
              !Seen(events, PROMOTED + EVALUATED + {AxiomPolicyAudited}) && Seen(events, {ScratchKernelChecked})
    ensures VerificationOf(events) == Untested <==>
              !Seen(events, PROMOTED + EVALUATED + {AxiomPolicyAudited, ScratchKernelChecked})
  {
    hide VerificationOf, VerificationEvent;
    VerificationIsStrongest(events);
    forall a: Action { RungOf(a); }
    Ranks();
  }

  lemma Ranks()
    ensures Rank(Untested) == Rank(ElaborationRejected) < Rank(ScratchChecked) < Rank(AxiomAudited) < Rank(Evaluated)
    ensures Rank(Evaluated) < Rank(PromotionPassed)
  {
  }

  // ---- The latest event that bears on it ----

  lemma LatestStep(events: seq<EventCore>, actions: set<Action>, i: nat)
    requires events != []
    ensures var n := |events| - 1;
            Latest(events, actions, i) <==>
              if events[n].action in actions then i == n else Latest(events[..n], actions, i)
  {
    var n := |events| - 1;
    var before := events[..n];
    assert forall j :: 0 <= j < n ==> before[j] == events[j];
  }

  /** The latest certification or retraction is a certification. */
  ghost predicate CertifiedAt(events: seq<EventCore>, i: nat) {
    Latest(events, {KernelCertified, ObjectRetracted}, i) && events[i].action == KernelCertified
  }

  /** Certified, and not retracted since. */
  lemma {:induction false} ProofIsLatest(events: seq<EventCore>)
    ensures IsProved(events) <==> exists i: nat :: CertifiedAt(events, i)
  {
    if events != [] {
      var n := |events| - 1;
      ProofIsLatest(events[..n]);
      if i: nat :| CertifiedAt(events, i) { CertifiedStep(events, i); }
      if IsProved(events) {
        var k: nat := if events[n].action == KernelCertified then n
                      else var i: nat :| CertifiedAt(events[..n], i); i;
        CertifiedStep(events, k);
      }
    }
  }

  lemma CertifiedStep(events: seq<EventCore>, i: nat)
    requires events != []
    ensures var n := |events| - 1;
            CertifiedAt(events, i) <==>
              if events[n].action == KernelCertified then i == n
              else events[n].action != ObjectRetracted && CertifiedAt(events[..n], i)
  {
    LatestStep(events, {KernelCertified, ObjectRetracted}, i);
  }

  const LIFECYCLE := {ObjectSuperseded, ObjectRetracted, ArtifactArchived}

  function LifecycleBy(a: Action): Lifecycle {
    if a == ObjectSuperseded then SupersededObject else if a == ObjectRetracted then RetractedObject
    else if a == ArtifactArchived then ArchivedObject else ActiveObject
  }

  /** Active unless superseded, retracted or archived, and then what happened last. */
  lemma {:induction false} LifecycleIsLatest(events: seq<EventCore>)
    ensures forall i: nat :: Latest(events, LIFECYCLE, i) ==> LifecycleOf(events) == LifecycleBy(events[i].action)
    ensures !Seen(events, LIFECYCLE) ==> LifecycleOf(events) == ActiveObject
  {
    if events != [] {
      var n := |events| - 1;
      LifecycleIsLatest(events[..n]);
      assert events[n] in events && forall e :: e in events[..n] ==> e in events;
      forall i: nat | Latest(events, LIFECYCLE, i) ensures LifecycleOf(events) == LifecycleBy(events[i].action) {
        LatestStep(events, LIFECYCLE, i);
      }
    }
  }

  // ---- The operational state ----

  function StateText(s: Operational): string {
    match s
    case Queued => "queued"
    case Running => "running"
    case Completed => "completed"
    case Failed => "failed"
    case TimedOut => "timed_out"
    case Interrupted => "interrupted"
    case Recoverable => "recoverable"
    case OtherState(text) => text
  }

  /** The event moves its subject to the state named. */
  predicate Moved(e: EventCore, text: string) {
    || (text == "queued" && e.action == CheckSubmitted)
    || (text == "running" && e.action in {CheckStarted, ComputationStarted, CampaignStarted, EpochStarted, TurnStarted})
    || (text == "completed" && e.action in {CheckCompleted, ComputationCompleted})
    || (text == "failed" && e.action == CheckFailed)
    || (text == "timed_out" && e.action == CheckTimedOut)
    || (text == "interrupted" && e.action in {CheckInterrupted, CheckCancelled, CheckSuperseded})
    || (e.action in {CampaignCompleted, EpochCompleted, TurnCompleted}
        && "operational_state" in e.payload && e.payload["operational_state"] == JText(text))
  }

  lemma OperationalByAction(e: EventCore)
    ensures OperationalEvent(e).Some? ==> Moved(e, StateText(OperationalEvent(e).value))
    ensures OperationalEvent(e).None? ==> forall text :: !Moved(e, text)
    ensures forall t, u :: Moved(e, t) && Moved(e, u) ==> t == u
  {
  }

  /** `i` is the latest event that moves its subject, and moves it to the state named. */
  ghost predicate MovedLast(events: seq<EventCore>, i: nat, text: string) {
    i < |events| && Moved(events[i], text) && forall j, t :: i < j < |events| ==> !Moved(events[j], t)
  }

  /** The state is the one the latest moving event names, and there is none exactly when nothing moved. */
  lemma {:induction false} OperationalIsLatest(events: seq<EventCore>)
    ensures forall i: nat, text :: MovedLast(events, i, text) ==>
              OperationalOf(events).Some? && StateText(OperationalOf(events).value) == text
    ensures OperationalOf(events).None? <==> forall e, text :: e in events ==> !Moved(e, text)
  {
    hide OperationalEvent, Moved, StateText;
    if events != [] {
      var n := |events| - 1;
      OperationalIsLatest(events[..n]);
      OperationalByAction(events[n]);
      assert events[n] in events && forall e :: e in events <==> e in events[..n] || e == events[n];
      forall i: nat, text | MovedLast(events, i, text)
        ensures OperationalOf(events).Some? && StateText(OperationalOf(events).value) == text
      {
        if i < n { assert MovedLast(events[..n], i, text) && OperationalEvent(events[n]).None?; }
      }
    }
  }
}
