/** Version 1 of the controlled vocabulary, term by term. */
module StandardVocabulary {
  import opened Wrappers
  import opened Vocabulary

  function AllKinds(): set<Kind> {
    {Annotation, Artifact, Campaign, Check, Computation, Counterexample, Epoch, FormalClaim, Publication,
        ResearchClaim, SourceClaim, SourceVersion, Turn}
  }

  function ClaimKinds(): set<Kind> {
    {FormalClaim, ResearchClaim}
  }

  function Claimlike(): set<Kind> {
    ClaimKinds() + {Counterexample, Computation, SourceClaim}
  }

  function AllActors(): set<Actor> {
    {AuthoritativeEvaluator, AxiomAuditor, ComputationChecker, HumanResearcher, Importer, LeanScratchGateway,
        LedgerService, ResearchAgent}
  }

  function StandardKind(kind: Kind): Option<ObjectKind> {
    match kind
    case FormalClaim =>
      Some(ObjectKind({"formal_system", "declaration", "proposition_sha256", "environment_identity"}, {Lean, Text}))
    case ResearchClaim =>
      Some(ObjectKind({}, {Markdown, Text}))
    case Counterexample =>
      Some(ObjectKind({"witness_format"}, {JsonText, Lean, Text}))
    case Computation =>
      Some(ObjectKind({"method"}, {JsonText, Text}))
    case Publication =>
      Some(ObjectKind({"permanent_identifier"}, {JsonText}))
    case SourceVersion =>
      Some(ObjectKind({"version_label"}, {JsonText}))
    case SourceClaim =>
      Some(ObjectKind({"locator", "source_evidence_state"}, {Markdown, Text}))
    case Artifact =>
      Some(ObjectKind({"sha256", "artifact_type", "byte_size", "media_type"}, {NoContent}))
    case Campaign =>
      Some(ObjectKind({}, {JsonText}))
    case Epoch =>
      Some(ObjectKind({}, {JsonText}))
    case Turn =>
      Some(ObjectKind({}, {JsonText}))
    case Check =>
      Some(ObjectKind({"checkpoint_key", "request_class"}, {JsonText}))
    case Annotation =>
      Some(ObjectKind({}, {Markdown, Text}))
    case OtherKind(_) => None
  }

  function StandardRelation(relation: Relation): Option<RelationSpec> {
    match relation
    case DependsOn =>
      Some(RelationSpec(ClaimKinds(), ClaimKinds(), NoEffect, {}))
    case DecomposesInto =>
      Some(RelationSpec(ClaimKinds(), ClaimKinds(), NoEffect, {}))
    case Supports =>
      Some(RelationSpec({Artifact, Computation, Counterexample, FormalClaim, SourceClaim}, ClaimKinds(), NoEffect,
          {"trust_level"}))
    case Refutes =>
      Some(RelationSpec({FormalClaim}, Claimlike(), RefutesTarget, {"trust_level"}))
    case Supersedes =>
      Some(RelationSpec(Claimlike(), Claimlike(), SupersedesTarget, {"reason"}))
    case Advances =>
      Some(RelationSpec(Claimlike(), ClaimKinds(), NoEffect, {}))
    case EquivalentTo =>
      Some(RelationSpec(ClaimKinds(), ClaimKinds(), NoEffect, {"changed_assumptions"}))
    case Specializes =>
      Some(RelationSpec(ClaimKinds(), ClaimKinds(), NoEffect, {"changed_assumptions"}))
    case Strengthens =>
      Some(RelationSpec(ClaimKinds(), ClaimKinds(), NoEffect, {"changed_assumptions"}))
    case Weakens =>
      Some(RelationSpec(ClaimKinds(), ClaimKinds(), NoEffect, {"changed_assumptions"}))
    case FormalizedAs =>
      Some(RelationSpec({ResearchClaim, SourceClaim}, {FormalClaim}, EncodesTarget,
          {"formalization_relationship", "changed_assumptions"}))
    case ProducedBy =>
      Some(RelationSpec({Artifact, Computation, Counterexample, FormalClaim, ResearchClaim, SourceClaim},
          {Check, Computation, Turn}, NoEffect, {}))
    case CertifiedBy =>
      Some(RelationSpec({FormalClaim}, {Artifact}, NoEffect, {"verification_level"}))
    case IncludedIn =>
      Some(RelationSpec({Artifact, FormalClaim}, {Artifact}, NoEffect, {}))
    case Targets =>
      Some(RelationSpec({Campaign, Epoch, Turn}, ClaimKinds(), NoEffect, {}))
    case Annotates =>
      Some(RelationSpec({Annotation}, AllKinds(), NoEffect, {}))
    case HasVersion =>
      Some(RelationSpec({Publication}, {SourceVersion}, NoEffect, {}))
    case HasSource =>
      Some(RelationSpec({SourceVersion}, {Artifact}, NoEffect, {}))
    case Contains =>
      Some(RelationSpec({SourceVersion}, {SourceClaim}, NoEffect, {}))
    case OtherRelation(_) => None
  }

  function StandardAction(action: Action): Option<EventAction> {
    match action
    case ObjectCreated =>
      Some(EventAction({ObjectSubject}, AllActors(),
        {"kind"}, {"canonical_name", "content_format", "properties"}, false))
    case ConnectionCreated =>
      Some(EventAction({ConnectionSubject}, AllActors(),
        {"relation", "from_id", "to_id"}, {"properties"}, false))
    case ConnectionRetracted =>
      Some(EventAction({ConnectionSubject}, {AuthoritativeEvaluator, HumanResearcher, LedgerService},
        {"reason"}, {}, false))
    case AnnotationAdded =>
      Some(EventAction({ConnectionSubject, ObjectSubject}, AllActors(),
        {"annotation_id"}, {}, false))
    case CorrectionRecorded =>
      Some(EventAction({ConnectionSubject, ObjectSubject}, {HumanResearcher, Importer, LedgerService},
        {"reason", "corrects_event_id"}, {}, false))
    case AliasAdded =>
      Some(EventAction({ObjectSubject}, {AuthoritativeEvaluator, HumanResearcher, LedgerService},
        {"alias"}, {}, false))
    case CheckSubmitted =>
      Some(EventAction({ObjectSubject}, {AuthoritativeEvaluator, LeanScratchGateway},
        {"checkpoint_key", "environment_identity", "input_sha256", "request_class"},
            {"priority", "budget_seconds", "idempotency_key", "checker_identity"}, true))
    case CheckReused =>
      Some(EventAction({ObjectSubject}, {LeanScratchGateway},
        {"original_submission_scope"}, {}, false))
    case CheckStarted =>
      Some(EventAction({ObjectSubject}, {AuthoritativeEvaluator, LeanScratchGateway},
        {"worker_id"}, {"queue_delay_seconds"}, false))
    case CheckCompleted =>
      Some(EventAction({ObjectSubject}, {AuthoritativeEvaluator, LeanScratchGateway},
        {"outcome", "exit_code"}, {"phase_timings", "diagnostics_sha256"}, true))
    case CheckFailed =>
      Some(EventAction({ObjectSubject}, {AuthoritativeEvaluator, LeanScratchGateway},
        {"exit_code"}, {"phase_timings", "diagnostics_sha256"}, false))
    case CheckTimedOut =>
      Some(EventAction({ObjectSubject}, {AuthoritativeEvaluator, LeanScratchGateway},
        {"budget_seconds"}, {}, false))
    case CheckInterrupted =>
      Some(EventAction({ObjectSubject}, {LedgerService},
        {"detected_by"}, {}, false))
    case CheckCancelled =>
      Some(EventAction({ObjectSubject}, {HumanResearcher, LedgerService},
        {"reason"}, {}, false))
    case CheckSuperseded =>
      Some(EventAction({ObjectSubject}, {LedgerService},
        {"superseded_by"}, {}, false))
    case CheckDeduplicated =>
      Some(EventAction({ObjectSubject}, {LedgerService},
        {"duplicate_of"}, {}, false))
    case ElaborationSucceeded =>
      Some(EventAction({ObjectSubject}, {AuthoritativeEvaluator, LeanScratchGateway},
        {"declarations"}, {}, false))
    case ElaborationFailed =>
      Some(EventAction({ObjectSubject}, {AuthoritativeEvaluator, LeanScratchGateway},
        {}, {"diagnostics_sha256"}, false))
    case ScratchKernelChecked =>
      Some(EventAction({ObjectSubject}, {LeanScratchGateway},
        {"declaration", "proposition_sha256", "checkpoint_key"}, {"direct_dependencies"}, true))
    case AxiomPolicyAudited =>
      Some(EventAction({ObjectSubject}, {AuthoritativeEvaluator, AxiomAuditor},
        {"declaration", "axioms", "policy", "within_policy"}, {}, true))
    case AuthoritativeEvaluationRecorded =>
      Some(EventAction({ObjectSubject}, {AuthoritativeEvaluator},
        {"evaluator_version", "stage", "outcome"}, {"goal_statuses"}, true))
    case KernelCertified =>
      Some(EventAction({ObjectSubject}, {AuthoritativeEvaluator},
        {"declaration", "proposition_sha256", "toolchain", "evaluator_version", "axiom_policy"}, {}, true))
    case MaterializationRecorded =>
      Some(EventAction({ObjectSubject}, {AuthoritativeEvaluator},
        {"module"}, {}, true))
    case PromotionAudited =>
      Some(EventAction({ObjectSubject}, {AuthoritativeEvaluator},
        {"outcome"}, {}, true))
    case PromotionRecorded =>
      Some(EventAction({ObjectSubject}, {AuthoritativeEvaluator},
        {"manifest_sha256", "catalog_sha256"}, {}, true))
    case ComputationStarted =>
      Some(EventAction({ObjectSubject}, {ComputationChecker, ResearchAgent},
        {"method"}, {"parameters"}, false))
    case ComputationCompleted =>
      Some(EventAction({ObjectSubject}, {ComputationChecker, ResearchAgent},
        {"outcome"}, {}, true))
    case ComputationCertificateVerified =>
      Some(EventAction({ObjectSubject}, {ComputationChecker},
        {"checker", "checker_version", "outcome"}, {}, true))
    case SourceAcquired =>
      Some(EventAction({ObjectSubject}, {HumanResearcher, Importer, LedgerService},
        {"sha256", "media_type"}, {}, true))
    case SourceAcquisitionFailed =>
      Some(EventAction({ObjectSubject}, {HumanResearcher, Importer, LedgerService},
        {"reason", "acquisition_request"}, {}, false))
    case SourceExtractionRecorded =>
      Some(EventAction({ObjectSubject}, {HumanResearcher, Importer, LedgerService},
        {"tool", "tool_version"}, {}, true))
    case SourceMarkerValidated =>
      Some(EventAction({ObjectSubject}, {HumanResearcher, Importer, LedgerService},
        {"marker", "locator", "found"}, {}, false))
    case HumanReviewRecorded =>
      Some(EventAction({ConnectionSubject, ObjectSubject}, {HumanResearcher},
        {"outcome"}, {"caveats"}, false))
    case CampaignStarted =>
      Some(EventAction({ObjectSubject}, {HumanResearcher, LedgerService},
        {"configuration_sha256"}, {}, false))
    case CampaignCompleted =>
      Some(EventAction({ObjectSubject}, {HumanResearcher, LedgerService},
        {"operational_state"}, {}, false))
    case EpochStarted =>
      Some(EventAction({ObjectSubject}, {HumanResearcher, LedgerService},
        {"epoch_kind"}, {"predecessor_id"}, false))
    case EpochCompleted =>
      Some(EventAction({ObjectSubject}, {HumanResearcher, LedgerService},
        {"operational_state"}, {}, false))
    case TurnStarted =>
      Some(EventAction({ObjectSubject}, {HumanResearcher, LedgerService},
        {}, {"actor_identity"}, false))
    case TurnCompleted =>
      Some(EventAction({ObjectSubject}, {HumanResearcher, LedgerService},
        {"operational_state"}, {}, false))
    case SpotlightSelected =>
      Some(EventAction({ObjectSubject}, {HumanResearcher, ResearchAgent},
        {"goal_id", "proposition_sha256", "selector", "hunch"}, {"relevance_path", "turn_budget", "cost_budget"},
            false))
    case SpotlightConcluded =>
      Some(EventAction({ObjectSubject}, {HumanResearcher, LedgerService},
        {"terminal_outcome", "reason"}, {}, false))
    case ArtifactRegistered =>
      Some(EventAction({ObjectSubject}, AllActors(),
        {"sha256", "byte_size", "artifact_type"}, {}, false))
    case ArtifactLocationAdded =>
      Some(EventAction({ObjectSubject}, AllActors(),
        {"location"}, {}, false))
    case ArtifactLocationVerified =>
      Some(EventAction({ObjectSubject}, {HumanResearcher, LedgerService},
        {"location", "verified"}, {}, false))
    case ArtifactLocationLost =>
      Some(EventAction({ObjectSubject}, {HumanResearcher, LedgerService},
        {"location", "reason"}, {}, false))
    case ArtifactArchived =>
      Some(EventAction({ObjectSubject}, {HumanResearcher, LedgerService},
        {"retention_state"}, {}, false))
    case ObjectSuperseded =>
      Some(EventAction({ObjectSubject}, {AuthoritativeEvaluator, HumanResearcher, ResearchAgent},
        {"superseded_by", "reason"}, {}, false))
    case ObjectRetracted =>
      Some(EventAction({ObjectSubject}, {AuthoritativeEvaluator, HumanResearcher, LedgerService},
        {"reason"}, {}, false))
    case RecoveryRecorded =>
      Some(EventAction({ConnectionSubject, ObjectSubject}, {LedgerService},
        {"resolution"}, {}, false))
    case HistoricalImportRecorded =>
      Some(EventAction({ConnectionSubject, ObjectSubject}, {Importer},
        {"import_source", "ordering_fidelity"}, {}, true))
    case SchemaMigrated =>
      Some(EventAction({LedgerSubject}, {LedgerService},
        {"from_version", "to_version"}, {}, false))
    case HeadSigned =>
      Some(EventAction({LedgerSubject}, {LedgerService},
        {"event_id", "event_hash"}, {}, false))
    case OtherAction(_) => None
  }

  function Standard(): Vocabulary {
    Vocabulary(StandardKind, StandardRelation, StandardAction)
  }

  /** The version-1 tables meet the contract the truth invariants rest on. */
  lemma StandardMeetsTruthContract()
    ensures TruthContract(Standard())
  {
  }
}
