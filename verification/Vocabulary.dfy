/**
  The controlled vocabulary: the terms a ledger may use and the contracts its
  validators read.  A vocabulary is a value, so the ledger theorems hold for
  every vocabulary; `StandardVocabulary` supplies the table of version 1.
 */
module Vocabulary {
  import opened Wrappers

  /** Names outside the closed vocabulary are the `Other...` cases; every table maps them to `None`. */
  datatype Kind =
    | FormalClaim | ResearchClaim | Counterexample | Computation | Publication
    | SourceVersion | SourceClaim | Artifact | Campaign | Epoch | Turn | Check
    | Annotation | OtherKind(name: string)

  datatype ContentFormat = Lean | Text | Markdown | JsonText | NoContent | OtherFormat(name: string)

  datatype Relation =
    | DependsOn | DecomposesInto | Supports | Refutes | Supersedes | Advances
    | EquivalentTo | Specializes | Strengthens | Weakens | FormalizedAs
    | ProducedBy | CertifiedBy | IncludedIn | Targets | Annotates | HasVersion
    | HasSource | Contains | OtherRelation(name: string)

  datatype Actor =
    | ResearchAgent | LeanScratchGateway | AuthoritativeEvaluator | AxiomAuditor
    | ComputationChecker | HumanResearcher | Importer | LedgerService
    | OtherActor(name: string)

  datatype SubjectType = ObjectSubject | ConnectionSubject | LedgerSubject | OtherSubject(name: string)

  datatype Action =
    | ObjectCreated | ConnectionCreated | ConnectionRetracted | AnnotationAdded
    | CorrectionRecorded | AliasAdded
    | CheckSubmitted | CheckReused | CheckStarted | CheckCompleted | CheckFailed
    | CheckTimedOut | CheckInterrupted | CheckCancelled | CheckSuperseded
    | CheckDeduplicated
    | ElaborationSucceeded | ElaborationFailed | ScratchKernelChecked
    | AxiomPolicyAudited | AuthoritativeEvaluationRecorded | KernelCertified
    | MaterializationRecorded | PromotionAudited | PromotionRecorded
    | ComputationStarted | ComputationCompleted | ComputationCertificateVerified
    | SourceAcquired | SourceAcquisitionFailed | SourceExtractionRecorded
    | SourceMarkerValidated | HumanReviewRecorded
    | CampaignStarted | CampaignCompleted | EpochStarted | EpochCompleted
    | TurnStarted | TurnCompleted | SpotlightSelected | SpotlightConcluded
    | ArtifactRegistered | ArtifactLocationAdded | ArtifactLocationVerified
    | ArtifactLocationLost | ArtifactArchived
    | ObjectSuperseded | ObjectRetracted | RecoveryRecorded
    | HistoricalImportRecorded | SchemaMigrated | HeadSigned
    | OtherAction(name: string)

  /** A JSON value; canonical serialization is taken to be injective on these. */
  datatype Json =
    | JNull | JBool(b: bool) | JNumber(n: real) | JText(s: string)
    | JList(items: seq<Json>) | JObject(fields: map<string, Json>)

  type Properties = map<string, Json>

  datatype StatusEffect = NoEffect | RefutesTarget | SupersedesTarget | EncodesTarget

  datatype ObjectKind = ObjectKind(requiredProperties: set<string>, contentFormats: set<ContentFormat>)

  datatype RelationSpec = RelationSpec(
    fromKinds: set<Kind>, toKinds: set<Kind>, statusEffect: StatusEffect, requiredProperties: set<string>)

  datatype EventAction = EventAction(
    subjectTypes: set<SubjectType>, actors: set<Actor>,
    requiredPayload: set<string>, optionalPayload: set<string>, requiresEvidence: bool)

  datatype Vocabulary = Vocabulary(
    objectKinds: Kind -> Option<ObjectKind>,
    relations: Relation -> Option<RelationSpec>,
    actions: Action -> Option<EventAction>)

  /** The values a trust level, a formalization relationship or a verification level may take. */
  predicate KnownTrustLevel(v: Json) {
    v.JText? && v.s in {"kernel", "checked_certificate", "computational", "asserted"}
  }

  predicate KnownFormalization(v: Json) {
    v.JText? && v.s in {"literal_encoding", "specialization", "strengthening", "weakening",
                        "consequence", "equivalence", "helper"}
  }

  predicate KnownVerificationLevel(v: Json) {
    v.JText? && v.s in {"untested", "elaboration_failed", "scratch_checked", "axiom_policy_audited",
                        "authoritatively_evaluated", "promotion_audited"}
  }

  /** `authorize`: the actor is known and the action's row lists it. */
  predicate Authorized(vocab: Vocabulary, actor: Actor, action: Action) {
    && !actor.OtherActor?
    && vocab.actions(action).Some?
    && actor in vocab.actions(action).value.actors
  }

  /** `validate_event_payload`: required fields present, nothing unexpected, evidence named when needed. */
  predicate PayloadValid(vocab: Vocabulary, action: Action, payload: Properties, evidence: Option<string>) {
    vocab.actions(action).Some? &&
    var declared := vocab.actions(action).value;
    && declared.requiredPayload <= payload.Keys
    && payload.Keys <= declared.requiredPayload + declared.optionalPayload
    && (declared.requiresEvidence ==> evidence.Some? && evidence.value != "")
  }

  /** `validate_connection`: endpoint kinds, required properties, and the values of the controlled ones. */
  predicate ConnectionValid(vocab: Vocabulary, relation: Relation, fromKind: Kind, toKind: Kind,
      properties: Properties) {
    && vocab.relations(relation).Some?
    && vocab.objectKinds(fromKind).Some?
    && vocab.objectKinds(toKind).Some?
    && var declared := vocab.relations(relation).value;
    && fromKind in declared.fromKinds
    && toKind in declared.toKinds
    && declared.requiredProperties <= properties.Keys
    && ("trust_level" in properties ==>
          && KnownTrustLevel(properties["trust_level"])
          && (declared.statusEffect == RefutesTarget ==> properties["trust_level"] == JText("kernel")))
    && ("formalization_relationship" in properties ==> KnownFormalization(properties["formalization_relationship"]))
    && ("verification_level" in properties ==> KnownVerificationLevel(properties["verification_level"]))
  }

  /**
    The facts about the tables that keep derived truth honest: only the
    evaluator certifies, and a refutation edge must say how far it is trusted.
   */
  predicate TruthContract(vocab: Vocabulary) {
    && vocab.actions(KernelCertified).Some?
    && vocab.actions(KernelCertified).value.actors <= {AuthoritativeEvaluator}
    && vocab.relations(Refutes).Some?
    && vocab.relations(Refutes).value.statusEffect == RefutesTarget
    && "trust_level" in vocab.relations(Refutes).value.requiredProperties
  }

  /** Under the contract no valid `refutes` edge carries less than kernel trust. */
  lemma RefutationCarriesKernelTrust(vocab: Vocabulary, fromKind: Kind, toKind: Kind, properties: Properties)
    requires TruthContract(vocab)
    requires ConnectionValid(vocab, Refutes, fromKind, toKind, properties)
    ensures "trust_level" in properties && properties["trust_level"] == JText("kernel")
  {
  }
}
