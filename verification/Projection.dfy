/**
  The second reading of truth: the exact state a spotlight packet shows, and
  how far it agrees with `Derive`.
 */
module Projection {
  import opened Wrappers
  import opened Blanks
  import opened Vocabulary
  import opened StandardVocabulary
  import opened Events
  import opened Store
  import opened Derive
  import opened Integrity

  datatype ExactState = ExactState(truth: Truth, verification: Level, lifecycle: Lifecycle)

  datatype PacketError = MissingSource | PremiseCount | MissingPremise | WrongContract

  // ---- One pass over the events of one object ----

  /** The lifecycle events this projection knows: archiving is not one of them. */
  function DirectLifecycle(events: seq<EventCore>): Lifecycle {
    if events == [] then ActiveObject
    else match events[|events| - 1].action
      case ObjectRetracted => RetractedObject
      case ObjectSuperseded => SupersededObject
      case _ => DirectLifecycle(events[..|events| - 1])
  }

  /** One loop computes what `Derive` computes in three: truth and verification always, lifecycle as above. */
  method DirectState(events: seq<EventCore>) returns (state: ExactState)
    ensures state.truth == (if IsProved(events) then Proved else Open)
    ensures state.verification == VerificationOf(events)
    ensures state.lifecycle == DirectLifecycle(events)
  {
    var proved := false;
    var lifecycle := ActiveObject;
    var verification := Untested;
    for i := 0 to |events|
      invariant proved == IsProved(events[..i])
      invariant lifecycle == DirectLifecycle(events[..i])
      invariant verification == VerificationOf(events[..i])
    {
      assert events[..i + 1][..i] == events[..i];
      var action := events[i].action;
      match action {
        case KernelCertified => proved := true;
        case ObjectRetracted => proved := false; lifecycle := RetractedObject;
        case ObjectSuperseded => lifecycle := SupersededObject;
        case _ =>
      }
      var candidate := VerificationEvent(action);
      if candidate.Some? && Rank(candidate.value) > Rank(verification) {
        verification := candidate.value;
      }
    }
    assert events[..|events|] == events;
    return ExactState(if proved then Proved else Open, verification, lifecycle);
  }

  /** The two lifecycle readings agree on exactly the objects that are not currently archived. */
  lemma {:induction false} LifecyclesAgree(events: seq<EventCore>)
    ensures DirectLifecycle(events) == LifecycleOf(events) <==> LifecycleOf(events) != ArchivedObject
  {
    DirectNeverArchived(events);
    if events != [] {
      LifecyclesAgree(events[..|events| - 1]);
    }
  }

  lemma {:induction false} DirectNeverArchived(events: seq<EventCore>)
    ensures DirectLifecycle(events) != ArchivedObject
  {
    if events != [] {
      DirectNeverArchived(events[..|events| - 1]);
    }
  }

  // ---- Exact-proposition twins ----

  function Proposition(o: ObjectRecord): Option<string> {
    if "proposition_sha256" in o.properties && o.properties["proposition_sha256"].JText?
       && o.properties["proposition_sha256"].s != ""
    then Some(o.properties["proposition_sha256"].s) else None
  }

  /** Another formal claim with the same proposition hash. */
  predicate Twin(st: State, id: string, other: string) {
    && id in st.objects && other in st.objects && other != id
    && Proposition(st.objects[id]).Some?
    && st.objects[other].kind == FormalClaim
    && Proposition(st.objects[other]) == Proposition(st.objects[id])
  }

  predicate Certified(st: State, id: string) {
    IsProved(EventsOf(st.events, id, None))
  }

  /** The claim or one of its exact twins holds a standing certification. */
  predicate CertifiedAsProposition(st: State, id: string) {
    Certified(st, id) || exists other :: other in st.objects && Twin(st, id, other) && Certified(st, other)
  }

  // ---- Refutations, current and historical ----

  predicate KernelRefuter(e: Edge, target: string) {
    e.Active() && e.relation == Refutes && e.target == target && KernelTrusted(e)
  }

  predicate LegacyRelation(st: State, e: Edge) {
    e.target in st.objects && "legacy_kind" in st.objects[e.target].properties
    && st.objects[e.target].properties["legacy_kind"] == JText("refutation")
  }

  function Premises(edges: seq<Edge>, relation: string): seq<string> {
    if edges == [] then []
    else
      var e := edges[|edges| - 1];
      Premises(edges[..|edges| - 1], relation) +
      (if e.Active() && e.source == relation && e.relation == DependsOn then [e.target] else [])
  }

  /** `text.split()`: the maximal runs of non-blank characters. */
  function Words(text: string): seq<string> {
    if text == "" then []
    else if IsBlank(text[|text| - 1]) then Words(text[..|text| - 1])
    else
      var n := |text| - 1;
      var before := Words(text[..n]);
      if n > 0 && !IsBlank(text[n - 1]) && before != []
      then before[..|before| - 1] + [before[|before| - 1] + [text[n]]]
      else before + [[text[n]]]
  }

  function RefutationContract(premise: string, target: string): string {
    "(" + premise + ") \U{2192} \U{00AC} (" + target + ")"
  }

  /** What is wrong with a legacy refutation relation, if anything. */
  function LegacyDefect(st: State, target: string, e: Edge): Option<PacketError>
    requires target in st.objects && LegacyRelation(st, e)
  {
    var premises := Premises(st.edges, e.target);
    if |premises| != 1 then Some(PremiseCount)
    else if premises[0] !in st.objects then Some(MissingPremise)
    else if Words(st.objects[e.target].content)
            != Words(RefutationContract(st.objects[premises[0]].content, st.objects[target].content))
    then Some(WrongContract)
    else None
  }

  predicate LegacyRefutes(st: State, target: string, e: Edge)
    requires target in st.objects && LegacyRelation(st, e) && LegacyDefect(st, target, e).None?
  {
    CertifiedAsProposition(st, e.target) && CertifiedAsProposition(st, Premises(st.edges, e.target)[0])
  }

  /** The verdict of the legacy rows in query order: the first defective or refuting one decides. */
  function LegacyVerdict(st: State, target: string, rows: seq<Edge>): Result<Truth, PacketError>
    requires target in st.objects
  {
    if rows == [] then Ok(Open)
    else if !LegacyRelation(st, rows[0]) then LegacyVerdict(st, target, rows[1..])
    else if LegacyDefect(st, target, rows[0]).Some? then Err(LegacyDefect(st, target, rows[0]).value)
    else if LegacyRefutes(st, target, rows[0]) then Ok(Refuted)
    else LegacyVerdict(st, target, rows[1..])
  }

  predicate RefutedByKernelEdge(st: State, target: string) {
    exists i :: 0 <= i < |st.edges| && KernelRefuter(st.edges[i], target)
        && CertifiedAsProposition(st, st.edges[i].source)
  }

  /** The query results the projection reads, in any order. */
  ghost predicate RefuterRows(st: State, target: string, rows: seq<Edge>) {
    forall e :: e in rows <==> e in st.edges && KernelRefuter(e, target)
  }

  ghost predicate DecompositionRows(st: State, target: string, rows: seq<Edge>) {
    forall e :: e in rows <==> e in st.edges && e.Active() && e.source == target && e.relation == DecomposesInto
  }

  function ExactTruth(st: State, target: string, decompositions: seq<Edge>): Result<Truth, PacketError>
    requires target in st.objects
  {
    if CertifiedAsProposition(st, target) then Ok(Proved)
    else if RefutedByKernelEdge(st, target) then Ok(Refuted)
    else LegacyVerdict(st, target, decompositions)
  }

  /** Defects of legacy rows are never reported as a missing source. */
  lemma {:induction false} LegacyErrors(st: State, target: string, rows: seq<Edge>)
    requires target in st.objects
    ensures LegacyVerdict(st, target, rows) != Err(MissingSource)
  {
    if rows != [] {
      LegacyErrors(st, target, rows[1..]);
    }
  }

  /** On a clean ledger no refutation source is missing. */
  lemma SourcesExist(cfg: Config, st: State, target: string, rows: seq<Edge>)
    requires Clean(cfg, st) && RefuterRows(st, target, rows)
    ensures forall e :: e in rows ==> e.source in st.objects
  {
  }

  // ---- Levels ----

  function LevelOf(st: State, id: string): Level {
    VerificationOf(EventsOf(st.events, id, None))
  }

  function Stronger(x: Level, y: Level): Level {
    if Rank(y) > Rank(x) then y else x
  }

  /** The strongest level among a claim and its exact twins. */
  ghost predicate PropositionLevel(st: State, id: string, level: Level) {
    && (LevelOf(st, id) == level || exists other ::
        other in st.objects && Twin(st, id, other) && LevelOf(st, other) == level)
    && Rank(LevelOf(st, id)) <= Rank(level)
    && forall other :: other in st.objects && Twin(st, id, other) ==> Rank(LevelOf(st, other)) <= Rank(level)
  }

  /** The stronger of the levels of two claims, each with its twins. */
  ghost predicate JointLevel(st: State, a: string, b: string, level: Level) {
    exists x, y :: PropositionLevel(st, a, x) && PropositionLevel(st, b, y) && level == Stronger(x, y)
  }

  lemma RankSeparates(x: seq<EventCore>, y: seq<EventCore>)
    ensures Rank(VerificationOf(x)) == Rank(VerificationOf(y)) <==> VerificationOf(x) == VerificationOf(y)
  {
    VerificationIsStrongest(x);
    VerificationIsStrongest(y);
  }

  lemma PropositionLevelIsUnique(st: State, id: string, x: Level, y: Level)
    requires PropositionLevel(st, id, x) && PropositionLevel(st, id, y)
    ensures x == y
  {
    hide Twin, VerificationOf, Rank;
    var a := if LevelOf(st, id) == x then id else var o :| o in st.objects && Twin(st, id, o) && LevelOf(st, o) == x; o;
    var b := if LevelOf(st, id) == y then id else var o :| o in st.objects && Twin(st, id, o) && LevelOf(st, o) == y; o;
    RankSeparates(EventsOf(st.events, a, None), EventsOf(st.events, b, None));
  }

  /** A standing certification puts a claim on the evaluated rung at least. */
  lemma {:induction false} CertifiedIsEvaluated(events: seq<EventCore>)
    requires IsProved(events)
    ensures Rank(VerificationOf(events)) >= Rank(Evaluated)
  {
    var n := |events| - 1;
    if events[n].action != KernelCertified { CertifiedIsEvaluated(events[..n]); }
  }

  lemma CertifiedLevel(st: State, id: string, level: Level)
    requires CertifiedAsProposition(st, id) && PropositionLevel(st, id, level)
    ensures Rank(level) >= Rank(Evaluated)
  {
    hide Twin, Rank, IsProved;
    if Certified(st, id) {
      CertifiedIsEvaluated(EventsOf(st.events, id, None));
    } else {
      var other :| other in st.objects && Twin(st, id, other) && Certified(st, other);
      CertifiedIsEvaluated(EventsOf(st.events, other, None));
    }
  }

  /** `_exact_proposition_state`: one pass over the claim and its twins. */
  method PropositionState(st: State, id: string) returns (state: ExactState)
    ensures state.truth == (if CertifiedAsProposition(st, id) then Proved else Open)
    ensures PropositionLevel(st, id, state.verification)
    ensures state.lifecycle == DirectLifecycle(EventsOf(st.events, id, None))
  {
    hide Twin, Rank, VerificationOf, IsProved, DirectLifecycle;
    state := DirectState(EventsOf(st.events, id, None));
    var todo := st.objects.Keys;
    while todo != {}
      invariant todo <= st.objects.Keys
      invariant state.lifecycle == DirectLifecycle(EventsOf(st.events, id, None))
      invariant state.truth == Proved || state.truth == Open
      invariant state.truth == Proved <==>
                  Certified(st, id) || exists o :: o in st.objects && o !in todo && Twin(st, id, o) && Certified(st, o)
      invariant LevelOf(st, id) == state.verification ||
                  exists o :: o in st.objects && o !in todo && Twin(st, id, o) && LevelOf(st, o) == state.verification
      invariant Rank(LevelOf(st, id)) <= Rank(state.verification)
      invariant forall o :: o in st.objects && o !in todo && Twin(st, id, o) ==>
              Rank(LevelOf(st, o)) <= Rank(state.verification)
      decreases todo
    {
      var other :| other in todo;
      if Twin(st, id, other) {
        var twin := DirectState(EventsOf(st.events, other, None));
        state := ExactState(if twin.truth == Proved then Proved else state.truth,
                            Stronger(state.verification, twin.verification), state.lifecycle);
      }
      todo := todo - {other};
    }
  }

  /** The level shown beside a refutation: joint with the refuter's, or of the legacy relation and its premise. */
  ghost predicate RefutationLevel(st: State, target: string, decompositions: seq<Edge>, level: Level)
  {
    if RefutedByKernelEdge(st, target) then
      exists i :: 0 <= i < |st.edges| && KernelRefuter(st.edges[i], target)
          && CertifiedAsProposition(st, st.edges[i].source)
                  && JointLevel(st, target, st.edges[i].source, level)
    else
      exists i :: 0 <= i < |decompositions| && LegacyPair(st, target, decompositions[i], level)
  }

  ghost predicate LegacyPair(st: State, target: string, e: Edge, level: Level) {
    && target in st.objects && LegacyRelation(st, e) && LegacyDefect(st, target, e).None?
    && CertifiedAsProposition(st, e.target)
    && JointLevel(st, e.target, Premises(st.edges, e.target)[0], level)
  }

  /** `exact_state`. */
  method ExactStateOf(st: State, target: string, refuters: seq<Edge>, decompositions: seq<Edge>)
    returns (r: Result<ExactState, PacketError>)
    requires target in st.objects
    requires RefuterRows(st, target, refuters)
    ensures r == Err(MissingSource) <==>
              && !CertifiedAsProposition(st, target)
              && exists i :: 0 <= i < |refuters| && refuters[i].source !in st.objects
                             && forall j :: 0 <= j < i ==> !CertifiedAsProposition(st, refuters[j].source)
    ensures r.Err? && r.error != MissingSource ==> ExactTruth(st, target, decompositions) == Err(r.error)
    ensures r.Ok? ==>
              && ExactTruth(st, target, decompositions) == Ok(r.value.truth)
              && r.value.lifecycle == DirectLifecycle(EventsOf(st.events, target, None))
              && (r.value.truth != Refuted ==> PropositionLevel(st, target, r.value.verification))
              && (r.value.truth == Refuted ==> RefutationLevel(st, target, decompositions, r.value.verification))
  {
    hide PropositionLevel, CertifiedAsProposition, LegacyRelation, LegacyDefect, Premises, DirectLifecycle,
        KernelRefuter;
    var direct := PropositionState(st, target);
    if direct.truth == Proved {
      return Ok(direct);
    }
    for i := 0 to |refuters|
      invariant forall j :: 0 <= j < i ==>
              refuters[j].source in st.objects && !CertifiedAsProposition(st, refuters[j].source)
    {
      assert refuters[i] in refuters;
      if refuters[i].source !in st.objects {
        return Err(MissingSource);
      }
      var source := PropositionState(st, refuters[i].source);
      if source.truth == Proved {
        assert refuters[i] in st.edges;
        assert JointLevel(st, target, refuters[i].source, Stronger(direct.verification, source.verification));
        return Ok(ExactState(Refuted, Stronger(direct.verification, source.verification), direct.lifecycle));
      }
    }
    assert forall e :: e in st.edges && KernelRefuter(e, target) ==> e in refuters;
    assert !RefutedByKernelEdge(st, target);
    LegacyErrors(st, target, decompositions);
    for i := 0 to |decompositions|
      invariant LegacyVerdict(st, target, decompositions) == LegacyVerdict(st, target, decompositions[i..])
    {
      var row := decompositions[i];
      assert decompositions[i..][0] == row && decompositions[i..][1..] == decompositions[i + 1..];
      if LegacyRelation(st, row) {
        var defect := LegacyDefect(st, target, row);
        if defect.Some? {
          return Err(defect.value);
        }
        OnePremise(st, target, row);
        var premise := Premises(st.edges, row.target)[0];
        var relation := PropositionState(st, row.target);
        var given := PropositionState(st, premise);
        if relation.truth == Proved && given.truth == Proved {
          var level := Stronger(relation.verification, given.verification);
          assert JointLevel(st, row.target, premise, level);
          assert LegacyPair(st, target, decompositions[i], level);
          return Ok(ExactState(Refuted, level, direct.lifecycle));
        }
      }
    }
    return Ok(direct);
  }

  lemma OnePremise(st: State, target: string, e: Edge)
    requires target in st.objects && LegacyRelation(st, e) && LegacyDefect(st, target, e).None?
    ensures Premises(st.edges, e.target) != []
  {
  }

  /**
    Compared with `state_of`: the level is never below the derived one, except
    that a legacy refutation shows its own certified pair's instead; and the
    lifecycle is the derived one exactly when the object is not archived.
   */
  lemma ExactLevelCompares(st: State, target: string, decompositions: seq<Edge>, level: Level)
    requires target in st.objects
    ensures PropositionLevel(st, target, level) ==> Rank(level) >= Rank(StateOf(st, target, None).verification)
    ensures RefutationLevel(st, target, decompositions, level) && RefutedByKernelEdge(st, target) ==>
              Rank(level) >= Rank(StateOf(st, target, None).verification) && Rank(level) >= Rank(Evaluated)
    ensures RefutationLevel(st, target, decompositions, level) && !RefutedByKernelEdge(st, target) ==>
            Rank(level) >= Rank(Evaluated)
    ensures var events := EventsOf(st.events, target, None);
            DirectLifecycle(events) == StateOf(st, target, None).lifecycle <==>
            StateOf(st, target, None).lifecycle != ArchivedObject
  {
    hide CertifiedAsProposition, LegacyPair, KernelRefuter, PropositionLevel, JointLevel, Rank, VerificationOf;
    LifecyclesAgree(EventsOf(st.events, target, None));
    NeverBelow(st, target, level);
    hide DirectLifecycle, LifecycleOf;
    if RefutationLevel(st, target, decompositions, level) {
      if RefutedByKernelEdge(st, target) {
        var i :| 0 <= i < |st.edges| && KernelRefuter(st.edges[i], target)
            && CertifiedAsProposition(st, st.edges[i].source)
                 && JointLevel(st, target, st.edges[i].source, level);
        JointIsNoLower(st, target, st.edges[i].source, level);
      } else {
        var i :| 0 <= i < |decompositions| && LegacyPair(st, target, decompositions[i], level);
        PairIsEvaluated(st, target, decompositions[i], level);
      }
    }
  }

  lemma NeverBelow(st: State, id: string, level: Level)
    ensures PropositionLevel(st, id, level) ==> Rank(level) >= Rank(StateOf(st, id, None).verification)
  {
    hide Twin, Rank, VerificationOf;
  }

  lemma JointIsNoLower(st: State, a: string, b: string, level: Level)
    requires JointLevel(st, a, b, level)
    ensures Rank(level) >= Rank(StateOf(st, a, None).verification)
    ensures CertifiedAsProposition(st, a) || CertifiedAsProposition(st, b) ==> Rank(level) >= Rank(Evaluated)
  {
    hide PropositionLevel, CertifiedAsProposition, Rank, VerificationOf;
    var x, y :| PropositionLevel(st, a, x) && PropositionLevel(st, b, y) && level == Stronger(x, y);
    NeverBelow(st, a, x);
    if CertifiedAsProposition(st, a) { CertifiedLevel(st, a, x); }
    if CertifiedAsProposition(st, b) { CertifiedLevel(st, b, y); }
  }

  lemma PairIsEvaluated(st: State, target: string, e: Edge, level: Level)
    requires LegacyPair(st, target, e, level)
    ensures Rank(level) >= Rank(Evaluated)
  {
    hide JointLevel, CertifiedAsProposition, Premises, Rank;
    OnePremise(st, target, e);
    JointIsNoLower(st, e.target, Premises(st.edges, e.target)[0], level);
  }

  // ---- Agreement of the two readings ----

  predicate AnyTwin(st: State, id: string) {
    exists other :: other in st.objects && Twin(st, id, other)
  }

  /** What `Derive` calls proved, the packet calls proved. */
  lemma ProvedCarriesOver(st: State, target: string, rows: seq<Edge>)
    requires target in st.objects && TruthOf(st, target, None) == Proved
    ensures ExactTruth(st, target, rows) == Ok(Proved)
  {
  }

  /** What `Derive` calls refuted, the packet never shows as open, and never fails on. */
  lemma RefutedIsNeverOpen(st: State, target: string, rows: seq<Edge>)
    requires target in st.objects && TruthOf(st, target, None) == Refuted
    ensures ExactTruth(st, target, rows).Ok? && ExactTruth(st, target, rows).value != Open
  {
    var i :| 0 <= i < |st.edges| && Refuter(st, st.edges[i], target, None);
    assert KernelRefuter(st.edges[i], target) && CertifiedAsProposition(st, st.edges[i].source);
  }

  lemma {:induction false} NoLegacyRows(st: State, target: string, rows: seq<Edge>)
    requires target in st.objects
    requires forall e :: e in rows ==> !LegacyRelation(st, e)
    ensures LegacyVerdict(st, target, rows) == Ok(Open)
  {
    if rows != [] {
      assert rows[0] in rows;
      NoLegacyRows(st, target, rows[1..]);
    }
  }

  /** Without twins and without legacy refutations the two readings are the same. */
  lemma ReadingsAgree(st: State, target: string, rows: seq<Edge>)
    requires target in st.objects && DecompositionRows(st, target, rows)
    requires !AnyTwin(st, target)
    requires forall e :: e in st.edges && KernelRefuter(e, target) ==> !AnyTwin(st, e.source)
    requires forall e :: e in rows ==> !LegacyRelation(st, e)
    ensures ExactTruth(st, target, rows) == Ok(TruthOf(st, target, None))
  {
    NoLegacyRows(st, target, rows);
    if RefutedByKernelEdge(st, target) && !Certified(st, target) {
      var i :| 0 <= i < |st.edges| && KernelRefuter(st.edges[i], target)
          && CertifiedAsProposition(st, st.edges[i].source);
      assert st.edges[i] in st.edges;
      assert Refuter(st, st.edges[i], target, None);
    }
    if exists i :: 0 <= i < |st.edges| && Refuter(st, st.edges[i], target, None) {
      var i :| 0 <= i < |st.edges| && Refuter(st, st.edges[i], target, None);
      assert KernelRefuter(st.edges[i], target);
    }
  }

  /** Twins are the whole difference where no legacy relation is involved. */
  lemma ReadingsDifferExactly(st: State, target: string, rows: seq<Edge>)
    requires target in st.objects
    requires forall e :: e in rows ==> !LegacyRelation(st, e)
    ensures ExactTruth(st, target, rows) != Ok(TruthOf(st, target, None)) <==>
              && !Certified(st, target)
              && (CertifiedAsProposition(st, target) ||
                  (RefutedByKernelEdge(st, target) &&
                   forall i :: 0 <= i < |st.edges| && KernelRefuter(st.edges[i], target) ==>
                       !Certified(st, st.edges[i].source)))
  {
    NoLegacyRows(st, target, rows);
    if i :| 0 <= i < |st.edges| && Refuter(st, st.edges[i], target, None) {
      assert KernelRefuter(st.edges[i], target) && Certified(st, st.edges[i].source);
    }
    if i :| 0 <= i < |st.edges| && KernelRefuter(st.edges[i], target) && Certified(st, st.edges[i].source) {
      assert Refuter(st, st.edges[i], target, None);
    }
  }

  // ---- Corrections never reach a packet ----

  /** An event `_apply_latest_correction` would act on. */
  predicate ContentCorrection(e: EventCore) {
    e.action == CorrectionRecorded && "replacement_content" in e.payload && e.payload["replacement_content"] != JNull
  }

  /** The payload contract of corrections has no room for replacement content. */
  predicate CorrectionContract(vocab: Vocabulary) {
    var declared := vocab.actions(CorrectionRecorded);
    declared.Some? ==> "replacement_content" !in declared.value.requiredPayload + declared.value.optionalPayload
  }

  /** The version-1 table has that contract. */
  lemma StandardHasCorrectionContract()
    ensures CorrectionContract(Standard())
  {
  }

  /** So on a clean ledger the packet reads the objects table as it is. */
  lemma CleanLedgersAreUncorrected(cfg: Config, st: State, e: Event)
    requires CorrectionContract(cfg.vocab) && Clean(cfg, st) && e in st.events
    ensures !ContentCorrection(e.core)
  {
    assert PayloadValid(cfg.vocab, e.core.action, e.core.payload, e.core.evidence);
  }
}
