/**
  Replaying to a past event: when `state_of(until=k)` is the state the ledger
  really showed after event `k`, and when it is not.
 */
module TimeTravel {
  import opened Wrappers
  import opened Vocabulary
  import opened Events
  import opened Store
  import opened Derive
  import opened Integrity

  // ---- How later tables relate to earlier ones ----

  /** A row of `t` that claims to be at least as old as `s` is the row `s` had, possibly retracted since. */
  ghost predicate RowKept(s: State, t: State, i: nat)
    requires i < |t.edges|
  {
    t.edges[i].created <= |s.events| ==>
      && i < |s.edges|
      && t.edges[i].(retracted := None) == s.edges[i].(retracted := None)
      && (!s.edges[i].Active() ==> !t.edges[i].Active())
  }

  ghost predicate Later(s: State, t: State) {
    && s.events <= t.events
    && (forall id :: id in s.objects ==> id in t.objects && t.objects[id] == s.objects[id])
    && |s.edges| <= |t.edges|
    && (forall i: nat :: i < |t.edges| ==> RowKept(s, t, i))
  }

  lemma LaterTransitive(a: State, b: State, c: State)
    requires Later(a, b) && Later(b, c)
    ensures Later(a, c)
  {
    forall i: nat | i < |c.edges| ensures RowKept(a, c, i) {
      assert RowKept(b, c, i);
      if c.edges[i].created <= |a.events| {
        assert RowKept(a, b, i);
      }
    }
  }

  /** `record` touches only the log, and appends at most one event to it. */
  lemma RecordGrows(cfg: Config, env: Envelope, st: State, d: Draft)
    ensures var next := RecordEffect(cfg, env, st, d).state;
            next == st.(events := next.events) && st.events <= next.events && |next.events| <= |st.events| + 1
  {
    hide Acceptable, Build;
  }

  /** One operation that appends at most one event: every one but `register_artifact`, which is two of them. */
  lemma ApplyIsLater(cfg: Config, env: Envelope, st: State, op: Op)
    requires ChainOk(cfg.hash, st.events) && !op.RegisterArtifact?
    ensures Later(st, Apply(cfg, env, st, op).state)
    ensures |Apply(cfg, env, st, op).state.events| <= |st.events| + 1
  {
    hide ChainOk;
    match op
    case CreateObject(_, _, _, _, _, _, _) => CreateIsLater(cfg, env, st, op);
    case Connect(_, _, _, _, _) => ConnectIsLater(cfg, env, st, op);
    case Retract(_, _, _, _) => RetractIsLater(cfg, env, st, op);
    case _ => OtherIsLater(cfg, env, st, op);
  }

  lemma OtherIsLater(cfg: Config, env: Envelope, st: State, op: Op)
    requires !op.RegisterArtifact? && !op.CreateObject? && !op.Connect? && !op.Retract?
    ensures var next := Apply(cfg, env, st, op).state;
            Later(st, next) && |next.events| <= |st.events| + 1 && next.edges == st.edges
  {
    OtherTouchesLog(cfg, env, st, op);
    hide Apply;
  }

  lemma OtherTouchesLog(cfg: Config, env: Envelope, st: State, op: Op)
    requires !op.RegisterArtifact? && !op.CreateObject? && !op.Connect? && !op.Retract?
    ensures var next := Apply(cfg, env, st, op).state;
            next.objects == st.objects && next.edges == st.edges && st.events <= next.events
                && |next.events| <= |st.events| + 1
  {
    hide RecordEffect, NextEvent;
    forall d ensures var next := RecordEffect(cfg, env, st, d).state;
                     next == st.(events := next.events) && st.events <= next.events && |next.events| <= |st.events| + 1
    {
      RecordGrows(cfg, env, st, d);
    }
  }

  lemma CreateIsLater(cfg: Config, env: Envelope, st: State, op: Op)
    requires op.CreateObject?
    ensures var next := CreateEffect(cfg, env, st, op).state;
            Later(st, next) && |next.events| <= |st.events| + 1 && next.edges == st.edges
  {
    hide RecordEffect, ObjectWellFormed;
    RecordGrows(cfg, env, st, CreationDraft(op));
  }

  lemma ConnectIsLater(cfg: Config, env: Envelope, st: State, op: Op)
    requires ChainOk(cfg.hash, st.events) && op.Connect?
    ensures var next := ConnectEffect(cfg, env, st, op).state; Later(st, next) && |next.events| <= |st.events| + 1
  {
    ChainNextId(cfg.hash, st.events);
    hide RecordEffect, ConnectionValid, ChainOk;
    RecordGrows(cfg, env, st, ConnectionDraft(op));
  }

  lemma RetractIsLater(cfg: Config, env: Envelope, st: State, op: Op)
    requires op.Retract?
    ensures var next := RetractEffect(cfg, env, st, op.source, op.relation, op.target, op.reason).state;
            Later(st, next) && |next.events| <= |st.events| + 1
  {
    hide RecordEffect;
    RecordGrows(cfg, env, st, RetractDraft(op.source, op.reason));
  }

  /** The edges of the two relations a replay reads. */
  predicate Replayed(r: Relation) {
    r == Refutes || r == FormalizedAs
  }

  predicate WithdrawsReplayed(op: Op) {
    op.Retract? && Replayed(op.relation)
  }

  /** No replayed edge standing in `s` has been touched in `t`. */
  ghost predicate Standing(s: State, t: State) {
    |s.edges| <= |t.edges| &&
    forall i :: 0 <= i < |s.edges| && s.edges[i].Active() && Replayed(s.edges[i].relation) ==> t.edges[i] == s.edges[i]
  }

  lemma ApplyKeepsStanding(cfg: Config, env: Envelope, st: State, op: Op)
    requires !op.RegisterArtifact? && !WithdrawsReplayed(op)
    ensures Standing(st, Apply(cfg, env, st, op).state)
  {
    hide RecordEffect, ConnectionValid;
    match op
    case CreateObject(_, _, _, _, _, _, _) => CreateIsLater(cfg, env, st, op);
    case Connect(_, _, _, _, _) => RecordGrows(cfg, env, st, ConnectionDraft(op));
    case Retract(_, _, _, _) => RecordGrows(cfg, env, st, RetractDraft(op.source, op.reason));
    case _ => OtherIsLater(cfg, env, st, op);
  }

  // ---- Histories, one event at a time ----

  datatype Step = Step(env: Envelope, op: Op)

  function Play(cfg: Config, st: State, steps: seq<Step>): State
    decreases |steps|
  {
    if steps == [] then st
    else
      var last := steps[|steps| - 1];
      Apply(cfg, last.env, Play(cfg, st, steps[..|steps| - 1]), last.op).state
  }

  predicate Single(step: Step) {
    !step.op.RegisterArtifact? && Honest(step.op)
  }

  lemma {:induction false} PlayIsClean(cfg: Config, st: State, steps: seq<Step>)
    requires TruthContract(cfg.vocab) && Clean(cfg, st)
    requires forall x :: x in steps ==> Single(x)
    ensures Clean(cfg, Play(cfg, st, steps))
    decreases |steps|
  {
    hide Clean, Apply;
    if steps != [] {
      var n := |steps| - 1;
      assert steps[n] in steps;
      assert forall x :: x in steps[..n] ==> x in steps;
      PlayIsClean(cfg, st, steps[..n]);
      ApplyKeepsClean(cfg, steps[n].env, Play(cfg, st, steps[..n]), steps[n].op);
    }
  }

  lemma {:induction false} PlayIsLater(cfg: Config, st: State, steps: seq<Step>, j: nat)
    requires TruthContract(cfg.vocab) && Clean(cfg, st)
    requires forall x :: x in steps ==> Single(x)
    requires j <= |steps|
    ensures Later(Play(cfg, st, steps[..j]), Play(cfg, st, steps))
    ensures (forall x :: x in steps[j..] ==> !WithdrawsReplayed(x.op)) ==>
              Standing(Play(cfg, st, steps[..j]), Play(cfg, st, steps))
    decreases |steps|
  {
    hide Apply, WithdrawsReplayed, Single, Later, Standing, Clean, TruthContract;
    var moment := Play(cfg, st, steps[..j]);
    if j == |steps| {
      assert steps[..j] == steps;
      SameIsLater(moment);
    } else {
      var n := |steps| - 1;
      var before := steps[..n];
      assert before[..j] == steps[..j];
      assert forall x :: x in before ==> x in steps;
      PlayIsLater(cfg, st, before, j);
      PlayIsClean(cfg, st, before);
      assert steps[n] in steps && steps[n] in steps[j..];
      OneStepLater(cfg, moment, Play(cfg, st, before), steps[n]);
      if forall x :: x in steps[j..] ==> !WithdrawsReplayed(x.op) {
        forall x | x in before[j..] ensures !WithdrawsReplayed(x.op) {
          assert steps[j..] == before[j..] + [steps[n]];
        }
      }
    }
  }

  lemma SameIsLater(st: State)
    ensures Later(st, st) && Standing(st, st)
  {
  }

  lemma OneStepLater(cfg: Config, s: State, t: State, x: Step)
    requires Clean(cfg, t) && Single(x) && Later(s, t)
    ensures Later(s, Apply(cfg, x.env, t, x.op).state)
    ensures Standing(s, t) && !WithdrawsReplayed(x.op) ==> Standing(s, Apply(cfg, x.env, t, x.op).state)
  {
    hide Apply;
    ApplyIsLater(cfg, x.env, t, x.op);
    LaterTransitive(s, t, Apply(cfg, x.env, t, x.op).state);
    if !WithdrawsReplayed(x.op) {
      ApplyKeepsStanding(cfg, x.env, t, x.op);
    }
  }

  /** Every event id between the start and the end of a history is a moment of it. */
  lemma {:induction false} EveryEventIsAMoment(cfg: Config, st: State, steps: seq<Step>, k: nat) returns (j: nat)
    requires TruthContract(cfg.vocab) && Clean(cfg, st)
    requires forall x :: x in steps ==> Single(x)
    requires |st.events| <= k <= |Play(cfg, st, steps).events|
    ensures j <= |steps| && |Play(cfg, st, steps[..j]).events| == k
    decreases |steps|
  {
    hide Apply, Clean;
    if k == |Play(cfg, st, steps).events| {
      assert steps[..|steps|] == steps;
      return |steps|;
    }
    var n := |steps| - 1;
    var before := steps[..n];
    assert steps[n] in steps && forall x :: x in before ==> x in steps;
    PlayIsClean(cfg, st, before);
    assert ChainOk(cfg.hash, Play(cfg, st, before).events) by { CleanChain(cfg, Play(cfg, st, before)); }
    ApplyIsLater(cfg, steps[n].env, Play(cfg, st, before), steps[n].op);
    j := EveryEventIsAMoment(cfg, st, before, k);
    assert before[..j] == steps[..j];
  }

  lemma CleanChain(cfg: Config, st: State)
    requires Clean(cfg, st)
    ensures ChainOk(cfg.hash, st.events)
  {
  }

  // ---- Replaying ----

  lemma {:induction false} ReplayedEvents(hash: Hash, s: seq<Event>, t: seq<Event>, subject: string)
    requires ChainOk(hash, t) && s <= t
    ensures EventsOf(t, subject, Some(|s|)) == EventsOf(s, subject, None)
    decreases |t|
  {
    if t != [] {
      var n := |t| - 1;
      assert Linked(hash, t, n);
      ChainPrefix(hash, t, n);
      if |s| == |t| {
        assert s == t;
        ReplayedPrefix(hash, t, subject, |t|);
      } else {
        assert s <= t[..n];
        ReplayedEvents(hash, s, t[..n], subject);
      }
    }
  }

  lemma {:induction false} ReplayedPrefix(hash: Hash, t: seq<Event>, subject: string, k: nat)
    requires ChainOk(hash, t) && |t| <= k
    ensures EventsOf(t, subject, Some(k)) == EventsOf(t, subject, None)
    decreases |t|
  {
    if t != [] {
      assert Linked(hash, t, |t| - 1);
      ChainPrefix(hash, t, |t| - 1);
      ReplayedPrefix(hash, t[..|t| - 1], subject, k);
    }
  }

  /** Everything but the truth and the encoding is replayed exactly, whatever was retracted. */
  lemma EventDimensionsReplay(cfg: Config, s: State, t: State, id: string)
    requires ChainOk(cfg.hash, t.events) && Later(s, t) && id in s.objects
    ensures var past, replay := StateOf(s, id, None), StateOf(t, id, Some(|s.events|));
            past.verification == replay.verification && past.lifecycle == replay.lifecycle
            && past.operational == replay.operational && past.sourceEvidence == replay.sourceEvidence
  {
    ReplayedEvents(cfg.hash, s.events, t.events, id);
  }

  /** A replayed refuter is a refuter of the past that still stands. */
  lemma RefuterReplays(cfg: Config, s: State, t: State, id: string, i: nat)
    requires Clean(cfg, s) && ChainOk(cfg.hash, t.events) && Later(s, t)
    requires i < |t.edges|
    ensures Refuter(t, t.edges[i], id, Some(|s.events|)) <==>
              i < |s.edges| && Refuter(s, s.edges[i], id, None) && t.edges[i] == s.edges[i]
  {
    hide IsProved;
    assert RowKept(s, t, i);
    ReplayedEvents(cfg.hash, s.events, t.events, t.edges[i].source);
    if i < |s.edges| && t.edges[i] == s.edges[i] {
      RowsAreOld(cfg, s, i);
    }
  }

  lemma RowsAreOld(cfg: Config, s: State, i: nat)
    requires Clean(cfg, s) && i < |s.edges|
    ensures s.edges[i].created <= |s.events|
  {
    assert s.edges[i] in s.edges;
    var e :| e in s.events && e.core.id == s.edges[i].created;
    var k: nat :| k < |s.events| && s.events[k] == e;
    assert Linked(cfg.hash, s.events, k);
  }

  /**
    When the replayed truth is right: exactly when the object was proved, or
    nothing refuted it, or some edge that refuted it then still stands today.
   */
  lemma TruthReplaysExactly(cfg: Config, s: State, t: State, id: string)
    requires Clean(cfg, s) && ChainOk(cfg.hash, t.events) && Later(s, t)
    ensures TruthOf(t, id, Some(|s.events|)) == TruthOf(s, id, None) <==>
              || TruthOf(s, id, None) != Refuted
              || exists i :: 0 <= i < |s.edges| && Refuter(s, s.edges[i], id, None) && t.edges[i] == s.edges[i]
  {
    hide Refuter, IsProved;
    ReplayedEvents(cfg.hash, s.events, t.events, id);
    forall i: nat | i < |t.edges|
      ensures Refuter(t, t.edges[i], id, Some(|s.events|)) <==>
                i < |s.edges| && Refuter(s, s.edges[i], id, None) && t.edges[i] == s.edges[i]
    {
      RefuterReplays(cfg, s, t, id, i);
    }
  }

  /** How much a formalization edge says: an exact encoding, a related proposition, or just a proposition. */
  function Strength(e: Edge): nat {
    if "formalization_relationship" !in e.properties || !e.properties["formalization_relationship"].JText? then 1
    else
      var name := e.properties["formalization_relationship"].s;
      if name in {"literal_encoding", "equivalence"} then 3
      else if name in {"specialization", "strengthening", "weakening", "consequence"} then 2
      else 1
  }

  function EncodingRank(encoding: Encoding): nat {
    match encoding
    case NotEncoded => 0
    case PropositionOnly => 1
    case PartiallyFormalized => 2
    case FullyEncoded => 3
  }

  /** The encoding of an object is the strongest of its encoding rows. */
  lemma EncodingIsStrongest(st: State, id: string, until: Option<nat>)
    ensures var rank := EncodingRank(EncodingOf(st, id, until));
            && (forall i :: 0 <= i < |st.edges| && Encodes(st.edges[i], id, until) ==> Strength(st.edges[i]) <= rank)
            && (rank > 0 ==>
                  exists i :: 0 <= i < |st.edges| && Encodes(st.edges[i], id, until) && Strength(st.edges[i]) == rank)
  {
    hide Encodes;
  }

  /** A row the replay reads is a row of then that still stands. */
  lemma EncodingRowReplays(cfg: Config, s: State, t: State, id: string, i: nat)
    requires Clean(cfg, s) && Later(s, t) && i < |t.edges|
    ensures Encodes(t.edges[i], id, Some(|s.events|)) <==>
              i < |s.edges| && Encodes(s.edges[i], id, None) && t.edges[i] == s.edges[i]
  {
    assert RowKept(s, t, i);
    if i < |s.edges| && t.edges[i] == s.edges[i] {
      RowsAreOld(cfg, s, i);
    }
  }

  /** One of the strongest encoding rows of then still stands. */
  ghost predicate StrongestStands(s: State, t: State, id: string) {
    exists i :: 0 <= i < |s.edges| && i < |t.edges| && Encodes(s.edges[i], id, None) && t.edges[i] == s.edges[i]
      && forall j :: 0 <= j < |s.edges| && Encodes(s.edges[j], id, None) ==>
          Strength(s.edges[j]) <= Strength(s.edges[i])
  }

  /**
    When the replayed encoding is right: exactly when there was none, or one of
    the strongest encoding rows of then still stands today.
   */
  lemma EncodingReplaysExactly(cfg: Config, s: State, t: State, id: string)
    requires Clean(cfg, s) && Later(s, t)
    ensures EncodingOf(t, id, Some(|s.events|)) == EncodingOf(s, id, None) <==>
              EncodingOf(s, id, None) == NotEncoded || StrongestStands(s, t, id)
  {
    hide Clean, Later, EncodingOf, Encodes, Strength, EncodingRank, StrongestStands;
    var k := Some(|s.events|);
    forall i: nat | i < |t.edges|
      ensures Encodes(t.edges[i], id, k) <==> i < |s.edges| && Encodes(s.edges[i], id, None) && t.edges[i] == s.edges[i]
    {
      EncodingRowReplays(cfg, s, t, id, i);
    }
    LaterHasMoreRows(s, t);
    RanksAgree(s, t, id, k);
    RanksDiffer(EncodingOf(t, id, k), EncodingOf(s, id, None));
  }

  lemma LaterHasMoreRows(s: State, t: State)
    requires Later(s, t)
    ensures |s.edges| <= |t.edges|
  {
  }

  lemma RanksDiffer(x: Encoding, y: Encoding)
    ensures EncodingRank(x) == EncodingRank(y) <==> x == y
    ensures (EncodingRank(x) == 0 <==> x == NotEncoded) && (EncodingRank(y) == 0 <==> y == NotEncoded)
  {
  }

  lemma RanksAgree(s: State, t: State, id: string, k: Option<nat>)
    requires |s.edges| <= |t.edges|
    requires forall i: nat :: i < |t.edges| ==>
               (Encodes(t.edges[i], id, k) <==>
                   i < |s.edges| && Encodes(s.edges[i], id, None) && t.edges[i] == s.edges[i])
    ensures EncodingRank(EncodingOf(t, id, k)) == EncodingRank(EncodingOf(s, id, None)) <==>
              EncodingRank(EncodingOf(s, id, None)) == 0 || StrongestStands(s, t, id)
  {
    hide EncodingOf, Encodes, Strength, EncodingRank;
    EncodingIsStrongest(s, id, None);
    EncodingIsStrongest(t, id, k);
    var now, past := EncodingRank(EncodingOf(t, id, k)), EncodingRank(EncodingOf(s, id, None));
    assert now <= past;
    if now == past && past > 0 {
      var i :| 0 <= i < |t.edges| && Encodes(t.edges[i], id, k) && Strength(t.edges[i]) == now;
      assert Encodes(s.edges[i], id, None) && t.edges[i] == s.edges[i];
    }
    if StrongestStands(s, t, id) {
      var i :| 0 <= i < |s.edges| && i < |t.edges| && Encodes(s.edges[i], id, None) && t.edges[i] == s.edges[i]
        && forall j :: 0 <= j < |s.edges| && Encodes(s.edges[j], id, None) ==>
            Strength(s.edges[j]) <= Strength(s.edges[i]);
      assert Encodes(t.edges[i], id, k);
    }
  }

  lemma EncodingReplays(cfg: Config, s: State, t: State, id: string)
    requires Clean(cfg, s) && Later(s, t) && Standing(s, t)
    ensures EncodingOf(t, id, Some(|s.events|)) == EncodingOf(s, id, None)
  {
    hide Clean, Later, EncodingOf, Strength, EncodingRank;
    EncodingReplaysExactly(cfg, s, t, id);
    EncodingIsStrongest(s, id, None);
    RanksDiffer(EncodingOf(s, id, None), NotEncoded);
    if EncodingOf(s, id, None) != NotEncoded {
      var rank := EncodingRank(EncodingOf(s, id, None));
      var i :| 0 <= i < |s.edges| && Encodes(s.edges[i], id, None) && Strength(s.edges[i]) == rank;
      assert t.edges[i] == s.edges[i];
    }
  }

  /**
    Time travel: if no `refutes` or `formalized_as` edge is retracted after the
    `j`th step, then replaying the final ledger to the event id it had reached
    gives, in every dimension, the state the ledger showed at that moment.
   */
  lemma TimeTravel(cfg: Config, st: State, steps: seq<Step>, j: nat, id: string)
    requires TruthContract(cfg.vocab) && Clean(cfg, st)
    requires forall x :: x in steps ==> Single(x)
    requires j <= |steps| && forall x :: x in steps[j..] ==> !WithdrawsReplayed(x.op)
    requires id in Play(cfg, st, steps[..j]).objects
    ensures var past := Play(cfg, st, steps[..j]);
            StateOf(Play(cfg, st, steps), id, Some(|past.events|)) == StateOf(past, id, None)
  {
    var past, now := Play(cfg, st, steps[..j]), Play(cfg, st, steps);
    assert forall x :: x in steps[..j] ==> x in steps;
    PlayIsClean(cfg, st, steps[..j]);
    PlayIsClean(cfg, st, steps);
    PlayIsLater(cfg, st, steps, j);
    Replays(cfg, past, now, id);
  }

  lemma Replays(cfg: Config, s: State, t: State, id: string)
    requires Clean(cfg, s) && Clean(cfg, t) && Later(s, t) && Standing(s, t) && id in s.objects
    ensures StateOf(t, id, Some(|s.events|)) == StateOf(s, id, None)
  {
    hide Clean, IsProved, Later, Standing, TruthOf, EncodingOf, Refuter, ChainOk;
    CleanChain(cfg, t);
    EventDimensionsReplay(cfg, s, t, id);
    TruthReplays(cfg, s, t, id);
    EncodingReplays(cfg, s, t, id);
  }

  lemma TruthReplays(cfg: Config, s: State, t: State, id: string)
    requires Clean(cfg, s) && ChainOk(cfg.hash, t.events) && Later(s, t) && Standing(s, t)
    ensures TruthOf(t, id, Some(|s.events|)) == TruthOf(s, id, None)
  {
    TruthReplaysExactly(cfg, s, t, id);
    hide Clean, IsProved, Later, ChainOk;
    if i: nat :| i < |s.edges| && Refuter(s, s.edges[i], id, None) {
      assert t.edges[i] == s.edges[i];
    }
  }

  // ---- Committed sessions are such histories ----

  /** `register_artifact` is a creation followed, when that succeeds, by one keyed record. */
  function Expand(cfg: Config, env: Envelope, st: State, op: Op): seq<Step> {
    if !op.RegisterArtifact? then [Step(env, op)]
    else if !LowercaseSha256(op.sha256) || op.byteSize < 0 then []
    else
      [Step(env, ArtifactCreation(op))] +
      (if CreateEffect(cfg, env, st, ArtifactCreation(op)).ok then [Step(env, Record(RegistrationDraft(op)))] else [])
  }

  lemma PlayFew(cfg: Config, st: State, x: Step, y: Step)
    ensures Play(cfg, st, []) == st
    ensures Play(cfg, st, [x]) == Apply(cfg, x.env, st, x.op).state
    ensures Play(cfg, st, [x] + [y]) == Apply(cfg, y.env, Play(cfg, st, [x]), y.op).state
  {
    hide Apply;
    assert [x][..0] == [] && ([x] + [y])[..1] == [x];
  }

  /** The three operations `register_artifact` is made of. */
  lemma ApplyUnfolds(cfg: Config, env: Envelope, st: State, op: Op, d: Draft)
    ensures op.RegisterArtifact? ==>
            ArtifactCreation(op).CreateObject? && Apply(cfg, env, st, op) == RegisterEffect(cfg, env, st, op)
    ensures op.CreateObject? ==> Apply(cfg, env, st, op) == CreateEffect(cfg, env, st, op)
    ensures Apply(cfg, env, st, Record(d)) == RecordEffect(cfg, env, st, d)
  {
    hide CreateEffect, RecordEffect, RegisterEffect;
  }

  lemma RegistrationPlays(cfg: Config, env: Envelope, st: State, op: Op)
    requires op.RegisterArtifact? && LowercaseSha256(op.sha256) && op.byteSize >= 0
    ensures Play(cfg, st, Expand(cfg, env, st, op)) == Apply(cfg, env, st, op).state
  {
    hide Apply, Play, CreateEffect, RecordEffect, LowercaseSha256, RegistrationDraft, ArtifactCreation;
    var d := RegistrationDraft(op);
    ApplyUnfolds(cfg, env, st, op, d);
    var creation := ArtifactCreation(op);
    var created := CreateEffect(cfg, env, st, creation);
    ApplyUnfolds(cfg, env, st, creation, d);
    ApplyUnfolds(cfg, env, created.state, op, d);
    var x, y := Step(env, creation), Step(env, Record(d));
    PlayFew(cfg, st, x, y);
    if created.ok {
      assert Expand(cfg, env, st, op) == [x] + [y];
    } else {
      assert Expand(cfg, env, st, op) == [x] + [] == [x];
    }
  }

  lemma ExpandPlays(cfg: Config, env: Envelope, st: State, op: Op)
    ensures Play(cfg, st, Expand(cfg, env, st, op)) == Apply(cfg, env, st, op).state
    ensures Honest(op) ==> forall x :: x in Expand(cfg, env, st, op) ==> Single(x)
  {
    if Honest(op) { ExpandIsSingle(cfg, env, st, op); }
    hide CreateEffect, RecordEffect, LowercaseSha256, Play, Single;
    PlayFew(cfg, st, Step(env, op), Step(env, op));
    if op.RegisterArtifact? {
      if LowercaseSha256(op.sha256) && op.byteSize >= 0 {
        RegistrationPlays(cfg, env, st, op);
      }
    } else {
      hide Apply;
    }
  }

  lemma ExpandIsSingle(cfg: Config, env: Envelope, st: State, op: Op)
    requires Honest(op)
    ensures forall x :: x in Expand(cfg, env, st, op) ==> Single(x)
  {
    hide CreateEffect, LowercaseSha256;
  }

  function CallSteps(cfg: Config, env: Envelope, st: State, calls: seq<Call>): seq<Step>
    decreases |calls|
  {
    if calls == [] then []
    else
      var first := Apply(cfg, env, st, calls[0].op);
      Expand(cfg, env, st, calls[0].op) +
      (if !first.ok && !calls[0].caught then [] else CallSteps(cfg, env, first.state, calls[1..]))
  }

  function SessionSteps(cfg: Config, st: State, sessions: seq<Session>): seq<Step>
    decreases |sessions|
  {
    if sessions == [] then []
    else
      var s := sessions[0];
      (if RunCalls(cfg, s.env, st, s.calls).ok then CallSteps(cfg, s.env, st, s.calls) else []) +
      SessionSteps(cfg, Transact(cfg, st, s), sessions[1..])
  }

  lemma {:induction false} PlayAppend(cfg: Config, st: State, a: seq<Step>, b: seq<Step>)
    ensures Play(cfg, st, a + b) == Play(cfg, Play(cfg, st, a), b)
    decreases |b|
  {
    hide Apply;
    if b == [] {
      assert a + b == a;
    } else {
      assert (a + b)[..|a + b| - 1] == a + b[..|b| - 1];
      PlayAppend(cfg, st, a, b[..|b| - 1]);
    }
  }

  lemma {:induction false} CallsPlay(cfg: Config, env: Envelope, st: State, calls: seq<Call>)
    requires forall c :: c in calls ==> Honest(c.op)
    ensures Play(cfg, st, CallSteps(cfg, env, st, calls)) == RunCalls(cfg, env, st, calls).state
    ensures forall x :: x in CallSteps(cfg, env, st, calls) ==> Single(x)
    decreases |calls|
  {
    hide Apply, Expand, Single, Honest;
    if calls != [] {
      var first := Apply(cfg, env, st, calls[0].op);
      var head := Expand(cfg, env, st, calls[0].op);
      ExpandPlays(cfg, env, st, calls[0].op);
      if first.ok || calls[0].caught {
        CallsPlay(cfg, env, first.state, calls[1..]);
        PlayAppend(cfg, st, head, CallSteps(cfg, env, first.state, calls[1..]));
      } else {
        assert head + [] == head;
      }
    }
  }

  /** Any run of honest write sessions is the history of the steps it committed. */
  lemma {:induction false} SessionsPlay(cfg: Config, st: State, sessions: seq<Session>)
    requires forall s :: s in sessions ==> HonestSession(s)
    ensures Play(cfg, st, SessionSteps(cfg, st, sessions)) == Run(cfg, st, sessions)
    ensures forall x :: x in SessionSteps(cfg, st, sessions) ==> Single(x)
    decreases |sessions|
  {
    hide Single, Honest;
    if sessions != [] {
      var s := sessions[0];
      assert HonestSession(s);
      CallsPlay(cfg, s.env, st, s.calls);
      var head := if RunCalls(cfg, s.env, st, s.calls).ok then CallSteps(cfg, s.env, st, s.calls) else [];
      var next := Transact(cfg, st, s);
      SessionsPlay(cfg, next, sessions[1..]);
      PlayAppend(cfg, st, head, SessionSteps(cfg, next, sessions[1..]));
    }
  }
}
