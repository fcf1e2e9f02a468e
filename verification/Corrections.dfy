/**
  What a withdrawal writes to the log, stated on the log before and after: the
  corrections of the events that reported a success, and the retirement of the
  check.
 */
module Corrections {
  import opened Wrappers
  import opened Vocabulary
  import opened Events
  import opened Store
  import opened Derive
  import opened Invalidation
  import opened Blocks

  // ---- What is written ----

  /** Event `n` reported the job's success. */
  ghost predicate ReportsSuccess(events: seq<Event>, job: string, n: nat) {
    exists e :: e in events && Success(e.core, job, n)
  }

  predicate Success(e: EventCore, job: string, n: nat) {
    e.id == n && e.subjectId == job && (e.action == ElaborationSucceeded || e.action == CheckCompleted)
  }

  function CorrectionKey(n: nat): string {
    "invalidate-check-event:" + Decimal(n)
  }

  function RetirementKey(job: string): string {
    "invalidate-check:" + job
  }

  predicate Corrects(e: EventCore, job: string, reason: string, n: nat) {
    && e.action == CorrectionRecorded && e.subjectId == job
    && e.payload == map["reason" := JText(reason), "corrects_event_id" := JNumber(n as real)]
  }

  predicate Retires(e: EventCore, job: string, reason: string) {
    e.action == ObjectRetracted && e.subjectId == job && e.payload == map["reason" := JText(reason)]
  }

  ghost predicate Gains(s: seq<Event>, t: seq<Event>, job: string, reason: string, n: nat) {
    exists i :: |s| <= i < |t| && Corrects(t[i].core, job, reason, n)
  }

  /** The retirement stands at `k`: corrections before it, retracted connections after it, and no other. */
  ghost predicate RetiredAt(s: seq<Event>, t: seq<Event>, job: string, reason: string, k: nat) {
    && |s| <= k < |t| && Retires(t[k].core, job, reason)
    && (forall i :: |s| <= i < k ==> t[i].core.action == CorrectionRecorded)
    && (forall i :: k < i < |t| ==> t[i].core.action == ConnectionRetracted)
  }

  /**
    The log gains the correction of event `n` if and only if that event reported
    a success and has not been corrected under its key before; it gains one
    retirement of the check unless the check was retired before.
   */
  ghost predicate CorrectsLog(s: seq<Event>, t: seq<Event>, job: string, reason: string) {
    && s <= t
    && (forall n: nat :: Gains(s, t, job, reason, n) <==>
          ReportsSuccess(s, job, n) && !KeyUsed(s, CorrectionKey(n)))
    && (forall i :: |s| <= i < |t| && t[i].core.action == CorrectionRecorded ==>
          exists n: nat :: Corrects(t[i].core, job, reason, n))
    && (if KeyUsed(s, RetirementKey(job)) then forall i :: |s| <= i < |t| ==> t[i].core.action != ObjectRetracted
        else exists k: nat :: RetiredAt(s, t, job, reason, k))
  }

  // ---- Keys ----

  lemma DecimalLength(n: nat)
    ensures |Decimal(n)| >= 1 && (|Decimal(n)| == 1 <==> n < 10)
  {
    if n >= 10 { DecimalLength(n / 10); }
  }

  lemma DigitsDiffer(m: nat, n: nat)
    requires m < 10 && n < 10 && Digit(m) == Digit(n)
    ensures m == n
  {
  }

  lemma {:induction false} DecimalIsInjective(m: nat, n: nat)
    requires Decimal(m) == Decimal(n)
    ensures m == n
  {
    DecimalLength(m);
    DecimalLength(n);
    if m < 10 {
      DigitsDiffer(m, n);
    } else {
      var a, b := Decimal(m / 10), Decimal(n / 10);
      assert Decimal(m)[..|a|] == a && Decimal(n)[..|b|] == b;
      assert Decimal(m)[|a|] == Digit(m % 10) && Decimal(n)[|b|] == Digit(n % 10);
      DecimalIsInjective(m / 10, n / 10);
      DigitsDiffer(m % 10, n % 10);
    }
  }

  lemma KeysDiffer(m: nat, n: nat, job: string)
    ensures CorrectionKey(m) == CorrectionKey(n) ==> m == n
    ensures CorrectionKey(n) != RetirementKey(job)
  {
    assert CorrectionKey(n)[16] == '-' && RetirementKey(job)[16] == ':';
    if CorrectionKey(m) == CorrectionKey(n) {
      assert CorrectionKey(m)[23..] == Decimal(m) && CorrectionKey(n)[23..] == Decimal(n);
      DecimalIsInjective(m, n);
    }
  }

  // ---- The events to correct ----

  lemma {:induction false} CorrectedAre(events: seq<Event>, job: string, n: nat)
    ensures n in Corrected(EventsOf(events, job, None)) <==> ReportsSuccess(events, job, n)
  {
    hide Corrected, ReportsSuccess, Success;
    if events == [] {
      NothingReported(job, n);
    } else {
      var before, e := events[..|events| - 1], events[|events| - 1];
      assert events == before + [e];
      CorrectedAre(before, job, n);
      OneMoreReport(before, e, job, n);
      var cores := EventsOf(before, job, None);
      if e.core.subjectId == job {
        OneMoreCorrected(cores, e.core, job, n);
      } else {
        assert cores + [] == cores;
        OtherSubject(e.core, job, n);
      }
    }
  }

  lemma NothingReported(job: string, n: nat)
    ensures !ReportsSuccess([], job, n) && Corrected([]) == []
  {
  }

  lemma OtherSubject(e: EventCore, job: string, n: nat)
    requires e.subjectId != job
    ensures !Success(e, job, n)
  {
  }

  lemma OneMoreReport(before: seq<Event>, e: Event, job: string, n: nat)
    ensures ReportsSuccess(before + [e], job, n) <==> ReportsSuccess(before, job, n) || Success(e.core, job, n)
  {
    hide Success;
    assert forall x :: x in before + [e] <==> x in before || x == e;
  }

  lemma OneMoreCorrected(cores: seq<EventCore>, e: EventCore, job: string, n: nat)
    requires e.subjectId == job
    ensures n in Corrected(cores + [e]) <==> n in Corrected(cores) || Success(e, job, n)
  {
    assert (cores + [e])[..|cores|] == cores;
  }

  // ---- Recording keyed drafts ----

  /** A gained event says what some draft says whose key was new. */
  ghost predicate FromDraft(cfg: Config, env: Envelope, s: seq<Event>, drafts: seq<Draft>, e: Event) {
    exists d :: d in drafts && d.key.Some? && !KeyUsed(s, d.key.value) && Says(e, env, d, cfg.clock(e.core.id))
  }

  lemma {:induction false} RecordAllSays(cfg: Config, env: Envelope, st: State, drafts: seq<Draft>)
    requires RecordAll(cfg, env, st, drafts).ok && forall d :: d in drafts ==> d.key.Some?
    ensures var t := RecordAll(cfg, env, st, drafts).state;
            && st.events <= t.events
            && (forall i :: |st.events| <= i < |t.events| ==> FromDraft(cfg, env, st.events, drafts, t.events[i]))
            && (forall d :: d in drafts ==> KeyUsed(t.events, d.key.value))
    decreases |drafts|
  {
    hide RecordEffect, Says;
    if drafts != [] {
      var first, rest := RecordEffect(cfg, env, st, drafts[0]).state, drafts[1..];
      assert drafts == [drafts[0]] + rest;
      RecordSays(cfg, env, st, drafts[0]);
      RecordAllSays(cfg, env, first, rest);
      var t := RecordAll(cfg, env, first, rest).state;
      FirstIsSaid(cfg, env, st, drafts[0], first);
      forall i | |st.events| <= i < |t.events| ensures FromDraft(cfg, env, st.events, drafts, t.events[i]) {
        if i < |first.events| {
          assert t.events[i] == first.events[i];
        } else {
          assert FromDraft(cfg, env, first.events, rest, t.events[i]);
          FromLater(cfg, env, st.events, first.events, rest, drafts, t.events[i]);
        }
      }
      KeysStay(first.events, t.events);
    }
  }

  lemma FirstIsSaid(cfg: Config, env: Envelope, st: State, d: Draft, t: State)
    requires d.key.Some? && t == RecordEffect(cfg, env, st, d).state && RecordEffect(cfg, env, st, d).ok
    ensures KeyUsed(t.events, d.key.value)
    ensures |t.events| > |st.events| ==>
              !KeyUsed(st.events, d.key.value)
              && Says(t.events[|st.events|], env, d, cfg.clock(t.events[|st.events|].core.id))
  {
    RecordSays(cfg, env, st, d);
    hide RecordEffect;
    if |t.events| > |st.events| { assert t.events[|st.events|] in t.events; }
  }

  lemma FromLater(cfg: Config, env: Envelope, s: seq<Event>, t: seq<Event>, rest: seq<Draft>, drafts: seq<Draft>,
      e: Event)
    requires FromDraft(cfg, env, t, rest, e) && s <= t && forall d :: d in rest ==> d in drafts
    ensures FromDraft(cfg, env, s, drafts, e)
  {
    hide Says;
    KeysStay(s, t);
  }

  lemma KeysStay(s: seq<Event>, t: seq<Event>)
    requires s <= t
    ensures forall key :: KeyUsed(s, key) ==> KeyUsed(t, key)
  {
    assert forall e :: e in s ==> e in t;
  }

  lemma UnusedAt(s: seq<Event>, key: string)
    requires !KeyUsed(s, key)
    ensures forall i :: 0 <= i < |s| ==> s[i].idempotencyKey != Some(key)
  {
    assert forall i :: 0 <= i < |s| ==> s[i] in s;
  }

  /** A key that is new in the log belongs to a gained event. */
  lemma NewKey(s: seq<Event>, t: seq<Event>, key: string) returns (i: nat)
    requires s <= t && KeyUsed(t, key) && !KeyUsed(s, key)
    ensures |s| <= i < |t| && t[i].idempotencyKey == Some(key)
  {
    UnusedAt(s, key);
    i :| i < |t| && t[i].idempotencyKey == Some(key);
  }

  // ---- Retractions ----

  lemma {:induction false} RetractionsGrow(cfg: Config, env: Envelope, st: State, triples: seq<Triple>, reason: string)
    ensures Grew(st.events, RetractAll(cfg, env, st, triples, reason).state.events, {ConnectionRetracted}, {None})
    decreases |triples|
  {
    hide RetractEffect, Grew;
    NothingGrew(st.events, {ConnectionRetracted}, {None});
    if triples != [] {
      var x := triples[0];
      OwnEvents(cfg, env, st, Retract(x.source, x.relation, x.target, reason));
      var first := RetractEffect(cfg, env, st, x.source, x.relation, x.target, reason);
      if first.ok {
        RetractionsGrow(cfg, env, first.state, triples[1..], reason);
        GrewTwice(st.events, first.state.events, RetractAll(cfg, env, first.state, triples[1..], reason).state.events,
            {ConnectionRetracted}, {None});
      }
    }
  }

  lemma {:induction false} PruningGrows(cfg: Config, env: Envelope, st: State, claims: seq<string>, reason: string)
    ensures Grew(st.events, PruneAll(cfg, env, st, claims, reason).state.events, {ConnectionRetracted}, {None})
    decreases |claims|
  {
    hide RetractAll, Grew, Supported, OutgoingTriples;
    var actions, keys := {ConnectionRetracted}, {None};
    NothingGrew(st.events, actions, keys);
    if claims != [] {
      var first := PruneClaim(cfg, env, st, claims[0], reason);
      var advances := OutgoingTriples(st, claims[0], Advances);
      var advanced := RetractAll(cfg, env, st, advances, reason).state;
      RetractionsGrow(cfg, env, st, advances, reason);
      var depends := OutgoingTriples(advanced, claims[0], DependsOn);
      RetractionsGrow(cfg, env, advanced, depends, reason);
      GrewTwice(st.events, advanced.events, RetractAll(cfg, env, advanced, depends, reason).state.events, actions,
          keys);
      if first.ok {
        PruningGrows(cfg, env, first.state, claims[1..], reason);
        GrewTwice(st.events, first.state.events, PruneAll(cfg, env, first.state, claims[1..], reason).state.events,
            actions, keys);
      }
    }
  }
  // ---- A committed withdrawal ----

  lemma {:induction false} RecordAllAppend(cfg: Config, env: Envelope, st: State, a: seq<Draft>, b: seq<Draft>)
    ensures var first := RecordAll(cfg, env, st, a);
            RecordAll(cfg, env, st, a + b) == if first.ok then RecordAll(cfg, env, first.state, b) else first
    decreases |a|
  {
    hide RecordEffect;
    if a == [] {
      assert a + b == b;
    } else {
      assert (a + b)[0] == a[0] && (a + b)[1..] == a[1..] + b;
      RecordAllAppend(cfg, env, RecordEffect(cfg, env, st, a[0]).state, a[1..], b);
    }
  }

  lemma CorrectionSays(job: string, reason: string, n: nat)
    ensures CorrectionDraft(job, reason, n).key == Some(CorrectionKey(n))
    ensures forall e, env, now :: Says(e, env, CorrectionDraft(job, reason, n), now) ==>
              Corrects(e.core, job, reason, n) && e.idempotencyKey == Some(CorrectionKey(n))
  {
    hide Decimal;
  }

  lemma RetirementSays(job: string, reason: string)
    ensures WithdrawalDraft(job, reason).key == Some(RetirementKey(job))
    ensures forall e, env, now :: Says(e, env, WithdrawalDraft(job, reason), now) ==> Retires(e.core, job, reason)
  {
  }

  lemma CorrectsOne(e: EventCore, job: string, reason: string, m: nat, n: nat)
    requires Corrects(e, job, reason, m) && Corrects(e, job, reason, n)
    ensures m == n
  {
    assert e.payload["corrects_event_id"] == JNumber(m as real);
    assert e.payload["corrects_event_id"] == JNumber(n as real);
  }

  /** After the corrections alone. */
  ghost predicate OnlyCorrections(s: seq<Event>, t: seq<Event>, job: string, reason: string) {
    && s <= t
    && (forall n: nat :: Gains(s, t, job, reason, n) <==> ReportsSuccess(s, job, n) && !KeyUsed(s, CorrectionKey(n)))
    && (forall i :: |s| <= i < |t| ==> SomeCorrection(t[i], job, reason))
  }

  ghost predicate SomeCorrection(e: Event, job: string, reason: string) {
    exists n: nat :: Correction(e, job, reason, n)
  }

  predicate Correction(e: Event, job: string, reason: string, n: nat) {
    Corrects(e.core, job, reason, n) && e.idempotencyKey == Some(CorrectionKey(n))
  }

  /** A draft the corrections are made from. */
  lemma CorrectionDrafts(st: State, job: string, reason: string)
    ensures var drafts := Corrections(job, reason, Corrected(EventsOf(st.events, job, None)));
            && (forall d :: d in drafts ==> d.key.Some?)
            && (forall d :: d in drafts ==>
                  exists n: nat :: ReportsSuccess(st.events, job, n) && d == CorrectionDraft(job, reason, n))
            && (forall n: nat :: ReportsSuccess(st.events, job, n) ==> CorrectionDraft(job, reason, n) in drafts)
  {
    hide Corrected, EventsOf, ReportsSuccess, CorrectionDraft;
    var ids := Corrected(EventsOf(st.events, job, None));
    var drafts := Corrections(job, reason, ids);
    forall d | d in drafts
      ensures d.key.Some?
      ensures exists n: nat :: ReportsSuccess(st.events, job, n) && d == CorrectionDraft(job, reason, n)
    {
      var k :| 0 <= k < |ids| && drafts[k] == d;
      assert ids[k] in ids;
      CorrectedAre(st.events, job, ids[k]);
      CorrectionSays(job, reason, ids[k]);
    }
    forall n: nat | ReportsSuccess(st.events, job, n) ensures CorrectionDraft(job, reason, n) in drafts {
      CorrectedAre(st.events, job, n);
      var k :| 0 <= k < |ids| && ids[k] == n;
      assert drafts[k] in drafts;
    }
  }

  /** A gained correction is of an event that reported a success and whose key was new. */
  ghost predicate Due(s: seq<Event>, e: Event, job: string, reason: string, n: nat) {
    Correction(e, job, reason, n) && ReportsSuccess(s, job, n) && !KeyUsed(s, CorrectionKey(n))
  }

  ghost predicate SomeDue(s: seq<Event>, e: Event, job: string, reason: string) {
    exists n: nat :: Due(s, e, job, reason, n)
  }

  lemma GainedIsDue(cfg: Config, env: Envelope, st: State, job: string, reason: string, e: Event)
    requires FromDraft(cfg, env, st.events, Corrections(job, reason, Corrected(EventsOf(st.events, job, None))), e)
    ensures SomeDue(st.events, e, job, reason)
  {
    hide Corrected, EventsOf, Says, ReportsSuccess, CorrectionKey, CorrectionDraft, KeyUsed, Corrections, Corrects;
    var drafts := Corrections(job, reason, Corrected(EventsOf(st.events, job, None)));
    CorrectionDrafts(st, job, reason);
    var d :| d in drafts && d.key.Some? && !KeyUsed(st.events, d.key.value)
             && Says(e, env, d, cfg.clock(e.core.id));
    var n: nat :| ReportsSuccess(st.events, job, n) && d == CorrectionDraft(job, reason, n);
    CorrectionSays(job, reason, n);
    assert Due(st.events, e, job, reason, n);
  }

  lemma CorrectionsAreMade(cfg: Config, env: Envelope, st: State, job: string, reason: string)
    requires RecordAll(cfg, env, st, Corrections(job, reason, Corrected(EventsOf(st.events, job, None)))).ok
    ensures var t := RecordAll(cfg, env, st, Corrections(job, reason, Corrected(EventsOf(st.events, job, None)))).state;
            OnlyCorrections(st.events, t.events, job, reason)
  {
    hide RecordAll, Corrected, EventsOf, ReportsSuccess, CorrectionKey, Corrects, CorrectionDraft, KeyUsed, Corrections,
        FromDraft, SomeDue;
    var drafts := Corrections(job, reason, Corrected(EventsOf(st.events, job, None)));
    CorrectionDrafts(st, job, reason);
    RecordAllSays(cfg, env, st, drafts);
    var s, t := st.events, RecordAll(cfg, env, st, drafts).state.events;
    forall i | |s| <= i < |t| ensures SomeDue(s, t[i], job, reason) {
      GainedIsDue(cfg, env, st, job, reason, t[i]);
    }
    forall n: nat | ReportsSuccess(s, job, n) ensures KeyUsed(t, CorrectionKey(n)) {
      CorrectionSays(job, reason, n);
    }
    DueIsExact(s, t, job, reason);
  }

  lemma DueIsExact(s: seq<Event>, t: seq<Event>, job: string, reason: string)
    requires s <= t && forall i :: |s| <= i < |t| ==> SomeDue(s, t[i], job, reason)
    requires forall n: nat :: ReportsSuccess(s, job, n) ==> KeyUsed(t, CorrectionKey(n))
    ensures OnlyCorrections(s, t, job, reason)
  {
    hide ReportsSuccess, CorrectionKey, Corrects, KeyUsed;
    forall n: nat ensures Gains(s, t, job, reason, n) <==> ReportsSuccess(s, job, n) && !KeyUsed(s, CorrectionKey(n)) {
      if ReportsSuccess(s, job, n) && !KeyUsed(s, CorrectionKey(n)) {
        var i := NewKey(s, t, CorrectionKey(n));
        var m: nat :| Due(s, t[i], job, reason, m);
        KeysDiffer(m, n, job);
      }
      if Gains(s, t, job, reason, n) {
        var i :| |s| <= i < |t| && Corrects(t[i].core, job, reason, n);
        var m: nat :| Due(s, t[i], job, reason, m);
        CorrectsOne(t[i].core, job, reason, m, n);
      }
    }
    forall i | |s| <= i < |t| ensures SomeCorrection(t[i], job, reason) {
      assert SomeDue(s, t[i], job, reason);
      var m: nat :| Due(s, t[i], job, reason, m);
      assert Correction(t[i], job, reason, m);
    }
  }

  lemma CorrectionActions(job: string, reason: string)
    ensures forall e, n: nat :: Corrects(e, job, reason, n) ==> e.action == CorrectionRecorded
    ensures forall e :: Retires(e, job, reason) ==> e.action == ObjectRetracted
  {
  }

  /** Corrections up to `b`, the retirement up to `c`, then retractions of connections. */
  ghost predicate Staged(s: seq<Event>, b: seq<Event>, c: seq<Event>, t: seq<Event>) {
    && s <= b && b <= c && c <= t
    && (forall i :: |s| <= i < |b| ==> t[i] == b[i] && t[i].core.action == CorrectionRecorded)
    && (forall i :: |b| <= i < |c| ==> t[i] == c[i] && t[i].core.action == ObjectRetracted)
    && (forall i :: |c| <= i < |t| ==> t[i].core.action == ConnectionRetracted)
  }

  lemma AreStaged(s: seq<Event>, b: seq<Event>, c: seq<Event>, t: seq<Event>, job: string, reason: string)
    requires OnlyCorrections(s, b, job, reason) && b <= c && |c| <= |b| + 1
    requires |c| > |b| ==> Retires(c[|b|].core, job, reason)
    requires Grew(c, t, {ConnectionRetracted}, {None})
    ensures Staged(s, b, c, t)
  {
    hide Corrects, Retires, ReportsSuccess, CorrectionKey, KeyUsed, Gains;
    CorrectionActions(job, reason);
    forall i | |s| <= i < |b| ensures t[i] == b[i] && t[i].core.action == CorrectionRecorded {
      assert c[i] == b[i];
      var n: nat :| Correction(b[i], job, reason, n);
    }
  }

  lemma SameGains(s: seq<Event>, b: seq<Event>, c: seq<Event>, t: seq<Event>, job: string, reason: string, n: nat)
    requires Staged(s, b, c, t)
    ensures Gains(s, t, job, reason, n) <==> Gains(s, b, job, reason, n)
  {
    hide Corrects;
    CorrectionActions(job, reason);
    if Gains(s, b, job, reason, n) {
      var i :| |s| <= i < |b| && Corrects(b[i].core, job, reason, n);
      assert Corrects(t[i].core, job, reason, n);
    }
    if Gains(s, t, job, reason, n) {
      var i :| |s| <= i < |t| && Corrects(t[i].core, job, reason, n);
      assert i < |b|;
    }
  }

  lemma StagesCorrect(s: seq<Event>, b: seq<Event>, c: seq<Event>, t: seq<Event>, job: string, reason: string)
    requires OnlyCorrections(s, b, job, reason) && b <= c && |c| <= |b| + 1
    requires |c| > |b| <==> !KeyUsed(b, RetirementKey(job))
    requires |c| > |b| ==> Retires(c[|b|].core, job, reason)
    requires Grew(c, t, {ConnectionRetracted}, {None})
    ensures CorrectsLog(s, t, job, reason)
  {
    hide Corrects, Retires, ReportsSuccess, CorrectionKey, RetirementKey, KeyUsed, Gains, Grew;
    AreStaged(s, b, c, t, job, reason);
    RetirementIsNew(s, b, job, reason);
    forall n: nat ensures Gains(s, t, job, reason, n) <==> Gains(s, b, job, reason, n) {
      SameGains(s, b, c, t, job, reason, n);
    }
    if |c| > |b| { assert RetiredAt(s, t, job, reason, |b|); }
    forall i | |s| <= i < |t| && t[i].core.action == CorrectionRecorded
      ensures exists n: nat :: Corrects(t[i].core, job, reason, n)
    {
      assert i < |b|;
      var n: nat :| Correction(b[i], job, reason, n);
    }
  }

  /** Corrections do not take the retirement's key. */
  lemma RetirementIsNew(s: seq<Event>, b: seq<Event>, job: string, reason: string)
    requires OnlyCorrections(s, b, job, reason)
    ensures KeyUsed(b, RetirementKey(job)) <==> KeyUsed(s, RetirementKey(job))
  {
    hide Corrects, CorrectionKey, RetirementKey, ReportsSuccess, Gains;
    KeysStay(s, b);
    if KeyUsed(b, RetirementKey(job)) && !KeyUsed(s, RetirementKey(job)) {
      var i := NewKey(s, b, RetirementKey(job));
      var n: nat :| Correction(b[i], job, reason, n);
      KeysDiffer(n, n, job);
      assert false;
    }
  }

  /** What a withdrawal that commits writes to the log. */
  lemma WithdrawalCorrects(cfg: Config, st: State, job: string, reason: string)
    requires InvalidateEffect(cfg, st, job, reason).ok
    ensures CorrectsLog(st.events, InvalidateEffect(cfg, st, job, reason).state.events, job, reason)
  {
    hide RecordAll, RetractAll, PruneAll, ClaimsOf, Corrections, Corrected, EventsOf, CorrectsLog, OnlyCorrections,
        Grew, ProvenanceTriples, Retires, KeyUsed, ScopeOf, WithdrawalDraft;
    var env, claims := InvalidationEnvelope(st, job), ClaimsOf(st, job);
    var corrections := Corrections(job, reason, Corrected(EventsOf(st.events, job, None)));
    RecordAllAppend(cfg, env, st, corrections, [WithdrawalDraft(job, reason)]);
    var b := RecordAll(cfg, env, st, corrections).state;
    CorrectionsAreMade(cfg, env, st, job, reason);
    var c := RecordAll(cfg, env, b, [WithdrawalDraft(job, reason)]).state;
    RetirementIsMade(cfg, env, b, job, reason);
    var triples := ProvenanceTriples(claims, job);
    var d := RetractAll(cfg, env, c, triples, reason).state;
    var t := PruneAll(cfg, env, d, claims, reason).state;
    RetractionsGrow(cfg, env, c, triples, reason);
    PruningGrows(cfg, env, d, claims, reason);
    GrewTwice(c.events, d.events, t.events, {ConnectionRetracted}, {None});
    StagesCorrect(st.events, b.events, c.events, t.events, job, reason);
  }

  lemma RetirementIsMade(cfg: Config, env: Envelope, b: State, job: string, reason: string)
    requires RecordAll(cfg, env, b, [WithdrawalDraft(job, reason)]).ok
    ensures var c := RecordAll(cfg, env, b, [WithdrawalDraft(job, reason)]).state.events;
            && b.events <= c && |c| <= |b.events| + 1
            && (|c| > |b.events| <==> !KeyUsed(b.events, RetirementKey(job)))
            && (|c| > |b.events| ==> Retires(c[|b.events|].core, job, reason))
  {
    hide RecordEffect, Says, Retires, KeyUsed, WithdrawalDraft;
    RetirementSays(job, reason);
    var d := WithdrawalDraft(job, reason);
    RecordSays(cfg, env, b, d);
    assert RecordAll(cfg, env, b, [d]) == RecordEffect(cfg, env, b, d) by {
      assert [d][1..] == [];
    }
  }
}
