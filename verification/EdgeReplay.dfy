/**
  Rebuilding the connections table from the log: it works exactly as long as
  each retraction meets the only active edge of its source and nobody records
  a connection event by hand that tells something new.
 */
module EdgeReplay {
  import opened Wrappers
  import opened Vocabulary
  import opened StandardVocabulary
  import opened Events
  import opened Store
  import opened Replay

  // ---- Reading connections off the log ----

  datatype Key = Key(source: string, relation: string, target: string)

  datatype Row = Row(properties: Json, created: nat, retracted: Option<nat>)

  /** What one event says about connections; a retraction names no edge, so it is read as one of all its source has. */
  function AfterEdge(m: map<Key, Row>, e: EventCore): map<Key, Row> {
    match e.action
    case ConnectionCreated => m[CreatedKey(e.payload) := Row(CreatedProperties(e.payload), e.id, None)]
    case ConnectionRetracted => map k | k in m :: RetractedRow(k, m[k], e.subjectId, e.id)
    case _ => m
  }

  function CreatedKey(payload: Properties): Key {
    Key(TextField(payload, "from_id"), TextField(payload, "relation"), TextField(payload, "to_id"))
  }

  function CreatedProperties(payload: Properties): Json {
    if "properties" in payload then payload["properties"] else JNull
  }

  function RetractedRow(k: Key, row: Row, source: string, at: nat): Row {
    if k.source == source && row.retracted.None? then row.(retracted := Some(at)) else row
  }

  function EdgesRebuilt(events: seq<Event>): map<Key, Row> {
    if events == [] then map[]
    else AfterEdge(EdgesRebuilt(events[..|events| - 1]), events[|events| - 1].core)
  }

  // ---- The connections table by key ----

  function KeyOf(e: Edge): Key {
    Key(e.source, RelationName(e.relation), e.target)
  }

  function RowOf(e: Edge): Row {
    Row(JObject(e.properties), e.created, e.retracted)
  }

  function EdgesOf(edges: seq<Edge>): map<Key, Row> {
    if edges == [] then map[]
    else
      var last := edges[|edges| - 1];
      EdgesOf(edges[..|edges| - 1])[KeyOf(last) := RowOf(last)]
  }

  /** Relations of the closed vocabulary only, and one row per key. */
  ghost predicate Keyed(edges: seq<Edge>) {
    && (forall i :: 0 <= i < |edges| ==> !edges[i].relation.OtherRelation?)
    && (forall i, j :: 0 <= i < j < |edges| ==> KeyOf(edges[i]) != KeyOf(edges[j]))
  }

  ghost predicate EdgesExplained(st: State) {
    Keyed(st.edges) && EdgesOf(st.edges) == EdgesRebuilt(st.events)
  }

  /** No relation outside the closed vocabulary is known. */
  ghost predicate ClosedRelations(vocab: Vocabulary) {
    forall r: Relation :: r.OtherRelation? ==> vocab.relations(r).None?
  }

  lemma StandardClosesRelations()
    ensures ClosedRelations(Standard())
  {
  }

  lemma NamesDiffer(r: Relation, q: Relation)
    requires !r.OtherRelation? && !q.OtherRelation? && RelationName(r) == RelationName(q)
    ensures r == q
  {
  }

  lemma {:induction false} RowsByKey(edges: seq<Edge>)
    requires Keyed(edges)
    ensures forall k :: k in EdgesOf(edges) <==> exists i :: 0 <= i < |edges| && KeyOf(edges[i]) == k
    ensures forall i :: 0 <= i < |edges| ==>
            KeyOf(edges[i]) in EdgesOf(edges) && EdgesOf(edges)[KeyOf(edges[i])] == RowOf(edges[i])
  {
    hide KeyOf, RowOf, Keyed;
    if edges != [] {
      var n := |edges| - 1;
      var before := edges[..n];
      KeyedStep(edges);
      RowsByKey(before);
      forall k ensures k in EdgesOf(edges) <==> exists i :: 0 <= i < |edges| && KeyOf(edges[i]) == k {
        KeyStep(edges, k);
      }
      forall i | 0 <= i < |edges|
        ensures KeyOf(edges[i]) in EdgesOf(edges) && EdgesOf(edges)[KeyOf(edges[i])] == RowOf(edges[i])
      {
        if i < n { assert before[i] == edges[i]; }
      }
    }
  }

  lemma KeyedStep(edges: seq<Edge>)
    requires Keyed(edges) && edges != []
    ensures var n := |edges| - 1;
            Keyed(edges[..n]) && forall i :: 0 <= i < n ==> KeyOf(edges[i]) != KeyOf(edges[n])
  {
    hide KeyOf;
    var before := edges[..|edges| - 1];
    assert forall i :: 0 <= i < |before| ==> before[i] == edges[i];
  }

  lemma KeyStep(edges: seq<Edge>, k: Key)
    requires edges != []
    ensures var n := |edges| - 1;
            (exists i :: 0 <= i < |edges| && KeyOf(edges[i]) == k) <==>
              (exists i :: 0 <= i < n && KeyOf(edges[..n][i]) == k) || k == KeyOf(edges[n])
  {
    hide KeyOf;
    var n := |edges| - 1;
    var before := edges[..n];
    assert forall i :: 0 <= i < n ==> before[i] == edges[i];
    if i :| 0 <= i < n && KeyOf(before[i]) == k { assert KeyOf(edges[i]) == k; }
    if i :| 0 <= i < |edges| && KeyOf(edges[i]) == k {
      if i < n { assert KeyOf(before[i]) == k; }
    }
    if k == KeyOf(edges[n]) { assert KeyOf(edges[n]) == k; }
  }

  /** Two tables with the same rows by key are the same map. */
  lemma SameRows(edges: seq<Edge>, m: map<Key, Row>)
    requires Keyed(edges)
    requires forall k :: k in m <==> exists i :: 0 <= i < |edges| && KeyOf(edges[i]) == k
    requires forall i :: 0 <= i < |edges| ==> KeyOf(edges[i]) in m && m[KeyOf(edges[i])] == RowOf(edges[i])
    ensures EdgesOf(edges) == m
  {
    hide KeyOf, RowOf, EdgesOf;
    RowsByKey(edges);
    forall k | k in m ensures k in EdgesOf(edges) && EdgesOf(edges)[k] == m[k] {
      var i :| 0 <= i < |edges| && KeyOf(edges[i]) == k;
    }
  }

  lemma ReplaceRow(edges: seq<Edge>, i: nat, row: Edge)
    requires Keyed(edges) && i < |edges| && KeyOf(row) == KeyOf(edges[i]) && !row.relation.OtherRelation?
    ensures Keyed(edges[i := row]) && EdgesOf(edges[i := row]) == EdgesOf(edges)[KeyOf(row) := RowOf(row)]
  {
    hide KeyOf, RowOf, EdgesOf;
    RowsByKey(edges);
    var after, m := edges[i := row], EdgesOf(edges)[KeyOf(row) := RowOf(row)];
    assert forall j :: 0 <= j < |edges| ==> KeyOf(after[j]) == KeyOf(edges[j]);
    forall k ensures k in m <==> exists j :: 0 <= j < |after| && KeyOf(after[j]) == k {
      if j :| 0 <= j < |edges| && KeyOf(edges[j]) == k { assert KeyOf(after[j]) == k; }
      if j :| 0 <= j < |after| && KeyOf(after[j]) == k { assert KeyOf(edges[j]) == k; }
      if k == KeyOf(row) { assert KeyOf(after[i]) == k; }
    }
    SameRows(after, m);
  }

  lemma AppendRow(edges: seq<Edge>, row: Edge)
    requires Keyed(edges) && !row.relation.OtherRelation?
    requires forall i :: 0 <= i < |edges| ==> KeyOf(edges[i]) != KeyOf(row)
    ensures Keyed(edges + [row]) && EdgesOf(edges + [row]) == EdgesOf(edges)[KeyOf(row) := RowOf(row)]
  {
    hide KeyOf, RowOf;
    assert (edges + [row])[..|edges|] == edges;
  }

  // ---- One operation ----

  lemma OneMoreEvent(events: seq<Event>, e: Event)
    ensures EdgesRebuilt(events + [e]) == AfterEdge(EdgesRebuilt(events), e.core)
  {
    hide AfterEdge;
    assert (events + [e])[..|events|] == events;
  }

  /** A record of another kind of event, or a refused one, says nothing about connections. */
  lemma RecordSaysNothing(cfg: Config, env: Envelope, st: State, d: Draft)
    requires d.action != ConnectionCreated && d.action != ConnectionRetracted
    ensures var next := RecordEffect(cfg, env, st, d).state;
            EdgesRebuilt(next.events) == EdgesRebuilt(st.events) && next.edges == st.edges
  {
    hide RecordEffect, NextEvent, EdgesRebuilt;
    RecordCases(cfg, env, st, d);
    NextFields(cfg, env, st.events, d);
    OneMoreEvent(st.events, NextEvent(cfg, env, st.events, d));
  }

  /** An unkeyed record that is accepted appends its event. */
  lemma RecordAppends(cfg: Config, env: Envelope, st: State, d: Draft)
    requires d.key.None?
    ensures var r := RecordEffect(cfg, env, st, d);
            var e := NextEvent(cfg, env, st.events, d);
            && r.state == (if r.ok then st.(events := st.events + [e]) else st)
            && e.core.action == d.action && e.core.subjectId == d.subjectId
            && e.core.payload == d.payload && e.core.id == NextId(st.events)
            && EdgesRebuilt(st.events + [e]) == AfterEdge(EdgesRebuilt(st.events), e.core)
  {
    hide NextEvent, EdgesRebuilt, AfterEdge, Acceptable;
    NextFields(cfg, env, st.events, d);
    OneMoreEvent(st.events, NextEvent(cfg, env, st.events, d));
  }

  lemma NoRowNoKey(edges: seq<Edge>, f: string, r: Relation, t: string)
    requires Keyed(edges) && !r.OtherRelation? && EdgeIndex(edges, f, r, t) == |edges|
    ensures forall i :: 0 <= i < |edges| ==> KeyOf(edges[i]) != Key(f, RelationName(r), t)
  {
    hide RelationName;
    forall i | 0 <= i < |edges| ensures KeyOf(edges[i]) != Key(f, RelationName(r), t) {
      assert !edges[i].Is(f, r, t);
      if RelationName(edges[i].relation) == RelationName(r) { NamesDiffer(edges[i].relation, r); }
    }
  }

  lemma ConnectKeepsEdges(cfg: Config, env: Envelope, st: State, op: Op)
    requires ClosedRelations(cfg.vocab) && op.Connect? && EdgesExplained(st)
    ensures EdgesExplained(ConnectEffect(cfg, env, st, op).state)
  {
    hide RecordEffect, NextEvent, EdgesRebuilt, EdgesOf, Keyed, RelationName;
    var d := ConnectionDraft(op);
    RecordAppends(cfg, env, st, d);
    var next := ConnectEffect(cfg, env, st, op).state;
    if next != st {
      var i := EdgeIndex(st.edges, op.source, op.relation, op.target);
      var row := Edge(op.source, op.relation, op.target, op.properties, NextId(st.events), None);
      assert !op.relation.OtherRelation?;
      if i < |st.edges| {
        ReplaceRow(st.edges, i, row);
      } else {
        NoRowNoKey(st.edges, op.source, op.relation, op.target);
        AppendRow(st.edges, row);
      }
      CreatedFields(op);
    }
  }

  lemma CreatedFields(op: Op)
    requires op.Connect?
    ensures CreatedKey(ConnectionDraft(op).payload) == Key(op.source, RelationName(op.relation), op.target)
    ensures CreatedProperties(ConnectionDraft(op).payload) == JObject(op.properties)
  {
  }

  /** The retraction would change the row at `i`. */
  predicate Retractable(st: State, op: Op)
    requires op.Retract?
  {
    var i := EdgeIndex(st.edges, op.source, op.relation, op.target);
    i < |st.edges| && st.edges[i].Active()
  }

  /** The edge to be retracted is the only active one of its source: something a caller can check. */
  predicate Sole(st: State, op: Op)
    requires op.Retract?
  {
    forall k :: 0 <= k < |st.edges| && st.edges[k].Active() && st.edges[k].source == op.source ==>
      k == EdgeIndex(st.edges, op.source, op.relation, op.target)
  }

  /** Reading the retraction gives the retracted table exactly when the edge was the only active one of its source. */
  lemma RetractionReadsRight(edges: seq<Edge>, i: nat, at: nat)
    requires Keyed(edges) && i < |edges| && edges[i].Active()
    ensures var row := edges[i].(retracted := Some(at));
            var m := EdgesOf(edges);
            (map k | k in m :: RetractedRow(k, m[k], edges[i].source, at)) == EdgesOf(edges[i := row]) <==>
            forall k :: 0 <= k < |edges| && edges[k].Active() && edges[k].source == edges[i].source ==> k == i
  {
    hide EdgesOf, Keyed, RelationName, RetractedRow, KeyOf, RowOf;
    if forall k :: 0 <= k < |edges| && edges[k].Active() && edges[k].source == edges[i].source ==> k == i {
      SoleReadsRight(edges, i, at);
    } else {
      var j :| 0 <= j < |edges| && edges[j].Active() && edges[j].source == edges[i].source && j != i;
      OtherReadsWrong(edges, i, j, at);
    }
  }

  lemma RetractRow(edges: seq<Edge>, i: nat, at: nat)
    requires Keyed(edges) && i < |edges|
    ensures var after := edges[i := edges[i].(retracted := Some(at))];
            && Keyed(after)
                && EdgesOf(after) == EdgesOf(edges)[KeyOf(edges[i]) := RowOf(edges[i]).(retracted := Some(at))]
  {
    hide EdgesOf, Keyed;
    ReplaceRow(edges, i, edges[i].(retracted := Some(at))) by {
      ClosedRow(edges, i);
    }
  }

  lemma ClosedRow(edges: seq<Edge>, i: nat)
    requires Keyed(edges) && i < |edges|
    ensures !edges[i].relation.OtherRelation?
  {
  }

  lemma SoleReadsRight(edges: seq<Edge>, i: nat, at: nat)
    requires Keyed(edges) && i < |edges| && edges[i].Active()
    requires forall k :: 0 <= k < |edges| && edges[k].Active() && edges[k].source == edges[i].source ==> k == i
    ensures var m := EdgesOf(edges);
            (map k | k in m :: RetractedRow(k, m[k], edges[i].source, at))
            == EdgesOf(edges[i := edges[i].(retracted := Some(at))])
  {
    hide EdgesOf, Keyed, RelationName;
    RowsByKey(edges);
    RetractRow(edges, i, at);
    var m := EdgesOf(edges);
    forall k | k in m
      ensures RetractedRow(k, m[k], edges[i].source, at) ==
              m[KeyOf(edges[i]) := RowOf(edges[i]).(retracted := Some(at))][k]
    {
      var j :| 0 <= j < |edges| && KeyOf(edges[j]) == k;
      assert k.source == edges[j].source;
    }
  }

  lemma OtherReadsWrong(edges: seq<Edge>, i: nat, j: nat, at: nat)
    requires Keyed(edges) && i < |edges| && j < |edges| && i != j
    requires edges[j].Active() && edges[j].source == edges[i].source
    ensures var m := EdgesOf(edges);
            (map k | k in m :: RetractedRow(k, m[k], edges[i].source, at))
            != EdgesOf(edges[i := edges[i].(retracted := Some(at))])
  {
    DistinctKeys(edges, i, j);
    hide EdgesOf, Keyed, RelationName;
    RowsByKey(edges);
    RetractRow(edges, i, at);
    var m, k := EdgesOf(edges), KeyOf(edges[j]);
    var read := map k | k in m :: RetractedRow(k, m[k], edges[i].source, at);
    assert k in read && read[k].retracted == Some(at);
    assert EdgesOf(edges[i := edges[i].(retracted := Some(at))])[k] == RowOf(edges[j]);
  }

  lemma DistinctKeys(edges: seq<Edge>, i: nat, j: nat)
    requires Keyed(edges) && i < |edges| && j < |edges| && i != j
    ensures KeyOf(edges[i]) != KeyOf(edges[j])
  {
    hide KeyOf;
    if i < j { assert KeyOf(edges[i]) != KeyOf(edges[j]); } else { assert KeyOf(edges[j]) != KeyOf(edges[i]); }
  }

  /**
    After an effective retraction the log still explains the edges exactly when the edge
    was the only active one of its source.
   */
  lemma RetractionIsExplained(cfg: Config, env: Envelope, st: State, op: Op)
    requires op.Retract? && EdgesExplained(st) && Retractable(st, op)
    requires RetractEffect(cfg, env, st, op.source, op.relation, op.target, op.reason).ok
    ensures EdgesExplained(RetractEffect(cfg, env, st, op.source, op.relation, op.target, op.reason).state) <==>
            Sole(st, op)
  {
    hide RecordEffect, NextEvent, EdgesRebuilt, EdgesOf, Keyed, RetractedRow;
    var d := RetractDraft(op.source, op.reason);
    RecordAppends(cfg, env, st, d);
    var i := EdgeIndex(st.edges, op.source, op.relation, op.target);
    var row := st.edges[i].(retracted := Some(NextId(st.events)));
    RetractRow(st.edges, i, NextId(st.events));
    RetractionReadsRight(st.edges, i, NextId(st.events));
  }

  /** Another active edge whose retraction writes the very same log and leaves other edges. */
  ghost predicate Confusable(cfg: Config, env: Envelope, st: State, op: Op, k: nat)
    requires op.Retract?
  {
    && k < |st.edges| && st.edges[k].Active() && k != EdgeIndex(st.edges, op.source, op.relation, op.target)
    && var other := RetractEffect(cfg, env, st, st.edges[k].source, st.edges[k].relation, st.edges[k].target,
        op.reason).state;
       var after := RetractEffect(cfg, env, st, op.source, op.relation, op.target, op.reason).state;
       other.events == after.events && other.edges != after.edges
  }

  /**
    No reading of the log can do better: it tells the retracted edge exactly when that
    was the only active one of its source.
   */
  lemma RetractionIsAmbiguous(cfg: Config, env: Envelope, st: State, op: Op)
    requires op.Retract? && Keyed(st.edges) && Retractable(st, op)
    requires RetractEffect(cfg, env, st, op.source, op.relation, op.target, op.reason).ok
    ensures (exists k :: Confusable(cfg, env, st, op, k)) <==> !Sole(st, op)
  {
    forall k: nat | k < |st.edges| && st.edges[k].Active() && k != EdgeIndex(st.edges, op.source, op.relation,
        op.target)
      ensures Confusable(cfg, env, st, op, k) <==> st.edges[k].source == op.source
    {
      ConfusableBySource(cfg, env, st, op, k);
    }
    hide Confusable;
    if !Sole(st, op) {
      var k :| 0 <= k < |st.edges| && st.edges[k].Active() && st.edges[k].source == op.source
               && k != EdgeIndex(st.edges, op.source, op.relation, op.target);
      assert Confusable(cfg, env, st, op, k);
    }
    if k :| Confusable(cfg, env, st, op, k) {
      ConfusableRow(cfg, env, st, op, k);
    }
  }

  lemma ConfusableRow(cfg: Config, env: Envelope, st: State, op: Op, k: nat)
    requires op.Retract? && Confusable(cfg, env, st, op, k)
    ensures k < |st.edges| && st.edges[k].Active() && k != EdgeIndex(st.edges, op.source, op.relation, op.target)
  {
  }

  lemma ConfusableBySource(cfg: Config, env: Envelope, st: State, op: Op, k: nat)
    requires op.Retract? && Keyed(st.edges) && Retractable(st, op)
    requires RetractEffect(cfg, env, st, op.source, op.relation, op.target, op.reason).ok
    requires k < |st.edges| && st.edges[k].Active() && k != EdgeIndex(st.edges, op.source, op.relation, op.target)
    ensures Confusable(cfg, env, st, op, k) <==> st.edges[k].source == op.source
  {
    FoundByKey(st.edges, k);
    hide RecordEffect, NextEvent, EdgesRebuilt, Keyed;
    var d, f := RetractDraft(op.source, op.reason), RetractDraft(st.edges[k].source, op.reason);
    RecordAppends(cfg, env, st, d);
    RecordAppends(cfg, env, st, f);
    var e := NextEvent(cfg, env, st.events, d);
    assert (st.events + [e])[|st.events|] == e;
    var g := NextEvent(cfg, env, st.events, f);
    assert (st.events + [g])[|st.events|] == g;
    var i := EdgeIndex(st.edges, op.source, op.relation, op.target);
    var after := RetractEffect(cfg, env, st, op.source, op.relation, op.target, op.reason).state;
    var other := RetractEffect(cfg, env, st, st.edges[k].source, st.edges[k].relation, st.edges[k].target,
        op.reason).state;
    assert after.edges[i].retracted.Some? && other.edges[i] == st.edges[i];
    assert after.events == st.events + [e];
  }

  lemma FoundByKey(edges: seq<Edge>, k: nat)
    requires Keyed(edges) && k < |edges|
    ensures EdgeIndex(edges, edges[k].source, edges[k].relation, edges[k].target) == k
  {
    var i := EdgeIndex(edges, edges[k].source, edges[k].relation, edges[k].target);
    assert KeyOf(edges[i]) == KeyOf(edges[k]);
  }

  // ---- Connection events written by hand ----

  /**
    What a connection event recorded by hand must meet to tell nothing new: a
    creation never does, a retraction does when its subject has no active edge.
   */
  predicate EdgeSilent(st: State, d: Draft) {
    match d.action
    case ConnectionCreated => false
    case ConnectionRetracted => forall k :: 0 <= k < |st.edges| && st.edges[k].Active() ==>
      st.edges[k].source != d.subjectId
    case _ => true
  }

  ghost predicate RowsOlder(m: map<Key, Row>, n: nat) {
    forall k :: k in m ==> m[k].created < n
  }

  lemma AfterEdgeIsOlder(m: map<Key, Row>, e: EventCore)
    requires RowsOlder(m, e.id)
    ensures RowsOlder(AfterEdge(m, e), e.id + 1)
  {
  }

  lemma {:induction false} RebuiltRowsAreOlder(hash: Hash, events: seq<Event>)
    requires ChainOk(hash, events)
    ensures RowsOlder(EdgesRebuilt(events), NextId(events))
  {
    hide AfterEdge;
    if events != [] {
      var n := |events| - 1;
      ChainPrefix(hash, events, n);
      RebuiltRowsAreOlder(hash, events[..n]);
      ChainNextId(hash, events[..n]);
      assert Linked(hash, events, n);
      AfterEdgeIsOlder(EdgesRebuilt(events[..n]), events[n].core);
    }
  }

  /** The next event changes what is read off the log exactly when the draft is not silent. */
  lemma EdgeSilenceIsExact(cfg: Config, env: Envelope, st: State, d: Draft)
    requires Keyed(st.edges) && RowsOlder(EdgesOf(st.edges), NextId(st.events))
    ensures AfterEdge(EdgesOf(st.edges), NextEvent(cfg, env, st.events, d).core) == EdgesOf(st.edges) <==>
            EdgeSilent(st, d)
  {
    NextFields(cfg, env, st.events, d);
    var e := NextEvent(cfg, env, st.events, d).core;
    hide NextEvent, CreatedKey, CreatedProperties;
    var m := EdgesOf(st.edges);
    if d.action == ConnectionCreated {
      assert AfterEdge(m, e)[CreatedKey(d.payload)].created == e.id;
    } else if d.action == ConnectionRetracted {
      RetractionTellsNothing(st.edges, d.subjectId, e.id);
    }
  }

  lemma RetractionTellsNothing(edges: seq<Edge>, source: string, at: nat)
    requires Keyed(edges)
    ensures var m := EdgesOf(edges);
            (map k | k in m :: RetractedRow(k, m[k], source, at)) == m <==>
            forall k :: 0 <= k < |edges| && edges[k].Active() ==> edges[k].source != source
  {
    RowsByKey(edges);
    hide EdgesOf, Keyed, RelationName;
    var m := EdgesOf(edges);
    var read := map k | k in m :: RetractedRow(k, m[k], source, at);
    if k :| 0 <= k < |edges| && edges[k].Active() && edges[k].source == source {
      assert read[KeyOf(edges[k])].retracted == Some(at) && m[KeyOf(edges[k])] == RowOf(edges[k]);
    } else {
      forall k | k in m ensures RetractedRow(k, m[k], source, at) == m[k] {
        var j :| 0 <= j < |edges| && KeyOf(edges[j]) == k;
        assert m[k] == RowOf(edges[j]) && k.source == edges[j].source;
      }
    }
  }

  /** A record by hand keeps the connections explained if and only if it appends nothing or tells nothing new. */
  lemma RecordIsExplainedByEdges(cfg: Config, env: Envelope, st: State, d: Draft)
    requires EdgesExplained(st) && ChainOk(cfg.hash, st.events)
    ensures EdgesExplained(RecordEffect(cfg, env, st, d).state) <==>
            (Appends(cfg, env, st, d) ==> EdgeSilent(st, d))
  {
    AppendsItsEvent(cfg, env, st, d);
    RebuiltRowsAreOlder(cfg.hash, st.events);
    EdgeSilenceIsExact(cfg, env, st, d);
    hide RecordEffect, NextEvent, EdgesRebuilt, AfterEdge, Appends, EdgeSilent, EdgesOf, Keyed;
    OneMoreEvent(st.events, NextEvent(cfg, env, st.events, d));
  }

  // ---- Every run ----

  /**
    If this call retracts an edge, that is the only active one of its source;
    if it appends a connection event by hand, that tells nothing new.
   */
  ghost predicate Legible(cfg: Config, env: Envelope, st: State, op: Op) {
    && (op.Retract? && Retractable(st, op)
        && RetractEffect(cfg, env, st, op.source, op.relation, op.target, op.reason).ok ==>
          Sole(st, op))
    && (op.Record? && Appends(cfg, env, st, op.draft) ==> EdgeSilent(st, op.draft))
  }

  /** One operation keeps the connections explained if and only if it is legible. */
  lemma ApplyKeepsEdges(cfg: Config, env: Envelope, st: State, op: Op)
    requires ClosedRelations(cfg.vocab) && EdgesExplained(st) && ChainOk(cfg.hash, st.events)
    ensures EdgesExplained(Apply(cfg, env, st, op).state) <==> Legible(cfg, env, st, op)
  {
    hide EdgesExplained, RecordEffect, ConnectEffect, ClosedRelations, ChainOk, Appends, EdgeSilent, Sole;
    if op.Connect? {
      ConnectKeepsEdges(cfg, env, st, op);
    } else if op.Retract? {
      if Retractable(st, op) && RetractEffect(cfg, env, st, op.source, op.relation, op.target, op.reason).ok {
        RetractionIsExplained(cfg, env, st, op);
      } else {
        RecordAppends(cfg, env, st, RetractDraft(op.source, op.reason));
      }
    } else if op.Record? {
      RecordIsExplainedByEdges(cfg, env, st, op.draft);
    } else {
      OthersSayNothing(cfg, env, st, op);
      SameEdges(st, Apply(cfg, env, st, op).state);
    }
  }

  lemma SameEdges(s: State, t: State)
    requires EdgesExplained(s) && t.edges == s.edges && EdgesRebuilt(t.events) == EdgesRebuilt(s.events)
    ensures EdgesExplained(t)
  {
  }

  lemma OthersSayNothing(cfg: Config, env: Envelope, st: State, op: Op)
    requires !op.Record? && !op.Connect? && !op.Retract?
    ensures var next := Apply(cfg, env, st, op).state;
            EdgesRebuilt(next.events) == EdgesRebuilt(st.events) && next.edges == st.edges
  {
    hide RecordEffect, NextEvent, EdgesRebuilt, ObjectWellFormed, LowercaseSha256;
    forall s: State, d: Draft | d.action != ConnectionCreated && d.action != ConnectionRetracted
      ensures var next := RecordEffect(cfg, env, s, d).state;
              EdgesRebuilt(next.events) == EdgesRebuilt(s.events) && next.edges == s.edges
    {
      RecordSaysNothing(cfg, env, s, d);
    }
  }

  /** The connections are explained before and after every call of a block that commits. */
  ghost predicate CallsEdgesExplained(cfg: Config, env: Envelope, st: State, calls: seq<Call>)
    decreases |calls|
  {
    && EdgesExplained(st)
    && (calls != [] ==>
          var first := Apply(cfg, env, st, calls[0].op);
          first.ok || calls[0].caught ==> CallsEdgesExplained(cfg, env, first.state, calls[1..]))
  }

  ghost predicate CallsLegible(cfg: Config, env: Envelope, st: State, calls: seq<Call>)
    decreases |calls|
  {
    calls != [] ==>
      var first := Apply(cfg, env, st, calls[0].op);
      first.ok || calls[0].caught ==>
        Legible(cfg, env, st, calls[0].op) && CallsLegible(cfg, env, first.state, calls[1..])
  }

  /** The connections are explained at every moment of the run, those inside committed sessions included. */
  ghost predicate RunEdgesExplained(cfg: Config, st: State, sessions: seq<Session>)
    decreases |sessions|
  {
    && EdgesExplained(st)
    && (sessions != [] ==>
          && (RunCalls(cfg, sessions[0].env, st, sessions[0].calls).ok ==>
              CallsEdgesExplained(cfg, sessions[0].env, st, sessions[0].calls))
          && RunEdgesExplained(cfg, Transact(cfg, st, sessions[0]), sessions[1..]))
  }

  /** In every session that commits, each call is legible. */
  ghost predicate RunLegible(cfg: Config, st: State, sessions: seq<Session>)
    decreases |sessions|
  {
    sessions != [] ==>
      && (RunCalls(cfg, sessions[0].env, st, sessions[0].calls).ok ==>
          CallsLegible(cfg, sessions[0].env, st, sessions[0].calls))
      && RunLegible(cfg, Transact(cfg, st, sessions[0]), sessions[1..])
  }

  lemma {:induction false} CallsKeepEdges(cfg: Config, env: Envelope, st: State, calls: seq<Call>)
    requires ClosedRelations(cfg.vocab) && EdgesExplained(st) && ChainOk(cfg.hash, st.events)
    requires RunCalls(cfg, env, st, calls).ok
    ensures CallsEdgesExplained(cfg, env, st, calls) <==> CallsLegible(cfg, env, st, calls)
    ensures CallsLegible(cfg, env, st, calls) ==> EdgesExplained(RunCalls(cfg, env, st, calls).state)
    decreases |calls|
  {
    hide EdgesExplained, Apply, Legible, ClosedRelations, ChainOk;
    if calls != [] {
      var first := Apply(cfg, env, st, calls[0].op).state;
      ApplyKeepsEdges(cfg, env, st, calls[0].op);
      ApplyKeepsChain(cfg, env, st, calls[0].op);
      if EdgesExplained(first) {
        CallsKeepEdges(cfg, env, first, calls[1..]);
      } else {
        EdgesNotExplained(cfg, env, first, calls[1..]);
      }
    }
  }

  lemma EdgesNotExplained(cfg: Config, env: Envelope, st: State, calls: seq<Call>)
    requires !EdgesExplained(st)
    ensures !CallsEdgesExplained(cfg, env, st, calls)
  {
    hide EdgesExplained, Apply;
  }

  /** In any run the connections are at every moment what reading the log gives if and only if every call is legible. */
  lemma {:induction false} EveryRunExplainsEdges(cfg: Config, st: State, sessions: seq<Session>)
    requires ClosedRelations(cfg.vocab) && EdgesExplained(st) && ChainOk(cfg.hash, st.events)
    ensures RunEdgesExplained(cfg, st, sessions) <==> RunLegible(cfg, st, sessions)
    ensures RunLegible(cfg, st, sessions) ==> EdgesExplained(Run(cfg, st, sessions))
    decreases |sessions|
  {
    hide EdgesExplained, RunCalls, CallsEdgesExplained, CallsLegible, ClosedRelations, ChainOk;
    if sessions != [] {
      var s := sessions[0];
      var next := Transact(cfg, st, s);
      CallsKeepChain(cfg, s.env, st, s.calls);
      if RunCalls(cfg, s.env, st, s.calls).ok {
        CallsKeepEdges(cfg, s.env, st, s.calls);
      }
      if EdgesExplained(next) {
        EveryRunExplainsEdges(cfg, next, sessions[1..]);
      }
    }
  }

  /**
    The log rebuilds every table at every moment of a run, objects but for
    content, aliases, locations and connections, if and only if each retraction
    met the only active edge of its source and no event by hand told anything new.
   */
  lemma EveryRunIsFullyExplained(cfg: Config, st: State, sessions: seq<Session>)
    requires ClosedRelations(cfg.vocab) && Explained(st) && EdgesExplained(st) && ChainOk(cfg.hash, st.events)
    ensures RunExplained(cfg, st, sessions) && RunEdgesExplained(cfg, st, sessions) <==>
            RunTidy(cfg, st, sessions) && RunLegible(cfg, st, sessions)
    ensures RunTidy(cfg, st, sessions) && RunLegible(cfg, st, sessions) ==>
              Explained(Run(cfg, st, sessions)) && EdgesExplained(Run(cfg, st, sessions))
  {
    hide Explained, EdgesExplained, ClosedRelations, ChainOk;
    EveryRunIsExplained(cfg, st, sessions);
    EveryRunExplainsEdges(cfg, st, sessions);
  }

  lemma EmptyIsFullyExplained()
    ensures Explained(EMPTY) && EdgesExplained(EMPTY) && forall hash :: ChainOk(hash, EMPTY.events)
  {
    EmptyIsExplained();
  }
}
