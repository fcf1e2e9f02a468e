/** The program lineage exported after a run: nodes bound to their parents, and the path to the frontier. */
module Lineage {
  import opened Wrappers
  import opened Ordering

  /** One row of the program table, with what the files of its generation say. */
  datatype Row = Row(id: string, parentId: Option<string>, generation: int, score: real, accepted: seq<string>,
      files: string)

  /** What a node's own hash covers. */
  datatype Core = Core(
    id: string, generation: int, parent: Option<string>, parentHash: Option<string>,
    files: string, accepted: seq<string>, newlyAccepted: seq<string>, score: real)

  datatype Node = Node(core: Core, hash: string)

  datatype Error = UnresolvedParent(parent: string, id: string) | Cycle

  type Hash = Core -> string

  /** An absent or empty parent id means no parent. */
  function ParentOf(row: Row): Option<string> {
    if row.parentId == Some("") then None else row.parentId
  }

  /** The node last entered under an id. */
  function Find(nodes: seq<Node>, id: string): (found: Option<Node>)
    ensures found.Some? ==> found.value in nodes && found.value.core.id == id
    ensures found.None? ==> forall n :: n in nodes ==> n.core.id != id
  {
    if nodes == [] then None
    else
      var last := nodes[|nodes| - 1];
      assert nodes == nodes[..|nodes| - 1] + [last];
      if last.core.id == id then Some(last) else Find(nodes[..|nodes| - 1], id)
  }

  function FindParent(nodes: seq<Node>, parent: Option<string>): Option<Node> {
    if parent.None? then None else Find(nodes, parent.value)
  }

  function Minus(goals: seq<string>, known: seq<string>): (rest: seq<string>)
    ensures forall g :: g in rest <==> g in goals && g !in known
  {
    if goals == [] then []
    else
      assert goals == [goals[0]] + goals[1..];
      (if goals[0] in known then [] else [goals[0]]) + Minus(goals[1..], known)
  }

  function NodeOf(row: Row, earlier: seq<Node>, hash: Hash): Node {
    var parent := FindParent(earlier, ParentOf(row));
    var known := if parent.Some? then parent.value.core.accepted else [];
    var parentHash := if parent.Some? then Some(parent.value.hash) else None;
    var core := Core(row.id, row.generation, ParentOf(row), parentHash, row.files, row.accepted,
                     Sorted(Minus(row.accepted, known)), row.score);
    Node(core, hash(core))
  }

  /** Each row becomes a node that looks for its parent among the nodes before it. */
  function Nodes(rows: seq<Row>, hash: Hash): (nodes: seq<Node>)
    ensures |nodes| == |rows|
  {
    if rows == [] then []
    else
      var earlier := Nodes(rows[..|rows| - 1], hash);
      earlier + [NodeOf(rows[|rows| - 1], earlier, hash)]
  }

  function Unresolved(rows: seq<Row>, hash: Hash): seq<Error> {
    if rows == [] then []
    else
      var before, row := rows[..|rows| - 1], rows[|rows| - 1];
      Unresolved(before, hash) +
      (if ParentOf(row).Some? && FindParent(Nodes(before, hash), ParentOf(row)).None?
       then [UnresolvedParent(ParentOf(row).value, row.id)] else [])
  }

  // ---- What the nodes say ----

  /** Row `j` is the last one before `k` with the id that row `k` names as its parent. */
  predicate ParentRow(rows: seq<Row>, k: nat, j: nat) {
    && j < k < |rows| && rows[j].id != "" && rows[k].parentId == Some(rows[j].id)
    && forall i :: j < i < k ==> rows[i].id != rows[j].id
  }

  /** Row `k` names a parent, and no row before it has that id. */
  predicate Orphan(rows: seq<Row>, k: nat) {
    && k < |rows| && rows[k].parentId.Some? && rows[k].parentId.value != ""
    && forall j :: 0 <= j < k ==> rows[j].id != rows[k].parentId.value
  }

  /**
    A node carries its row, the hash of its parent's node, and as newly accepted,
    in order and once each, the goals its parent had not accepted.
   */
  ghost predicate NodeSays(rows: seq<Row>, nodes: seq<Node>, hash: Hash, k: nat) {
    && k < |rows| == |nodes|
    && var c, r := nodes[k].core, rows[k];
       && nodes[k].hash == hash(c)
       && c.id == r.id && c.generation == r.generation && c.score == r.score && c.files == r.files
       && c.accepted == r.accepted && Ascending(c.newlyAccepted)
       && (r.parentId == Some("") ==> c.parent == None) && (r.parentId != Some("") ==> c.parent == r.parentId)
       && (forall j: nat :: ParentRow(rows, k, j) ==>
             && c.parentHash == Some(nodes[j].hash)
             && forall g :: g in c.newlyAccepted <==> g in r.accepted && g !in rows[j].accepted)
       && ((forall j: nat :: !ParentRow(rows, k, j)) ==>
             c.parentHash == None && forall g :: g in c.newlyAccepted <==> g in r.accepted)
  }

  /** The errors name exactly the orphans. */
  ghost predicate ReportsOrphans(rows: seq<Row>, errors: seq<Error>) {
    forall e :: e in errors <==> exists k: nat :: ReportOn(rows, k, e)
  }

  predicate ReportOn(rows: seq<Row>, k: nat, e: Error) {
    Orphan(rows, k) && e == UnresolvedParent(rows[k].parentId.value, rows[k].id)
  }

  /** The node found under an id is the last one with that id. */
  lemma {:induction false} FindLast(nodes: seq<Node>, id: string) returns (j: nat)
    requires Find(nodes, id).Some?
    ensures j < |nodes| && Find(nodes, id) == Some(nodes[j]) && nodes[j].core.id == id
    ensures forall i :: j < i < |nodes| ==> nodes[i].core.id != id
  {
    var n := |nodes| - 1;
    if nodes[n].core.id == id { j := n; } else { j := FindLast(nodes[..n], id); }
  }

  lemma ParentIsRow(rows: seq<Row>, nodes: seq<Node>, k: nat)
    requires k < |rows| == |nodes| && forall i :: 0 <= i < |rows| ==> nodes[i].core.id == rows[i].id
    ensures var found := FindParent(nodes[..k], ParentOf(rows[k]));
            && (forall j: nat :: ParentRow(rows, k, j) ==> found == Some(nodes[j]))
            && ((forall j: nat :: !ParentRow(rows, k, j)) ==> found == None)
            && (Orphan(rows, k) <==> ParentOf(rows[k]).Some? && found == None)
  {
    hide Find;
    var parent := ParentOf(rows[k]);
    if parent.Some? {
      var earlier := nodes[..k];
      var found := Find(earlier, parent.value);
      if found.Some? {
        var l := FindLast(earlier, parent.value);
        assert earlier[l] == nodes[l];
        assert forall i :: l < i < k ==> earlier[i] == nodes[i];
        assert ParentRow(rows, k, l);
        forall j: nat | ParentRow(rows, k, j) ensures j == l { OneParentRow(rows, k, j, l); }
      } else {
        forall j | 0 <= j < k ensures rows[j].id != parent.value {
          assert earlier[j] in earlier && earlier[j] == nodes[j];
        }
      }
    }
  }

  lemma OneParentRow(rows: seq<Row>, k: nat, i: nat, j: nat)
    requires ParentRow(rows, k, i) && ParentRow(rows, k, j)
    ensures i == j
  {
  }

  lemma {:induction false} IdsOfRows(rows: seq<Row>, hash: Hash)
    ensures forall i :: 0 <= i < |rows| ==> Nodes(rows, hash)[i].core.id == rows[i].id
    ensures forall i :: 0 <= i < |rows| ==> Nodes(rows, hash)[i].core.accepted == rows[i].accepted
  {
    hide FindParent, Minus, Sorted;
    if rows != [] { IdsOfRows(rows[..|rows| - 1], hash); }
  }

  lemma NodesSay(rows: seq<Row>, hash: Hash, k: nat)
    requires k < |rows|
    ensures NodeSays(rows, Nodes(rows, hash), hash, k)
  {
    hide FindParent, Nodes, ParentRow;
    NodeAt(rows, hash, k);
    IdsOfRows(rows, hash);
    ParentIsRow(rows, Nodes(rows, hash), k);
    forall j: nat | ParentRow(rows, k, j) ensures j < k { ParentIsEarlier(rows, k, j); }
  }

  lemma ParentIsEarlier(rows: seq<Row>, k: nat, j: nat)
    requires ParentRow(rows, k, j)
    ensures j < k
  {
  }

  lemma {:induction false} OrphansAreReported(rows: seq<Row>, hash: Hash)
    ensures ReportsOrphans(rows, Unresolved(rows, hash))
  {
    hide FindParent, Nodes, ParentOf, ReportOn, Orphan;
    if rows == [] {
      NoOrphans(rows);
    } else {
      var n := |rows| - 1;
      var before := rows[..n];
      OrphansAreReported(before, hash);
      IdsOfRows(rows, hash);
      NodeAt(rows, hash, n);
      ParentIsRow(rows, Nodes(rows, hash), n);
      var errors, earlier := Unresolved(rows, hash), Unresolved(before, hash);
      forall e ensures e in errors <==> exists k: nat :: ReportOn(rows, k, e) {
        LastReport(rows, e);
        forall k: nat ensures ReportOn(rows, k, e) <==> ReportOn(before, k, e) || (k == n && ReportOn(rows, n, e)) {
          ReportBefore(rows, k, e);
        }
        if k: nat :| ReportOn(before, k, e) { assert ReportOn(rows, k, e); }
      }
    }
  }

  lemma NoOrphans(rows: seq<Row>)
    requires rows == []
    ensures forall k: nat, e :: !ReportOn(rows, k, e)
  {
  }

  lemma LastReport(rows: seq<Row>, e: Error)
    requires rows != []
    ensures var n := |rows| - 1;
            ReportOn(rows, n, e) <==>
              Orphan(rows, n) && ParentOf(rows[n]).Some? && e == UnresolvedParent(ParentOf(rows[n]).value, rows[n].id)
  {
  }

  lemma ReportBefore(rows: seq<Row>, k: nat, e: Error)
    requires rows != []
    ensures var n := |rows| - 1;
            ReportOn(rows, k, e) <==> ReportOn(rows[..n], k, e) || (k == n && ReportOn(rows, n, e))
  {
    var before := rows[..|rows| - 1];
    assert forall i :: 0 <= i < |before| ==> before[i] == rows[i];
  }

  // ---- The frontier ----

  /** Ranked by score, then by number of accepted goals, then by generation. */
  predicate Outranks(a: Node, b: Node) {
    || a.core.score > b.core.score
    || (a.core.score == b.core.score && |a.core.accepted| > |b.core.accepted|)
    || (a.core.score == b.core.score && |a.core.accepted| == |b.core.accepted| && a.core.generation > b.core.generation)
  }

  /** The first of the highest ranked nodes. */
  predicate IsFrontier(nodes: seq<Node>, k: nat) {
    && k < |nodes|
    && (forall i :: 0 <= i < |nodes| ==> !Outranks(nodes[i], nodes[k]))
    && (forall i :: 0 <= i < k ==> Outranks(nodes[k], nodes[i]))
  }

  // ---- The path ----

  predicate DistinctIds(path: seq<Node>) {
    forall i, j :: 0 <= i < j < |path| ==> path[i].core.id != path[j].core.id
  }

  /** `path` ends at `frontier` and each node on it is what the next one's parent id names. */
  predicate Traced(nodes: seq<Node>, frontier: Node, path: seq<Node>) {
    && path != [] && path[|path| - 1] == frontier
    && (forall i :: 0 <= i < |path| ==> path[i] in nodes)
    && (forall i :: 0 <= i < |path| - 1 ==> path[i + 1].core.parent == Some(path[i].core.id))
    && (forall i :: 0 <= i < |path| - 1 ==> Find(nodes, path[i].core.id) == Some(path[i]))
    && DistinctIds(path)
  }

  /** The path can be continued no further: its first node names no parent that exists. */
  predicate Rooted(nodes: seq<Node>, path: seq<Node>)
    requires path != []
  {
    FindParent(nodes, path[0].core.parent).None?
  }

  /** The first node names a parent that is on the path. */
  predicate Loops(path: seq<Node>)
    requires path != []
  {
    path[0].core.parent.Some? && exists i :: 0 <= i < |path| && path[i].core.id == path[0].core.parent.value
  }

  datatype Export = Export(nodes: seq<Node>, frontier: Option<Node>, path: seq<Node>, errors: seq<Error>)

  predicate UniqueIds(rows: seq<Row>) {
    forall i, j :: 0 <= i < j < |rows| ==> rows[i].id != rows[j].id
  }

  /** `byId` holds, for each id, the node last entered under it. */
  ghost predicate Tabulates(byId: map<string, Node>, nodes: seq<Node>) {
    forall id :: Find(nodes, id) == if id in byId then Some(byId[id]) else None
  }

  lemma TabulatesOneMore(byId: map<string, Node>, nodes: seq<Node>, node: Node)
    requires Tabulates(byId, nodes)
    ensures Tabulates(byId[node.core.id := node], nodes + [node])
  {
    assert (nodes + [node])[..|nodes|] == nodes;
  }

  lemma OneMoreRow(rows: seq<Row>, k: nat, hash: Hash)
    requires k < |rows|
    ensures var before, row := Nodes(rows[..k], hash), rows[k];
            Nodes(rows[..k + 1], hash) == before + [NodeOf(row, before, hash)] &&
            Unresolved(rows[..k + 1], hash) == Unresolved(rows[..k], hash) +
              (if ParentOf(row).Some? && FindParent(before, ParentOf(row)).None?
               then [UnresolvedParent(ParentOf(row).value, row.id)] else [])
  {
    hide NodeOf, FindParent;
    assert rows[..k + 1][..k] == rows[..k];
  }

  lemma NoRows(hash: Hash)
    ensures Nodes([], hash) == [] && Unresolved([], hash) == [] && Tabulates(map[], [])
  {
  }

  lemma ParentTabulated(byId: map<string, Node>, nodes: seq<Node>, parent: Option<string>)
    requires Tabulates(byId, nodes)
    ensures FindParent(nodes, parent) == if parent.Some? && parent.value in byId then Some(byId[parent.value]) else None
  {
    hide Find;
  }

  method BuildNodes(rows: seq<Row>, hash: Hash) returns (nodes: seq<Node>, byId: map<string, Node>, errors: seq<Error>)
    ensures nodes == Nodes(rows, hash) && errors == Unresolved(rows, hash)
    ensures Tabulates(byId, nodes)
    ensures |nodes| == |rows| && forall k: nat :: k < |rows| ==> NodeSays(rows, nodes, hash, k)
    ensures ReportsOrphans(rows, errors)
  {
    hide Find, FindParent, Minus, Sorted, Tabulates, Nodes, Unresolved, ParentOf, NodeSays, ReportsOrphans;
    nodes, byId, errors := [], map[], [];
    var k := 0;
    NoRows(hash);
    assert rows[..0] == [];
    while k < |rows|
      invariant 0 <= k <= |rows|
      invariant nodes == Nodes(rows[..k], hash) && errors == Unresolved(rows[..k], hash)
      invariant Tabulates(byId, nodes)
    {
      var row := rows[k];
      var parentId := ParentOf(row);
      var parent := if parentId.Some? && parentId.value in byId then Some(byId[parentId.value]) else None;
      ParentTabulated(byId, nodes, parentId);
      if parentId.Some? && parent.None? {
        errors := errors + [UnresolvedParent(parentId.value, row.id)];
      }
      var known := if parent.Some? then parent.value.core.accepted else [];
      var parentHash := if parent.Some? then Some(parent.value.hash) else None;
      var core := Core(row.id, row.generation, parentId, parentHash, row.files, row.accepted,
                       Sorted(Minus(row.accepted, known)), row.score);
      var node := Node(core, hash(core));
      TabulatesOneMore(byId, nodes, node);
      OneMoreRow(rows, k, hash);
      assert node == NodeOf(row, nodes, hash);
      nodes := nodes + [node];
      byId := byId[row.id := node];
      k := k + 1;
    }
    assert rows[..k] == rows;
    OrphansAreReported(rows, hash);
    forall k: nat | k < |rows| ensures NodeSays(rows, nodes, hash, k) { NodesSay(rows, hash, k); }
  }

  method PickFrontier(nodes: seq<Node>) returns (k: nat)
    requires nodes != []
    ensures IsFrontier(nodes, k)
    ensures forall i: nat :: i < |nodes| ==>
              var a, b := nodes[i].core, nodes[k].core;
              && a.score <= b.score
              && (a.score == b.score ==> |a.accepted| <= |b.accepted|)
              && (a.score == b.score && |a.accepted| == |b.accepted| ==> a.generation <= b.generation)
              && (a.score == b.score && |a.accepted| == |b.accepted| && a.generation == b.generation ==> k <= i)
  {
    k := 0;
    var i := 1;
    while i < |nodes|
      invariant 1 <= i <= |nodes|
      invariant IsFrontier(nodes[..i], k)
    {
      if Outranks(nodes[i], nodes[k]) { k := i; }
      i := i + 1;
    }
    assert nodes[..i] == nodes;
  }

  function Reversed(s: seq<Node>): (r: seq<Node>)
    ensures |r| == |s| && forall i :: 0 <= i < |r| ==> r[i] == s[|s| - 1 - i]
  {
    seq(|s|, i requires 0 <= i < |s| => s[|s| - 1 - i])
  }

  function Ids(path: seq<Node>): set<string> {
    set i | 0 <= i < |path| :: path[i].core.id
  }

  /** Where the walk is after some steps: `path` so far, and the program to visit next. */
  ghost predicate Walking(nodes: seq<Node>, frontier: Node, path: seq<Node>, cursor: Option<Node>) {
    && (cursor.Some? ==> cursor.value in nodes)
    && (path == [] ==> cursor == Some(frontier))
    && (path != [] ==> Traced(nodes, frontier, path) && cursor == FindParent(nodes, path[0].core.parent))
  }

  lemma IdsOfLonger(path: seq<Node>, node: Node)
    ensures Ids([node] + path) == Ids(path) + {node.core.id}
  {
    var longer := [node] + path;
    forall g | g in Ids(path) ensures g in Ids(longer) {
      var i :| 0 <= i < |path| && path[i].core.id == g;
      assert longer[i + 1].core.id == g;
    }
    assert longer[0].core.id == node.core.id;
  }

  lemma StillDistinct(path: seq<Node>, node: Node)
    requires DistinctIds(path) && node.core.id !in Ids(path)
    ensures DistinctIds([node] + path)
  {
    var longer := [node] + path;
    forall i, j | 0 <= i < j < |longer| ensures longer[i].core.id != longer[j].core.id {
      assert longer[j] == path[j - 1];
      if i == 0 {
        assert path[j - 1].core.id in Ids(path);
      } else {
        assert longer[i] == path[i - 1];
      }
    }
  }

  lemma WalkOn(nodes: seq<Node>, frontier: Node, path: seq<Node>, node: Node)
    requires Walking(nodes, frontier, path, Some(node)) && node.core.id !in Ids(path)
    ensures Walking(nodes, frontier, [node] + path, FindParent(nodes, node.core.parent))
    ensures Ids([node] + path) == Ids(path) + {node.core.id}
  {
    IdsOfLonger(path, node);
    if path == [] {
      assert [node] + path == [node];
    } else {
      StillDistinct(path, node);
      hide Find, DistinctIds, Ids;
      var longer := [node] + path;
      forall i | 0 <= i < |longer| - 1
        ensures longer[i + 1].core.parent == Some(longer[i].core.id)
                && Find(nodes, longer[i].core.id) == Some(longer[i])
      {
        assert longer[i + 1] == path[i];
        if i > 0 { assert longer[i] == path[i - 1]; }
      }
    }
  }

  lemma NoIds()
    ensures Ids([]) == {}
  {
  }

  lemma RootedDoesNotLoop(nodes: seq<Node>, frontier: Node, path: seq<Node>)
    requires Traced(nodes, frontier, path) && Rooted(nodes, path)
    ensures !Loops(path)
  {
  }

  lemma Start(nodes: seq<Node>, frontier: Node)
    requires frontier in nodes
    ensures Walking(nodes, frontier, [], Some(frontier))
  {
  }

  lemma Tabulated(byId: map<string, Node>, nodes: seq<Node>, frontier: Node, path: seq<Node>, node: Node)
    requires Tabulates(byId, nodes) && Walking(nodes, frontier, path, Some(node))
    ensures node.core.id in byId
    ensures var parent := node.core.parent;
            FindParent(nodes, parent) == if parent.Some? && parent.value in byId then Some(byId[parent.value]) else None
  {
    hide Find, Traced;
  }

  lemma Finished(nodes: seq<Node>, frontier: Node, path: seq<Node>, cursor: Option<Node>)
    requires Walking(nodes, frontier, path, cursor)
    requires cursor.Some? ==> cursor.value.core.id in Ids(path)
    ensures Traced(nodes, frontier, path)
    ensures Loops(path) <==> cursor.Some?
    ensures cursor.None? ==> Rooted(nodes, path)
  {
    if cursor.None? {
      RootedDoesNotLoop(nodes, frontier, path);
    } else {
      assert path != [] && cursor.value.core.id == path[0].core.parent.value;
    }
  }

  /** Follows parents from the frontier, stopping at a program already met. */
  method Walk(ghost nodes: seq<Node>, byId: map<string, Node>, frontier: Node) returns (path: seq<Node>, cycle: bool)
    requires frontier in nodes
    requires Tabulates(byId, nodes)
    ensures Traced(nodes, frontier, path)
    ensures cycle == Loops(path)
    ensures cycle || Rooted(nodes, path)
  {
    hide Find, FindParent, Tabulates, Walking, Traced, Rooted, Ids, Loops;
    Start(nodes, frontier);
    var trail: seq<Node>, seen: set<string>, cursor := [], {}, Some(frontier);
    cycle := false;
    ghost var been: seq<Node> := [];
    assert Ids(been) == {} by { NoIds(); }
    while cursor.Some?
      invariant Walking(nodes, frontier, been, cursor)
      invariant been == Reversed(trail) && seen == Ids(been) && seen <= byId.Keys
      decreases |byId.Keys - seen|, cursor.Some?
    {
      var node := cursor.value;
      if node.core.id in seen {
        cycle := true;
        break;
      }
      WalkOn(nodes, frontier, been, node);
      Tabulated(byId, nodes, frontier, been, node);
      been := [node] + been;
      seen := seen + {node.core.id};
      trail := trail + [node];
      cursor := if node.core.parent.Some? && node.core.parent.value in byId then Some(byId[node.core.parent.value])
          else None;
    }
    path := Reversed(trail);
    Finished(nodes, frontier, path, cursor);
  }

  // ---- A complete lineage ----

  /** Where an id was last entered. */
  function Index(nodes: seq<Node>, id: string): (k: int)
    ensures Find(nodes, id).Some? ==> 0 <= k < |nodes| && Find(nodes, id).value == nodes[k]
  {
    if nodes == [] then -1
    else if nodes[|nodes| - 1].core.id == id then |nodes| - 1
    else Index(nodes[..|nodes| - 1], id)
  }

  lemma {:induction false} FindsEarlier(nodes: seq<Node>, k: nat, id: string)
    requires k <= |nodes| && Find(nodes[..k], id).Some? && DistinctIds(nodes)
    ensures Find(nodes, id) == Find(nodes[..k], id) && Index(nodes, id) < k
    decreases |nodes| - k
  {
    if k == |nodes| {
      assert nodes[..k] == nodes;
    } else {
      var found := Find(nodes[..k], id).value;
      var j :| 0 <= j < k && nodes[..k][j] == found;
      assert nodes[j].core.id == id != nodes[|nodes| - 1].core.id;
      assert nodes[..|nodes| - 1][..k] == nodes[..k];
      FindsEarlier(nodes[..|nodes| - 1], k, id);
    }
  }

  lemma {:induction false} NodeAt(rows: seq<Row>, hash: Hash, k: nat)
    requires k < |rows|
    ensures Nodes(rows, hash)[..k] == Nodes(rows[..k], hash)
    ensures Nodes(rows, hash)[k] == NodeOf(rows[k], Nodes(rows, hash)[..k], hash)
  {
    hide NodeOf;
    var n := |rows| - 1;
    if k < n {
      NodeAt(rows[..n], hash, k);
      assert rows[..n][..k] == rows[..k];
      assert Nodes(rows, hash)[..n] == Nodes(rows[..n], hash);
      assert Nodes(rows, hash)[..k] == Nodes(rows[..n], hash)[..k];
    }
  }

  lemma {:induction false} ResolvedAt(rows: seq<Row>, hash: Hash, k: nat)
    requires k < |rows| && Unresolved(rows, hash) == [] && ParentOf(rows[k]).Some?
    ensures FindParent(Nodes(rows, hash)[..k], ParentOf(rows[k])).Some?
  {
    hide NodeOf, FindParent, Nodes, ParentOf;
    var n := |rows| - 1;
    NodeAt(rows, hash, k);
    assert rows[..k + 1][..k] == rows[..k];
    if k < n {
      NodeAt(rows[..n], hash, k);
      assert rows[..n][..k] == rows[..k];
      ResolvedAt(rows[..n], hash, k);
    }
  }

  lemma IdsAreDistinct(rows: seq<Row>, hash: Hash)
    requires UniqueIds(rows)
    ensures DistinctIds(Nodes(rows, hash))
  {
    var nodes := Nodes(rows, hash);
    forall i, j | 0 <= i < j < |nodes| ensures nodes[i].core.id != nodes[j].core.id {
      NodeAt(rows, hash, i);
      NodeAt(rows, hash, j);
    }
  }

  /** `node` is bound to the node its parent id names, and claims what that one had not accepted. */
  ghost predicate Bound(nodes: seq<Node>, node: Node, hash: Hash) {
    var parent := FindParent(nodes, node.core.parent);
    && node.hash == hash(node.core)
    && parent.None? == node.core.parent.None?
    && node.core.parentHash == (if parent.Some? then Some(parent.value.hash) else None)
    && (forall g :: g in node.core.newlyAccepted <==>
          g in node.core.accepted && (parent.None? || g !in parent.value.core.accepted))
    && (parent.Some? ==> Index(nodes, parent.value.core.id) < Index(nodes, node.core.id))
  }

  lemma NodesAreBound(rows: seq<Row>, hash: Hash, node: Node)
    requires UniqueIds(rows) && Unresolved(rows, hash) == [] && node in Nodes(rows, hash)
    ensures Bound(Nodes(rows, hash), node, hash)
  {
    hide Find, Index, DistinctIds, NodeOf, Bound, FindParent;
    var nodes := Nodes(rows, hash);
    var k :| 0 <= k < |nodes| && nodes[k] == node;
    NodeAt(rows, hash, k);
    IdsAreDistinct(rows, hash);
    if ParentOf(rows[k]).Some? { ResolvedAt(rows, hash, k); }
    BoundAt(nodes, k, rows[k], hash);
  }

  lemma BoundAt(nodes: seq<Node>, k: nat, row: Row, hash: Hash)
    requires k < |nodes| && DistinctIds(nodes) && nodes[k] == NodeOf(row, nodes[..k], hash)
    requires ParentOf(row).Some? ==> FindParent(nodes[..k], ParentOf(row)).Some?
    ensures Bound(nodes, nodes[k], hash)
  {
    hide Find, Index, DistinctIds, Minus;
    FoundAt(nodes, k);
    if ParentOf(row).Some? { FindsEarlier(nodes, k, ParentOf(row).value); }
    var core := nodes[k].core;
    assert core.parent == ParentOf(row) && FindParent(nodes, core.parent) == FindParent(nodes[..k], core.parent);
  }

  lemma {:induction false} FoundAt(nodes: seq<Node>, k: nat)
    requires k < |nodes| && DistinctIds(nodes)
    ensures Index(nodes, nodes[k].core.id) == k
  {
    var n := |nodes| - 1;
    if k < n {
      FoundAt(nodes[..n], k);
      assert nodes[k].core.id != nodes[n].core.id;
    }
  }

  /** From root to frontier: each node hashed, each bound by hash to the one before it, and the first one parentless. */
  ghost predicate Chain(path: seq<Node>, hash: Hash) {
    && (forall n :: n in path ==> n.hash == hash(n.core))
    && path != [] && path[0].core.parent.None? && path[0].core.parentHash.None?
    && (forall i :: 0 <= i < |path| - 1 ==>
          path[i + 1].core.parent == Some(path[i].core.id) && path[i + 1].core.parentHash == Some(path[i].hash))
    && DistinctIds(path)
  }

  /** `goal` is newly accepted at some node up to `i` and stays accepted from there to `i`. */
  ghost predicate Credited(path: seq<Node>, goal: string, i: nat)
    requires i < |path|
  {
    exists c :: 0 <= c <= i && goal in path[c].core.newlyAccepted && forall j :: c <= j <= i ==>
        goal in path[j].core.accepted
  }

  lemma {:induction false} PathClimbs(nodes: seq<Node>, frontier: Node, path: seq<Node>, i: nat, j: nat, hash: Hash)
    requires Traced(nodes, frontier, path) && (forall n :: n in nodes ==> Bound(nodes, n, hash))
    requires i <= j < |path|
    ensures Index(nodes, path[i].core.id) <= Index(nodes, path[j].core.id)
    decreases j
  {
    if i < j {
      assert path[j] in nodes;
      assert path[j - 1 + 1].core.parent == Some(path[j - 1].core.id);
      PathClimbs(nodes, frontier, path, i, j - 1, hash);
    }
  }

  lemma {:induction false} GoalsAreCredited(nodes: seq<Node>, frontier: Node, path: seq<Node>, goal: string, i: nat,
      hash: Hash)
    requires Traced(nodes, frontier, path) && Rooted(nodes, path) && (forall n :: n in nodes ==> Bound(nodes, n, hash))
    requires i < |path| && goal in path[i].core.accepted
    ensures Credited(path, goal, i)
    decreases i
  {
    hide Find, Index, DistinctIds;
    assert path[i] in nodes;
    if goal !in path[i].core.newlyAccepted {
      assert path[i - 1 + 1].core.parent == Some(path[i - 1].core.id);
      GoalsAreCredited(nodes, frontier, path, goal, i - 1, hash);
      StillCredited(path, goal, i);
    }
  }

  lemma StillCredited(path: seq<Node>, goal: string, i: nat)
    requires 0 < i < |path| && Credited(path, goal, i - 1) && goal in path[i].core.accepted
    ensures Credited(path, goal, i)
  {
    var c :| 0 <= c <= i - 1 && goal in path[c].core.newlyAccepted && forall j :: c <= j <= i - 1 ==>
        goal in path[j].core.accepted;
    assert goal in path[c].core.newlyAccepted && forall j :: c <= j <= i ==> goal in path[j].core.accepted;
  }

  /**
    When every parent was resolved the walk cannot meet a cycle; it ends in a
    root, and every goal accepted at the frontier is credited on the path.
   */
  lemma CompleteLineage(rows: seq<Row>, hash: Hash, frontier: Node, path: seq<Node>)
    requires UniqueIds(rows) && Unresolved(rows, hash) == []
    requires Traced(Nodes(rows, hash), frontier, path) && (Loops(path) || Rooted(Nodes(rows, hash), path))
    ensures !Loops(path) && Chain(path, hash)
    ensures forall goal :: goal in frontier.core.accepted ==> Credited(path, goal, |path| - 1)
  {
    var nodes := Nodes(rows, hash);
    forall n | n in nodes ensures Bound(nodes, n, hash) { NodesAreBound(rows, hash, n); }
    NoLoop(nodes, frontier, path, hash);
    PathIsChain(nodes, frontier, path, hash);
    hide Bound, Traced, Rooted, Loops, Chain, Credited;
    forall goal | goal in frontier.core.accepted ensures Credited(path, goal, |path| - 1) {
      FrontierIsLast(nodes, frontier, path);
      GoalsAreCredited(nodes, frontier, path, goal, |path| - 1, hash);
    }
  }

  lemma FrontierIsLast(nodes: seq<Node>, frontier: Node, path: seq<Node>)
    requires Traced(nodes, frontier, path)
    ensures path != [] && path[|path| - 1] == frontier
  {
  }

  lemma NoLoop(nodes: seq<Node>, frontier: Node, path: seq<Node>, hash: Hash)
    requires Traced(nodes, frontier, path) && (forall n :: n in nodes ==> Bound(nodes, n, hash))
    ensures !Loops(path)
  {
    hide Find, DistinctIds;
    assert path[0] in nodes;
    if Loops(path) {
      var i :| 0 <= i < |path| && path[i].core.id == path[0].core.parent.value;
      PathClimbs(nodes, frontier, path, 0, i, hash);
      assert false;
    }
  }

  lemma PathIsChain(nodes: seq<Node>, frontier: Node, path: seq<Node>, hash: Hash)
    requires Traced(nodes, frontier, path) && (forall n :: n in nodes ==> Bound(nodes, n, hash))
    requires Rooted(nodes, path)
    ensures Chain(path, hash)
  {
    hide Find, Index, DistinctIds;
    assert path[0] in nodes && Bound(nodes, path[0], hash);
    forall n | n in path ensures n.hash == hash(n.core) {
      assert n in nodes && Bound(nodes, n, hash);
    }
    forall i | 0 <= i < |path| - 1 ensures path[i + 1].core.parentHash == Some(path[i].hash) {
      assert path[i + 1] in nodes && Bound(nodes, path[i + 1], hash);
    }
  }

  /** The frontier's hash alone determines the whole path, unless two different cores on the paths share a hash. */
  lemma {:induction false} FrontierHashBindsPath(p: seq<Node>, q: seq<Node>, hash: Hash)
    requires Chain(p, hash) && Chain(q, hash)
    requires p[|p| - 1].hash == q[|q| - 1].hash
    ensures p == q || exists i, j :: Collide(p, q, hash, i, j)
    decreases |p|
  {
    hide Chain, Collide;
    ChainEnds(p, hash);
    ChainEnds(q, hash);
    var m, n := |p| - 1, |q| - 1;
    if p[m].core != q[n].core {
      LastCollide(p, q, hash);
    } else {
      assert m == 0 <==> n == 0;
      if m > 0 {
        Shorter(p, hash);
        Shorter(q, hash);
        FrontierHashBindsPath(p[..m], q[..n], hash);
        if p[..m] != q[..n] { CollideLonger(p, q, hash, m, n); }
      }
      assert p == p[..m] + [p[m]] && q == q[..n] + [q[n]];
    }
  }

  lemma ChainEnds(p: seq<Node>, hash: Hash)
    requires Chain(p, hash)
    ensures p != [] && p[|p| - 1].hash == hash(p[|p| - 1].core)
    ensures |p| > 1 ==> p[|p| - 1].core.parentHash == Some(p[|p| - 2].hash)
    ensures |p| == 1 <==> p[|p| - 1].core.parentHash == None
  {
    if |p| > 1 { HasParent(p, hash, |p| - 2); }
  }

  lemma LastCollide(p: seq<Node>, q: seq<Node>, hash: Hash)
    requires p != [] && q != [] && p[|p| - 1].core != q[|q| - 1].core
    requires hash(p[|p| - 1].core) == hash(q[|q| - 1].core)
    ensures exists i, j :: Collide(p, q, hash, i, j)
  {
    assert Collide(p, q, hash, |p| - 1, |q| - 1);
  }

  lemma CollideLonger(p: seq<Node>, q: seq<Node>, hash: Hash, m: nat, n: nat)
    requires m <= |p| && n <= |q| && exists i, j :: Collide(p[..m], q[..n], hash, i, j)
    ensures exists i, j :: Collide(p, q, hash, i, j)
  {
    var i, j :| Collide(p[..m], q[..n], hash, i, j);
    assert Collide(p, q, hash, i, j);
  }

  /** Two different cores, one on each path, with one hash. */
  ghost predicate Collide(p: seq<Node>, q: seq<Node>, hash: Hash, i: int, j: int) {
    0 <= i < |p| && 0 <= j < |q| && p[i].core != q[j].core && hash(p[i].core) == hash(q[j].core)
  }

  lemma HasParent(p: seq<Node>, hash: Hash, i: nat)
    requires Chain(p, hash) && i + 1 < |p|
    ensures p[i + 1].core.parent == Some(p[i].core.id) && p[i + 1].core.parentHash == Some(p[i].hash)
  {
  }

  lemma Shorter(p: seq<Node>, hash: Hash)
    requires Chain(p, hash) && |p| > 1
    ensures Chain(p[..|p| - 1], hash)
  {
    var s := p[..|p| - 1];
    forall i | 0 <= i < |s| - 1
      ensures s[i + 1].core.parent == Some(s[i].core.id) && s[i + 1].core.parentHash == Some(s[i].hash)
    {
      assert p[i + 1].core.parent == Some(p[i].core.id);
    }
  }

  /** Parents that come later in the table are reported, and following them can meet a cycle. */
  lemma LaterParentsCycle(hash: Hash, path: seq<Node>)
    requires var rows := [Row("a", Some("b"), 1, 0.0, [], ""), Row("b", Some("a"), 2, 0.0, [], "")];
             var nodes := Nodes(rows, hash);
             Traced(nodes, nodes[1], path) && (Loops(path) || Rooted(nodes, path))
    ensures UniqueIds([Row("a", Some("b"), 1, 0.0, [], ""), Row("b", Some("a"), 2, 0.0, [], "")])
    ensures Loops(path)
  {
  }

  // ---- The export ----

  method WriteLineage(rows: seq<Row>, hash: Hash) returns (out: Export)
    ensures out.nodes == Nodes(rows, hash)
    ensures |out.nodes| == |rows| && forall k: nat :: k < |rows| ==> NodeSays(rows, out.nodes, hash, k)
    ensures rows == [] ==> out.frontier.None? && out.path == [] && out.errors == []
    ensures rows != [] ==>
              && (exists k: nat :: IsFrontier(out.nodes, k) && out.frontier == Some(out.nodes[k]))
              && Traced(out.nodes, out.frontier.value, out.path)
              && out.errors == Unresolved(rows, hash) + (if Loops(out.path) then [Cycle] else [])
              && (Loops(out.path) || Rooted(out.nodes, out.path))
    ensures UniqueIds(rows) ==> (out.errors == [] <==> Unresolved(rows, hash) == [])
    ensures UniqueIds(rows) && rows != [] && out.errors == [] ==>
              && Chain(out.path, hash)
              && forall goal :: goal in out.frontier.value.core.accepted ==> Credited(out.path, goal, |out.path| - 1)
  {
    hide Find, Traced, Loops, Chain, Credited, NodeSays, ReportsOrphans;
    var nodes, byId, errors := BuildNodes(rows, hash);
    if nodes == [] {
      return Export(nodes, None, [], errors);
    }
    var k := PickFrontier(nodes);
    var path, cycle := Walk(nodes, byId, nodes[k]);
    if cycle {
      errors := errors + [Cycle];
    }
    if UniqueIds(rows) && Unresolved(rows, hash) == [] {
      CompleteLineage(rows, hash, nodes[k], path);
    }
    out := Export(nodes, Some(nodes[k]), path, errors);
  }
}
