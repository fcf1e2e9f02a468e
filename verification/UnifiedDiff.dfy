/**
  Edit scripts, unified-diff hunks, and the strict single-file patch applier.
  The format is the one of POSIX.1-2017, utility `diff`, "Diff -u or -U Output
  Format".  A line is a string with its terminator.
 */
module UnifiedDiff {
  import opened Wrappers

  datatype Failure = PolicyFailure

  // ---- Edit scripts ----

  datatype Edit = Keep(line: string) | Delete(line: string) | Insert(line: string)

  function OldLine(e: Edit): seq<string> {
    if e.Insert? then [] else [e.line]
  }

  function NewLine(e: Edit): seq<string> {
    if e.Delete? then [] else [e.line]
  }

  function Old(script: seq<Edit>): seq<string> {
    if script == [] then [] else Old(script[..|script| - 1]) + OldLine(script[|script| - 1])
  }

  function New(script: seq<Edit>): seq<string> {
    if script == [] then [] else New(script[..|script| - 1]) + NewLine(script[|script| - 1])
  }

  lemma {:induction false} SidesAppend(a: seq<Edit>, b: seq<Edit>)
    ensures Old(a + b) == Old(a) + Old(b) && New(a + b) == New(a) + New(b)
    decreases |b|
  {
    if b == [] {
      assert a + b == a;
    } else {
      var n := |b| - 1;
      var last := b[n];
      assert (a + b)[..|a + b| - 1] == a + b[..n] && (a + b)[|a + b| - 1] == last;
      SidesAppend(a, b[..n]);
      assert Old(a) + (Old(b[..n]) + OldLine(last)) == Old(a) + Old(b[..n]) + OldLine(last);
      assert New(a) + (New(b[..n]) + NewLine(last)) == New(a) + New(b[..n]) + NewLine(last);
    }
  }

  function Keeps(lines: seq<string>): (script: seq<Edit>)
    ensures |script| == |lines| && forall i :: 0 <= i < |lines| ==> script[i] == Keep(lines[i])
  {
    seq(|lines|, i requires 0 <= i < |lines| => Keep(lines[i]))
  }

  lemma {:induction false} KeepsSides(lines: seq<string>)
    ensures Old(Keeps(lines)) == lines && New(Keeps(lines)) == lines
  {
    if lines != [] {
      var n := |lines| - 1;
      assert Keeps(lines)[..n] == Keeps(lines[..n]);
      KeepsSides(lines[..n]);
    }
  }

  // ---- Hunks ----

  /** `@@ -oldStart,oldCount +newStart,newCount @@` with omitted counts already read as 1. */
  datatype Header = Header(oldStart: nat, oldCount: nat, newStart: nat, newCount: nat)

  datatype Hunk = Hunk(header: Header, body: seq<Edit>)

  /** The start POSIX prescribes for a range of `count` lines after the first `before` ones. */
  function RangeStart(before: nat, count: nat): nat {
    if count > 0 then before + 1 else before
  }

  predicate CountsFit(h: Hunk) {
    h.header.oldCount == |Old(h.body)| && h.header.newCount == |New(h.body)|
  }

  /** The header says exactly where the body sits: after `p` old lines and `r` new ones. */
  predicate Canonical(h: Hunk, p: nat, r: nat) {
    && CountsFit(h)
    && h.header.oldStart == RangeStart(p, h.header.oldCount)
    && h.header.newStart == RangeStart(r, h.header.newCount)
  }

  /** The one deviation tolerated: a pure insertion at the start written `-1,0` instead of `-0,0`. */
  predicate StartInsertion(h: Hunk, p: nat, r: nat) {
    && CountsFit(h)
    && h.header.oldCount == 0 && h.header.oldStart == 1 && p == 0
    && h.header.newStart == RangeStart(r, h.header.newCount)
  }

  predicate Fits(h: Hunk, p: nat, r: nat) {
    Canonical(h, p, r) || StartInsertion(h, p, r)
  }

  /** An edit script cut into hunks: kept lines, a hunk body, and so on, and the kept lines at the end. */
  datatype Document = Tail(lines: seq<string>) | Segment(gap: seq<string>, body: seq<Edit>, rest: Document)

  function Script(doc: Document): seq<Edit> {
    match doc
    case Tail(lines) => Keeps(lines)
    case Segment(gap, body, rest) => Keeps(gap) + body + Script(rest)
  }

  function OldSide(doc: Document): seq<string> {
    match doc
    case Tail(lines) => lines
    case Segment(gap, body, rest) => gap + Old(body) + OldSide(rest)
  }

  function NewSide(doc: Document): seq<string> {
    match doc
    case Tail(lines) => lines
    case Segment(gap, body, rest) => gap + New(body) + NewSide(rest)
  }

  lemma {:induction false} DocumentSides(doc: Document)
    ensures Old(Script(doc)) == OldSide(doc) && New(Script(doc)) == NewSide(doc)
  {
    match doc
    case Tail(lines) => KeepsSides(lines);
    case Segment(gap, body, rest) =>
      DocumentSides(rest);
      SidesAppend(Keeps(gap) + body, Script(rest));
      SidesAppend(Keeps(gap), body);
      KeepsSides(gap);
  }

  /** The hunks are the bodies of the document in order, and every header fits the place of its body. */
  predicate Denotes(hunks: seq<Hunk>, doc: Document, p: nat, r: nat) {
    match doc
    case Tail(_) => hunks == []
    case Segment(gap, body, rest) =>
      && hunks != [] && hunks[0].body == body
      && Fits(hunks[0], p + |gap|, r + |gap|)
      && Denotes(hunks[1..], rest, p + |gap| + |Old(body)|, r + |gap| + |New(body)|)
  }

  // ---- Placing hunks on a parent ----

  function OldTarget(h: Header): int {
    if h.oldCount > 0 then h.oldStart - 1 else h.oldStart
  }

  function NewTarget(h: Header): int {
    if h.newCount > 0 then h.newStart - 1 else h.newStart
  }

  /** Where the next hunk goes, given how far the parent has been read and how much was written. */
  function Target(h: Header, cursor: nat, produced: nat): int {
    NewTarget(h) - (produced - cursor)
  }

  predicate Placeable(h: Hunk, parent: seq<string>, cursor: nat, produced: nat) {
    var target := Target(h.header, cursor, produced);
    && (target == OldTarget(h.header) || (h.header.oldCount == 0 && h.header.oldStart == 1 && target == 0))
    && cursor <= target <= |parent|
    && target + |Old(h.body)| <= |parent|
    && parent[target..target + |Old(h.body)|] == Old(h.body)
    && CountsFit(h)
  }

  /** The rest of the parent cut along the hunks, or `None` when some hunk does not apply. */
  function Place(parent: seq<string>, hunks: seq<Hunk>, cursor: nat, produced: nat): Option<Document>
    requires cursor <= |parent|
    decreases |hunks|
  {
    if hunks == [] then Some(Tail(parent[cursor..]))
    else
      var h := hunks[0];
      if !Placeable(h, parent, cursor, produced) then None
      else
        var target := Target(h.header, cursor, produced);
        var rest := Place(parent, hunks[1..], target + |Old(h.body)|, produced + (target - cursor) + |New(h.body)|);
        if rest.None? then None else Some(Segment(parent[cursor..target], h.body, rest.value))
  }

  /** What is placed denotes the hunks, and its old side is the parent. */
  lemma {:induction false} PlacedDenotes(parent: seq<string>, hunks: seq<Hunk>, cursor: nat, produced: nat)
    requires cursor <= |parent| && Place(parent, hunks, cursor, produced).Some?
    ensures var doc := Place(parent, hunks, cursor, produced).value;
            Denotes(hunks, doc, cursor, produced) && OldSide(doc) == parent[cursor..]
    decreases |hunks|
  {
    hide Old, New;
    if hunks != [] {
      var h := hunks[0];
      var target := Target(h.header, cursor, produced);
      var after := target + |Old(h.body)|;
      PlacedDenotes(parent, hunks[1..], after, produced + (target - cursor) + |New(h.body)|);
      assert parent[cursor..] == parent[cursor..target] + parent[target..after] + parent[after..];
    }
  }

  lemma FitsPlaceable(h: Hunk, gap: seq<string>, rest: seq<string>, parent: seq<string>, cursor: nat, produced: nat)
    requires cursor <= |parent| && parent[cursor..] == gap + Old(h.body) + rest
    requires Fits(h, cursor + |gap|, produced + |gap|)
    ensures Target(h.header, cursor, produced) == cursor + |gap|
    ensures Placeable(h, parent, cursor, produced)
    ensures var target := cursor + |gap|;
            parent[cursor..target] == gap && parent[target + |Old(h.body)|..] == rest
  {
    hide Old, New;
    var target := cursor + |gap|;
    var after := target + |Old(h.body)|;
    assert |parent| - cursor == |gap| + |Old(h.body)| + |rest|;
    assert parent[cursor..target] == parent[cursor..][..|gap|];
    assert parent[target..after] == parent[cursor..][|gap|..|gap| + |Old(h.body)|];
    assert parent[after..] == parent[cursor..][|gap| + |Old(h.body)|..];
  }

  /** Any document the hunks denote over the rest of the parent is the one that gets placed. */
  lemma {:induction false} DenotedIsPlaced(parent: seq<string>, hunks: seq<Hunk>, cursor: nat, produced: nat,
      doc: Document)
    requires cursor <= |parent|
    requires Denotes(hunks, doc, cursor, produced) && OldSide(doc) == parent[cursor..]
    ensures Place(parent, hunks, cursor, produced) == Some(doc)
    decreases doc
  {
    hide Old, New, Fits, Placeable, Target;
    if doc.Segment? {
      var h := hunks[0];
      var gap := |doc.gap|;
      FitsPlaceable(h, doc.gap, OldSide(doc.rest), parent, cursor, produced);
      DenotedIsPlaced(parent, hunks[1..], cursor + gap + |Old(h.body)|, produced + gap + |New(h.body)|, doc.rest);
    }
  }

  /** The hunks apply to the parent with the given result. */
  predicate Patches(hunks: seq<Hunk>, parent: seq<string>, result: seq<string>) {
    Place(parent, hunks, 0, 0).Some? && NewSide(Place(parent, hunks, 0, 0).value) == result
  }

  /**
    Hunks apply exactly when they are the hunks of some edit script whose old
    side is the parent; the result is that script's new side.
   */
  lemma PatchingIsDenotation(hunks: seq<Hunk>, parent: seq<string>, result: seq<string>)
    ensures Patches(hunks, parent, result) <==>
              exists doc :: Denotes(hunks, doc, 0, 0) && Old(Script(doc)) == parent && New(Script(doc)) == result
  {
    hide Old, New;
    assert parent[0..] == parent;
    if Patches(hunks, parent, result) {
      PlacedDenotes(parent, hunks, 0, 0);
      DocumentSides(Place(parent, hunks, 0, 0).value);
    }
    if doc :| Denotes(hunks, doc, 0, 0) && Old(Script(doc)) == parent && New(Script(doc)) == result {
      DocumentSides(doc);
      DenotedIsPlaced(parent, hunks, 0, 0, doc);
    }
  }

  // ---- Reversal ----

  function SwapEdit(e: Edit): Edit {
    match e
    case Keep(l) => Keep(l)
    case Delete(l) => Insert(l)
    case Insert(l) => Delete(l)
  }

  function SwapScript(script: seq<Edit>): (swapped: seq<Edit>)
    ensures |swapped| == |script| && forall i :: 0 <= i < |script| ==> swapped[i] == SwapEdit(script[i])
  {
    seq(|script|, i requires 0 <= i < |script| => SwapEdit(script[i]))
  }

  function SwapHeader(h: Header): Header {
    Header(h.newStart, h.newCount, h.oldStart, h.oldCount)
  }

  function SwapHunk(h: Hunk): Hunk {
    Hunk(SwapHeader(h.header), SwapScript(h.body))
  }

  function SwapHunks(hunks: seq<Hunk>): (swapped: seq<Hunk>)
    ensures |swapped| == |hunks| && forall i :: 0 <= i < |hunks| ==> swapped[i] == SwapHunk(hunks[i])
  {
    seq(|hunks|, i requires 0 <= i < |hunks| => SwapHunk(hunks[i]))
  }

  lemma {:induction false} SwappedSides(script: seq<Edit>)
    ensures Old(SwapScript(script)) == New(script) && New(SwapScript(script)) == Old(script)
  {
    if script != [] {
      var n := |script| - 1;
      assert SwapScript(script)[..n] == SwapScript(script[..n]);
      SwappedSides(script[..n]);
    }
  }

  function SwapDocument(doc: Document): Document {
    match doc
    case Tail(lines) => Tail(lines)
    case Segment(gap, body, rest) => Segment(gap, SwapScript(body), SwapDocument(rest))
  }

  lemma {:induction false} SwappedDocument(doc: Document)
    ensures OldSide(SwapDocument(doc)) == NewSide(doc) && NewSide(SwapDocument(doc)) == OldSide(doc)
  {
    hide Old, New;
    if doc.Segment? {
      SwappedSides(doc.body);
      SwappedDocument(doc.rest);
    }
  }

  /** No hunk of the patch relies on the tolerated deviation: every coordinate is canonical. */
  predicate Strict(hunks: seq<Hunk>, doc: Document, p: nat, r: nat)
    requires Denotes(hunks, doc, p, r)
  {
    match doc
    case Tail(_) => true
    case Segment(gap, body, rest) =>
      && Canonical(hunks[0], p + |gap|, r + |gap|)
      && Strict(hunks[1..], rest, p + |gap| + |Old(body)|, r + |gap| + |New(body)|)
  }

  lemma {:induction false} StrictSwaps(hunks: seq<Hunk>, doc: Document, p: nat, r: nat)
    requires Denotes(hunks, doc, p, r) && Strict(hunks, doc, p, r)
    ensures Denotes(SwapHunks(hunks), SwapDocument(doc), r, p)
    decreases doc
  {
    hide Old, New;
    if doc.Segment? {
      var gap, body := |doc.gap|, doc.body;
      SwappedSides(body);
      assert SwapHunks(hunks)[1..] == SwapHunks(hunks[1..]);
      StrictSwaps(hunks[1..], doc.rest, p + gap + |Old(body)|, r + gap + |New(body)|);
    }
  }

  /** If a patch and its reverse both denote something from mirrored places, the patch was strict. */
  lemma {:induction false} BothWaysIsStrict(hunks: seq<Hunk>, doc: Document, back: Document, p: nat, r: nat)
    requires Denotes(hunks, doc, p, r) && Denotes(SwapHunks(hunks), back, r, p)
    ensures Strict(hunks, doc, p, r)
    decreases doc
  {
    hide Old, New, Fits, Canonical;
    if doc.Segment? {
      var gap, body := |doc.gap|, doc.body;
      SwappedSides(body);
      SamePlace(hunks[0], p, r, gap, |back.gap|);
      assert SwapHunks(hunks)[1..] == SwapHunks(hunks[1..]);
      BothWaysIsStrict(hunks[1..], doc.rest, back.rest, p + gap + |Old(body)|, r + gap + |New(body)|);
    }
  }

  lemma SamePlace(h: Hunk, p: nat, r: nat, gap: nat, pag: nat)
    requires Fits(h, p + gap, r + gap) && Fits(SwapHunk(h), r + pag, p + pag)
    ensures gap == pag && Canonical(h, p + gap, r + gap)
  {
    hide Old, New;
  }

  /**
    Patches reverse exactly when they are strict: swapping the signs and the
    header fields restores the parent line for line if and only if the patch
    did not use the tolerated deviation.
   */
  lemma PatchesReverse(hunks: seq<Hunk>, parent: seq<string>, result: seq<string>)
    requires Patches(hunks, parent, result)
    ensures var doc := Place(parent, hunks, 0, 0).value;
            Denotes(hunks, doc, 0, 0) && (Patches(SwapHunks(hunks), result, parent) <==> Strict(hunks, doc, 0, 0))
  {
    hide Old, New;
    assert parent[0..] == parent && result[0..] == result;
    PlacedDenotes(parent, hunks, 0, 0);
    var doc := Place(parent, hunks, 0, 0).value;
    SwappedDocument(doc);
    if Strict(hunks, doc, 0, 0) {
      StrictSwaps(hunks, doc, 0, 0);
      DenotedIsPlaced(result, SwapHunks(hunks), 0, 0, SwapDocument(doc));
    }
    if Patches(SwapHunks(hunks), result, parent) {
      PlacedDenotes(result, SwapHunks(hunks), 0, 0);
      BothWaysIsStrict(hunks, doc, Place(result, SwapHunks(hunks), 0, 0).value, 0, 0);
    }
  }

  /** Such a patch: a line inserted at the start under `-1,0` is accepted, and its reverse is not. */
  lemma StartInsertionDoesNotReverse()
    ensures var hunk := Hunk(Header(1, 0, 1, 1), [Insert("b\n")]);
            Patches([hunk], ["a\n"], ["b\n", "a\n"]) && !Patches(SwapHunks([hunk]), ["b\n", "a\n"], ["a\n"])
  {
    var hunk := Hunk(Header(1, 0, 1, 1), [Insert("b\n")]);
    var parent := ["a\n"];
    assert Old(hunk.body) == [] && New(hunk.body) == ["b\n"];
    assert Place(parent, [hunk], 0, 0) == Some(Segment([], hunk.body, Tail(parent)));
    assert Patches([hunk], parent, ["b\n", "a\n"]);
    PatchesReverse([hunk], parent, ["b\n", "a\n"]);
  }

  // ---- Printing ----

  /** Hunks with canonical coordinates, starting after `p` old and `r` new lines. */
  function Print(doc: Document, p: nat, r: nat): seq<Hunk> {
    match doc
    case Tail(_) => []
    case Segment(gap, body, rest) =>
      var at, to := p + |gap|, r + |gap|;
      var oldCount, newCount := |Old(body)|, |New(body)|;
      [Hunk(Header(RangeStart(at, oldCount), oldCount, RangeStart(to, newCount), newCount), body)] +
      Print(rest, at + oldCount, to + newCount)
  }

  lemma {:induction false} PrintedDenotes(doc: Document, p: nat, r: nat)
    ensures Denotes(Print(doc, p, r), doc, p, r) && Strict(Print(doc, p, r), doc, p, r)
  {
    hide Old, New;
    if doc.Segment? {
      var at, to := p + |doc.gap| + |Old(doc.body)|, r + |doc.gap| + |New(doc.body)|;
      PrintedDenotes(doc.rest, at, to);
      assert Print(doc, p, r)[1..] == Print(doc.rest, at, to);
    }
  }

  /**
    Round trip: any edit script, cut into hunks in any way and printed, takes its old
    side to its new side and back.
   */
  lemma PrintedPatches(doc: Document)
    ensures Patches(Print(doc, 0, 0), Old(Script(doc)), New(Script(doc)))
    ensures Patches(SwapHunks(Print(doc, 0, 0)), New(Script(doc)), Old(Script(doc)))
  {
    hide Old, New;
    DocumentSides(doc);
    PrintedDenotes(doc, 0, 0);
    assert OldSide(doc)[0..] == OldSide(doc);
    DenotedIsPlaced(OldSide(doc), Print(doc, 0, 0), 0, 0, doc);
    PatchesReverse(Print(doc, 0, 0), OldSide(doc), NewSide(doc));
  }
}
