/**
  The applier itself: from patch lines to result lines, and from patch text to
  result text.  The hunk-header regular expression is passed in as a function.
 */
module PatchApplier {
  import opened Wrappers
  import opened Blanks
  import opened UnifiedDiff

  /** `HUNK_HEADER.match`, with omitted counts read as 1. */
  type HeaderParser = string -> Option<Header>

  predicate StartsWith(s: string, prefix: string) {
    |prefix| <= |s| && s[..|prefix|] == prefix
  }

  predicate BlankLine(line: string) {
    forall c :: c in line ==> IsBlank(c)
  }

  predicate OpensHunk(line: string) {
    StartsWith(line, "@@ ")
  }

  // ---- Reading a patch ----

  /** The metadata before the first hunk: where it ends and how many file headers it has. */
  function Prelude(lines: seq<string>, i: nat, pairs: nat): (r: Option<(nat, nat)>)
    requires i <= |lines|
    ensures r.Some? ==> i <= r.value.0 <= |lines|
    decreases |lines| - i
  {
    if i == |lines| || OpensHunk(lines[i]) then Some((i, pairs))
    else if StartsWith(lines[i], "--- ") then
      if i + 1 >= |lines| || !StartsWith(lines[i + 1], "+++ ") then None else Prelude(lines, i + 2, pairs + 1)
    else if StartsWith(lines[i], "diff --git ") || StartsWith(lines[i], "index ") || BlankLine(lines[i]) then
      Prelude(lines, i + 1, pairs)
    else None
  }

  function ParseEdit(line: string): Option<Edit> {
    if line == "" then None
    else if line[0] == ' ' then Some(Keep(line[1..]))
    else if line[0] == '-' then Some(Delete(line[1..]))
    else if line[0] == '+' then Some(Insert(line[1..]))
    else None
  }

  function ParseBody(lines: seq<string>): (r: Option<seq<Edit>>)
    ensures r.Some? ==> |r.value| == |lines|
  {
    if lines == [] then Some([])
    else
      var before := ParseBody(lines[..|lines| - 1]);
      var last := ParseEdit(lines[|lines| - 1]);
      if before.None? || last.None? then None else Some(before.value + [last.value])
  }

  /** The first line from `i` on that opens a hunk, or the end. */
  function BodyEnd(lines: seq<string>, i: nat): (n: nat)
    requires i <= |lines|
    ensures i <= n <= |lines|
    ensures forall k :: i <= k < n ==> !OpensHunk(lines[k])
    ensures n < |lines| ==> OpensHunk(lines[n])
    decreases |lines| - i
  {
    if i == |lines| || OpensHunk(lines[i]) then i else BodyEnd(lines, i + 1)
  }

  function ParseHunks(parse: HeaderParser, lines: seq<string>): Option<seq<Hunk>>
    decreases |lines|
  {
    if lines == [] then Some([])
    else
      var header := parse(lines[0]);
      var n := BodyEnd(lines, 1);
      var body := ParseBody(lines[1..n]);
      var rest := ParseHunks(parse, lines[n..]);
      if header.None? || body.None? || rest.None? then None else Some([Hunk(header.value, body.value)] + rest.value)
  }

  /** What the hunk lines of a patch do to a parent. */
  function ApplyHunks(parse: HeaderParser, parent: seq<string>, lines: seq<string>): Option<seq<string>> {
    var hunks := ParseHunks(parse, lines);
    if hunks.None? || hunks.value == [] then None
    else
      var placed := Place(parent, hunks.value, 0, 0);
      if placed.None? then None else Some(NewSide(placed.value))
  }

  /** What a patch does to a parent, line by line. */
  function Apply(parse: HeaderParser, parent: seq<string>, patch: seq<string>): Option<seq<string>> {
    var prelude := Prelude(patch, 0, 0);
    if prelude.None? || prelude.value.1 != 1 then None else ApplyHunks(parse, parent, patch[prelude.value.0..])
  }

  // ---- What a patch looks like ----

  function PrintEdit(e: Edit): string {
    match e
    case Keep(l) => " " + l
    case Delete(l) => "-" + l
    case Insert(l) => "+" + l
  }

  function PrintBody(body: seq<Edit>): (lines: seq<string>)
    ensures |lines| == |body| && forall i :: 0 <= i < |body| ==> lines[i] == PrintEdit(body[i])
  {
    seq(|body|, i requires 0 <= i < |body| => PrintEdit(body[i]))
  }

  /** Metadata that is passed over. */
  predicate Metadata(line: string) {
    "diff --git " <= line || "index " <= line || BlankLine(line)
  }

  /** From `i` on the first hunk opens at `n`; before it metadata only, save one pair of file headers at `p` if any. */
  predicate Begun(patch: seq<string>, i: nat, n: nat, p: Option<nat>) {
    && i <= n <= |patch| && (n < |patch| ==> "@@ " <= patch[n])
    && (forall k :: i <= k < n ==> !("@@ " <= patch[k]))
    && (p.Some? ==> i <= p.value && p.value + 1 < n && "--- " <= patch[p.value] && "+++ " <= patch[p.value + 1])
    && (forall k :: i <= k < n && (p.Some? ==> k != p.value && k != p.value + 1) ==> Metadata(patch[k]))
  }

  /** The beginning of a patch of one file: everything before the first hunk, with the file headers at `p`. */
  predicate WellBegun(patch: seq<string>, n: nat, p: nat) {
    Begun(patch, 0, n, Some(p))
  }

  /** The lines are the hunks, one after another: a header line that parses, then one line an edit. */
  predicate Spelled(parse: HeaderParser, lines: seq<string>, hunks: seq<Hunk>)
    decreases |hunks|
  {
    if hunks == [] then lines == []
    else
      var n := 1 + |hunks[0].body|;
      && n <= |lines| && "@@ " <= lines[0] && parse(lines[0]) == Some(hunks[0].header)
      && lines[1..n] == PrintBody(hunks[0].body)
      && Spelled(parse, lines[n..], hunks[1..])
  }

  lemma HunkLinesStartWithAt(line: string)
    ensures OpensHunk(line) ==> line[0] == '@'
  {
    if OpensHunk(line) {
      assert line[..3][0] == line[0];
    }
  }

  lemma PrintedEdit(e: Edit)
    ensures ParseEdit(PrintEdit(e)) == Some(e) && !OpensHunk(PrintEdit(e))
  {
    assert PrintEdit(e)[1..] == e.line;
    HunkLinesStartWithAt(PrintEdit(e));
  }

  lemma {:induction false} PrintedBody(body: seq<Edit>)
    ensures ParseBody(PrintBody(body)) == Some(body)
  {
    hide PrintEdit, ParseEdit;
    if body != [] {
      var n := |body| - 1;
      assert PrintBody(body)[..n] == PrintBody(body[..n]);
      PrintedBody(body[..n]);
      PrintedEdit(body[n]);
      assert body[..n] + [body[n]] == body;
    }
  }

  lemma ParsedEdit(line: string)
    requires ParseEdit(line).Some?
    ensures PrintEdit(ParseEdit(line).value) == line
  {
  }

  lemma ParsedBody(lines: seq<string>)
    requires ParseBody(lines).Some?
    ensures PrintBody(ParseBody(lines).value) == lines
  {
    hide ParseEdit, PrintEdit, ParseBody;
    forall i | 0 <= i < |lines| ensures PrintBody(ParseBody(lines).value)[i] == lines[i] {
      ParseBodyAt(lines, i);
      ParsedEdit(lines[i]);
    }
  }

  lemma OpensBy(line: string)
    ensures OpensHunk(line) <==> "@@ " <= line
    ensures StartsWith(line, "--- ") <==> "--- " <= line
    ensures StartsWith(line, "+++ ") <==> "+++ " <= line
    ensures StartsWith(line, "diff --git ") || StartsWith(line, "index ") || BlankLine(line) <==> Metadata(line)
    ensures !(Metadata(line) && "--- " <= line)
    ensures "+++ " <= line || "--- " <= line ==> !OpensHunk(line)
    ensures !(Metadata(line) && "+++ " <= line)
  {
    if "--- " <= line { assert line[0] == '-'; }
    if "+++ " <= line { assert line[0] == '+'; }
    if "@@ " <= line { assert line[0] == '@'; }
    if "diff --git " <= line { assert line[0] == 'd'; }
    if "index " <= line { assert line[0] == 'i'; }
    if line != "" { assert line[0] in line; }
  }

  /** Where the body of the first hunk ends when the lines spell it. */
  lemma SpelledEnd(parse: HeaderParser, lines: seq<string>, hunks: seq<Hunk>)
    requires hunks != [] && Spelled(parse, lines, hunks)
    ensures BodyEnd(lines, 1) == 1 + |hunks[0].body|
  {
    hide OpensHunk, PrintEdit;
    var n := 1 + |hunks[0].body|;
    forall k | 1 <= k < n ensures !OpensHunk(lines[k]) {
      assert lines[k] == lines[1..n][k - 1] == PrintEdit(hunks[0].body[k - 1]);
      PrintedEdit(hunks[0].body[k - 1]);
    }
    if n < |lines| {
      assert lines[n..][0] == lines[n];
      OpensBy(lines[n]);
    }
  }

  /** Lines that open a hunk, or none, read as hunks exactly when they spell them. */
  lemma {:induction false} ParsesAsSpelled(parse: HeaderParser, lines: seq<string>, hunks: seq<Hunk>)
    requires lines != [] ==> "@@ " <= lines[0]
    ensures ParseHunks(parse, lines) == Some(hunks) <==> Spelled(parse, lines, hunks)
    decreases |lines|
  {
    hide ParseBody, ParseHunks, PrintBody, OpensHunk;
    if lines == [] {
      NoLines(parse);
    } else if hunks == [] {
      ParseHunksStep(parse, lines);
    } else {
      ParseHunksStep(parse, lines);
      var n := BodyEnd(lines, 1);
      if n < |lines| { OpensBy(lines[n]); }
      ParsesAsSpelled(parse, lines[n..], hunks[1..]);
      if ParseHunks(parse, lines) == Some(hunks) {
        ParsedBody(lines[1..n]);
      }
      if Spelled(parse, lines, hunks) {
        SpelledEnd(parse, lines, hunks);
        PrintedBody(hunks[0].body);
        assert [hunks[0]] + hunks[1..] == hunks;
      }
    }
  }

  lemma NoLines(parse: HeaderParser)
    ensures ParseHunks(parse, []) == Some([])
  {
  }

  /** The lines spell hunks that take the parent to the result. */
  ghost predicate HunksGive(parse: HeaderParser, lines: seq<string>, parent: seq<string>, result: seq<string>) {
    exists hunks :: hunks != [] && Spelled(parse, lines, hunks) && Patches(hunks, parent, result)
  }

  /** What the prelude accepts, with at most one more pair of file headers. */
  lemma {:induction false} PreludeIsBegun(patch: seq<string>, i: nat, pairs: nat)
    requires i <= |patch|
    ensures forall n, k :: Prelude(patch, i, pairs) == Some((n, k)) ==>
              && pairs <= k
              && (k == pairs ==> Begun(patch, i, n, None))
              && (k == pairs + 1 ==> exists p :: Begun(patch, i, n, Some(p)))
    decreases |patch| - i
  {
    hide OpensHunk, StartsWith, BlankLine, Metadata;
    if i < |patch| {
      OpensBy(patch[i]);
      if i + 1 < |patch| { OpensBy(patch[i + 1]); }
      if Prelude(patch, i, pairs).Some? && !OpensHunk(patch[i]) {
        var (n, k) := Prelude(patch, i, pairs).value;
        if StartsWith(patch[i], "--- ") {
          PreludeIsBegun(patch, i + 2, pairs + 1);
          if k == pairs + 1 { assert Begun(patch, i, n, Some(i)); }
        } else {
          PreludeIsBegun(patch, i + 1, pairs);
          if k == pairs + 1 {
            var p :| Begun(patch, i + 1, n, Some(p));
            assert Begun(patch, i, n, Some(p));
          }
        }
      }
    }
  }

  /** Every such beginning is accepted. */
  lemma {:induction false} BegunIsPrelude(patch: seq<string>, i: nat, n: nat, p: Option<nat>, pairs: nat)
    requires Begun(patch, i, n, p)
    ensures Prelude(patch, i, pairs) == Some((n, if p.Some? then pairs + 1 else pairs))
    decreases |patch| - i
  {
    hide OpensHunk, StartsWith, BlankLine, Metadata;
    if i < |patch| {
      OpensBy(patch[i]);
      if i < n {
        if p == Some(i) {
          OpensBy(patch[i + 1]);
          BegunIsPrelude(patch, i + 2, n, None, pairs + 1);
        } else {
          BegunIsPrelude(patch, i + 1, n, p, pairs);
        }
      }
    }
  }

  /**
    A patch applies exactly when it begins well and the lines from its first
    hunk on spell hunks that apply; nothing before the first hunk matters else.
   */
  lemma AppliesAsSpelled(parse: HeaderParser, parent: seq<string>, patch: seq<string>, n: nat, p: nat,
      result: seq<string>)
    requires WellBegun(patch, n, p)
    ensures Apply(parse, parent, patch) == Some(result) <==> HunksGive(parse, patch[n..], parent, result)
  {
    hide Prelude, ParseHunks, Place, Spelled;
    BegunIsPrelude(patch, 0, n, Some(p), 0);
    var lines := patch[n..];
    if lines != [] { assert lines[0] == patch[n]; }
    if Apply(parse, parent, patch) == Some(result) {
      var hunks := ParseHunks(parse, lines).value;
      ParsesAsSpelled(parse, lines, hunks);
      assert Spelled(parse, lines, hunks) && Patches(hunks, parent, result);
    }
    if HunksGive(parse, lines, parent, result) {
      var hunks :| hunks != [] && Spelled(parse, lines, hunks) && Patches(hunks, parent, result);
      ParsesAsSpelled(parse, lines, hunks);
    }
  }

  // ---- The loop ----

  /** What remains to be done after some hunks, added to what was written. */
  function Resume(parse: HeaderParser, parent: seq<string>, lines: seq<string>, cursor: nat,
      output: seq<string>): Option<seq<string>>
    requires cursor <= |parent|
  {
    var hunks := ParseHunks(parse, lines);
    if hunks.None? then None
    else
      var placed := Place(parent, hunks.value, cursor, |output|);
      if placed.None? then None else Some(output + NewSide(placed.value))
  }

  /** A body parses line by line. */
  lemma {:induction false} ParseBodyAt(lines: seq<string>, k: nat)
    requires ParseBody(lines).Some? && k < |lines|
    ensures ParseEdit(lines[k]) == Some(ParseBody(lines).value[k])
    ensures ParseBody(lines[..k]) == Some(ParseBody(lines).value[..k])
  {
    var n := |lines| - 1;
    var before := lines[..n];
    assert ParseBody(lines).value[..n] == ParseBody(before).value;
    if k < n {
      ParseBodyAt(before, k);
      assert before[..k] == lines[..k] && before[k] == lines[k];
      assert ParseBody(before).value[..k] == ParseBody(lines).value[..k];
    }
  }

  lemma ParseBodySnoc(lines: seq<string>, line: string)
    ensures ParseBody(lines + [line]) ==
              if ParseBody(lines).None? || ParseEdit(line).None? then None
              else Some(ParseBody(lines).value + [ParseEdit(line).value])
  {
    assert (lines + [line])[..|lines|] == lines;
  }

  lemma SideSnoc(script: seq<Edit>, e: Edit)
    ensures Old(script + [e]) == Old(script) + OldLine(e) && New(script + [e]) == New(script) + NewLine(e)
  {
    assert (script + [e])[..|script|] == script;
  }

  lemma {:induction false} BadLineSpoilsBody(lines: seq<string>, k: nat)
    requires k < |lines| && ParseEdit(lines[k]).None?
    ensures ParseBody(lines).None?
  {
    var n := |lines| - 1;
    if k < n {
      BadLineSpoilsBody(lines[..n], k);
    }
  }

  /** A body line that cannot be read spoils the whole patch. */
  lemma BadLine(parse: HeaderParser, lines: seq<string>, i: nat)
    requires lines != [] && 1 <= i < BodyEnd(lines, 1) && ParseEdit(lines[i]).None?
    ensures ParseHunks(parse, lines).None?
  {
    BadLineSpoilsBody(lines[1..BodyEnd(lines, 1)], i - 1);
  }

  /** The old side of a script carries the line of its `k`th edit after the old side of what precedes it. */
  lemma OldLineAt(script: seq<Edit>, k: nat)
    requires k < |script| && !script[k].Insert?
    ensures |Old(script[..k])| < |Old(script)| && Old(script)[|Old(script[..k])|] == script[k].line
  {
    var before, last, rest := script[..k], script[k], script[k + 1..];
    assert script == before + [last] + rest;
    SidesAppend(before + [last], rest);
    SideSnoc(before, last);
  }

  /** A line the parent does not have where the body wants it spoils it too. */
  lemma Mismatch(parse: HeaderParser, parent: seq<string>, lines: seq<string>, cursor: nat, output: seq<string>,
      i: nat, target: int)
    requires cursor <= |parent| && lines != [] && parse(lines[0]).Some?
    requires 1 <= i < BodyEnd(lines, 1)
    requires target == Target(parse(lines[0]).value, cursor, |output|) && cursor <= target
    requires ParseBody(lines[1..i]).Some? && ParseEdit(lines[i]).Some? && !ParseEdit(lines[i]).value.Insert?
    requires var at := target + |Old(ParseBody(lines[1..i]).value)|;
             at >= |parent| || parent[at] != ParseEdit(lines[i]).value.line
    ensures Resume(parse, parent, lines, cursor, output).None?
  {
    hide Old, New, ParseBody, ParseHunks, Place;
    ParseHunksStep(parse, lines);
    var body := lines[1..BodyEnd(lines, 1)];
    if ParseHunks(parse, lines).Some? {
      var edits := ParseBody(body).value;
      assert body[..i - 1] == lines[1..i] && body[i - 1] == lines[i];
      ParseBodyAt(body, i - 1);
      OldLineAt(edits, i - 1);
      var h := Hunk(parse(lines[0]).value, edits);
      NotPlaceable(h, parent, cursor, |output|, |Old(edits[..i - 1])|);
      PlaceFails(parent, ParseHunks(parse, lines).value, cursor, |output|);
    }
  }

  lemma NotPlaceable(h: Hunk, parent: seq<string>, cursor: nat, produced: nat, at: nat)
    requires at < |Old(h.body)|
    requires var k := Target(h.header, cursor, produced) + at;
             0 <= k < |parent| ==> parent[k] != Old(h.body)[at]
    ensures !Placeable(h, parent, cursor, produced)
  {
    hide Old, New;
    var target := Target(h.header, cursor, produced);
    if 0 <= target && target + |Old(h.body)| <= |parent| {
      assert parent[target..target + |Old(h.body)|][at] == parent[target + at];
    }
  }

  lemma PlaceFails(parent: seq<string>, hunks: seq<Hunk>, cursor: nat, produced: nat)
    requires cursor <= |parent| && hunks != [] && !Placeable(hunks[0], parent, cursor, produced)
    ensures Place(parent, hunks, cursor, produced).None?
  {
  }

  lemma ParseHunksStep(parse: HeaderParser, lines: seq<string>)
    requires lines != []
    ensures var n := BodyEnd(lines, 1);
            var body, rest := ParseBody(lines[1..n]), ParseHunks(parse, lines[n..]);
            ParseHunks(parse, lines) ==
              if parse(lines[0]).None? || body.None? || rest.None? then None
              else Some([Hunk(parse(lines[0]).value, body.value)] + rest.value)
  {
    hide ParseBody;
  }

  lemma PlaceStep(parent: seq<string>, h: Hunk, hunks: seq<Hunk>, cursor: nat, produced: nat)
    requires Placeable(h, parent, cursor, produced)
    requires cursor <= Target(h.header, cursor, produced)
    requires Target(h.header, cursor, produced) + |Old(h.body)| <= |parent|
    ensures var target := Target(h.header, cursor, produced);
            var rest := Place(parent, hunks, target + |Old(h.body)|, produced + (target - cursor) + |New(h.body)|);
            Place(parent, [h] + hunks, cursor, produced) ==
              if rest.None? then None else Some(Segment(parent[cursor..target], h.body, rest.value))
  {
    hide Old, New, Placeable, Target;
    var all := [h] + hunks;
    assert all[0] == h && all[1..] == hunks;
  }

  lemma HunkDone(parse: HeaderParser, parent: seq<string>, lines: seq<string>, cursor: nat, output: seq<string>,
      h: Hunk)
    requires cursor <= |parent| && lines != [] && parse(lines[0]) == Some(h.header)
    requires ParseBody(lines[1..BodyEnd(lines, 1)]) == Some(h.body)
    ensures !Placeable(h, parent, cursor, |output|) ==> Resume(parse, parent, lines, cursor, output).None?
    ensures Placeable(h, parent, cursor, |output|) ==>
              var target := Target(h.header, cursor, |output|);
              Resume(parse, parent, lines, cursor, output) ==
              Resume(parse, parent, lines[BodyEnd(lines, 1)..], target + |Old(h.body)|,
                  output + parent[cursor..target] + New(h.body))
  {
    hide Old, New, ParseBody, ParseHunks, Place;
    ParseHunksStep(parse, lines);
    var rest := ParseHunks(parse, lines[BodyEnd(lines, 1)..]);
    if rest.Some? {
      if Placeable(h, parent, cursor, |output|) {
        var target := Target(h.header, cursor, |output|);
        PlaceStep(parent, h, rest.value, cursor, |output|);
        var placed := Place(parent, rest.value, target + |Old(h.body)|, |output| + (target - cursor) + |New(h.body)|);
        if placed.Some? {
          NewSideStep(output, parent[cursor..target], h.body, placed.value);
        }
      } else {
        PlaceFails(parent, [h] + rest.value, cursor, |output|);
      }
    }
  }

  lemma NewSideStep(output: seq<string>, gap: seq<string>, body: seq<Edit>, rest: Document)
    ensures output + NewSide(Segment(gap, body, rest)) == output + gap + New(body) + NewSide(rest)
  {
    hide New;
  }

  /** `apply_unified_diff` on lines. */
  method ApplyUnifiedDiff(parse: HeaderParser, parent: seq<string>, patch: seq<string>)
      returns (r: Result<seq<string>, Failure>)
    ensures r == (if Apply(parse, parent, patch).Some? then Ok(Apply(parse, parent, patch).value)
            else Err(PolicyFailure))
    ensures r.Ok? ==> exists n: nat, p: nat :: WellBegun(patch, n, p)
    ensures forall n: nat, p: nat, result :: WellBegun(patch, n, p) ==>
              (r == Ok(result) <==> HunksGive(parse, patch[n..], parent, result))
  {
    r := ApplyLines(parse, parent, patch);
    hide HunksGive, WellBegun, ApplyHunks;
    if r.Ok? {
      PreludeIsBegun(patch, 0, 0);
      var (n, k) := Prelude(patch, 0, 0).value;
      BegunIsWell(patch, n);
    }
    forall n: nat, p: nat, result | WellBegun(patch, n, p)
      ensures n <= |patch| && (r == Ok(result) <==> HunksGive(parse, patch[n..], parent, result))
    {
      HunkStart(patch, n, p);
      AppliesAsSpelled(parse, parent, patch, n, p, result);
    }
  }

  lemma HunkStart(patch: seq<string>, n: nat, p: nat)
    requires WellBegun(patch, n, p)
    ensures n <= |patch|
  {
  }

  lemma BegunIsWell(patch: seq<string>, n: nat)
    requires exists p: nat :: Begun(patch, 0, n, Some(p))
    ensures exists p: nat :: WellBegun(patch, n, p)
  {
    var p: nat :| Begun(patch, 0, n, Some(p));
    assert WellBegun(patch, n, p);
  }

  /** The two loops. */
  method ApplyLines(parse: HeaderParser, parent: seq<string>, patch: seq<string>)
      returns (r: Result<seq<string>, Failure>)
    ensures r == (if Apply(parse, parent, patch).Some? then Ok(Apply(parse, parent, patch).value)
            else Err(PolicyFailure))
  {
    hide Resume, ApplyHunks;
    var index, headerPairs := 0, 0;
    while index < |patch| && !OpensHunk(patch[index])
      invariant index <= |patch|
      invariant Prelude(patch, 0, 0) == Prelude(patch, index, headerPairs)
      decreases |patch| - index
    {
      if StartsWith(patch[index], "--- ") {
        if index + 1 >= |patch| || !StartsWith(patch[index + 1], "+++ ") {
          return Err(PolicyFailure);
        }
        headerPairs := headerPairs + 1;
        index := index + 2;
      } else if StartsWith(patch[index], "diff --git ") || StartsWith(patch[index], "index ")
          || BlankLine(patch[index]) {
        index := index + 1;
      } else {
        return Err(PolicyFailure);
      }
    }
    if headerPairs != 1 {
      return Err(PolicyFailure);
    }
    var output: seq<string>, cursor: nat, hunkCount: nat := [], 0, 0;
    assert Apply(parse, parent, patch) == ApplyHunks(parse, parent, patch[index..]);
    ghost var whole := Resume(parse, parent, patch[index..], 0, []);
    ghost var first := index;
    ResumeIsApply(parse, parent, patch[first..]);
    while index < |patch|
      invariant first <= index <= |patch| && cursor <= |parent|
      invariant hunkCount == 0 <==> index == first
      invariant whole == Resume(parse, parent, patch[index..], cursor, output)
      decreases |patch| - index
    {
      var header := parse(patch[index]);
      if header.None? {
        NoHeader(parse, parent, patch[index..], cursor, output);
        return Err(PolicyFailure);
      }
      hunkCount := hunkCount + 1;
      var ok: bool;
      ok, index, cursor, output := ApplyHunk(parse, parent, patch, index, cursor, output);
      if !ok {
        return Err(PolicyFailure);
      }
    }
    if hunkCount == 0 {
      return Err(PolicyFailure);
    }
    NothingLeft(parse, parent, patch[index..], cursor, output);
    return Ok(output + parent[cursor..]);
  }

  lemma ResumeIsApply(parse: HeaderParser, parent: seq<string>, lines: seq<string>)
    ensures ApplyHunks(parse, parent, lines) == if lines == [] then None else Resume(parse, parent, lines, 0, [])
  {
    hide Place;
    var resumed := Resume(parse, parent, lines, 0, []);
    if resumed.Some? {
      var side := NewSide(Place(parent, ParseHunks(parse, lines).value, 0, 0).value);
      assert [] + side == side;
    }
  }

  lemma NoHeader(parse: HeaderParser, parent: seq<string>, lines: seq<string>, cursor: nat, output: seq<string>)
    requires cursor <= |parent| && lines != [] && parse(lines[0]).None?
    ensures Resume(parse, parent, lines, cursor, output).None?
  {
  }

  lemma NothingLeft(parse: HeaderParser, parent: seq<string>, lines: seq<string>, cursor: nat, output: seq<string>)
    requires cursor <= |parent| && lines == []
    ensures Resume(parse, parent, lines, cursor, output) == Some(output + parent[cursor..])
  {
  }

  /** One turn of the outer loop: a header that parsed, and the body after it. */
  method ApplyHunk(parse: HeaderParser, parent: seq<string>, patch: seq<string>, start: nat, cursor: nat,
      output: seq<string>)
    returns (ok: bool, index: nat, cursor': nat, output': seq<string>)
    requires start < |patch| && cursor <= |parent| && parse(patch[start]).Some?
    ensures !ok ==> Resume(parse, parent, patch[start..], cursor, output).None?
    ensures ok ==> start < index <= |patch| && cursor' <= |parent|
    ensures ok ==>
            Resume(parse, parent, patch[start..], cursor, output)
            == Resume(parse, parent, patch[index..], cursor', output')
  {
    hide Resume, Old, New, ParseBody;
    var header := parse(patch[start]).value;
    ghost var lines := patch[start..];
    index, cursor', output' := start, cursor, output;
    var target := Target(header, cursor, |output|);
    var startInsertion := header.oldCount == 0 && header.oldStart == 1 && target == 0;
    if (target != OldTarget(header) && !startInsertion) || target < cursor || target > |parent| {
      Unplaceable(parse, parent, lines, cursor, output);
      return false, index, cursor', output';
    }
    output' := output + parent[cursor..target];
    var seenOld: nat, seenNew: nat;
    ghost var body: seq<Edit>;
    ok, index, cursor', output', seenOld, seenNew, body := ApplyBody(parse, parent, patch, start, cursor, output,
        target, output');
    if !ok {
      return;
    }
    var h := Hunk(header, body);
    HunkDone(parse, parent, lines, cursor, output, h);
    if seenOld != header.oldCount || seenNew != header.newCount {
      return false, index, cursor', output';
    }
    assert lines[BodyEnd(lines, 1)..] == patch[index..];
  }

  /** The inner loop: check the context and the deletions, copy the context and the insertions. */
  method ApplyBody(parse: HeaderParser, parent: seq<string>, patch: seq<string>, start: nat,
                   ghost cursor: nat, ghost output: seq<string>, target: nat, base: seq<string>)
    returns (ok: bool, index: nat, cursor': nat, output': seq<string>, seenOld: nat, seenNew: nat,
        ghost body: seq<Edit>)
    requires start < |patch| && cursor <= target <= |parent| && parse(patch[start]).Some?
    requires target == Target(parse(patch[start]).value, cursor, |output|)
    ensures !ok ==> Resume(parse, parent, patch[start..], cursor, output).None?
    ensures ok ==>
              && index == start + BodyEnd(patch[start..], 1)
              && ParseBody(patch[start..][1..BodyEnd(patch[start..], 1)]) == Some(body)
              && cursor' == target + |Old(body)| && cursor' <= |parent| && parent[target..cursor'] == Old(body)
              && output' == base + New(body)
              && seenOld == |Old(body)| && seenNew == |New(body)|
  {
    hide Resume, Old, New, ParseBody, Target;
    ghost var lines := patch[start..];
    ghost var n := BodyEnd(lines, 1);
    index, cursor', output' := start + 1, target, base;
    seenOld, seenNew, body := 0, 0, [];
    NoEdits();
    assert lines[1..index - start] == [] && parent[target..cursor'] == [];
    while index < |patch| && !OpensHunk(patch[index])
      invariant start < index <= |patch| && index - start <= n
      invariant ParseBody(lines[1..index - start]) == Some(body)
      invariant cursor' == target + |Old(body)| && cursor' <= |parent|
      invariant parent[target..cursor'] == Old(body)
      invariant output' == base + New(body)
      invariant seenOld == |Old(body)| && seenNew == |New(body)|
      decreases |patch| - index
    {
      var line := patch[index];
      ghost var k := index - start;
      assert line == lines[k] && lines[1..k] + [line] == lines[1..k + 1];
      ParseBodySnoc(lines[1..k], line);
      if line == "" || line[0] !in " +-" {
        BadLine(parse, lines, k);
        ResumeFails(parse, parent, lines, cursor, output);
        return false, index, cursor', output', seenOld, seenNew, body;
      }
      var payload := line[1..];
      ghost var edit := ParseEdit(line).value;
      SideSnoc(body, edit);
      if line[0] == ' ' || line[0] == '-' {
        if cursor' >= |parent| || parent[cursor'] != payload {
          Mismatch(parse, parent, lines, cursor, output, k, target);
          return false, index, cursor', output', seenOld, seenNew, body;
        }
        assert parent[target..cursor' + 1] == parent[target..cursor'] + [payload];
        cursor' := cursor' + 1;
        seenOld := seenOld + 1;
      }
      if line[0] == ' ' || line[0] == '+' {
        output' := output' + [payload];
        seenNew := seenNew + 1;
      }
      body := body + [edit];
      index := index + 1;
    }
    BodyEnds(lines, index - start);
    ok := true;
  }

  lemma NoEdits()
    ensures Old([]) == [] && New([]) == [] && ParseBody([]) == Some([])
  {
  }

  lemma ResumeFails(parse: HeaderParser, parent: seq<string>, lines: seq<string>, cursor: nat, output: seq<string>)
    requires cursor <= |parent| && ParseHunks(parse, lines).None?
    ensures Resume(parse, parent, lines, cursor, output).None?
  {
  }

  /** A header whose coordinates do not fit the place reached so far. */
  lemma Unplaceable(parse: HeaderParser, parent: seq<string>, lines: seq<string>, cursor: nat, output: seq<string>)
    requires cursor <= |parent| && lines != [] && parse(lines[0]).Some?
    requires var header := parse(lines[0]).value;
             var target := Target(header, cursor, |output|);
             || (target != OldTarget(header) && !(header.oldCount == 0 && header.oldStart == 1 && target == 0))
             || target < cursor || target > |parent|
    ensures Resume(parse, parent, lines, cursor, output).None?
  {
    hide ParseBody, ParseHunks, Place;
    ParseHunksStep(parse, lines);
    if ParseHunks(parse, lines).Some? {
      PlaceFails(parent, ParseHunks(parse, lines).value, cursor, |output|);
    }
  }

  lemma {:induction false} BodyEnds(lines: seq<string>, k: nat)
    requires lines != [] && 1 <= k <= BodyEnd(lines, 1)
    requires k == |lines| || OpensHunk(lines[k])
    ensures k == BodyEnd(lines, 1)
  {
  }
}
