/**
  Patches as text: printing hunks, splitting text into lines and joining them
  again, and when a patch applied to text can be undone.
 */
module PatchText {
  import opened Wrappers
  import opened UnifiedDiff
  import opened PatchApplier

  // ---- Printed patches ----

  /** A printer for headers that the applier's regular expression reads back. */
  ghost predicate Codec(parse: HeaderParser, show: Header -> string) {
    forall h :: OpensHunk(show(h)) && parse(show(h)) == Some(h)
  }

  function PrintHunks(show: Header -> string, hunks: seq<Hunk>): seq<string> {
    if hunks == [] then []
    else [show(hunks[0].header)] + PrintBody(hunks[0].body) + PrintHunks(show, hunks[1..])
  }

  /** A whole single-file patch. */
  function PrintPatch(show: Header -> string, hunks: seq<Hunk>): seq<string> {
    ["--- a\n", "+++ b\n"] + PrintHunks(show, hunks)
  }

  lemma PrintedBodyEnd(header: string, body: seq<Edit>, rest: seq<string>)
    requires rest != [] ==> OpensHunk(rest[0])
    ensures BodyEnd([header] + PrintBody(body) + rest, 1) == 1 + |body|
  {
    hide OpensHunk, PrintEdit;
    var lines := [header] + PrintBody(body) + rest;
    forall k | 1 <= k < 1 + |body| ensures !OpensHunk(lines[k]) {
      PrintedEdit(body[k - 1]);
      assert lines[k] == PrintEdit(body[k - 1]);
    }
    assert rest != [] ==> lines[1 + |body|] == rest[0];
  }

  /** Printing hunks and reading them back is the identity. */
  lemma {:induction false} PrintedHunks(parse: HeaderParser, show: Header -> string, hunks: seq<Hunk>)
    requires Codec(parse, show)
    ensures ParseHunks(parse, PrintHunks(show, hunks)) == Some(hunks)
    decreases |hunks|
  {
    hide OpensHunk, ParseBody, ParseHunks, PrintBody;
    if hunks == [] {
      NoLines(parse);
    } else {
      var h, rest := hunks[0], PrintHunks(show, hunks[1..]);
      PrintedHunks(parse, show, hunks[1..]);
      var lines := PrintHunks(show, hunks);
      assert lines == [show(h.header)] + PrintBody(h.body) + rest;
      assert rest != [] ==> rest[0] == show(hunks[1].header);
      PrintedBodyEnd(show(h.header), h.body, rest);
      PrintedBody(h.body);
      assert lines[1..1 + |h.body|] == PrintBody(h.body) && lines[1 + |h.body|..] == rest;
      ParseHunksStep(parse, lines);
      assert [h] + hunks[1..] == hunks;
    }
  }

  lemma PrintedPrelude(parse: HeaderParser, show: Header -> string, hunks: seq<Hunk>)
    requires Codec(parse, show)
    ensures Prelude(PrintPatch(show, hunks), 0, 0) == Some((2, 1))
  {
    var lines := PrintPatch(show, hunks);
    assert lines[0] == "--- a\n" && lines[1] == "+++ b\n";
    assert lines[0][..3] == "---" && lines[0][..4] == "--- " && lines[1][..4] == "+++ ";
    assert Prelude(lines, 0, 0) == Prelude(lines, 2, 1);
    if |lines| > 2 {
      assert lines[2] == PrintHunks(show, hunks)[0];
    }
  }

  /** A printed patch applies to a parent exactly as its hunks do. */
  lemma PrintedApplies(parse: HeaderParser, show: Header -> string, hunks: seq<Hunk>, parent: seq<string>,
      result: seq<string>)
    requires Codec(parse, show) && hunks != []
    ensures Apply(parse, parent, PrintPatch(show, hunks)) == Some(result) <==> Patches(hunks, parent, result)
  {
    hide ParseHunks, Prelude, Place;
    PrintedPrelude(parse, show, hunks);
    PrintedHunks(parse, show, hunks);
    assert PrintPatch(show, hunks)[2..] == PrintHunks(show, hunks);
  }

  /** The hunks of an accepted patch. */
  function HunksOf(parse: HeaderParser, patch: seq<string>): Option<seq<Hunk>> {
    var prelude := Prelude(patch, 0, 0);
    if prelude.None? then None else ParseHunks(parse, patch[prelude.value.0..])
  }

  /**
    Applying a patch and then its reverse restores the parent line for line,
    exactly when the patch kept to canonical coordinates.
   */
  lemma AppliedPatchReverses(parse: HeaderParser, show: Header -> string, parent: seq<string>, patch: seq<string>)
    requires Codec(parse, show) && Apply(parse, parent, patch).Some?
    ensures HunksOf(parse, patch).Some? && HunksOf(parse, patch).value != []
    ensures var hunks, result := HunksOf(parse, patch).value, Apply(parse, parent, patch).value;
            && Patches(hunks, parent, result)
            && var doc := Place(parent, hunks, 0, 0).value;
            Denotes(hunks, doc, 0, 0)
            && (Apply(parse, result, PrintPatch(show, SwapHunks(hunks))) == Some(parent) <==> Strict(hunks, doc, 0, 0))
  {
    hide ParseHunks, Prelude, Place, Denotes, Strict, PrintPatch;
    var hunks, result := HunksOf(parse, patch).value, Apply(parse, parent, patch).value;
    PatchesReverse(hunks, parent, result);
    PrintedApplies(parse, show, SwapHunks(hunks), result, parent);
  }

  // ---- Lines and text ----

  /** The end of the first line: after its newline, or the end of the text. */
  function LineEnd(text: string): (n: nat)
    requires text != ""
    ensures 1 <= n <= |text|
    ensures forall k :: 0 <= k < n - 1 ==> text[k] != '\n'
    ensures n < |text| ==> text[n - 1] == '\n'
  {
    if text[0] == '\n' || |text| == 1 then 1 else 1 + LineEnd(text[1..])
  }

  /** `splitlines(keepends=True)` on newline-separated text. */
  function SplitLines(text: string): seq<string>
    decreases |text|
  {
    if text == "" then [] else [text[..LineEnd(text)]] + SplitLines(text[LineEnd(text)..])
  }

  function Join(lines: seq<string>): string {
    if lines == [] then "" else lines[0] + Join(lines[1..])
  }

  lemma {:induction false} JoinSplit(text: string)
    ensures Join(SplitLines(text)) == text
    decreases |text|
  {
    if text != "" {
      var n := LineEnd(text);
      JoinSplit(text[n..]);
      var lines := SplitLines(text);
      assert lines[1..] == SplitLines(text[n..]);
      assert text == text[..n] + text[n..];
    }
  }

  predicate Terminated(line: string) {
    line != "" && line[|line| - 1] == '\n'
  }

  /** Not empty, and with no newline but a final one. */
  predicate OneLine(line: string) {
    line != "" && forall k :: 0 <= k < |line| - 1 ==> line[k] != '\n'
  }

  /** Lines as a text has them: only the last may lack its newline. */
  predicate TextLines(lines: seq<string>) {
    forall i :: 0 <= i < |lines| ==> OneLine(lines[i]) && (i < |lines| - 1 ==> Terminated(lines[i]))
  }

  lemma {:induction false} SplitIsTextLines(text: string)
    ensures TextLines(SplitLines(text))
    decreases |text|
  {
    if text != "" {
      var n := LineEnd(text);
      SplitIsTextLines(text[n..]);
      var lines, rest := SplitLines(text), SplitLines(text[n..]);
      forall i | 0 <= i < |lines| ensures OneLine(lines[i]) && (i < |lines| - 1 ==> Terminated(lines[i])) {
        if i > 0 { assert lines[i] == rest[i - 1]; }
      }
    }
  }

  lemma FirstLine(line: string, rest: string)
    requires OneLine(line) && (Terminated(line) || rest == "")
    ensures LineEnd(line + rest) == |line|
  {
    var text := line + rest;
    assert forall k :: 0 <= k < |line| ==> text[k] == line[k];
  }

  lemma {:induction false} SplitJoin(lines: seq<string>)
    requires TextLines(lines)
    ensures SplitLines(Join(lines)) == lines
  {
    if lines != [] {
      var first, rest := lines[0], lines[1..];
      assert OneLine(first);
      forall i | 0 <= i < |rest| ensures OneLine(rest[i]) && (i < |rest| - 1 ==> Terminated(rest[i])) {
        assert rest[i] == lines[i + 1];
      }
      SplitJoin(rest);
      if rest == [] {
        assert Join(rest) == "";
      }
      FirstLine(first, Join(rest));
      assert Join(lines)[..|first|] == first && Join(lines)[|first|..] == Join(rest);
    }
  }

  /** Lines survive being joined and split again exactly when they are the lines of a text. */
  lemma ResplitsExactly(lines: seq<string>)
    ensures SplitLines(Join(lines)) == lines <==> TextLines(lines)
  {
    if TextLines(lines) {
      SplitJoin(lines);
    }
    if SplitLines(Join(lines)) == lines {
      SplitIsTextLines(Join(lines));
    }
  }

  /** `apply_unified_diff` on texts. */
  function ApplyText(parse: HeaderParser, parent: string, patch: string): Option<string> {
    var result := Apply(parse, SplitLines(parent), SplitLines(patch));
    if result.None? then None else Some(Join(result.value))
  }

  // ---- Pieces: lines that may also be empty, or unterminated anywhere ----

  predicate Piece(line: string) {
    forall k :: 0 <= k < |line| - 1 ==> line[k] != '\n'
  }

  predicate Pieces(lines: seq<string>) {
    forall i :: 0 <= i < |lines| ==> Piece(lines[i])
  }

  predicate PieceEdits(script: seq<Edit>) {
    forall i :: 0 <= i < |script| ==> Piece(script[i].line)
  }

  predicate PieceHunks(hunks: seq<Hunk>) {
    forall i :: 0 <= i < |hunks| ==> PieceEdits(hunks[i].body)
  }

  lemma {:induction false} PieceSides(script: seq<Edit>)
    requires PieceEdits(script)
    ensures Pieces(Old(script)) && Pieces(New(script))
  {
    hide Piece;
    if script != [] {
      PieceSides(script[..|script| - 1]);
    }
  }

  lemma {:induction false} NewSideIsPieces(hunks: seq<Hunk>, doc: Document, p: nat, r: nat)
    requires PieceHunks(hunks) && Denotes(hunks, doc, p, r) && Pieces(OldSide(doc))
    ensures Pieces(NewSide(doc))
    decreases doc
  {
    hide Old, New, Piece, PieceEdits;
    match doc
    case Tail(_) =>
    case Segment(gap, body, rest) =>
      PieceSides(body);
      var side := OldSide(doc);
      forall i | 0 <= i < |OldSide(rest)| ensures Piece(OldSide(rest)[i]) {
        assert side[|gap| + |Old(body)| + i] == OldSide(rest)[i];
      }
      forall i | 0 <= i < |gap| ensures Piece(gap[i]) {
        assert side[i] == gap[i];
      }
      NewSideIsPieces(hunks[1..], rest, p + |gap| + |Old(body)|, r + |gap| + |New(body)|);
  }

  /** How many lines the hunks add. */
  function Growth(hunks: seq<Hunk>): int {
    if hunks == [] then 0 else |New(hunks[0].body)| - |Old(hunks[0].body)| + Growth(hunks[1..])
  }

  lemma {:induction false} SidesGrow(hunks: seq<Hunk>, doc: Document, p: nat, r: nat)
    requires Denotes(hunks, doc, p, r)
    ensures |NewSide(doc)| == |OldSide(doc)| + Growth(hunks)
    decreases doc
  {
    hide Old, New;
    match doc
    case Tail(_) =>
    case Segment(gap, body, rest) =>
      SidesGrow(hunks[1..], rest, p + |gap| + |Old(body)|, r + |gap| + |New(body)|);
  }

  lemma {:induction false} SwapShrinks(hunks: seq<Hunk>)
    ensures Growth(SwapHunks(hunks)) == -Growth(hunks)
  {
    if hunks != [] {
      assert SwapHunks(hunks)[1..] == SwapHunks(hunks[1..]);
      SwappedSides(hunks[0].body);
      SwapShrinks(hunks[1..]);
    }
  }

  lemma PatchedPieces(hunks: seq<Hunk>, parent: seq<string>, result: seq<string>)
    requires Patches(hunks, parent, result) && PieceHunks(hunks) && Pieces(parent)
    ensures Pieces(result) && |result| == |parent| + Growth(hunks)
  {
    hide Pieces, PieceHunks;
    assert parent[0..] == parent;
    PlacedDenotes(parent, hunks, 0, 0);
    NewSideIsPieces(hunks, Place(parent, hunks, 0, 0).value, 0, 0);
    SidesGrow(hunks, Place(parent, hunks, 0, 0).value, 0, 0);
  }

  /** An unterminated piece runs into the first line of what follows it. */
  lemma Glued(piece: string, rest: string)
    requires piece != "" && Piece(piece) && !Terminated(piece) && rest != ""
    ensures |SplitLines(piece + rest)| == |SplitLines(rest)|
  {
    var text, n := piece + rest, LineEnd(rest);
    assert text[|piece|..] == rest && text[..|piece|] == piece;
    assert LineEnd(text) == |piece| + n by { GluedEnd(piece, rest); }
    assert text[|piece| + n..] == rest[n..];
  }

  lemma {:induction false} GluedEnd(piece: string, rest: string)
    requires '\n' !in piece && rest != ""
    ensures LineEnd(piece + rest) == |piece| + LineEnd(rest)
    decreases |piece|
  {
    if piece == "" {
      assert piece + rest == rest;
    } else {
      assert (piece + rest)[1..] == piece[1..] + rest;
      GluedEnd(piece[1..], rest);
    }
  }

  /** Pieces joined and split again never become more, and become fewer unless they are the lines of a text. */
  lemma {:induction false} ResplitCount(pieces: seq<string>)
    requires Pieces(pieces)
    ensures |SplitLines(Join(pieces))| <= |pieces|
    ensures |SplitLines(Join(pieces))| == |pieces| <==> TextLines(pieces)
  {
    if pieces != [] {
      var first, rest := pieces[0], pieces[1..];
      ResplitCount(rest);
      TextLinesStep(pieces);
      hide TextLines;
      assert Piece(first);
      if first == "" {
        assert Join(pieces) == Join(rest);
      } else if Terminated(first) || Join(rest) == "" {
        FirstLine(first, Join(rest));
        assert Join(pieces)[|first|..] == Join(rest);
        if rest != [] && Join(rest) == "" { assert SplitLines(Join(rest)) == []; }
      } else {
        Glued(first, Join(rest));
      }
    }
  }

  lemma TextLinesStep(lines: seq<string>)
    requires lines != []
    ensures TextLines(lines) <==>
              OneLine(lines[0]) && TextLines(lines[1..]) && (lines[1..] == [] || Terminated(lines[0]))
  {
    hide OneLine, Terminated;
    var rest := lines[1..];
    assert forall i :: 0 <= i < |rest| ==> rest[i] == lines[i + 1];
    if OneLine(lines[0]) && TextLines(rest) && (rest == [] || Terminated(lines[0])) {
      forall i | 0 <= i < |lines| ensures OneLine(lines[i]) && (i < |lines| - 1 ==> Terminated(lines[i])) {
        if i > 0 { assert OneLine(rest[i - 1]) && (i - 1 < |rest| - 1 ==> Terminated(rest[i - 1])); }
      }
    }
    if TextLines(lines) {
      forall i | 0 <= i < |rest| ensures OneLine(rest[i]) && (i < |rest| - 1 ==> Terminated(rest[i])) {
        assert OneLine(lines[i + 1]);
      }
    }
  }

  // ---- The reverse patch as text ----

  /** What a printed header must look like for its text to split where it should. */
  ghost predicate LineCodec(show: Header -> string) {
    forall h :: OneLine(show(h)) && Terminated(show(h))
  }

  /** `b` splits wherever `a` does. */
  predicate SameShape(a: seq<string>, b: seq<string>) {
    && |a| == |b|
    && forall i :: 0 <= i < |a| ==>
         (OneLine(a[i]) ==> OneLine(b[i])) && (Terminated(a[i]) ==> Terminated(b[i]))
  }

  lemma ShapeKeepsLines(a: seq<string>, b: seq<string>)
    requires SameShape(a, b) && TextLines(a)
    ensures TextLines(b)
  {
    hide OneLine, Terminated;
    forall i | 0 <= i < |b| ensures OneLine(b[i]) && (i < |b| - 1 ==> Terminated(b[i])) {
      assert OneLine(a[i]) && (i < |a| - 1 ==> Terminated(a[i]));
    }
  }

  /** The line of an edit is a piece of the patch line, and the swapped edit prints to a line of the same shape. */
  lemma SwappedLine(line: string)
    requires ParseEdit(line).Some?
    ensures var e := ParseEdit(line).value;
            && (OneLine(line) ==> Piece(e.line) && OneLine(PrintEdit(SwapEdit(e))))
            && (Terminated(line) ==> Terminated(PrintEdit(SwapEdit(e))))
  {
    var e := ParseEdit(line).value;
    var p := PrintEdit(SwapEdit(e));
    assert |p| == |line| && forall k :: 1 <= k < |p| ==> p[k] == line[k] && line[k] == e.line[k - 1];
  }

  lemma SwappedBody(lines: seq<string>)
    requires ParseBody(lines).Some?
    ensures SameShape(lines, PrintBody(SwapScript(ParseBody(lines).value)))
    ensures (forall i :: 0 <= i < |lines| ==> OneLine(lines[i])) ==> PieceEdits(ParseBody(lines).value)
  {
    hide ParseBody, OneLine, Terminated, Piece, ParseEdit, PrintEdit;
    forall i | 0 <= i < |lines|
      ensures ParseEdit(lines[i]) == Some(ParseBody(lines).value[i])
    {
      ParseBodyAt(lines, i);
    }
    forall i | 0 <= i < |lines| {
      SwappedLine(lines[i]);
    }
  }

  /** The lines of hunks read from a text are pieces, and the reverse hunks print to lines of the same shape. */
  lemma {:induction false} SwappedPatch(parse: HeaderParser, show: Header -> string, lines: seq<string>)
    requires LineCodec(show) && ParseHunks(parse, lines).Some?
    requires forall i :: 0 <= i < |lines| ==> OneLine(lines[i])
    ensures var hunks := ParseHunks(parse, lines).value;
            SameShape(lines, PrintHunks(show, SwapHunks(hunks))) && PieceHunks(hunks)
    decreases |lines|
  {
    hide ParseBody, ParseHunks, OneLine, Terminated, PieceEdits, PrintBody, OpensHunk, SwapScript, PrintHunks,
        SwapHunks, PieceHunks, SameShape;
    if lines == [] {
      NoLines(parse);
      NothingPrinted(show);
    } else {
      ParseHunksStep(parse, lines);
      var hunks, n := ParseHunks(parse, lines).value, BodyEnd(lines, 1);
      var body, rest := lines[1..n], lines[n..];
      assert hunks[1..] == ParseHunks(parse, rest).value;
      SwappedBody(body);
      SwappedPatch(parse, show, rest);
      PrintSwapped(show, hunks);
      var head := show(SwapHeader(hunks[0].header));
      assert lines == [lines[0]] + body + rest;
      HeadShape(show, lines[0], hunks[0].header);
      ShapesJoin([lines[0]], body, rest, [head], PrintBody(SwapScript(hunks[0].body)),
          PrintHunks(show, SwapHunks(hunks[1..])));
    }
  }

  lemma NothingPrinted(show: Header -> string)
    ensures SameShape([], PrintHunks(show, SwapHunks([]))) && PieceHunks([])
  {
  }

  lemma HeadShape(show: Header -> string, line: string, h: Header)
    requires LineCodec(show)
    ensures SameShape([line], [show(SwapHeader(h))])
  {
    hide OneLine, Terminated;
  }

  lemma PrintSwapped(show: Header -> string, hunks: seq<Hunk>)
    requires hunks != []
    ensures PrintHunks(show, SwapHunks(hunks)) ==
              [show(SwapHeader(hunks[0].header))] + PrintBody(SwapScript(hunks[0].body))
              + PrintHunks(show, SwapHunks(hunks[1..]))
    ensures PieceHunks(hunks) <==> PieceEdits(hunks[0].body) && PieceHunks(hunks[1..])
  {
    hide PrintBody, SwapScript, PieceEdits;
    assert SwapHunks(hunks)[1..] == SwapHunks(hunks[1..]);
    var rest := hunks[1..];
    assert forall i :: 0 <= i < |rest| ==> rest[i] == hunks[i + 1];
    if PieceEdits(hunks[0].body) && PieceHunks(rest) {
      forall i | 0 <= i < |hunks| ensures PieceEdits(hunks[i].body) {
        if i > 0 { assert PieceEdits(rest[i - 1].body); }
      }
    }
    if PieceHunks(hunks) {
      forall i | 0 <= i < |rest| ensures PieceEdits(rest[i].body) { assert PieceEdits(hunks[i + 1].body); }
    }
  }

  lemma ShapesJoin(a: seq<string>, b: seq<string>, c: seq<string>, a': seq<string>, b': seq<string>, c': seq<string>)
    requires SameShape(a, a') && SameShape(b, b') && SameShape(c, c')
    ensures SameShape(a + b + c, a' + b' + c')
  {
    hide OneLine, Terminated;
  }

  lemma SuffixLines(lines: seq<string>, k: nat)
    requires TextLines(lines) && k <= |lines|
    ensures TextLines(lines[k..])
  {
    hide OneLine, Terminated;
    var s := lines[k..];
    forall i | 0 <= i < |s| ensures OneLine(s[i]) && (i < |s| - 1 ==> Terminated(s[i])) {
      assert s[i] == lines[k + i] && OneLine(lines[k + i]);
    }
  }

  lemma HeaderLines(lines: seq<string>)
    requires TextLines(lines)
    ensures TextLines(["--- a\n", "+++ b\n"] + lines)
  {
    var all := ["--- a\n", "+++ b\n"] + lines;
    assert OneLine("--- a\n") && Terminated("--- a\n") && OneLine("+++ b\n") && Terminated("+++ b\n");
    hide OneLine, Terminated;
    forall i | 0 <= i < |all| ensures OneLine(all[i]) && (i < |all| - 1 ==> Terminated(all[i])) {
      if i >= 2 { assert all[i] == lines[i - 2] && OneLine(lines[i - 2]); }
    }
  }

  lemma LinesArePieces(lines: seq<string>)
    requires TextLines(lines)
    ensures Pieces(lines)
  {
    forall i | 0 <= i < |lines| ensures Piece(lines[i]) {
      assert OneLine(lines[i]);
    }
  }

  /** The hunks of a patch text carry pieces, and the text of the reverse patch splits into its lines. */
  lemma ReverseText(parse: HeaderParser, show: Header -> string, patch: string)
    requires LineCodec(show) && HunksOf(parse, SplitLines(patch)).Some?
    ensures var hunks := HunksOf(parse, SplitLines(patch)).value;
            var back := PrintPatch(show, SwapHunks(hunks));
            PieceHunks(hunks) && PieceHunks(SwapHunks(hunks)) && SplitLines(Join(back)) == back
  {
    hide SplitLines, ParseHunks, Prelude, PieceHunks, SameShape, OneLine, TextLines, Join, PrintHunks;
    var lines := SplitLines(patch);
    SplitIsTextLines(patch);
    var start := Prelude(lines, 0, 0).value.0;
    SuffixLines(lines, start);
    WholeLines(lines[start..]);
    var hunks := HunksOf(parse, lines).value;
    SwappedPatch(parse, show, lines[start..]);
    SwappedPieces(hunks);
    ShapeKeepsLines(lines[start..], PrintHunks(show, SwapHunks(hunks)));
    HeaderLines(PrintHunks(show, SwapHunks(hunks)));
    ResplitsExactly(PrintPatch(show, SwapHunks(hunks)));
  }

  lemma WholeLines(lines: seq<string>)
    requires TextLines(lines)
    ensures forall i :: 0 <= i < |lines| ==> OneLine(lines[i])
  {
  }

  lemma SwappedPieces(hunks: seq<Hunk>)
    requires PieceHunks(hunks)
    ensures PieceHunks(SwapHunks(hunks))
  {
    hide Piece;
    forall i | 0 <= i < |hunks| ensures PieceEdits(SwapHunks(hunks)[i].body) {
      assert PieceEdits(hunks[i].body);
    }
  }

  /**
    On any two texts: an accepted patch is undone by the text of its reverse
    exactly when it is strict and its result lines are the lines of a text,
    that is, when nothing was written after an unterminated line and no
    inserted line is empty.
   */
  lemma TextPatchReverses(parse: HeaderParser, show: Header -> string, parent: string, patch: string)
    requires Codec(parse, show) && LineCodec(show)
    requires ApplyText(parse, parent, patch).Some?
    ensures HunksOf(parse, SplitLines(patch)).Some?
    ensures var hunks := HunksOf(parse, SplitLines(patch)).value;
            var placed := Place(SplitLines(parent), hunks, 0, 0);
            var reverse := Join(PrintPatch(show, SwapHunks(hunks)));
            && placed.Some? && Denotes(hunks, placed.value, 0, 0)
            && (ApplyText(parse, ApplyText(parse, parent, patch).value, reverse) == Some(parent) <==>
                Strict(hunks, placed.value, 0, 0) && TextLines(NewSide(placed.value)))
  {
    hide ParseHunks, Prelude, Place, Denotes, Strict, SplitLines, Apply, Join, HunksOf, PrintHunks, TextLines, Pieces,
        PieceHunks, Growth;
    var lines := SplitLines(parent);
    AppliedPatchReverses(parse, show, lines, SplitLines(patch));
    var hunks, result := HunksOf(parse, SplitLines(patch)).value, Apply(parse, lines, SplitLines(patch)).value;
    var back, found := PrintPatch(show, SwapHunks(hunks)), SplitLines(Join(result));
    ReverseText(parse, show, patch);
    SplitIsTextLines(parent);
    LinesArePieces(lines);
    PatchedPieces(hunks, lines, result);
    ResplitCount(result);
    ResplitsExactly(result);
    JoinSplit(parent);
    if Apply(parse, found, back).Some? {
      var again := Apply(parse, found, back).value;
      NotEmptySwapped(hunks);
      PrintedApplies(parse, show, SwapHunks(hunks), found, again);
      SplitIsTextLines(Join(result));
      LinesArePieces(found);
      PatchedPieces(SwapHunks(hunks), found, again);
      SwapShrinks(hunks);
      ResplitCount(again);
      ResplitsExactly(again);
    }
  }

  lemma NotEmptySwapped(hunks: seq<Hunk>)
    ensures hunks != [] ==> SwapHunks(hunks) != []
  {
  }

  /**
    The condition on the result is needed: inserting a line after a last line that
    has no newline is accepted, and the two lines come out as one.
   */
  lemma UnterminatedLinesGlue()
    ensures var parent, hunk := ["a"], Hunk(Header(1, 0, 2, 1), [Insert("b\n")]);
            && Patches([hunk], parent, ["a", "b\n"])
            && Canonical(hunk, 1, 1)
            && SplitLines(Join(["a", "b\n"])) == ["ab\n"]
  {
    var parent, hunk := ["a"], Hunk(Header(1, 0, 2, 1), [Insert("b\n")]);
    assert Old(hunk.body[..0]) == [] && New(hunk.body[..0]) == [];
    assert Old(hunk.body) == [] && New(hunk.body) == ["b\n"];
    var doc := Segment(["a"], hunk.body, Tail([]));
    assert [hunk][1..] == [];
    assert Denotes([hunk], doc, 0, 0);
    assert parent[0..] == OldSide(doc) == parent && NewSide(doc) == ["a", "b\n"];
    DenotedIsPlaced(parent, [hunk], 0, 0, doc);
    assert ["a", "b\n"][1..] == ["b\n"] && ["b\n"][1..] == [];
    assert Join(["b\n"]) == "b\n" && Join(["a", "b\n"]) == "ab\n";
    assert "ab\n"[..2] == "ab";
    FirstLine("ab\n", "");
    assert "ab\n" + "" == "ab\n" && "ab\n"[..3] == "ab\n" && "ab\n"[3..] == "";
  }
}
