/** Cumulative checkpoints: reading the editable block, merging a delta into it, and append-only extension. */
module Checkpoint {
  import opened Wrappers
  import opened Blanks
  import opened PatchText

  const START := "-- EVOLVE-BLOCK-START"
  const END := "-- EVOLVE-BLOCK-END"
  const SENTINEL := "-- SHINKA-APPEND-HERE"

  // ---- Marker lines ----

  /** The line is the marker, give or take surrounding blanks. */
  predicate Is(line: string, marker: string) {
    Strip(line) == marker
  }

  predicate OccursAt(s: string, part: string, i: nat) {
    i + |part| <= |s| && s[i..i + |part|] == part
  }

  predicate Contains(s: string, part: string) {
    exists i :: 0 <= i <= |s| && OccursAt(s, part, i)
  }

  lemma StripEnded(s: string)
    ensures Strip(s + "\n") == Strip(s)
  {
    assert (s + "\n")[..|s|] == s;
  }

  lemma {:induction false} StripIsInside(s: string)
    ensures Contains(s, Strip(s))
    decreases |s|
  {
    if s != "" && IsBlank(s[|s| - 1]) {
      var t := s[..|s| - 1];
      StripIsInside(t);
      var i :| 0 <= i <= |t| && OccursAt(t, Strip(t), i);
      assert OccursAt(s, Strip(t), i);
    } else {
      StripLeftIsSuffix(s);
      var u := StripLeft(s);
      assert OccursAt(s, u, |s| - |u|);
    }
  }

  lemma {:induction false} StripLeftIsSuffix(s: string)
    ensures |StripLeft(s)| <= |s| && s[|s| - |StripLeft(s)|..] == StripLeft(s)
  {
    if s != "" && IsBlank(s[0]) { StripLeftIsSuffix(s[1..]); }
  }

  lemma SentinelLine()
    ensures Is(SENTINEL + "\n", SENTINEL) && OneLine(SENTINEL + "\n") && Terminated(SENTINEL + "\n")
    ensures !Is(SENTINEL + "\n", START) && !Is(SENTINEL + "\n", END)
  {
    MarkersAreStripped();
    StripEnded(SENTINEL);
    hide Strip;
    assert forall k :: 0 <= k < |SENTINEL| ==> SENTINEL[k] != '\n';
  }

  /** The markers begin and end with a character that is not blank, and differ. */
  lemma MarkersAreStripped()
    ensures Strip(START) == START && Strip(END) == END && Strip(SENTINEL) == SENTINEL
    ensures START != END && START != SENTINEL && END != SENTINEL
  {
    assert |START| == 21 && START[0] == '-' && START[20] == 'T';
    assert |END| == 19 && END[0] == '-' && END[18] == 'D';
    assert |SENTINEL| == 21 && SENTINEL[0] == '-' && SENTINEL[20] == 'E';
    StripsToItself(START);
    StripsToItself(END);
    StripsToItself(SENTINEL);
  }

  lemma StripsToItself(s: string)
    requires s != "" && !IsBlank(s[0]) && !IsBlank(s[|s| - 1])
    ensures Strip(s) == s
  {
  }

  // ---- Where the markers are ----

  function Places(lines: seq<string>, marker: string): (places: seq<nat>)
    ensures forall i :: 0 <= i < |places| ==> places[i] < |lines|
  {
    if lines == [] then []
    else
      var n := |lines| - 1;
      Places(lines[..n], marker) + if Is(lines[n], marker) then [n] else []
  }

  lemma {:induction false} PlacesAre(lines: seq<string>, marker: string)
    ensures forall i :: 0 <= i < |Places(lines, marker)| ==> Is(lines[Places(lines, marker)[i]], marker)
  {
    hide Is;
    if lines != [] { PlacesAre(lines[..|lines| - 1], marker); }
  }

  predicate Absent(lines: seq<string>, marker: string) {
    forall i :: 0 <= i < |lines| ==> !Is(lines[i], marker)
  }

  predicate OnlyAt(lines: seq<string>, marker: string, k: int) {
    0 <= k < |lines| && Is(lines[k], marker) && forall i :: 0 <= i < |lines| && i != k ==> !Is(lines[i], marker)
  }

  lemma OneMoreLine(lines: seq<string>, line: string, marker: string, k: int)
    ensures Absent(lines + [line], marker) <==> Absent(lines, marker) && !Is(line, marker)
    ensures OnlyAt(lines + [line], marker, k) <==>
              if Is(line, marker) then k == |lines| && Absent(lines, marker) else OnlyAt(lines, marker, k)
  {
    hide Is;
    var more := lines + [line];
    assert more[|lines|] == line && forall i :: 0 <= i < |lines| ==> more[i] == lines[i];
  }

  lemma {:induction false} NoPlaces(lines: seq<string>, marker: string)
    ensures Places(lines, marker) == [] <==> Absent(lines, marker)
  {
    if lines != [] {
      hide Is, Absent;
      var n := |lines| - 1;
      NoPlaces(lines[..n], marker);
      OneMoreLine(lines[..n], lines[n], marker, 0);
      assert lines[..n] + [lines[n]] == lines;
    }
  }

  lemma {:induction false} OnePlace(lines: seq<string>, marker: string, k: int)
    ensures (|Places(lines, marker)| == 1 && Places(lines, marker)[0] == k) <==> OnlyAt(lines, marker, k)
  {
    if lines != [] {
      hide Is, Absent, OnlyAt;
      var n := |lines| - 1;
      OnePlace(lines[..n], marker, k);
      NoPlaces(lines[..n], marker);
      OneMoreLine(lines[..n], lines[n], marker, k);
      assert lines[..n] + [lines[n]] == lines;
    }
  }

  /** The editable block lies between the only start marker and the only end marker after it. */
  function Bounds(lines: seq<string>): (b: Option<(nat, nat)>)
    ensures b.Some? ==> b.value.0 < b.value.1 < |lines|
  {
    var starts, ends := Places(lines, START), Places(lines, END);
    if |starts| != 1 || |ends| != 1 || starts[0] >= ends[0] then None else Some((starts[0], ends[0]))
  }

  lemma BoundsForm(lines: seq<string>, s: nat, e: nat)
    ensures Bounds(lines) == Some((s, e)) <==> OnlyAt(lines, START, s) && OnlyAt(lines, END, e) && s < e
  {
    hide OnlyAt, Places, START, END;
    OnePlace(lines, START, s);
    OnePlace(lines, END, e);
  }

  // ---- The operations on text ----

  function EvolveBlock(source: string): Option<string> {
    var lines := SplitLines(source);
    var b := Bounds(lines);
    if b.None? then None else Some(Join(lines[b.value.0 + 1..b.value.1]))
  }

  function Keep(lines: seq<string>): (kept: seq<string>) {
    if lines == [] then []
    else (if Is(lines[0], SENTINEL) then [] else [lines[0]]) + Keep(lines[1..])
  }

  lemma {:induction false} KeepIsFilter(lines: seq<string>)
    ensures forall l :: l in Keep(lines) <==> l in lines && !Is(l, SENTINEL)
  {
    hide Is, SENTINEL;
    if lines != [] {
      KeepIsFilter(lines[1..]);
      assert lines == [lines[0]] + lines[1..];
    }
  }

  function Ended(text: string): string {
    if text != "" && text[|text| - 1] != '\n' then text + "\n" else text
  }

  function Content(lines: seq<string>): string {
    Ended(Join(Keep(lines)))
  }

  function Length(lines: seq<string>): nat {
    if lines == [] then 0 else |lines[0]| + Length(lines[1..])
  }

  lemma {:induction false} LengthIsJoined(lines: seq<string>)
    ensures Length(lines) == |Join(lines)|
  {
    if lines != [] { LengthIsJoined(lines[1..]); }
  }

  lemma {:induction false} JoinAppends(a: seq<string>, b: seq<string>)
    ensures Join(a + b) == Join(a) + Join(b)
  {
    if a == [] {
      assert a + b == b;
    } else {
      JoinAppends(a[1..], b);
      assert (a + b)[1..] == a[1..] + b;
    }
  }

  /** The checkpoint with the delta's block appended to its own and a sentinel put last. */
  function Materialize(checkpoint: string, delta: string): Option<string> {
    var lines := SplitLines(checkpoint);
    var b := Bounds(lines);
    var block := EvolveBlock(delta);
    if b.None? || block.None? then None
    else
      var (start, end) := b.value;
      JoinSplit(checkpoint);
      CutsAreInside(lines, start + 1);
      CutsAreInside(lines, end);
      Some(checkpoint[..Length(lines[..start + 1])]
           + Content(lines[start + 1..end]) + Content(SplitLines(block.value)) + SENTINEL + "\n"
           + checkpoint[Length(lines[..end])..])
  }

  lemma CutsAreInside(lines: seq<string>, k: nat)
    requires k <= |lines|
    ensures Length(lines[..k]) <= |Join(lines)|
    ensures Join(lines)[..Length(lines[..k])] == Join(lines[..k])
    ensures Join(lines)[Length(lines[..k])..] == Join(lines[k..])
  {
    LengthIsJoined(lines[..k]);
    JoinAppends(lines[..k], lines[k..]);
    assert lines == lines[..k] + lines[k..];
  }

  // ---- A candidate in three parts ----

  /** Lines up to the start marker, the editable block, and the end marker and what follows. */
  datatype Candidate = Candidate(pre: seq<string>, block: seq<string>, post: seq<string>)

  function Lines(c: Candidate): seq<string> {
    c.pre + c.block + c.post
  }

  function Text(c: Candidate): string {
    Join(Lines(c))
  }

  predicate AllTerminated(lines: seq<string>) {
    forall i :: 0 <= i < |lines| ==> OneLine(lines[i]) && Terminated(lines[i])
  }

  predicate WellFormed(c: Candidate) {
    && c.pre != [] && OnlyAt(c.pre, START, |c.pre| - 1) && Absent(c.pre, END)
    && Absent(c.block, START) && Absent(c.block, END)
    && c.post != [] && OnlyAt(c.post, END, 0) && Absent(c.post, START)
    && AllTerminated(c.pre) && AllTerminated(c.block) && TextLines(c.post)
  }

  function Read(source: string): Option<Candidate> {
    var lines := SplitLines(source);
    var b := Bounds(lines);
    if b.None? then None
    else Some(Candidate(lines[..b.value.0 + 1], lines[b.value.0 + 1..b.value.1], lines[b.value.1..]))
  }

  lemma WellFormedLines(c: Candidate)
    requires WellFormed(c)
    ensures TextLines(Lines(c))
  {
    hide Is, OneLine, Terminated;
    var lines := Lines(c);
    forall i | 0 <= i < |lines| ensures OneLine(lines[i]) && (i < |lines| - 1 ==> Terminated(lines[i])) {
      if i < |c.pre| { assert lines[i] == c.pre[i]; }
      else if i < |c.pre| + |c.block| { assert lines[i] == c.block[i - |c.pre|]; }
      else { assert lines[i] == c.post[i - |c.pre| - |c.block|]; }
    }
  }

  lemma PartsOnlyAt(a: seq<string>, b: seq<string>, c: seq<string>, marker: string, k: int)
    ensures OnlyAt(a, marker, k) && Absent(b, marker) && Absent(c, marker) ==> OnlyAt(a + b + c, marker, k)
    ensures Absent(a, marker) && OnlyAt(b, marker, k) && Absent(c, marker) ==> OnlyAt(a + b + c, marker, |a| + k)
    ensures Absent(a, marker) && Absent(b, marker) && OnlyAt(c, marker, k) ==> OnlyAt(a + b + c, marker, |a| + |b| + k)
    ensures Absent(a, marker) && Absent(b, marker) && Absent(c, marker) <==> Absent(a + b + c, marker)
  {
    hide Is;
    var all := a + b + c;
    assert forall i :: 0 <= i < |a| ==> all[i] == a[i];
    assert forall i :: 0 <= i < |b| ==> all[|a| + i] == b[i];
    assert forall i :: 0 <= i < |c| ==> all[|a| + |b| + i] == c[i];
  }

  lemma BoundsOfLines(c: Candidate)
    requires WellFormed(c)
    ensures Bounds(Lines(c)) == Some((|c.pre| - 1, |c.pre| + |c.block|))
  {
    hide Is, TextLines, AllTerminated, START, END, OnlyAt, Absent, Bounds;
    PartsOnlyAt(c.pre, c.block, c.post, START, |c.pre| - 1);
    PartsOnlyAt(c.pre, c.block, c.post, END, 0);
    BoundsForm(Lines(c), |c.pre| - 1, |c.pre| + |c.block|);
  }

  /** A candidate written out reads back in the same three parts. */
  lemma ReadBack(c: Candidate)
    requires WellFormed(c)
    ensures Read(Text(c)) == Some(c)
  {
    hide TextLines, SplitLines, Join, Bounds, WellFormed;
    WellFormedLines(c);
    SplitJoin(Lines(c));
    BoundsOfLines(c);
    CutApart(c);
    hide Lines;
    assert |c.pre| - 1 + 1 == |c.pre|;
  }

  lemma CutApart(c: Candidate)
    ensures Lines(c)[..|c.pre|] == c.pre && Lines(c)[|c.pre| + |c.block|..] == c.post
    ensures Lines(c)[|c.pre|..|c.pre| + |c.block|] == c.block
  {
  }

  lemma CutIsWellFormed(c: Candidate)
    requires c.pre != [] && c.post != [] && TextLines(Lines(c))
    requires Bounds(Lines(c)) == Some((|c.pre| - 1, |c.pre| + |c.block|))
    ensures WellFormed(c)
  {
    hide Is, TextLines, AllTerminated, START, END, OnlyAt, Absent;
    BoundsForm(Lines(c), |c.pre| - 1, |c.pre| + |c.block|);
    hide Bounds;
    PartsOf(c.pre, c.block, c.post, START, |c.pre| - 1);
    PartsOf(c.pre, c.block, c.post, END, |c.pre| + |c.block|);
    PartsOfText(c.pre, c.block, c.post);
  }

  /** Every source with one ordered block is a candidate written out. */
  lemma ReadIsWellFormed(source: string)
    requires Read(source).Some?
    ensures WellFormed(Read(source).value) && Text(Read(source).value) == source
    ensures Lines(Read(source).value) == SplitLines(source)
    ensures Bounds(SplitLines(source)) == Some((|Read(source).value.pre| - 1,
            |Read(source).value.pre| + |Read(source).value.block|))
  {
    hide TextLines, WellFormed, Bounds, SplitLines, Join;
    var c := Read(source).value;
    SplitIsTextLines(source);
    JoinSplit(source);
    assert Lines(c) == SplitLines(source);
    CutIsWellFormed(c);
  }

  lemma PartsOf(a: seq<string>, b: seq<string>, c: seq<string>, marker: string, k: int)
    requires OnlyAt(a + b + c, marker, k) && a != [] && c != []
    ensures k == |a| - 1 ==> OnlyAt(a, marker, k) && Absent(b, marker) && Absent(c, marker)
    ensures k == |a| + |b| ==> Absent(a, marker) && Absent(b, marker) && OnlyAt(c, marker, 0)
  {
    hide Is;
    var all := a + b + c;
    assert forall i :: 0 <= i < |a| ==> a[i] == all[i];
    assert forall i :: 0 <= i < |b| ==> b[i] == all[|a| + i];
    assert forall i :: 0 <= i < |c| ==> c[i] == all[|a| + |b| + i];
  }

  lemma PartsOfText(a: seq<string>, b: seq<string>, c: seq<string>)
    requires TextLines(a + b + c) && c != []
    ensures AllTerminated(a) && AllTerminated(b) && TextLines(c)
  {
    hide OneLine, Terminated;
    var all := a + b + c;
    assert forall i :: 0 <= i < |a| ==> a[i] == all[i];
    assert forall i :: 0 <= i < |b| ==> b[i] == all[|a| + i];
    assert forall i :: 0 <= i < |c| ==> c[i] == all[|a| + |b| + i];
  }

  // ---- Merging ----

  /** What materializing means: both blocks without their sentinels, then one sentinel. */
  function Merge(c: Candidate, d: Candidate): Candidate {
    Candidate(c.pre, Keep(c.block) + Keep(d.block) + [SENTINEL + "\n"], c.post)
  }

  lemma {:induction false} KeepAppends(a: seq<string>, b: seq<string>)
    ensures Keep(a + b) == Keep(a) + Keep(b)
  {
    hide Is, SENTINEL, Keep;
    if a == [] {
      KeepNothing();
      assert a + b == b;
    } else {
      KeepAppends(a[1..], b);
      KeepStep(a);
      KeepStep(a + b);
      assert (a + b)[1..] == a[1..] + b;
    }
  }

  lemma KeepNothing()
    ensures Keep([]) == []
  {
  }

  lemma KeepStep(lines: seq<string>)
    requires lines != []
    ensures Keep(lines) == (if Is(lines[0], SENTINEL) then [] else [lines[0]]) + Keep(lines[1..])
  {
  }

  lemma {:induction false} KeepKeepsAll(lines: seq<string>)
    requires Absent(lines, SENTINEL)
    ensures Keep(lines) == lines
  {
    if lines != [] {
      assert !Is(lines[0], SENTINEL);
      assert forall i :: 0 <= i < |lines| - 1 ==> lines[1..][i] == lines[i + 1];
      KeepKeepsAll(lines[1..]);
    }
  }

  lemma KeptLines(lines: seq<string>)
    ensures Absent(Keep(lines), SENTINEL)
    ensures forall m :: Absent(lines, m) ==> Absent(Keep(lines), m)
    ensures AllTerminated(lines) ==> AllTerminated(Keep(lines))
  {
    hide Is, OneLine, Terminated;
    var kept := Keep(lines);
    KeepIsFilter(lines);
    forall i | 0 <= i < |kept| ensures kept[i] in lines && !Is(kept[i], SENTINEL) {
      assert kept[i] in kept;
    }
    hide Keep;
  }

  lemma KeptBeforeSentinel(lines: seq<string>)
    ensures Keep(Keep(lines)) == Keep(lines)
    ensures Keep([SENTINEL + "\n"]) == []
  {
    KeptLines(lines);
    KeepKeepsAll(Keep(lines));
    SentinelLine();
  }

  lemma MergeIsWellFormed(c: Candidate, d: Candidate)
    requires WellFormed(c) && WellFormed(d)
    ensures WellFormed(Merge(c, d))
    ensures OnlyAt(Merge(c, d).block, SENTINEL, |Merge(c, d).block| - 1)
  {
    KeptLines(c.block);
    KeptLines(d.block);
    SentinelLine();
    hide Is, OnlyAt, OneLine, Terminated, TextLines, Keep, START, END, SENTINEL;
    var a, b, s := Keep(c.block), Keep(d.block), [SENTINEL + "\n"];
    OnlySentinel(s);
    PartsOnlyAt(a, b, s, SENTINEL, 0);
    PartsOnlyAt(a, b, s, START, 0);
    PartsOnlyAt(a, b, s, END, 0);
    AllTerminatedAppends(a, b, s);
  }

  lemma OnlySentinel(s: seq<string>)
    requires s == [SENTINEL + "\n"]
    ensures OnlyAt(s, SENTINEL, 0) && Absent(s, START) && Absent(s, END) && AllTerminated(s)
  {
    SentinelLine();
  }

  lemma AllTerminatedAppends(a: seq<string>, b: seq<string>, c: seq<string>)
    ensures AllTerminated(a + b + c) <==> AllTerminated(a) && AllTerminated(b) && AllTerminated(c)
  {
    hide OneLine, Terminated;
    var all := a + b + c;
    assert forall i :: 0 <= i < |a| ==> a[i] == all[i];
    assert forall i :: 0 <= i < |b| ==> b[i] == all[|a| + i];
    assert forall i :: 0 <= i < |c| ==> c[i] == all[|a| + |b| + i];
  }

  lemma TerminatedLinesResplit(lines: seq<string>)
    requires AllTerminated(lines)
    ensures SplitLines(Join(lines)) == lines && Ended(Join(lines)) == Join(lines)
  {
    SplitJoin(lines);
    hide SplitLines, OneLine;
    if lines != [] {
      var n := |lines| - 1;
      assert Terminated(lines[n]);
      hide Terminated, AllTerminated;
      JoinAppends(lines[..n], [lines[n]]);
      JoinOne(lines[n]);
      assert lines == lines[..n] + [lines[n]];
      EndsTerminated(Join(lines[..n]), lines[n]);
    }
  }

  lemma EndsTerminated(before: string, line: string)
    requires Terminated(line)
    ensures Ended(before + line) == before + line
  {
  }

  /** Materializing text is merging candidates, and is refused exactly when either text has no ordered block. */
  lemma MaterializeIsMerge(checkpoint: string, delta: string)
    ensures Materialize(checkpoint, delta).Some? <==> Read(checkpoint).Some? && Read(delta).Some?
    ensures Read(checkpoint).Some? && Read(delta).Some? ==>
              && Materialize(checkpoint, delta) == Some(Text(Merge(Read(checkpoint).value, Read(delta).value)))
              && Read(Materialize(checkpoint, delta).value) == Some(Merge(Read(checkpoint).value, Read(delta).value))
  {
    if Read(checkpoint).Some? && Read(delta).Some? {
      var c, d := Read(checkpoint).value, Read(delta).value;
      ReadIsWellFormed(checkpoint);
      ReadIsWellFormed(delta);
      MergeIsWellFormed(c, d);
      ReadBack(Merge(c, d));
      MaterializeText(checkpoint, delta, c, d);
    }
  }

  lemma ContentOfBlock(block: seq<string>)
    requires AllTerminated(block)
    ensures Content(block) == Join(Keep(block))
  {
    KeptLines(block);
    TerminatedLinesResplit(Keep(block));
  }

  lemma MaterializeUnfolds(checkpoint: string, delta: string, start: nat, end: nat, block: string)
    requires Bounds(SplitLines(checkpoint)) == Some((start, end)) && EvolveBlock(delta) == Some(block)
    ensures var lines := SplitLines(checkpoint);
            Materialize(checkpoint, delta) ==
            Some(Join(lines[..start + 1]) + Content(lines[start + 1..end]) + Content(SplitLines(block))
                 + SENTINEL + "\n" + Join(lines[end..]))
  {
    hide Join, SplitLines, Content, SENTINEL, Bounds, Length, EvolveBlock;
    var lines := SplitLines(checkpoint);
    JoinSplit(checkpoint);
    CutsAreInside(lines, start + 1);
    CutsAreInside(lines, end);
  }

  lemma MaterializeText(checkpoint: string, delta: string, c: Candidate, d: Candidate)
    requires Read(checkpoint) == Some(c) && Read(delta) == Some(d)
    ensures Materialize(checkpoint, delta) == Some(Text(Merge(c, d)))
  {
    hide Materialize, Read, SplitLines, Content, Keep, WellFormed, Join, AllTerminated, SENTINEL, EvolveBlock, Bounds;
    ReadIsWellFormed(checkpoint);
    BlockOfRead(checkpoint);
    PreIsNotEmpty(checkpoint);
    BlockOfRead(delta);
    MaterializeUnfolds(checkpoint, delta, |c.pre| - 1, |c.pre| + |c.block|, Join(d.block));
    CutApart(c);
    ContentOfBlock(c.block);
    ContentOfBlock(d.block);
    JoinParts(c.pre, Keep(c.block), Keep(d.block), SENTINEL + "\n", c.post);
    Regroup(Join(c.pre) + Join(Keep(c.block)) + Join(Keep(d.block)), SENTINEL, "\n", Join(c.post));
  }

  lemma PreIsNotEmpty(source: string)
    ensures Read(source).Some? ==> Read(source).value.pre != []
  {
  }

  lemma Regroup(a: string, b: string, c: string, d: string)
    ensures a + (b + c) + d == a + b + c + d
  {
  }

  lemma JoinOne(line: string)
    ensures Join([line]) == line
  {
    assert Join([line]) == line + "" == line;
  }

  lemma JoinParts(pre: seq<string>, a: seq<string>, b: seq<string>, line: string, post: seq<string>)
    ensures Join(pre + (a + b + [line]) + post) == Join(pre) + Join(a) + Join(b) + line + Join(post)
  {
    hide Join;
    JoinAppends(pre + (a + b + [line]), post);
    JoinAppends(pre, a + b + [line]);
    JoinAppends(a + b, [line]);
    JoinAppends(a, b);
    JoinOne(line);
    Regroup(Join(pre), Join(a), Join(b), line);
    assert Join(pre) + (Join(a) + Join(b) + line) == Join(pre) + Join(a) + Join(b) + line;
  }

  lemma MergeComposes(c: Candidate, f: Candidate, s: Candidate, b: Candidate)
    requires b.block == f.block + s.block
    ensures Merge(Merge(c, f), s) == Merge(c, b)
  {
    KeepAppends(f.block, s.block);
    KeepAppends(Keep(c.block) + Keep(f.block), [SENTINEL + "\n"]);
    KeepAppends(Keep(c.block), Keep(f.block));
    KeptBeforeSentinel(c.block);
    KeptBeforeSentinel(f.block);
    hide Keep, SENTINEL;
    assert Keep(c.block) + Keep(f.block) + [] == Keep(c.block) + Keep(f.block);
    assert Keep(c.block) + Keep(f.block) + Keep(s.block) == Keep(c.block) + (Keep(f.block) + Keep(s.block));
  }

  /** Blocks are determined by their text. */
  lemma JoinedBlocks(first: string, second: string, both: string)
    requires EvolveBlock(first).Some? && EvolveBlock(second).Some?
    requires EvolveBlock(both) == Some(EvolveBlock(first).value + EvolveBlock(second).value)
    ensures Read(first).Some? && Read(second).Some? && Read(both).Some?
    ensures Read(both).value.block == Read(first).value.block + Read(second).value.block
  {
    BlockOfRead(first);
    BlockOfRead(second);
    BlockOfRead(both);
    var f, s := Read(first).value.block, Read(second).value.block;
    hide Read, EvolveBlock, Join, SplitLines, AllTerminated;
    AllTerminatedAppends(f, s, []);
    NoLines();
    assert f + s + [] == f + s;
    JoinAppends(f, s);
    TerminatedLinesResplit(f + s);
  }

  lemma NoLines()
    ensures AllTerminated([])
  {
  }

  /** Materializing one delta after another is materializing the two blocks as one. */
  lemma MaterializeComposes(checkpoint: string, first: string, second: string, both: string)
    requires Read(checkpoint).Some? && EvolveBlock(first).Some? && EvolveBlock(second).Some?
    requires EvolveBlock(both) == Some(EvolveBlock(first).value + EvolveBlock(second).value)
    ensures Materialize(checkpoint, first).Some? && Materialize(checkpoint, both).Some?
    ensures Materialize(Materialize(checkpoint, first).value, second) == Materialize(checkpoint, both)
  {
    hide Read, Materialize, EvolveBlock, Text, Merge;
    JoinedBlocks(first, second, both);
    MaterializeIsMerge(checkpoint, first);
    MaterializeIsMerge(checkpoint, both);
    MaterializeIsMerge(Materialize(checkpoint, first).value, second);
    MergeComposes(Read(checkpoint).value, Read(first).value, Read(second).value, Read(both).value);
  }

  lemma BlockOfRead(source: string)
    ensures EvolveBlock(source).Some? <==> Read(source).Some?
    ensures Read(source).Some? ==>
              var block := Read(source).value.block;
              EvolveBlock(source) == Some(Join(block)) && AllTerminated(block)
                  && SplitLines(EvolveBlock(source).value) == block
  {
    if Read(source).Some? {
      ReadIsWellFormed(source);
      TerminatedLinesResplit(Read(source).value.block);
    }
  }

  /** What materializing leaves: the checkpoint around its block, and one sentinel, last in the block. */
  lemma MaterializedHasOneSentinel(checkpoint: string, delta: string)
    requires Materialize(checkpoint, delta).Some?
    ensures var made := Materialize(checkpoint, delta).value;
            && Read(checkpoint).Some? && Read(made).Some?
            && var c, m := Read(checkpoint).value, Read(made).value;
            && m.pre == c.pre && m.post == c.post
            && m.block != [] && m.block[|m.block| - 1] == SENTINEL + "\n" && OnlyAt(m.block, SENTINEL, |m.block| - 1)
            && (Anchor(made).Some? <==> Absent(c.pre, SENTINEL) && Absent(c.post, SENTINEL))
  {
    hide Materialize, Read, Anchor, WellFormed, OnlyAt, Absent;
    MaterializeIsMerge(checkpoint, delta);
    var c, d, made := Read(checkpoint).value, Read(delta).value, Materialize(checkpoint, delta).value;
    ReadIsWellFormed(checkpoint);
    ReadIsWellFormed(delta);
    MergeIsWellFormed(c, d);
    AnchorForm(made);
    OnePlace(Merge(c, d).block, SENTINEL, |Merge(c, d).block| - 1);
  }

  // ---- Append-only extension ----

  /** The source split at its only legal append point: its sentinel, or else its end marker. */
  function Anchor(source: string): Option<(string, string)> {
    var lines := SplitLines(source);
    var b := Bounds(lines);
    if b.None? then None
    else
      var sentinels := Places(lines, SENTINEL);
      if |sentinels| > 1 then None
      else if sentinels != [] && !(b.value.0 < sentinels[0] < b.value.1) then None
      else
        var at := if sentinels != [] then sentinels[0] else b.value.1;
        Some((Join(lines[..at]), Join(lines[at..])))
  }

  predicate IsExtension(parent: string, source: string) {
    var p, s := Anchor(parent), Anchor(source);
    p.Some? && s.Some? && s.value.1 == p.value.1 && p.value.0 <= s.value.0
  }

  datatype Refusal = Empty | CarriesMarker | NoBlock | ManySentinels | SentinelOutside

  predicate CarriesMarkers(snippet: string) {
    exists line :: line in SplitLines(snippet) && (Contains(line, START) || Contains(line, END))
  }

  predicate EndsLine(line: string) {
    line != "" && (line[|line| - 1] == '\n' || line[|line| - 1] == '\r')
  }

  /** The snippet inserted at the parent's sentinel, or before its end marker. */
  function Append(parent: string, snippet: string): Result<string, Refusal> {
    if Strip(snippet) == "" then Err(Empty)
    else if CarriesMarkers(snippet) then Err(CarriesMarker)
    else
      var lines := SplitLines(parent);
      var b := Bounds(lines);
      if b.None? then Err(NoBlock)
      else
        var sentinels := Places(lines, SENTINEL);
        if |sentinels| > 1 then Err(ManySentinels)
        else
          var at := if sentinels != [] then sentinels[0] else b.value.1;
          if !(b.value.0 < at <= b.value.1) then Err(SentinelOutside)
          else
            var payload := if EndsLine(lines[at - 1]) then snippet else "\n" + snippet;
            Ok(Join(lines[..at] + [Ended(payload)] + lines[at..]))
  }

  /** Where the block's sentinel is, or its end. */
  function Slot(block: seq<string>): (k: nat)
    ensures k <= |block|
  {
    var sentinels := Places(block, SENTINEL);
    if sentinels == [] then |block| else sentinels[0]
  }

  /** No sentinel outside the block and at most one inside. */
  predicate Anchored(c: Candidate) {
    Absent(c.pre, SENTINEL) && Absent(c.post, SENTINEL) && |Places(c.block, SENTINEL)| <= 1
  }

  lemma PlacesSnoc(lines: seq<string>, line: string, marker: string)
    ensures Places(lines + [line], marker) == Places(lines, marker) + if Is(line, marker) then [|lines|] else []
  {
    hide Is;
    assert (lines + [line])[..|lines|] == lines;
  }

  lemma {:induction false} PlacesAppend(a: seq<string>, b: seq<string>, marker: string)
    ensures |Places(a + b, marker)| == |Places(a, marker)| + |Places(b, marker)|
    ensures Places(a, marker) != [] ==> Places(a + b, marker)[0] == Places(a, marker)[0]
    ensures Places(a, marker) == [] && Places(b, marker) != [] ==>
            Places(a + b, marker)[0] == |a| + Places(b, marker)[0]
  {
    hide Is, Places;
    if b == [] {
      assert a + b == a;
      assert Places([], marker) == [] by { NoPlaces([], marker); }
    } else {
      var n := |b| - 1;
      PlacesAppend(a, b[..n], marker);
      PlacesSnoc(a + b[..n], b[n], marker);
      PlacesSnoc(b[..n], b[n], marker);
      assert a + b[..n] + [b[n]] == a + b && b[..n] + [b[n]] == b;
    }
  }

  /** Whether and where a readable source can be anchored depends on its parts alone. */
  lemma AnchorForm(source: string)
    requires Read(source).Some?
    ensures var c := Read(source).value;
            Anchor(source) == if Anchored(c) then Some((Join(c.pre + c.block[..Slot(c.block)]),
                Join(c.block[Slot(c.block)..] + c.post))) else None
  {
    hide Places, Is, Absent, Bounds, Join, SplitLines, SENTINEL, WellFormed, Read;
    var c := Read(source).value;
    ReadIsWellFormed(source);
    PlacesOfParts(c);
    if Anchored(c) {
      CutAt(c, Slot(c.block));
    }
  }

  lemma CutAt(c: Candidate, k: nat)
    requires k <= |c.block|
    ensures Lines(c)[..|c.pre| + k] == c.pre + c.block[..k] && Lines(c)[|c.pre| + k..] == c.block[k..] + c.post
  {
  }

  /** The sentinels of the whole are those of the parts. */
  lemma PlacesOfParts(c: Candidate)
    ensures var all := Places(Lines(c), SENTINEL);
            && (Anchored(c) ==>
                && |all| <= 1 && (all == [] <==> Slot(c.block) == |c.block|)
                && (all != [] ==> all[0] == |c.pre| + Slot(c.block)))
            && (|all| <= 1 && (all == [] || |c.pre| <= all[0] < |c.pre| + |c.block|) ==> Anchored(c))
  {
    hide Places, Is, Absent, SENTINEL;
    var s := SENTINEL;
    PlacesAppend(c.pre + c.block, c.post, s);
    PlacesAppend(c.pre, c.block, s);
    NoPlaces(c.pre, s);
    NoPlaces(c.post, s);
  }

  // ---- Appending ----

  function Appended(c: Candidate, snippet: string): Candidate {
    var k := Slot(c.block);
    Candidate(c.pre, c.block[..k] + SplitLines(Ended(snippet)) + c.block[k..], c.post)
  }

  /** Ending a text's last line changes no other line. */
  lemma EndedLines(snippet: string)
    ensures AllTerminated(SplitLines(Ended(snippet)))
    ensures |SplitLines(Ended(snippet))| == |SplitLines(snippet)|
    ensures forall i :: 0 <= i < |SplitLines(snippet)| ==>
            Strip(SplitLines(Ended(snippet))[i]) == Strip(SplitLines(snippet)[i])
  {
    hide Strip, SplitLines, Join, TextLines, AllTerminated, Terminated;
    var lines := SplitLines(snippet);
    SplitIsTextLines(snippet);
    JoinSplit(snippet);
    if lines != [] { LastChar(snippet); }
    if lines == [] {
      EmptyText(snippet);
    } else if Terminated(lines[|lines| - 1]) {
      LastTerminated(lines);
    } else {
      var n := |lines| - 1;
      var last := lines[n];
      var ended := lines[..n] + [last + "\n"];
      EndedLast(lines, last);
      SplitJoin(ended);
      JoinAppends(lines[..n], [last + "\n"]);
      JoinAppends(lines[..n], [last]);
      JoinOne(last);
      JoinOne(last + "\n");
      assert lines == lines[..n] + [last];
      assert Join(ended) == snippet + "\n";
      StripEnded(last);
    }
  }

  lemma EmptyText(text: string)
    requires SplitLines(text) == []
    ensures text == "" && AllTerminated([])
  {
  }

  lemma LastTerminated(lines: seq<string>)
    requires TextLines(lines) && lines != [] && Terminated(lines[|lines| - 1])
    ensures AllTerminated(lines)
  {
  }

  lemma LastChar(text: string)
    requires SplitLines(text) != []
    ensures var lines := SplitLines(text);
            text != "" && (Terminated(lines[|lines| - 1]) <==> text[|text| - 1] == '\n')
  {
    hide SplitLines, Join, TextLines;
    var lines := SplitLines(text);
    var n := |lines| - 1;
    JoinSplit(text);
    SplitIsTextLines(text);
    JoinAppends(lines[..n], [lines[n]]);
    JoinOne(lines[n]);
    assert lines == lines[..n] + [lines[n]];
    NotEmptyLine(lines, n);
    assert text[|text| - 1] == lines[n][|lines[n]| - 1];
  }

  lemma NotEmptyLine(lines: seq<string>, n: nat)
    requires TextLines(lines) && n < |lines|
    ensures lines[n] != ""
  {
    assert OneLine(lines[n]);
  }

  lemma EndedLast(lines: seq<string>, last: string)
    requires TextLines(lines) && lines != [] && last == lines[|lines| - 1] && !Terminated(last)
    ensures AllTerminated(lines[..|lines| - 1] + [last + "\n"]) && TextLines(lines[..|lines| - 1] + [last + "\n"])
  {
    assert OneLine(last);
    assert forall k :: 0 <= k < |last| ==> (last + "\n")[k] == last[k];
  }

  /** A snippet that may be appended brings no marker line. */
  lemma SnippetLines(snippet: string)
    requires !CarriesMarkers(snippet)
    ensures Absent(SplitLines(Ended(snippet)), START) && Absent(SplitLines(Ended(snippet)), END)
    ensures Absent(SplitLines(Ended(snippet)), SENTINEL) <==> Absent(SplitLines(snippet), SENTINEL)
  {
    hide Strip, Contains, SplitLines, START, END, SENTINEL;
    EndedLines(snippet);
    var lines, ended := SplitLines(snippet), SplitLines(Ended(snippet));
    forall i | 0 <= i < |ended| ensures !Is(ended[i], START) && !Is(ended[i], END) {
      StripIsInside(lines[i]);
      assert lines[i] in lines;
    }
  }

  lemma AppendedIsWellFormed(c: Candidate, snippet: string)
    requires WellFormed(c) && !CarriesMarkers(snippet)
    ensures WellFormed(Appended(c, snippet))
  {
    hide Is, OnlyAt, OneLine, Terminated, TextLines, CarriesMarkers, Places, SplitLines, START, END;
    var k, new_ := Slot(c.block), SplitLines(Ended(snippet));
    SnippetLines(snippet);
    EndedLines(snippet);
    assert c.block[..k] + c.block[k..] + [] == c.block;
    PartsOnlyAt(c.block[..k], c.block[k..], [], START, 0);
    PartsOnlyAt(c.block[..k], c.block[k..], [], END, 0);
    AllTerminatedAppends(c.block[..k], c.block[k..], []);
    PartsOnlyAt(c.block[..k], new_, c.block[k..], START, 0);
    PartsOnlyAt(c.block[..k], new_, c.block[k..], END, 0);
    AllTerminatedAppends(c.block[..k], new_, c.block[k..]);
  }

  lemma MarkersDiffer(line: string)
    ensures !(Is(line, SENTINEL) && Is(line, END))
  {
    assert |SENTINEL| != |END|;
  }

  /** The insertion point of an anchored parent, seen from its parts. */
  lemma InsertionPoint(c: Candidate)
    requires WellFormed(c)
    ensures var lines, sentinels := Lines(c), Places(Lines(c), SENTINEL);
            var at := if sentinels != [] then sentinels[0] else |c.pre| + |c.block|;
            && (Anchored(c) <==> |sentinels| <= 1 && |c.pre| - 1 < at <= |c.pre| + |c.block|)
            && (Anchored(c) ==> at == |c.pre| + Slot(c.block))
  {
    hide Is, Places, OnlyAt, AllTerminated, SENTINEL, Absent, TextLines;
    var sentinels := Places(Lines(c), SENTINEL);
    PlacesOfParts(c);
    if sentinels != [] && sentinels[0] == |c.pre| + |c.block| {
      assert Lines(c)[sentinels[0]] == c.post[0];
      PlacesAre(Lines(c), SENTINEL);
      MarkersDiffer(c.post[0]);
      assert OnlyAt(c.post, END, 0);
      FirstIs(c.post);
      assert false;
    }
  }

  lemma FirstIs(post: seq<string>)
    requires OnlyAt(post, END, 0)
    ensures post != [] && Is(post[0], END)
  {
  }

  lemma LineBeforeEnds(c: Candidate, k: nat)
    requires WellFormed(c) && k <= |c.block|
    ensures EndsLine(Lines(c)[|c.pre| + k - 1])
  {
    hide Is, OnlyAt, Absent, TextLines;
    if k > 0 {
      assert Lines(c)[|c.pre| + k - 1] == c.block[k - 1];
    } else {
      assert Lines(c)[|c.pre| - 1] == c.pre[|c.pre| - 1];
    }
  }

  lemma JoinSplice(a: seq<string>, b: seq<string>, text: string, c: seq<string>, d: seq<string>)
    ensures Join(a + b + [text] + (c + d)) == Join(a + (b + SplitLines(text) + c) + d)
  {
    JoinSplit(text);
    hide Join, SplitLines;
    JoinAppends(a + b + [text], c + d);
    JoinAppends(a + b, [text]);
    JoinOne(text);
    var m := SplitLines(text);
    assert a + (b + m + c) + d == a + b + m + (c + d);
    JoinAppends(a + b + m, c + d);
    JoinAppends(a + b, m);
  }

  /** An append is accepted exactly when the snippet is not blank and marker-free and the parent can be anchored. */
  lemma AppendForm(parent: string, snippet: string)
    ensures Append(parent, snippet).Ok? <==> Strip(snippet) != "" && !CarriesMarkers(snippet) && Anchor(parent).Some?
    ensures Append(parent, snippet).Ok? ==>
              && Read(parent).Some?
              && Append(parent, snippet).value == Text(Appended(Read(parent).value, snippet))
              && Read(Append(parent, snippet).value) == Some(Appended(Read(parent).value, snippet))
  {
    hide Strip, CarriesMarkers, Anchored, Places, Slot, WellFormed, EndsLine, Ended, Join, SplitLines, Bounds;
    if Read(parent).Some? {
      var c := Read(parent).value;
      ReadIsWellFormed(parent);
      AnchorForm(parent);
      InsertionPoint(c);
      if Anchored(c) {
        LineBeforeEnds(c, Slot(c.block));
        CutAt(c, Slot(c.block));
        JoinSplice(c.pre, c.block[..Slot(c.block)], Ended(snippet), c.block[Slot(c.block)..], c.post);
        if !CarriesMarkers(snippet) {
          AppendedIsWellFormed(c, snippet);
          ReadBack(Appended(c, snippet));
        }
      }
    }
  }

  // ---- Appending extends ----

  lemma PlacesOfAppended(c: Candidate, snippet: string)
    requires Anchored(c)
    ensures var k, added, after := Slot(c.block), SplitLines(Ended(snippet)), Appended(c, snippet);
            && (Absent(SplitLines(snippet), SENTINEL) <==> Places(added, SENTINEL) == [])
            && (Places(added, SENTINEL) == [] ==> Anchored(after) && Slot(after.block) == k + |added|)
            && (Places(added, SENTINEL) != [] && Anchored(after) ==>
                k == |c.block| && Slot(after.block) < |after.block|)
  {
    hide Is, Places, Absent, SplitLines, Ended, SENTINEL;
    var k, added, s := Slot(c.block), SplitLines(Ended(snippet)), SENTINEL;
    SentinelsEnded(snippet);
    NoPlaces(added, s);
    PlacesAppend(c.block[..k], c.block[k..], s);
    assert c.block[..k] + c.block[k..] == c.block;
    PlacesAppend(c.block[..k] + added, c.block[k..], s);
    PlacesAppend(c.block[..k], added, s);
  }

  lemma SentinelsEnded(snippet: string)
    ensures Absent(SplitLines(Ended(snippet)), SENTINEL) <==> Absent(SplitLines(snippet), SENTINEL)
  {
    hide Strip, SplitLines, SENTINEL;
    EndedLines(snippet);
  }

  /** An accepted append is an append-only extension exactly when the snippet brings no sentinel line. */
  lemma AppendIsExtension(parent: string, snippet: string)
    requires Append(parent, snippet).Ok?
    ensures IsExtension(parent, Append(parent, snippet).value) <==> Absent(SplitLines(snippet), SENTINEL)
  {
    hide Append, Read, Places, Absent, SplitLines, SENTINEL, Join, Ended, Anchor, Anchored, Slot, WellFormed;
    var made := Append(parent, snippet).value;
    AppendForm(parent, snippet);
    var c := Read(parent).value;
    AnchorForm(parent);
    AnchorForm(made);
    PlacesOfAppended(c, snippet);
    AppendedAnchors(c, snippet, Slot(c.block));
    if Places(SplitLines(Ended(snippet)), SENTINEL) != [] && Anchored(Appended(c, snippet)) {
      LaterSuffix(Appended(c, snippet).block, c.post, Slot(Appended(c, snippet).block));
      ReadIsWellFormed(made);
      NonEmptyLines(Appended(c, snippet));
      assert c.block[Slot(c.block)..] + c.post == c.post;
    }
  }

  lemma AppendedAnchors(c: Candidate, snippet: string, k: nat)
    requires k == Slot(c.block)
    ensures var added, after := SplitLines(Ended(snippet)), Appended(c, snippet);
            && c.pre + after.block[..k + |added|] == c.pre + c.block[..k] + added
            && after.block[k + |added|..] == c.block[k..]
            && Join(c.pre + c.block[..k]) <= Join(c.pre + after.block[..k + |added|])
  {
    hide Slot, SplitLines, Ended, Join;
    var added, after := SplitLines(Ended(snippet)), Appended(c, snippet);
    assert after.block[..k + |added|] == c.block[..k] + added;
    assert c.pre + (c.block[..k] + added) == c.pre + c.block[..k] + added;
    JoinAppends(c.pre + c.block[..k], added);
  }

  lemma NonEmptyLines(c: Candidate)
    requires WellFormed(c)
    ensures forall l :: l in c.block ==> l != ""
  {
  }

  lemma LaterSuffix(block: seq<string>, post: seq<string>, k: nat)
    requires k < |block|
    ensures (forall l :: l in block ==> l != "") ==> |Join(block[k..] + post)| > |Join(post)|
  {
    JoinAppends(block[k..], post);
    assert Join(block[k..]) == block[k] + Join(block[k..][1..]);
    assert block[k] in block;
  }

  // ---- Inputs that show both halves ----

  /** A candidate whose block holds nothing. */
  function Bare(before: seq<string>): Candidate {
    Candidate(before + [START + "\n"], [], [END + "\n"])
  }

  lemma MarkerLines()
    ensures Is(START + "\n", START) && !Is(START + "\n", END) && !Is(START + "\n", SENTINEL)
    ensures Is(END + "\n", END) && !Is(END + "\n", START) && !Is(END + "\n", SENTINEL)
    ensures OneLine(START + "\n") && Terminated(START + "\n") && OneLine(END + "\n") && Terminated(END + "\n")
  {
    MarkersAreStripped();
    StripEnded(START);
    StripEnded(END);
    hide Strip;
    assert forall k :: 0 <= k < |START| ==> START[k] != '\n';
    assert forall k :: 0 <= k < |END| ==> END[k] != '\n';
  }

  lemma BareIsWellFormed(before: seq<string>)
    requires before == [] || before == [SENTINEL + "\n"]
    ensures WellFormed(Bare(before))
  {
    MarkerLines();
    SentinelLine();
    hide Is, START, END, SENTINEL, OneLine, Terminated;
  }

  /** The sentinel line itself is neither blank nor marked, so it may be sent as a snippet. */
  lemma SentinelSnippet()
    ensures Strip(SENTINEL + "\n") != "" && !CarriesMarkers(SENTINEL + "\n")
    ensures SplitLines(SENTINEL + "\n") == [SENTINEL + "\n"]
  {
    SentinelLine();
    var line := SENTINEL + "\n";
    JoinOne(line);
    assert TextLines([line]);
    SplitJoin([line]);
    forall part | part == START || part == END ensures !Contains(line, part) {
      if i :| 0 <= i <= |line| && OccursAt(line, part, i) {
        OccursHead(line, part, i);
        assert false;
      }
    }
  }

  lemma OccursHead(s: string, part: string, i: nat)
    requires OccursAt(s, part, i) && |part| > 3
    ensures i + |part| <= |s| && s[i] == part[0] && s[i + 1] == part[1] && s[i + 3] == part[3]
  {
    var slice := s[i..i + |part|];
    assert slice[0] == s[i] && slice[1] == s[i + 1] && slice[3] == s[i + 3];
  }

  /** An append that is accepted and is not an extension: the snippet is a sentinel line. */
  lemma SentinelAppendIsNoExtension()
    ensures var parent := Text(Bare([]));
            Append(parent, SENTINEL + "\n").Ok? && !IsExtension(parent, Append(parent, SENTINEL + "\n").value)
  {
    hide Append, IsExtension, Anchor, Read, Text, WellFormed, SplitLines, SENTINEL, Strip, CarriesMarkers;
    var c := Bare([]);
    BareIsWellFormed([]);
    ReadBack(c);
    BareIsAnchored();
    AnchorForm(Text(c));
    SentinelSnippet();
    AppendForm(Text(c), SENTINEL + "\n");
    AppendIsExtension(Text(c), SENTINEL + "\n");
    SentinelLine();
    assert !Absent([SENTINEL + "\n"], SENTINEL) by { assert Is([SENTINEL + "\n"][0], SENTINEL); }
  }

  lemma BareIsAnchored()
    ensures Anchored(Bare([]))
  {
    MarkerLines();
  }

  /** A checkpoint with a sentinel before its block: what it is materialized into cannot be appended to. */
  lemma OutsideSentinelBlocksAppends(delta: string)
    requires Read(delta).Some?
    ensures var checkpoint := Text(Bare([SENTINEL + "\n"]));
            && Materialize(checkpoint, delta).Some?
            && forall snippet :: Append(Materialize(checkpoint, delta).value, snippet).Err?
  {
    hide Append, Anchor, Read, Text, Materialize, WellFormed, SENTINEL, Strip, CarriesMarkers, OnlyAt;
    var c := Bare([SENTINEL + "\n"]);
    BareIsWellFormed([SENTINEL + "\n"]);
    ReadBack(c);
    MaterializeIsMerge(Text(c), delta);
    MaterializedHasOneSentinel(Text(c), delta);
    SentinelLine();
    assert !Absent(c.pre, SENTINEL) by { assert Is(c.pre[0], SENTINEL); }
    forall snippet ensures Append(Materialize(Text(c), delta).value, snippet).Err? {
      AppendForm(Materialize(Text(c), delta).value, snippet);
    }
  }

  /** An extension is the parent with text inserted at its append point, and can be appended to in its turn. */
  lemma ExtensionIsInsertion(parent: string, source: string)
    requires IsExtension(parent, source)
    ensures var (prefix, suffix) := Anchor(parent).value;
            var added := Anchor(source).value.0[|prefix|..];
            parent == prefix + suffix && source == prefix + added + suffix
                && Anchor(source) == Some((prefix + added, suffix))
  {
    hide Anchor;
    AnchorSplits(parent);
    AnchorSplits(source);
    var prefix, longer := Anchor(parent).value.0, Anchor(source).value.0;
    assert longer[..|prefix|] == prefix && longer == longer[..|prefix|] + longer[|prefix|..];
  }

  lemma AnchorSplits(source: string)
    requires Anchor(source).Some?
    ensures source == Anchor(source).value.0 + Anchor(source).value.1
  {
    hide Bounds, Places, Join, SplitLines;
    var lines := SplitLines(source);
    var sentinels := Places(lines, SENTINEL);
    var at := if sentinels != [] then sentinels[0] else Bounds(lines).value.1;
    JoinSplit(source);
    JoinAppends(lines[..at], lines[at..]);
    assert lines == lines[..at] + lines[at..];
  }

  /** Extensions of extensions are extensions of the first parent. */
  lemma ExtensionsCompose(first: string, second: string, third: string)
    requires IsExtension(first, second) && IsExtension(second, third)
    ensures IsExtension(first, third)
  {
    hide Anchor;
    var a, b, c := Anchor(first).value.0, Anchor(second).value.0, Anchor(third).value.0;
    assert c[..|b|] == b && b[..|a|] == a;
    assert c[..|a|] == c[..|b|][..|a|];
  }

  // ---- Appending and materializing agree ----

  lemma SentinelLast(c: Candidate)
    requires WellFormed(c) && Anchored(c) && c.block != [] && c.block[|c.block| - 1] == SENTINEL + "\n"
    ensures Slot(c.block) == |c.block| - 1 && Keep(c.block) == c.block[..|c.block| - 1]
  {
    var n := |c.block| - 1;
    SentinelLine();
    hide Is, SENTINEL, WellFormed;
    var before := c.block[..n];
    assert before + [c.block[n]] == c.block;
    assert Places([c.block[n]], SENTINEL) == [0] by { OnePlace([c.block[n]], SENTINEL, 0); }
    PlacesAppend(before, [c.block[n]], SENTINEL);
    NoPlaces(before, SENTINEL);
    KeepAppends(before, [c.block[n]]);
    KeepKeepsAll(before);
    KeptBeforeSentinel([]);
  }

  /**
    When the parent's sentinel line is the last of its block and the snippet
    brings none, materializing a delta that holds the snippet is appending it,
    and passes as an extension.
   */
  lemma AppendIsMaterialize(parent: string, snippet: string, delta: string)
    requires Append(parent, snippet).Ok? && EvolveBlock(delta) == Some(Ended(snippet))
    requires Absent(SplitLines(snippet), SENTINEL)
    requires var block := Read(parent).value.block;
            Read(parent).Some? && block != [] && block[|block| - 1] == SENTINEL + "\n"
    ensures Materialize(parent, delta) == Some(Append(parent, snippet).value)
    ensures IsExtension(parent, Materialize(parent, delta).value)
  {
    hide Append, Read, Anchor, Materialize, EvolveBlock, IsExtension, WellFormed, SplitLines, Ended, Anchored, Text,
        Keep, Absent, Slot, SENTINEL, AllTerminated, Join;
    AppendForm(parent, snippet);
    AppendIsExtension(parent, snippet);
    BlockOfRead(delta);
    ReadIsWellFormed(parent);
    AnchorForm(parent);
    MaterializeIsMerge(parent, delta);
    var c, d := Read(parent).value, Read(delta).value;
    SentinelLast(c);
    SentinelsEnded(snippet);
    KeepKeepsAll(d.block);
    var n := |c.block| - 1;
    assert c.block[n..] == [c.block[n]];
    assert Merge(c, d) == Appended(c, snippet);
  }
}
