/**
  What scrubbing means, said without the scrubber: the text is a row of plain
  characters, line comments, nested block comments and strings, and everything
  but the plain characters is blanked.
 */
module Lexemes {
  import opened Wrappers
  import opened LeanLexer

  // ---- The lexemes ----

  /** A comment or a string begins here. */
  predicate Opens(s: string) {
    "--" <= s || "/-" <= s || "\"" <= s
  }

  /** The first `n` characters are a comment up to the end of its line. */
  predicate LineComment(s: string, n: nat) {
    n <= |s| && "--" <= s[..n] && '\n' !in s[..n] && (n < |s| ==> s[n] == '\n')
  }

  /** The inside of a block comment, `depth` comments deep: the inner ones are closed and nothing closes it itself. */
  predicate Balanced(b: string, depth: nat)
    decreases |b|
  {
    if b == "" then depth == 0
    else if "/-" <= b then Balanced(b[2..], depth + 1)
    else if "-/" <= b then depth > 0 && Balanced(b[2..], depth - 1)
    else if |b| == 1 then b[0] != '/' && depth == 0
    else Balanced(b[1..], depth)
  }

  predicate BlockComment(s: string, n: nat) {
    4 <= n <= |s| && "/-" <= s && s[n - 2..n] == "-/" && Balanced(s[2..n - 2], 0)
  }

  /** The inside of a string and its blanked form: escapes lose both characters, newlines stay. */
  predicate StringText(b: string, u: string)
    decreases |b|
  {
    && |u| == |b|
    && (b == ""
        || (b[0] == '\\' && |b| >= 2 && u[..2] == "  " && StringText(b[2..], u[2..]))
        || (b[0] != '\\' && b[0] != '"' && u[0] == Blank(b[0]) && StringText(b[1..], u[1..])))
  }

  predicate StringLiteral(s: string, t: string, n: nat) {
    && 2 <= n <= |s| && n <= |t| && s[0] == '"' && s[n - 1] == '"'
    && t[0] == ' ' && t[n - 1] == ' ' && StringText(s[1..n - 1], t[1..n - 1])
  }

  /** Newlines stay and all else becomes a space. */
  predicate Blanked(s: string, t: string) {
    |s| == |t| && forall k :: 0 <= k < |s| ==> t[k] == Blank(s[k])
  }

  /** The first `n` characters are a comment or a string, and are blanked. */
  predicate Lexeme(s: string, t: string, n: nat) {
    && n <= |s| && n <= |t|
    && (|| (LineComment(s, n) && Blanked(s[..n], t[..n]))
        || (BlockComment(s, n) && Blanked(s[..n], t[..n]))
        || StringLiteral(s, t, n))
  }

  /** `t` is `s` with its comments and strings blanked. */
  ghost predicate Lexes(s: string, t: string)
    decreases |s|
  {
    && |t| == |s|
    && if s == "" then true
       else if !Opens(s) then t[0] == s[0] && Lexes(s[1..], t[1..])
       else exists n: nat :: 1 <= n <= |s| && Lexeme(s, t, n) && Lexes(s[n..], t[n..])
  }

  // ---- One step ----

  lemma PrependSplits(head: string, rest: Option<string>, t: string)
    ensures Prepend(head, rest) == Some(t) <==> |head| <= |t| && t[..|head|] == head && rest == Some(t[|head|..])
  {
    if |head| <= |t| { assert t == t[..|head|] + t[|head|..]; }
    if rest.Some? { assert (head + rest.value)[|head|..] == rest.value; }
  }

  /** A step blanks or copies its own characters, and the rest is scrubbed from there. */
  lemma StepScrubs(s: string, t: string, mode: Mode)
    requires s != "" && mode != Escaped
    ensures var k := StepLength(s, mode);
            && 1 <= k <= |s|
            && (Scrub(s, mode) == Some(t) <==>
                  && |t| == |s| && t[..k] == StepText(s, mode) && Scrub(s[k..], StepMode(s, mode)) == Some(t[k..]))
  {
    StepAdvances(s, mode);
    ScrubStep(s, mode);
    hide Scrub, StepText, StepLength, StepMode;
    PrependSplits(StepText(s, mode), Scrub(s[StepLength(s, mode)..], StepMode(s, mode)), t);
    if Scrub(s, mode) == Some(t) { ScrubKeepsPositions(s, mode); }
  }

  // ---- Strings ----

  lemma Begins(s: string)
    ensures "--" <= s <==> Pair(s, '-', '-')
    ensures "/-" <= s <==> Pair(s, '/', '-')
    ensures "-/" <= s <==> Pair(s, '-', '/')
    ensures "\"" <= s <==> s != "" && s[0] == '"'
  {
  }

  /** `n` closes the string, and the scrub goes on behind it. */
  ghost predicate StringCloses(s: string, t: string, n: nat) {
    && n < |s| && |t| == |s| && s[n] == '"' && t[n] == ' ' && StringText(s[..n], t[..n])
    && Scrub(s[n + 1..], Code) == Some(t[n + 1..])
  }

  /** How far the inside of a string is read in one step. */
  function StringStride(s: string): nat
    requires s != ""
  {
    if s[0] == '\\' then 2 else 1
  }

  lemma StringTextStep(b: string, u: string)
    requires b != ""
    ensures var k := StringStride(b);
            StringText(b, u) <==>
              && |u| == |b| && k <= |b| && b[0] != '"' && StringText(b[k..], u[k..])
              && (if k == 2 then u[..2] == "  " else u[0] == Blank(b[0]))
  {
  }

  /** Before the closing quote each step leads to the same question about the rest. */
  lemma StringClosesStep(s: string, t: string, n: nat)
    requires s != "" && s[0] != '"' && |t| == |s|
    ensures var k := StringStride(s);
            n > 0 && StringCloses(s, t, n) <==>
              && k <= n && k <= |s| && (if k == 2 then t[..2] == "  " else t[0] == Blank(s[0]))
              && StringCloses(s[k..], t[k..], n - k)
  {
    hide StringText, Scrub;
    var k := StringStride(s);
    if 0 < n < |s| {
      var b, u := s[..n], t[..n];
      assert b[0] == s[0] && u[0] == t[0];
      StringTextStep(b, u);
      if k <= n {
        assert u[..k] == t[..k];
        assert s[k..][..n - k] == b[k..] && t[k..][..n - k] == u[k..];
        assert s[k..][n - k + 1..] == s[n + 1..] && t[k..][n - k + 1..] == t[n + 1..];
        assert s[k..][n - k] == s[n] && t[k..][n - k] == t[n];
      }
    }
  }

  lemma StringScrubStep(s: string, t: string)
    requires s != "" && s[0] != '"'
    ensures var k := StringStride(s);
            Scrub(s, Str) == Some(t) <==>
              && |t| == |s| && k <= |s| && (if k == 2 then t[..2] == "  " else t[0] == Blank(s[0]))
              && Scrub(s[k..], Str) == Some(t[k..])
  {
    var k := StringStride(s);
    if k > |s| {
      assert s[1..] == "";
    } else {
      assert StepMode(s, Str) == Str && StepLength(s, Str) == k;
      assert StepText(s, Str) == if k == 2 then "  " else [Blank(s[0])];
      hide Scrub, StepText, StepMode, StepLength, Blank;
      StepScrubs(s, t, Str);
      if |t| == |s| { FirstIs(t, Blank(s[0])); }
    }
  }

  lemma FirstIs(t: string, c: char)
    ensures t != "" ==> (t[..1] == [c] <==> t[0] == c)
  {
  }

  lemma StringQuote(s: string, t: string)
    requires s != "" && s[0] == '"'
    ensures Scrub(s, Str) == Some(t) <==> StringCloses(s, t, 0)
  {
    if Scrub(s, Str) == Some(t) {
      ScrubKeepsPositions(s, Str);
      assert t[1..] == Scrub(s[1..], Code).value;
    }
    if StringCloses(s, t, 0) { assert " " + t[1..] == t; }
  }

  /** Inside a string scrubbing succeeds exactly when the string is closed and what follows scrubs. */
  lemma {:induction false} StringScrubs(s: string, t: string)
    ensures Scrub(s, Str) == Some(t) <==> exists n: nat :: StringCloses(s, t, n)
    decreases |s|
  {
    hide Scrub, StringCloses, StringStride;
    if s == "" {
      NoString(t);
    } else if s[0] == '"' {
      StringQuote(s, t);
      forall n: nat | StringCloses(s, t, n) ensures n == 0 { QuoteCloses(s, t, n); }
    } else {
      StringScrubStep(s, t);
      var k := StringStride(s);
      StringStrideIs(s);
      if |t| == |s| && k <= |s| {
        StringScrubs(s[k..], t[k..]);
        if m: nat :| StringCloses(s[k..], t[k..], m) { StringClosesStep(s, t, m + k); }
      }
      if n: nat :| StringCloses(s, t, n) {
        StringEnds(s, t, n);
        StringClosesStep(s, t, n);
      }
    }
  }

  lemma NoString(t: string)
    ensures Scrub("", Str) == None && forall n: nat :: !StringCloses("", t, n)
  {
  }

  lemma QuoteCloses(s: string, t: string, n: nat)
    requires s != "" && s[0] == '"' && StringCloses(s, t, n)
    ensures n == 0
  {
  }

  lemma StringStrideIs(s: string)
    requires s != ""
    ensures 1 <= StringStride(s) <= 2
  {
  }

  lemma StringEnds(s: string, t: string, n: nat)
    requires StringCloses(s, t, n)
    ensures n < |s| && |t| == |s| && s[n] == '"'
  {
  }

  // ---- Block comments ----

  /** `n` closes a comment `depth` deep, and the scrub goes on behind it. */
  ghost predicate CommentCloses(s: string, t: string, depth: nat, n: nat) {
    && depth > 0 && n + 2 <= |s| && |t| == |s| && s[n..n + 2] == "-/" && Balanced(s[..n], depth - 1)
    && Blanked(s[..n + 2], t[..n + 2]) && Scrub(s[n + 2..], Code) == Some(t[n + 2..])
  }

  lemma BlankedStep(s: string, t: string, k: nat, m: nat)
    requires k <= m <= |s| && |t| == |s| && Blanked(s[..k], t[..k])
    ensures Blanked(s[k..][..m - k], t[k..][..m - k]) <==> Blanked(s[..m], t[..m])
  {
    var a, b, c, d := s[k..][..m - k], t[k..][..m - k], s[..m], t[..m];
    assert forall i :: 0 <= i < m - k ==> a[i] == c[i + k] && b[i] == d[i + k];
    assert forall i :: 0 <= i < k ==> c[i] == s[..k][i] && d[i] == t[..k][i];
    if Blanked(a, b) {
      forall i | 0 <= i < m ensures d[i] == Blank(c[i]) {
        if i >= k { assert b[i - k] == Blank(a[i - k]); }
      }
    }
    if Blanked(c, d) {
      forall i | 0 <= i < m - k ensures b[i] == Blank(a[i]) { assert d[i + k] == Blank(c[i + k]); }
    }
  }

  function CommentStride(s: string): nat {
    if "/-" <= s || "-/" <= s then 2 else 1
  }

  function CommentNext(s: string, depth: nat): nat {
    if "/-" <= s then depth + 1 else if "-/" <= s && depth > 0 then depth - 1 else depth
  }

  /** One step into the inside of a comment. */
  lemma BalancedStep(s: string, depth: nat, n: nat)
    requires depth > 0 && 0 < n && n + 2 <= |s| && s[n..n + 2] == "-/"
    ensures var k, next := CommentStride(s), CommentNext(s, depth);
            Balanced(s[..n], depth - 1) <==> k <= n && next > 0 && Balanced(s[k..][..n - k], next - 1)
  {
    var b := s[..n];
    assert s[n] == '-' && s[n + 1] == '/' by { assert s[n..n + 2][0] == '-' && s[n..n + 2][1] == '/'; }
    assert b[0] == s[0];
    if n >= 2 {
      assert b[1] == s[1];
      assert b[2..] == s[2..][..n - 2] && b[1..] == s[1..][..n - 1];
    } else {
      assert s[1..][..0] == "";
    }
  }

  lemma CommentClosesStep(s: string, t: string, depth: nat, n: nat)
    requires depth > 0 && |t| == |s| && s != ""
    ensures var k, next := CommentStride(s), CommentNext(s, depth);
            n > 0 && CommentCloses(s, t, depth, n) <==>
              n > 0 && k <= n && k <= |s| && Blanked(s[..k], t[..k]) && CommentCloses(s[k..], t[k..], next, n - k)
  {
    hide Balanced, Blanked, Scrub;
    var k, next := CommentStride(s), CommentNext(s, depth);
    if 0 < n && n + 2 <= |s| && k <= n {
      assert s[k..][n - k + 2..] == s[n + 2..] && t[k..][n - k + 2..] == t[n + 2..];
      assert s[k..][n - k..n - k + 2] == s[n..n + 2];
      if s[n..n + 2] == "-/" { BalancedStep(s, depth, n); }
      if Blanked(s[..n + 2], t[..n + 2]) { BlankedPrefix(s, t, k, n + 2); }
      if Blanked(s[..k], t[..k]) { BlankedStep(s, t, k, n + 2); }
    } else if 0 < n && n + 2 <= |s| && s[n..n + 2] == "-/" {
      BalancedStep(s, depth, n);
    }
  }

  lemma CommentScrubStep(s: string, t: string, depth: nat)
    requires depth > 0 && s != ""
    ensures var k, next := CommentStride(s), CommentNext(s, depth);
            && 1 <= k <= |s|
            && (Scrub(s, Block(depth)) == Some(t) <==>
                  && |t| == |s| && Blanked(s[..k], t[..k])
                  && Scrub(s[k..], if next == 0 then Code else Block(next)) == Some(t[k..]))
  {
    Begins(s);
    var k, next := CommentStride(s), CommentNext(s, depth);
    var text := StepText(s, Block(depth));
    assert StepMode(s, Block(depth)) == (if next == 0 then Code else Block(next)) && StepLength(s, Block(depth)) == k;
    hide Scrub;
    StepScrubs(s, t, Block(depth));
    if |t| == |s| {
      if Blanked(s[..k], t[..k]) {
        assert t[..k][0] == Blank(s[..k][0]) && (k == 2 ==> t[..k][1] == Blank(s[..k][1]));
        assert t[..k] == text;
      }
    }
  }

  lemma CommentEnd(s: string, t: string, depth: nat)
    requires depth > 0 && s != "" && |t| == |s|
    ensures CommentCloses(s, t, depth, 0) <==>
              CommentNext(s, depth) == 0 && Blanked(s[..2], t[..2]) && Scrub(s[2..], Code) == Some(t[2..])
  {
    hide Scrub, Blanked;
    assert s[..0] == "";
    Begins(s);
    if |s| >= 2 {
      assert s[0..2] == s[..2] && t[0..2] == t[..2];
      assert s[..2] == "-/" <==> "-/" <= s;
    }
  }

  /** Inside a comment scrubbing succeeds exactly when the comment is closed and what follows scrubs. */
  lemma {:induction false} CommentScrubs(s: string, t: string, depth: nat)
    requires depth > 0
    ensures Scrub(s, Block(depth)) == Some(t) <==> exists n: nat :: CommentCloses(s, t, depth, n)
    decreases |s|
  {
    hide Scrub, CommentCloses, CommentStride, Blanked;
    if s == "" {
      NoComment(t, depth);
    } else {
      CommentScrubStep(s, t, depth);
      var k, next := CommentStride(s), CommentNext(s, depth);
      if |t| == |s| {
        CommentEnd(s, t, depth);
        if next == 0 { StrideAtEnd(s, depth); }
        if next > 0 { CommentScrubs(s[k..], t[k..], next); }
        if m: nat :| CommentCloses(s[k..], t[k..], next, m) { CommentClosesStep(s, t, depth, m + k); }
        if n: nat :| CommentCloses(s, t, depth, n) {
          CommentClosesStep(s, t, depth, n);
          if n > 0 { ClosesDeep(s[k..], t[k..], next, n - k); }
        }
      } else {
        forall n: nat | CommentCloses(s, t, depth, n) ensures false { ClosesDeep(s, t, depth, n); }
      }
    }
  }

  lemma ClosesDeep(s: string, t: string, depth: nat, n: nat)
    requires CommentCloses(s, t, depth, n)
    ensures depth > 0 && |t| == |s|
  {
  }

  lemma StrideAtEnd(s: string, depth: nat)
    requires depth > 0 && CommentNext(s, depth) == 0
    ensures CommentStride(s) == 2
  {
  }

  lemma NoComment(t: string, depth: nat)
    requires depth > 0
    ensures Scrub("", Block(depth)) == None && forall n: nat :: !CommentCloses("", t, depth, n)
  {
  }

  lemma BlankedPrefix(s: string, t: string, k: nat, m: nat)
    requires k <= m <= |s| && |t| == |s| && Blanked(s[..m], t[..m])
    ensures Blanked(s[..k], t[..k])
  {
    forall i | 0 <= i < k ensures t[..k][i] == Blank(s[..k][i]) {
      assert t[..m][i] == Blank(s[..m][i]);
    }
  }

  // ---- Whole texts ----

  /** The line ends after `n` characters, or the text does. */
  predicate LineEnds(s: string, n: nat) {
    n <= |s| && '\n' !in s[..n] && (n < |s| ==> s[n] == '\n')
  }

  /** A line comment is blanked up to the end of its line. */
  lemma {:induction false} LineScrubs(s: string, t: string, n: nat)
    requires LineEnds(s, n)
    ensures Scrub(s, Line) == Some(t) <==>
              |t| == |s| && Blanked(s[..n], t[..n]) && Scrub(s[n..], Code) == Some(t[n..])
    decreases n
  {
    hide Scrub, Blanked, LineEnds, StepMode, StepLength, StepText;
    LineEndsStep(s, n);
    assert s[0..] == s;
    if n == 0 {
      LineIsOver(s, t);
      NothingBlanked(s, t);
    } else {
      StepScrubs(s, t, Line);
      if |t| == |s| {
        assert s[1..][n - 1..] == s[n..] && t[1..][n - 1..] == t[n..];
        LineScrubs(s[1..], t[1..], n - 1);
        OneBlanked(s, t);
        if t[..1] == [Blank(s[0])] { BlankedStep(s, t, 1, n); }
        if Blanked(s[..n], t[..n]) { BlankedPrefix(s, t, 1, n); }
      }
    }
  }

  lemma LineEndsStep(s: string, n: nat)
    requires LineEnds(s, n)
    ensures n <= |s| && (n == 0 ==> s == "" || s[0] == '\n')
    ensures n > 0 ==> LineEnds(s[1..], n - 1) && StepMode(s, Line) == Line && StepLength(s, Line) == 1
                      && StepText(s, Line) == [Blank(s[0])]
  {
    if n > 0 {
      assert s[0] == s[..n][0];
      assert s[1..][..n - 1] == s[..n][1..];
    }
  }

  lemma OneBlanked(s: string, t: string)
    requires |t| == |s| && s != ""
    ensures Blanked(s[..1], t[..1]) <==> t[..1] == [Blank(s[0])]
  {
    assert t[..1] == [t[0]] && s[..1] == [s[0]];
  }

  lemma NothingBlanked(s: string, t: string)
    ensures Blanked(s[..0], t[..0]) && (Scrub(s, Code) == Some(t) ==> |t| == |s|) && t[0..] == t
  {
    if Scrub(s, Code) == Some(t) { ScrubKeepsPositions(s, Code); }
  }

  lemma LineIsOver(s: string, t: string)
    requires s == "" || s[0] == '\n'
    ensures Scrub(s, Line) == Some(t) <==> Scrub(s, Code) == Some(t)
  {
  }

  /** A line comment at the end of the text, or before a newline. */
  lemma LineCommentScrubs(s: string, t: string, n: nat)
    requires LineComment(s, n)
    ensures Scrub(s, Code) == Some(t) <==>
              |t| == |s| && Blanked(s[..n], t[..n]) && Scrub(s[n..], Code) == Some(t[n..])
  {
    LineLength(s, n);
    Begins(s);
    assert StepMode(s, Code) == Line && StepLength(s, Code) == 2 && StepText(s, Code) == "  ";
    hide Scrub, Blanked;
    StepScrubs(s, t, Code);
    if |t| == |s| {
      assert s[2..][n - 2..] == s[n..] && t[2..][n - 2..] == t[n..];
      assert LineEnds(s[2..], n - 2) by {
        assert s[2..][..n - 2] == s[..n][2..];
      }
      LineScrubs(s[2..], t[2..], n - 2);
      TwoBlanked(s, t);
      if t[..2] == "  " { BlankedStep(s, t, 2, n); }
      if Blanked(s[..n], t[..n]) { BlankedPrefix(s, t, 2, n); }
    }
  }

  lemma TwoBlanked(s: string, t: string)
    requires |t| == |s| >= 2 && s[0] != '\n' && s[1] != '\n'
    ensures Blanked(s[..2], t[..2]) <==> t[..2] == "  "
  {
    assert t[..2] == [t[0], t[1]] && s[..2] == [s[0], s[1]];
    if Blanked(s[..2], t[..2]) { assert t[..2][0] == ' ' && t[..2][1] == ' '; }
  }

  lemma LineLength(s: string, n: nat)
    requires LineComment(s, n)
    ensures 2 <= n && "--" <= s
  {
    assert s[..n][..2] == s[..2];
  }

  /** Where the line comment ends that begins here. */
  lemma LineEndOf(s: string) returns (n: nat)
    requires "--" <= s
    ensures LineComment(s, n)
  {
    n := Newline(s, 0);
    assert n >= 2 by {
      assert s[0] == '-' && s[1] == '-';
    }
    assert s[..n][..2] == s[..2];
  }

  // ---- All lexemes ----

  lemma PlainLexes(s: string, t: string)
    requires s != "" && !Opens(s)
    ensures Scrub(s, Code) == Some(t) <==>
              |t| == |s| && t[0] == s[0] && Scrub(s[1..], Code) == Some(t[1..])
  {
    Begins(s);
    assert StepMode(s, Code) == Code && StepLength(s, Code) == 1 && StepText(s, Code) == [s[0]];
    hide Scrub;
    StepScrubs(s, t, Code);
    if |t| == |s| { FirstIs(t, s[0]); }
  }

  /** A comment or string that begins here reaches to some `n`, and the scrub goes on behind it. */
  ghost predicate Passes(s: string, t: string, n: nat) {
    && 1 <= n <= |s| && |t| == |s| && Lexeme(s, t, n) && Scrub(s[n..], Code) == Some(t[n..])
  }

  lemma LinePasses(s: string, t: string, n: nat)
    requires "--" <= s
    ensures Passes(s, t, n) <==>
              |t| == |s| && LineComment(s, n) && Blanked(s[..n], t[..n]) && Scrub(s[n..], Code) == Some(t[n..])
  {
    hide Scrub, Blanked;
    assert s[0] == '-';
    if LineComment(s, n) { LineLength(s, n); }
  }

  lemma LineCommentPasses(s: string, t: string)
    requires "--" <= s
    ensures Scrub(s, Code) == Some(t) <==> exists n: nat :: Passes(s, t, n)
  {
    hide Scrub, Passes, Blanked, LineComment;
    var e := LineEndOf(s);
    LineCommentScrubs(s, t, e);
    LinePasses(s, t, e);
    forall n: nat | Passes(s, t, n) ensures Scrub(s, Code) == Some(t) {
      LinePasses(s, t, n);
      LineCommentScrubs(s, t, n);
    }
  }

  lemma CommentPasses(s: string, t: string, m: nat)
    requires "/-" <= s && |t| == |s|
    ensures Passes(s, t, m + 4) <==> t[..2] == "  " && CommentCloses(s[2..], t[2..], 1, m)
  {
    hide Scrub, Balanced, Blanked;
    assert s[0] == '/' && s[1] == '-';
    var n := m + 4;
    if n <= |s| {
      assert s[2..][m + 2..] == s[n..] && t[2..][m + 2..] == t[n..];
      assert s[2..][m..m + 2] == s[n - 2..n] && s[2..][..m] == s[2..n - 2];
      assert s[..n][0] == '/';
      TwoBlanked(s, t);
      if t[..2] == "  " { BlankedStep(s, t, 2, n); }
      if Blanked(s[..n], t[..n]) { BlankedPrefix(s, t, 2, n); }
      assert !LineComment(s, n) by {
        if LineComment(s, n) { LineLength(s, n); }
      }
    }
  }

  lemma BlockCommentPasses(s: string, t: string)
    requires "/-" <= s
    ensures Scrub(s, Code) == Some(t) <==> exists n: nat :: Passes(s, t, n)
  {
    Begins(s);
    assert StepMode(s, Code) == Block(1) && StepLength(s, Code) == 2 && StepText(s, Code) == "  ";
    hide Scrub, Passes, CommentCloses;
    StepScrubs(s, t, Code);
    forall n: nat | Passes(s, t, n) ensures |t| == |s| && n >= 4 { PassesComment(s, t, n); }
    if |t| == |s| {
      CommentScrubs(s[2..], t[2..], 1);
      if m: nat :| CommentCloses(s[2..], t[2..], 1, m) { CommentPasses(s, t, m); }
      if n: nat :| Passes(s, t, n) { CommentPasses(s, t, n - 4); }
    }
  }

  lemma PassesComment(s: string, t: string, n: nat)
    requires "/-" <= s && Passes(s, t, n)
    ensures |t| == |s| && n >= 4
  {
    hide Scrub, Balanced, Blanked;
    assert s[0] == '/';
    if LineComment(s, n) { LineLength(s, n); }
  }

  lemma StringPasses(s: string, t: string, m: nat)
    requires "\"" <= s && |t| == |s|
    ensures Passes(s, t, m + 2) <==> t[0] == ' ' && StringCloses(s[1..], t[1..], m)
  {
    hide Scrub, StringText, Balanced, Blanked;
    assert s[0] == '"';
    var n := m + 2;
    if n <= |s| {
      assert s[1..][m + 1..] == s[n..] && t[1..][m + 1..] == t[n..];
      assert s[1..][..m] == s[1..n - 1] && t[1..][..m] == t[1..n - 1];
      assert !LineComment(s, n) by {
        if LineComment(s, n) { LineLength(s, n); }
      }
    }
  }

  lemma StringLiteralPasses(s: string, t: string)
    requires "\"" <= s
    ensures Scrub(s, Code) == Some(t) <==> exists n: nat :: Passes(s, t, n)
  {
    Begins(s);
    assert StepMode(s, Code) == Str && StepLength(s, Code) == 1 && StepText(s, Code) == " ";
    hide Scrub, Passes, StringCloses;
    StepScrubs(s, t, Code);
    forall n: nat | Passes(s, t, n) ensures |t| == |s| && n >= 2 { PassesString(s, t, n); }
    if |t| == |s| {
      FirstIs(t, ' ');
      StringScrubs(s[1..], t[1..]);
      if m: nat :| StringCloses(s[1..], t[1..], m) { StringPasses(s, t, m); }
      if n: nat :| Passes(s, t, n) { StringPasses(s, t, n - 2); }
    }
  }

  lemma PassesString(s: string, t: string, n: nat)
    requires "\"" <= s && Passes(s, t, n)
    ensures |t| == |s| && n >= 2
  {
    hide Scrub, Balanced, Blanked, StringText;
    assert s[0] == '"';
    if LineComment(s, n) { LineLength(s, n); }
  }

  lemma OpenPasses(s: string, t: string)
    requires Opens(s)
    ensures Scrub(s, Code) == Some(t) <==> exists n: nat :: Passes(s, t, n)
  {
    hide Scrub, Passes;
    if "--" <= s {
      LineCommentPasses(s, t);
    } else if "/-" <= s {
      BlockCommentPasses(s, t);
    } else {
      StringLiteralPasses(s, t);
    }
  }

  /** Scrubbing is blanking the comments and strings, and fails exactly when one of them is not closed. */
  lemma {:induction false} ScrubIsLexing(s: string, t: string)
    ensures Scrub(s, Code) == Some(t) <==> Lexes(s, t)
    decreases |s|
  {
    hide Scrub, Opens, Lexeme;
    if s == "" {
      NothingToLex(t);
    } else if !Opens(s) {
      PlainLexes(s, t);
      if |t| == |s| { ScrubIsLexing(s[1..], t[1..]); }
    } else {
      OpenPasses(s, t);
      forall n: nat | 1 <= n <= |s| && |t| == |s|
        ensures Scrub(s[n..], Code) == Some(t[n..]) <==> Lexes(s[n..], t[n..])
      {
        ScrubIsLexing(s[n..], t[n..]);
      }
      PassesIsLexing(s, t);
    }
  }

  lemma NothingToLex(t: string)
    ensures Scrub("", Code) == Some(t) <==> Lexes("", t)
  {
  }

  lemma PassesIsLexing(s: string, t: string)
    requires Opens(s) && s != ""
    requires forall n: nat | 1 <= n <= |s| && |t| == |s| ::
               Scrub(s[n..], Code) == Some(t[n..]) <==> Lexes(s[n..], t[n..])
    ensures (exists n: nat :: Passes(s, t, n)) <==> Lexes(s, t)
  {
    hide Scrub, Opens, Lexeme;
    if n: nat :| Passes(s, t, n) {
      assert 1 <= n <= |s| && |t| == |s| && Lexeme(s, t, n) && Lexes(s[n..], t[n..]);
    }
    if Lexes(s, t) {
      var n: nat :| 1 <= n <= |s| && Lexeme(s, t, n) && Lexes(s[n..], t[n..]);
      assert Passes(s, t, n);
    }
  }
}
