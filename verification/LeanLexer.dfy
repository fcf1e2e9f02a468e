/**
  Two lexers for Lean's nested comments and strings: one blanks them out, the
  other scans around them.  They were written apart and are proved to agree.
 */
module LeanLexer {
  import opened Wrappers
  import opened Blanks

  /** Where a lexer is: in code, in a line comment, `depth` block comments deep, or in a string. */
  datatype Mode = Code | Line | Block(depth: nat) | Str | Escaped

  predicate Pair(s: string, a: char, b: char) {
    |s| >= 2 && s[0] == a && s[1] == b
  }

  function Blank(c: char): char {
    if c == '\n' then '\n' else ' '
  }

  function Leave(depth: nat): Mode {
    if depth <= 1 then Code else Block(depth - 1)
  }

  function Prepend(head: string, rest: Option<string>): Option<string> {
    if rest.None? then None else Some(head + rest.value)
  }

  // ---- Scrubbing ----

  /** The scrubbed text, or `None` when a comment or string is never closed. */
  function Scrub(s: string, mode: Mode): Option<string>
    requires mode != Escaped
    decreases |s|
  {
    if s == "" then (if mode == Code || mode == Line then Some("") else None)
    else match mode
      case Block(d) =>
        if Pair(s, '/', '-') then Prepend("  ", Scrub(s[2..], Block(d + 1)))
        else if Pair(s, '-', '/') then Prepend("  ", Scrub(s[2..], Leave(d)))
        else Prepend([Blank(s[0])], Scrub(s[1..], mode))
      case Str =>
        if s[0] == '\\' && |s| > 1 then Prepend("  ", Scrub(s[2..], Str))
        else if s[0] == '"' then Prepend(" ", Scrub(s[1..], Code))
        else Prepend([Blank(s[0])], Scrub(s[1..], mode))
      case Line =>
        Prepend([Blank(s[0])], Scrub(s[1..], if s[0] == '\n' then Code else Line))
      case Code =>
        if Pair(s, '-', '-') then Prepend("  ", Scrub(s[2..], Line))
        else if Pair(s, '/', '-') then Prepend("  ", Scrub(s[2..], Block(1)))
        else if s[0] == '"' then Prepend(" ", Scrub(s[1..], Str))
        else Prepend([s[0]], Scrub(s[1..], Code))
  }

  function StepLength(s: string, mode: Mode): nat
    requires s != ""
  {
    if |s| >= 2 &&
       match mode
       case Block(_) => Pair(s, '/', '-') || Pair(s, '-', '/')
       case Str => s[0] == '\\'
       case Code => Pair(s, '-', '-') || Pair(s, '/', '-')
       case _ => false
    then 2 else 1
  }

  function StepMode(s: string, mode: Mode): (next: Mode)
    requires s != "" && mode != Escaped
    ensures next != Escaped
  {
    match mode
    case Block(d) => if Pair(s, '/', '-') then Block(d + 1) else if Pair(s, '-', '/') then Leave(d) else mode
    case Str => if s[0] == '"' then Code else Str
    case Line => if s[0] == '\n' then Code else Line
    case Code => if Pair(s, '-', '-') then Line else if Pair(s, '/', '-') then Block(1) else if s[0] == '"' then Str
        else Code
  }

  /** The character is copied rather than blanked. */
  predicate Copied(s: string, mode: Mode)
    requires s != ""
  {
    mode == Code && !Pair(s, '-', '-') && !Pair(s, '/', '-') && s[0] != '"'
  }

  function StepText(s: string, mode: Mode): (head: string)
    requires s != ""
    ensures |head| == StepLength(s, mode)
  {
    if Copied(s, mode) then [s[0]]
    else if StepLength(s, mode) == 2 then "  "
    else if mode == Code || (mode == Str && s[0] == '"') then " "
    else [Blank(s[0])]
  }

  lemma ScrubStep(s: string, mode: Mode)
    requires s != "" && mode != Escaped
    ensures Scrub(s, mode) == Prepend(StepText(s, mode), Scrub(s[StepLength(s, mode)..], StepMode(s, mode)))
  {
  }

  function Spaces(n: nat): string {
    seq(n, _ => ' ')
  }

  /** The first newline at or after `from`, or the end. */
  function Newline(s: string, from: nat): (n: nat)
    requires from <= |s|
    ensures from <= n <= |s|
    ensures forall k :: from <= k < n ==> s[k] != '\n'
    ensures n < |s| ==> s[n] == '\n'
    decreases |s| - from
  {
    if from == |s| || s[from] == '\n' then from else Newline(s, from + 1)
  }

  lemma PrependTwice(a: string, b: string, rest: Option<string>)
    ensures Prepend(a, Prepend(b, rest)) == Prepend(a + b, rest)
  {
    if rest.Some? {
      assert a + (b + rest.value) == a + b + rest.value;
    }
  }

  /** A line comment is blanked up to its newline in one go. */
  lemma {:induction false} ScrubLine(s: string, n: nat)
    requires n <= |s| && (forall k :: 0 <= k < n ==> s[k] != '\n') && (n < |s| ==> s[n] == '\n')
    ensures Scrub(s, Line) ==
              if n == |s| then Some(Spaces(n)) else Prepend(Spaces(n) + "\n", Scrub(s[n + 1..], Code))
    decreases n
  {
    if n == 0 {
      if s != "" { assert Spaces(0) + "\n" == "\n"; }
    } else {
      ScrubLine(s[1..], n - 1);
      assert [' '] + Spaces(n - 1) == Spaces(n);
      if n < |s| {
        assert s[1..][n..] == s[n + 1..];
        PrependTwice([' '], Spaces(n - 1) + "\n", Scrub(s[n + 1..], Code));
        assert [' '] + (Spaces(n - 1) + "\n") == Spaces(n) + "\n";
      }
    }
  }

  function ModeOf(blockDepth: nat, inString: bool): Mode {
    if blockDepth > 0 then Block(blockDepth) else if inString then Str else Code
  }

  /** `scrub_comments_and_strings`. */
  method ScrubCommentsAndStrings(source: string) returns (r: Option<string>)
    ensures r == Scrub(source, Code)
  {
    hide Scrub, Prepend;
    var result: string := [];
    var index, blockDepth := 0, 0;
    var inString := false;
    assert source[0..] == source;
    PrependNothing(Scrub(source, Code));
    while index < |source|
      invariant 0 <= index <= |source| && 0 <= blockDepth
      invariant blockDepth > 0 ==> !inString
      invariant Scrub(source, Code) == Prepend(result, Scrub(source[index..], ModeOf(blockDepth, inString)))
      decreases |source| - index
    {
      ghost var was, at, mode := result, index, ModeOf(blockDepth, inString);
      ghost var rest := source[index..];
      var character := source[index];
      var pair := if index + 1 < |source| then [character, source[index + 1]] else [character];
      PairOf(rest, pair);
      if blockDepth > 0 {
        if pair == "/-" {
          blockDepth := blockDepth + 1;
          result := result + "  ";
          index := index + 2;
        } else if pair == "-/" {
          blockDepth := blockDepth - 1;
          result := result + "  ";
          index := index + 2;
        } else {
          result := result + [if character == '\n' then '\n' else ' '];
          index := index + 1;
        }
      } else if inString {
        if character == '\\' && index + 1 < |source| {
          result := result + "  ";
          index := index + 2;
        } else if character == '"' {
          inString := false;
          result := result + " ";
          index := index + 1;
        } else {
          result := result + [if character == '\n' then '\n' else ' '];
          index := index + 1;
        }
      } else if pair == "--" {
        var newline := Newline(source, index);
        ScrubLineComment(source, index, newline);
        if newline == |source| {
          result := result + Spaces(|source| - index);
          PrependEnd(was, Spaces(|source| - index));
          return Some(result);
        }
        result := result + Spaces(newline - index);
        result := result + "\n";
        index := newline + 1;
        assert result == was + (Spaces(newline - at) + "\n");
        PrependTwice(was, Spaces(newline - at) + "\n", Scrub(source[index..], Code));
        continue;
      } else if pair == "/-" {
        blockDepth := 1;
        result := result + "  ";
        index := index + 2;
      } else if character == '"' {
        inString := true;
        result := result + " ";
        index := index + 1;
      } else {
        result := result + [character];
        index := index + 1;
      }
      assert result == was + StepText(rest, mode) && index == at + StepLength(rest, mode);
      assert ModeOf(blockDepth, inString) == StepMode(rest, mode);
      assert rest[StepLength(rest, mode)..] == source[index..];
      ScrubStep(rest, mode);
      PrependTwice(was, StepText(rest, mode), Scrub(source[index..], ModeOf(blockDepth, inString)));
    }
    assert source[index..] == "";
    ScrubEnd(ModeOf(blockDepth, inString));
    if blockDepth > 0 || inString {
      PrependNone(result);
      return None;
    }
    PrependEnd(result, "");
    return Some(result);
  }

  lemma PairOf(rest: string, pair: string)
    requires rest != "" && pair == if |rest| > 1 then [rest[0], rest[1]] else [rest[0]]
    ensures Pair(rest, '/', '-') <==> pair == "/-"
    ensures Pair(rest, '-', '/') <==> pair == "-/"
    ensures Pair(rest, '-', '-') <==> pair == "--"
  {
  }

  lemma ScrubEnd(mode: Mode)
    requires mode != Escaped
    ensures Scrub("", mode) == if mode == Code || mode == Line then Some("") else None
  {
  }

  lemma PrependNone(head: string)
    ensures Prepend(head, None) == None
  {
  }

  lemma PrependEnd(head: string, tail: string)
    ensures Prepend(head, Some(tail)) == Some(head + tail)
    ensures head + "" == head
  {
  }

  lemma PrependNothing(rest: Option<string>)
    ensures Prepend("", rest) == rest
  {
    if rest.Some? {
      assert "" + rest.value == rest.value;
    }
  }

  lemma ScrubLineComment(source: string, index: nat, newline: nat)
    requires index < newline <= |source| && newline == Newline(source, index)
    requires Pair(source[index..], '-', '-')
    ensures Scrub(source[index..], Code) ==
              if newline == |source| then Some(Spaces(|source| - index))
              else Prepend(Spaces(newline - index) + "\n", Scrub(source[newline + 1..], Code))
  {
    var s := source[index + 2..];
    var n := newline - index - 2;
    assert source[index..][2..] == s;
    ScrubLine(s, n);
    assert "  " + Spaces(n) == Spaces(n + 2);
    if newline < |source| {
      assert s[n + 1..] == source[newline + 1..];
      PrependTwice("  ", Spaces(n) + "\n", Scrub(source[newline + 1..], Code));
      assert "  " + (Spaces(n) + "\n") == Spaces(n + 2) + "\n";
    }
  }

  // ---- What scrubbing keeps ----

  /** Same length, and every position keeps its character or becomes a space. */
  lemma {:induction false} ScrubKeepsPositions(s: string, mode: Mode)
    requires mode != Escaped && Scrub(s, mode).Some?
    ensures var t := Scrub(s, mode).value;
            |t| == |s| && forall i :: 0 <= i < |s| ==> t[i] == s[i] || t[i] == ' '
    decreases |s|
  {
    if s != "" {
      var n, next := StepLength(s, mode), StepMode(s, mode);
      ScrubStep(s, mode);
      ScrubKeepsPositions(s[n..], next);
      var t, rest := Scrub(s, mode).value, Scrub(s[n..], next).value;
      assert forall i :: n <= i < |s| ==> t[i] == rest[i - n] && s[i] == s[n..][i - n];
    }
  }

  /**
    Characters that open, close or escape nothing and are not blanks show through in the
    scrubbed text only as themselves.
   */
  lemma ScrubHead(s: string, mode: Mode)
    requires s != "" && mode != Escaped && Scrub(s, mode).Some?
    ensures var t := Scrub(s, mode).value;
            |t| == |s| && (t[0] == s[0] || t[0] == ' ') && (Copied(s, mode) ==> t[0] == s[0])
  {
    ScrubKeepsPositions(s, mode);
    ScrubStep(s, mode);
  }

  /** Scrubbing leaves nothing to scrub: no string, no comment opener. */
  lemma {:induction false} ScrubbedIsPlain(s: string, mode: Mode)
    requires mode != Escaped && Scrub(s, mode).Some?
    ensures var t := Scrub(s, mode).value;
            && (forall i :: 0 <= i < |t| ==> t[i] != '"')
            && (forall i :: 0 <= i < |t| - 1 ==> !(t[i] == '-' && t[i + 1] == '-') && !(t[i] == '/' && t[i + 1] == '-'))
    decreases |s|
  {
    if s != "" {
      var n, next := StepLength(s, mode), StepMode(s, mode);
      ScrubStep(s, mode);
      ScrubbedIsPlain(s[n..], next);
      var t, rest := Scrub(s, mode).value, Scrub(s[n..], next).value;
      assert forall i :: n <= i < |t| ==> t[i] == rest[i - n];
      if n < |s| {
        ScrubHead(s[n..], next);
      }
      forall i | 0 <= i < |t| - 1
        ensures !(t[i] == '-' && t[i + 1] == '-') && !(t[i] == '/' && t[i + 1] == '-')
      {
        if i >= n {
          assert t[i] == rest[i - n] && t[i + 1] == rest[i - n + 1];
        }
      }
    }
  }

  lemma {:induction false} PlainScrubsToItself(t: string)
    requires forall i :: 0 <= i < |t| ==> t[i] != '"'
    requires forall i :: 0 <= i < |t| - 1 ==> !(t[i] == '-' && t[i + 1] == '-') && !(t[i] == '/' && t[i + 1] == '-')
    ensures Scrub(t, Code) == Some(t)
    decreases |t|
  {
    if t != "" {
      var rest := t[1..];
      forall i | 0 <= i < |rest| - 1
        ensures !(rest[i] == '-' && rest[i + 1] == '-') && !(rest[i] == '/' && rest[i + 1] == '-')
      {
        assert rest[i] == t[i + 1] && rest[i + 1] == t[i + 2];
      }
      PlainScrubsToItself(rest);
      assert |t| >= 2 ==> !(t[0] == '-' && t[1] == '-') && !(t[0] == '/' && t[1] == '-');
      assert [t[0]] + rest == t;
    }
  }

  /** Scrubbing twice is scrubbing once. */
  lemma ScrubIdempotent(s: string)
    requires Scrub(s, Code).Some?
    ensures Scrub(Scrub(s, Code).value, Code) == Scrub(s, Code)
  {
    ScrubbedIsPlain(s, Code);
    PlainScrubsToItself(Scrub(s, Code).value);
  }

  // ---- Line structure ----

  /** Somewhere inside a string a backslash is followed by a newline. */
  predicate EscapesNewline(s: string, mode: Mode)
    requires mode != Escaped
    decreases |s|
  {
    s != "" &&
    ((mode == Str && |s| > 1 && s[0] == '\\' && s[1] == '\n') ||
     EscapesNewline(s[StepLength(s, mode)..], StepMode(s, mode)))
  }

  predicate SameLines(s: string, t: string) {
    |s| == |t| && forall i :: 0 <= i < |s| ==> (t[i] == '\n' <==> s[i] == '\n')
  }

  lemma SameLinesAppend(a: string, b: string, s: string, t: string)
    requires |a| == |b|
    ensures SameLines(a + s, b + t) <==> SameLines(a, b) && SameLines(s, t)
  {
    if SameLines(a + s, b + t) {
      forall i | 0 <= i < |a| ensures b[i] == '\n' <==> a[i] == '\n' {
        assert (a + s)[i] == a[i] && (b + t)[i] == b[i];
      }
      forall i | 0 <= i < |s| ensures t[i] == '\n' <==> s[i] == '\n' {
        assert (a + s)[|a| + i] == s[i] && (b + t)[|b| + i] == t[i];
      }
    }
  }

  /**
    The promise to preserve line structure is kept exactly on texts in which no
    string contains an escaped newline.
   */
  lemma {:induction false} LinesPreservedExactly(s: string, mode: Mode)
    requires mode != Escaped && Scrub(s, mode).Some?
    ensures SameLines(s, Scrub(s, mode).value) <==> !EscapesNewline(s, mode)
    decreases |s|
  {
    if s != "" {
      var n, next := StepLength(s, mode), StepMode(s, mode);
      ScrubStep(s, mode);
      LinesPreservedExactly(s[n..], next);
      assert s == s[..n] + s[n..];
      SameLinesAppend(s[..n], StepText(s, mode), s[n..], Scrub(s[n..], next).value);
      StepLines(s, mode);
    }
  }

  /** The only step that changes a newline is an escape in front of one. */
  lemma StepLines(s: string, mode: Mode)
    requires s != "" && mode != Escaped
    ensures SameLines(s[..StepLength(s, mode)], StepText(s, mode)) <==>
              !(mode == Str && |s| > 1 && s[0] == '\\' && s[1] == '\n')
  {
    if mode == Str && |s| > 1 && s[0] == '\\' && s[1] == '\n' {
      assert s[..2][1] == '\n' && "  "[1] == ' ';
    }
  }

  /** A string with an escaped newline loses it: four characters become four spaces. */
  lemma EscapedNewlineIsLost()
    ensures Scrub("\"\\\n\"", Code) == Some("    ")
  {
    var s := "\"\\\n\"";
    assert s[1..] == "\\\n\"" && s[1..][2..] == "\"" && "\""[1..] == "";
    assert Scrub("\"", Str) == Some(" ") by {
      assert " " + "" == " ";
    }
    assert Scrub(s[1..], Str) == Some("   ") by {
      ScrubStep(s[1..], Str);
      assert "  " + " " == "   ";
    }
    ScrubStep(s, Code);
    assert " " + "   " == "    ";
  }

  // ---- Scanning for a signature ----

  datatype Found = Found(separator: nat, assignment: nat)

  /** One code character of the scan; `None` means go on with the new depth and separator. */
  datatype Turn = Stop(found: Found) | Go(depth: nat, separator: Option<nat>)

  function CodeTurn(c: char, following: Option<char>, at: nat, depth: nat, separator: Option<nat>): Turn {
    if c in "([{" then Go(depth + 1, separator)
    else if c in ")]}" && depth > 0 then Go(depth - 1, separator)
    else if depth == 0 && c == ':' && following == Some('=') then
      (if separator.Some? then Stop(Found(separator.value, at)) else Go(depth, separator))
    else if depth == 0 && c == ':' && separator.None? then Go(depth, Some(at))
    else Go(depth, separator)
  }

  function Following(s: string): Option<char> {
    if |s| >= 2 then Some(s[1]) else None
  }

  /** The bracket-and-colon scan of text that has no comments or strings. */
  function PlainScan(s: string, at: nat, depth: nat, separator: Option<nat>): Option<Found>
    decreases |s|
  {
    if s == "" then None
    else match CodeTurn(s[0], Following(s), at, depth, separator)
      case Stop(found) => Some(found)
      case Go(d, sep) => PlainScan(s[1..], at + 1, d, sep)
  }

  /** The same search through raw text, with the scanner's own comment and string states. */
  function RawScan(s: string, at: nat, mode: Mode, depth: nat, separator: Option<nat>): Option<Found>
    decreases |s|
  {
    if s == "" then None
    else match mode
      case Line => RawScan(s[1..], at + 1, if s[0] == '\n' then Code else Line, depth, separator)
      case Block(d) =>
        if Pair(s, '/', '-') then RawScan(s[2..], at + 2, Block(d + 1), depth, separator)
        else if Pair(s, '-', '/') then RawScan(s[2..], at + 2, Leave(d), depth, separator)
        else RawScan(s[1..], at + 1, mode, depth, separator)
      case Escaped => RawScan(s[1..], at + 1, Str, depth, separator)
      case Str =>
        RawScan(s[1..], at + 1, if s[0] == '\\' then Escaped else if s[0] == '"' then Code else Str, depth, separator)
      case Code =>
        if Pair(s, '-', '-') then RawScan(s[2..], at + 2, Line, depth, separator)
        else if Pair(s, '/', '-') then RawScan(s[2..], at + 2, Block(1), depth, separator)
        else if s[0] == '"' then RawScan(s[1..], at + 1, Str, depth, separator)
        else match CodeTurn(s[0], Following(s), at, depth, separator)
          case Stop(found) => Some(found)
          case Go(d, sep) => RawScan(s[1..], at + 1, Code, d, sep)
  }

  lemma BlankTurn(c: char, following: Option<char>, at: nat, depth: nat, separator: Option<nat>)
    requires c == ' ' || c == '\n'
    ensures CodeTurn(c, following, at, depth, separator) == Go(depth, separator)
  {
  }

  /** A blank in front of scrubbed text is passed over. */
  lemma BlankScan(c: char, rest: string, at: nat, depth: nat, separator: Option<nat>)
    requires c == ' ' || c == '\n'
    ensures PlainScan([c] + rest, at, depth, separator) == PlainScan(rest, at + 1, depth, separator)
  {
    BlankTurn(c, Following([c] + rest), at, depth, separator);
    assert ([c] + rest)[1..] == rest;
  }

  lemma TwoBlankScan(rest: string, at: nat, depth: nat, separator: Option<nat>)
    ensures PlainScan("  " + rest, at, depth, separator) == PlainScan(rest, at + 2, depth, separator)
  {
    assert "  " + rest == [' '] + ([' '] + rest);
    BlankScan(' ', [' '] + rest, at, depth, separator);
    BlankScan(' ', rest, at + 1, depth, separator);
  }

  /**
    The two lexers agree: where scrubbing succeeds, the raw scan finds the
    separator and assignment that the plain scan finds in the scrubbed text.
   */
  lemma {:induction false} LexersAgree(s: string, at: nat, mode: Mode, depth: nat, separator: Option<nat>)
    requires mode != Escaped && Scrub(s, mode).Some?
    ensures RawScan(s, at, mode, depth, separator) == PlainScan(Scrub(s, mode).value, at, depth, separator)
    decreases |s|
  {
    hide Scrub, RawScan, PlainScan, StepLength, StepMode, StepText, Copied, CodeTurn, Following;
    if s == "" {
      NothingToScan(at, mode, depth, separator);
    } else {
      var n, next := StepLength(s, mode), StepMode(s, mode);
      ScrubStep(s, mode);
      StepAdvances(s, mode);
      if Copied(s, mode) {
        CopiedStep(s, at, mode, depth, separator);
        match CodeTurn(s[0], Following(s), at, depth, separator)
        case Stop(_) =>
        case Go(d, sep) => LexersAgree(s[1..], at + 1, Code, d, sep);
      } else {
        LexersAgree(s[n..], at + n, next, depth, separator);
        RawStep(s, at, mode, depth, separator);
        BlankStep(s, mode, Scrub(s[n..], next).value, at, depth, separator);
      }
    }
  }

  lemma NothingToScan(at: nat, mode: Mode, depth: nat, separator: Option<nat>)
    requires mode != Escaped && Scrub("", mode).Some?
    ensures RawScan("", at, mode, depth, separator) == PlainScan(Scrub("", mode).value, at, depth, separator)
  {
  }

  lemma StepAdvances(s: string, mode: Mode)
    requires s != "" && mode != Escaped
    ensures 1 <= StepLength(s, mode) <= |s|
    ensures Copied(s, mode) ==> StepLength(s, mode) == 1 && StepMode(s, mode) == Code && StepText(s, mode) == [s[0]]
  {
  }

  /** On copied code both scans take the same turn. */
  lemma CopiedStep(s: string, at: nat, mode: Mode, depth: nat, separator: Option<nat>)
    requires s != "" && mode != Escaped && Copied(s, mode) && Scrub(s[1..], Code).Some?
    ensures var rest := Scrub(s[1..], Code).value;
            match CodeTurn(s[0], Following(s), at, depth, separator)
            case Stop(found) => RawScan(s, at, mode, depth, separator) == Some(found) ==
                PlainScan([s[0]] + rest, at, depth, separator)
            case Go(d, sep) =>
              && RawScan(s, at, mode, depth, separator) == RawScan(s[1..], at + 1, Code, d, sep)
              && PlainScan([s[0]] + rest, at, depth, separator) == PlainScan(rest, at + 1, d, sep)
  {
    var rest := Scrub(s[1..], Code).value;
    assert ([s[0]] + rest)[1..] == rest;
    FollowingAgrees(s, rest);
    hide Scrub, CodeTurn, Following;
  }

  /** The plain scan passes over what a step has blanked. */
  lemma BlankStep(s: string, mode: Mode, rest: string, at: nat, depth: nat, separator: Option<nat>)
    requires s != "" && mode != Escaped && !Copied(s, mode)
    ensures PlainScan(StepText(s, mode) + rest, at, depth, separator) ==
            PlainScan(rest, at + StepLength(s, mode), depth, separator)
  {
    hide PlainScan;
    if StepLength(s, mode) == 2 {
      TwoBlankScan(rest, at, depth, separator);
    } else {
      BlankScan(StepText(s, mode)[0], rest, at, depth, separator);
      assert StepText(s, mode) == [StepText(s, mode)[0]];
    }
  }

  /** Outside copied code the raw scan moves exactly as the scrubber does. */
  lemma RawStep(s: string, at: nat, mode: Mode, depth: nat, separator: Option<nat>)
    requires s != "" && mode != Escaped && !Copied(s, mode) && Scrub(s, mode).Some?
    ensures RawScan(s, at, mode, depth, separator) ==
              RawScan(s[StepLength(s, mode)..], at + StepLength(s, mode), StepMode(s, mode), depth, separator)
  {
    if mode == Str && s[0] == '\\' {
      if |s| == 1 {
        assert s[1..] == "";
      } else {
        assert s[1..][1..] == s[2..];
      }
    }
  }

  /** `:=` looks the same in the raw and in the scrubbed text. */
  lemma FollowingAgrees(s: string, rest: string)
    requires s != "" && Copied(s, Code) && Scrub(s[1..], Code) == Some(rest)
    ensures forall at, depth, separator ::
              CodeTurn(s[0], Following(s), at, depth, separator) ==
                  CodeTurn(s[0], Following([s[0]] + rest), at, depth, separator)
  {
    if |s| > 1 {
      ScrubHead(s[1..], Code);
      assert s[1..][0] == s[1];
    }
  }

  lemma {:induction false} ScanPositions(s: string, at: nat, mode: Mode, depth: nat, separator: Option<nat>)
    requires RawScan(s, at, mode, depth, separator).Some?
    requires separator.Some? ==> separator.value < at
    ensures var f := RawScan(s, at, mode, depth, separator).value;
            f.separator < f.assignment < at + |s| && (if separator.Some? then f.separator == separator.value
                else at <= f.separator)
    decreases |s|
  {
    if s != "" {
      match mode
      case Line => ScanPositions(s[1..], at + 1, if s[0] == '\n' then Code else Line, depth, separator);
      case Block(d) =>
        if Pair(s, '/', '-') {
          ScanPositions(s[2..], at + 2, Block(d + 1), depth, separator);
        } else if Pair(s, '-', '/') {
          ScanPositions(s[2..], at + 2, Leave(d), depth, separator);
        } else {
          ScanPositions(s[1..], at + 1, mode, depth, separator);
        }
      case Escaped => ScanPositions(s[1..], at + 1, Str, depth, separator);
      case Str =>
        ScanPositions(s[1..], at + 1, if s[0] == '\\' then Escaped else if s[0] == '"' then Code else Str, depth,
            separator);
      case Code =>
        if Pair(s, '-', '-') {
          ScanPositions(s[2..], at + 2, Line, depth, separator);
        } else if Pair(s, '/', '-') {
          ScanPositions(s[2..], at + 2, Block(1), depth, separator);
        } else if s[0] == '"' {
          ScanPositions(s[1..], at + 1, Str, depth, separator);
        } else {
          match CodeTurn(s[0], Following(s), at, depth, separator)
          case Stop(_) =>
          case Go(d, sep) => ScanPositions(s[1..], at + 1, Code, d, sep);
        }
    }
  }
}
