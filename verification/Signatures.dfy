/**
  What the declaration scanner finds, said without the scanner: the first colon
  outside all brackets, and the first `:=` outside all brackets after it.
 */
module Signatures {
  import opened Wrappers
  import opened Blanks
  import opened LeanLexer

  // ---- Nesting ----

  /** How many brackets are open after the text; a closing bracket with none open is passed over. */
  function Nesting(s: string): nat {
    if s == "" then 0
    else
      var before, c := Nesting(s[..|s| - 1]), s[|s| - 1];
      if c == '(' || c == '[' || c == '{' then before + 1
      else if (c == ')' || c == ']' || c == '}') && before > 0 then before - 1
      else before
  }

  predicate TopColon(s: string, k: nat) {
    k < |s| && s[k] == ':' && Nesting(s[..k]) == 0
  }

  predicate IsAssignment(s: string, k: nat) {
    TopColon(s, k) && k + 1 < |s| && s[k + 1] == '='
  }

  predicate IsSeparator(s: string, k: nat) {
    TopColon(s, k) && !(k + 1 < |s| && s[k + 1] == '=')
  }

  /** `i` is the first separator and `j` the first assignment after it. */
  ghost predicate Signs(s: string, i: nat, j: nat) {
    && i < j && IsSeparator(s, i) && IsAssignment(s, j)
    && (forall k: nat :: k < i ==> !IsSeparator(s, k))
    && (forall k: nat :: i < k < j ==> !IsAssignment(s, k))
  }

  // ---- The plain scan ----

  lemma NestingStep(s: string, n: nat)
    requires n < |s|
    ensures Nesting(s[..n + 1]) ==
              var before, c := Nesting(s[..n]), s[n];
              if c in "([{" then before + 1 else if c in ")]}" && before > 0 then before - 1 else before
  {
    assert s[..n + 1][..n] == s[..n];
  }

  /** What the scan knows when it stands at `n`. */
  ghost predicate Stands(s: string, at: nat, n: nat, depth: nat, separator: Option<nat>) {
    && n <= |s| && depth == Nesting(s[..n])
    && match separator
       case None => forall k: nat :: k < n ==> !IsSeparator(s, k)
       case Some(p) =>
         && at <= p && p - at < n && IsSeparator(s, p - at)
         && (forall k: nat :: k < p - at ==> !IsSeparator(s, k))
         && (forall k: nat :: p - at < k < n ==> !IsAssignment(s, k))
  }

  lemma TurnStands(s: string, at: nat, n: nat, depth: nat, separator: Option<nat>)
    requires Stands(s, at, n, depth, separator) && n < |s|
    ensures match CodeTurn(s[n], Following(s[n..]), at + n, depth, separator)
            case Stop(f) => at <= f.separator < f.assignment && Signs(s, f.separator - at, f.assignment - at)
            case Go(d, sep) => Stands(s, at, n + 1, d, sep)
  {
    NestingStep(s, n);
    hide Nesting;
    assert Following(s[n..]) == if n + 1 < |s| then Some(s[n + 1]) else None;
  }

  lemma {:induction false} PlainScanStands(s: string, at: nat, n: nat, depth: nat, separator: Option<nat>)
    requires Stands(s, at, n, depth, separator)
    ensures match PlainScan(s[n..], at + n, depth, separator)
            case Some(f) => at <= f.separator < f.assignment && Signs(s, f.separator - at, f.assignment - at)
            case None => forall i: nat, j: nat :: !Signs(s, i, j)
    decreases |s| - n
  {
    hide CodeTurn, Following;
    if n == |s| {
      NothingSigned(s, at, depth, separator);
    } else {
      hide Stands, Signs;
      TurnStands(s, at, n, depth, separator);
      assert s[n..][0] == s[n] && s[n..][1..] == s[n + 1..];
      match CodeTurn(s[n], Following(s[n..]), at + n, depth, separator)
      case Stop(_) =>
      case Go(d, sep) => PlainScanStands(s, at, n + 1, d, sep);
    }
  }

  lemma NothingSigned(s: string, at: nat, depth: nat, separator: Option<nat>)
    requires Stands(s, at, |s|, depth, separator)
    ensures forall i: nat, j: nat :: !Signs(s, i, j)
  {
    hide Nesting;
  }

  lemma SignsOnce(s: string, i: nat, j: nat, k: nat, l: nat)
    requires Signs(s, i, j) && Signs(s, k, l)
    ensures i == k && j == l
  {
    hide TopColon;
  }

  /** On text without comments and strings the scan finds exactly what signs it. */
  lemma PlainScanFinds(s: string, at: nat, f: Found)
    ensures PlainScan(s, at, 0, None) == Some(f) <==>
              at <= f.separator && at <= f.assignment && Signs(s, f.separator - at, f.assignment - at)
  {
    hide PlainScan, Signs;
    assert s[..0] == "" && s[0..] == s && Stands(s, at, 0, 0, None);
    PlainScanStands(s, at, 0, 0, None);
    if at <= f.separator && at <= f.assignment && Signs(s, f.separator - at, f.assignment - at) {
      var g := PlainScan(s, at, 0, None).value;
      SignsOnce(s, f.separator - at, f.assignment - at, g.separator - at, g.assignment - at);
    }
  }

  // ---- The raw scan ----

  lemma RawStepAny(s: string, at: nat, mode: Mode, depth: nat, separator: Option<nat>)
    requires s != "" && mode != Escaped
    ensures RawScan(s, at, mode, depth, separator) ==
              if Copied(s, mode) then
                match CodeTurn(s[0], Following(s), at, depth, separator)
                case Stop(f) => Some(f)
                case Go(d, sep) => RawScan(s[1..], at + 1, Code, d, sep)
              else RawScan(s[StepLength(s, mode)..], at + StepLength(s, mode), StepMode(s, mode), depth, separator)
  {
    if mode == Str && s[0] == '\\' {
      if |s| == 1 {
        assert s[1..] == "";
      } else {
        assert s[1..][1..] == s[2..];
      }
    }
  }

  /** A step looks at two characters only. */
  lemma StepOnPrefix(s: string, m: nat, mode: Mode)
    requires 2 <= m <= |s| && mode != Escaped
    ensures var t := s[..m];
            && t[0] == s[0] && Following(t) == Following(s) && Copied(t, mode) == Copied(s, mode)
            && StepLength(t, mode) == StepLength(s, mode) <= m && StepMode(t, mode) == StepMode(s, mode)
            && StepText(t, mode) == StepText(s, mode)
            && t[StepLength(s, mode)..] == s[StepLength(s, mode)..][..m - StepLength(s, mode)]
            && t[1..] == s[1..][..m - 1]
  {
    var t := s[..m];
    assert t[0] == s[0] && t[1] == s[1];
  }

  lemma OneCharacter(s: string, at: nat, mode: Mode, depth: nat, separator: Option<nat>)
    requires |s| == 1 && mode != Escaped
    ensures RawScan(s, at, mode, depth, separator).None?
  {
    RawStepAny(s, at, mode, depth, separator);
    assert s[1..] == "";
  }

  /** What is found in a prefix is found in the whole. */
  lemma {:induction false} RawScanPrefix(s: string, m: nat, at: nat, mode: Mode, depth: nat, separator: Option<nat>)
    requires m <= |s| && mode != Escaped && RawScan(s[..m], at, mode, depth, separator).Some?
    ensures RawScan(s, at, mode, depth, separator) == RawScan(s[..m], at, mode, depth, separator)
    decreases m
  {
    hide CodeTurn, StepLength, StepMode, StepText, Copied, Following;
    var t := s[..m];
    if m == 0 {
      assert false by { NothingThere(at, mode, depth, separator); }
    } else if m == 1 {
      OneCharacter(t, at, mode, depth, separator);
    } else {
      hide RawScan;
      StepOnPrefix(s, m, mode);
      RawStepAny(s, at, mode, depth, separator);
      RawStepAny(t, at, mode, depth, separator);
      StepAdvances(s, mode);
      if Copied(s, mode) {
        match CodeTurn(s[0], Following(s), at, depth, separator)
        case Stop(_) =>
        case Go(d, sep) => RawScanPrefix(s[1..], m - 1, at + 1, Code, d, sep);
      } else {
        var k := StepLength(s, mode);
        RawScanPrefix(s[k..], m - k, at + k, StepMode(s, mode), depth, separator);
      }
    }
  }

  lemma StopsAtAssignment(s: string, at: nat, depth: nat, separator: Option<nat>)
    requires s != "" && CodeTurn(s[0], Following(s), at, depth, separator).Stop?
    ensures CodeTurn(s[0], Following(s), at, depth, separator).found.assignment == at
    ensures |s| >= 2 && s[..2] == ":=" && Scrub(s[..2], Code).Some?
  {
    assert s[..2] == ":=" && ":="[1..] == "=" && "="[1..] == "";
    assert Scrub("=", Code).Some?;
  }

  /** What is found is found in the prefix that ends with the assignment, and that prefix scrubs. */
  lemma {:induction false} FoundInPrefix(s: string, at: nat, mode: Mode, depth: nat, separator: Option<nat>)
    requires mode != Escaped && RawScan(s, at, mode, depth, separator).Some?
    ensures var f := RawScan(s, at, mode, depth, separator).value;
            var m := f.assignment - at + 2;
            && 2 <= m <= |s| && Scrub(s[..m], mode).Some? && RawScan(s[..m], at, mode, depth, separator) == Some(f)
    decreases |s|
  {
    hide CodeTurn, StepLength, StepMode, StepText, Copied, Following, Scrub;
    if s != "" {
      hide RawScan;
      RawStepAny(s, at, mode, depth, separator);
      StepAdvances(s, mode);
      var f := RawScan(s, at, mode, depth, separator).value;
      var m := f.assignment - at + 2;
      var k := StepLength(s, mode);
      if Copied(s, mode) {
        CopiedIsCode(s, mode);
        match CodeTurn(s[0], Following(s), at, depth, separator)
        case Stop(_) => StopsAtAssignment(s, at, depth, separator);
        case Go(d, sep) => FoundInPrefix(s[1..], at + 1, Code, d, sep);
      } else {
        FoundInPrefix(s[k..], at + k, StepMode(s, mode), depth, separator);
      }
      StepOnPrefix(s, m, mode);
      RawStepAny(s[..m], at, mode, depth, separator);
      ScrubStep(s[..m], mode);
    } else {
      assert false by { NothingThere(at, mode, depth, separator); }
    }
  }

  lemma NothingThere(at: nat, mode: Mode, depth: nat, separator: Option<nat>)
    ensures RawScan("", at, mode, depth, separator).None?
  {
  }

  lemma CopiedIsCode(s: string, mode: Mode)
    requires s != "" && Copied(s, mode)
    ensures mode == Code
  {
  }

  /** Some part of the block after the name scrubs, and in it the two positions sign the declaration. */
  ghost predicate SignsWithin(block: string, nameEnd: nat, n: nat, f: Found) {
    && nameEnd <= n <= |block| && nameEnd <= f.separator && nameEnd <= f.assignment
    && Scrub(block[nameEnd..n], Code).Some?
    && Signs(Scrub(block[nameEnd..n], Code).value, f.separator - nameEnd, f.assignment - nameEnd)
  }

  /** On any block, closed or not: the scan finds exactly what some scrubbed part of it signs. */
  lemma RawScanFinds(block: string, nameEnd: nat)
    requires nameEnd <= |block|
    ensures forall f :: RawScan(block[nameEnd..], nameEnd, Code, 0, None) == Some(f) <==>
              exists n: nat :: SignsWithin(block, nameEnd, n, f)
  {
    hide Signs, PlainScan, RawScan, Scrub;
    var s := block[nameEnd..];
    forall f: Found
      ensures RawScan(s, nameEnd, Code, 0, None) == Some(f) <==> exists n: nat :: SignsWithin(block, nameEnd, n, f)
    {
      if RawScan(s, nameEnd, Code, 0, None) == Some(f) {
        FoundInPrefix(s, nameEnd, Code, 0, None);
        var m := f.assignment - nameEnd + 2;
        assert s[..m] == block[nameEnd..nameEnd + m];
        LexersAgree(s[..m], nameEnd, Code, 0, None);
        PlainScanFinds(Scrub(s[..m], Code).value, nameEnd, f);
        assert SignsWithin(block, nameEnd, nameEnd + m, f);
      }
      if n: nat :| SignsWithin(block, nameEnd, n, f) {
        assert s[..n - nameEnd] == block[nameEnd..n];
        LexersAgree(s[..n - nameEnd], nameEnd, Code, 0, None);
        PlainScanFinds(Scrub(s[..n - nameEnd], Code).value, nameEnd, f);
        RawScanPrefix(s, n - nameEnd, nameEnd, Code, 0, None);
      }
    }
  }

  // ---- The scanner ----

  function ScanMode(lineComment: bool, blockDepth: nat, inString: bool, escaped: bool): Mode {
    if lineComment then Line else if blockDepth > 0 then Block(blockDepth)
    else if inString then (if escaped then Escaped else Str) else Code
  }

  /** `_declaration_signature`: telescope and result type of the declaration whose name ends at `nameEnd`. */
  method DeclarationSignature(block: string, nameEnd: nat) returns (signature: Option<string>, found: Option<Found>)
    requires nameEnd <= |block|
    ensures found == RawScan(block[nameEnd..], nameEnd, Code, 0, None)
    ensures found.Some? ==> nameEnd <= found.value.separator < found.value.assignment < |block|
    ensures signature.Some? <==> found.Some?
    ensures forall f :: found == Some(f) <==> exists n: nat :: SignsWithin(block, nameEnd, n, f)
    ensures found.Some? ==>
              var telescope := Strip(block[nameEnd..found.value.separator]);
              var result := Strip(block[found.value.separator + 1..found.value.assignment]);
              signature == Some(if telescope != "" then telescope + " : " + result else result)
  {
    hide SignsWithin, Scrub, Strip;
    var depth: nat, blockDepth: nat := 0, 0;
    var lineComment, inString, escaped := false, false, false;
    var separator: Option<nat> := None;
    var index := nameEnd;
    ghost var whole := RawScan(block[nameEnd..], nameEnd, Code, 0, None);
    found := None;
    while index < |block|
      invariant nameEnd <= index <= |block|
      invariant lineComment ==> blockDepth == 0 && !inString
      invariant blockDepth > 0 ==> !inString
      invariant escaped ==> inString
      invariant whole == RawScan(block[index..], index, ScanMode(lineComment, blockDepth, inString, escaped), depth,
              separator)
      decreases |block| - index
    {
      var current := block[index];
      var following := if index + 1 < |block| then Some(block[index + 1]) else None;
      ghost var rest := block[index..];
      assert rest[1..] == block[index + 1..] && (|rest| >= 2 ==> rest[2..] == block[index + 2..]);
      if lineComment {
        if current == '\n' {
          lineComment := false;
        }
        index := index + 1;
      } else if blockDepth > 0 {
        if current == '/' && following == Some('-') {
          blockDepth := blockDepth + 1;
          index := index + 2;
        } else if current == '-' && following == Some('/') {
          blockDepth := blockDepth - 1;
          index := index + 2;
        } else {
          index := index + 1;
        }
      } else if inString {
        if escaped {
          escaped := false;
        } else if current == '\\' {
          escaped := true;
        } else if current == '"' {
          inString := false;
        }
        index := index + 1;
      } else if current == '-' && following == Some('-') {
        lineComment := true;
        index := index + 2;
      } else if current == '/' && following == Some('-') {
        blockDepth := 1;
        index := index + 2;
      } else if current == '"' {
        inString := true;
        index := index + 1;
      } else {
        if current in "([{" {
          depth := depth + 1;
        } else if current in ")]}" && depth > 0 {
          depth := depth - 1;
        } else if depth == 0 && current == ':' && following == Some('=') {
          if separator.Some? {
            found := Some(Found(separator.value, index));
            break;
          }
        } else if depth == 0 && current == ':' && separator.None? {
          separator := Some(index);
        }
        index := index + 1;
      }
    }
    RawScanFinds(block, nameEnd);
    if found.None? {
      return None, None;
    }
    ScanPositions(block[nameEnd..], nameEnd, Code, 0, None);
    var telescope := Strip(block[nameEnd..found.value.separator]);
    var result := Strip(block[found.value.separator + 1..found.value.assignment]);
    signature := Some(if telescope != "" then telescope + " : " + result else result);
  }

  /** What the scanner reads from a raw block is what the plain scan reads from the scrubbed one. */
  method SignatureOfScrubbed(block: string, nameEnd: nat) returns (found: Option<Found>)
    requires nameEnd <= |block| && Scrub(block[nameEnd..], Code).Some?
    ensures found == PlainScan(Scrub(block[nameEnd..], Code).value, nameEnd, 0, None)
    ensures forall f :: found == Some(f) <==>
              && nameEnd <= f.separator && nameEnd <= f.assignment
              && Signs(Scrub(block[nameEnd..], Code).value, f.separator - nameEnd, f.assignment - nameEnd)
  {
    hide Signs, PlainScan, RawScan, Scrub;
    forall f: Found { PlainScanFinds(Scrub(block[nameEnd..], Code).value, nameEnd, f); }
    LexersAgree(block[nameEnd..], nameEnd, Code, 0, None);
    var _, f := DeclarationSignature(block, nameEnd);
    found := f;
  }
}
