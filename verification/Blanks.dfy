/** Blank characters and stripping, as `str.strip` and `str.split` see them. */
module Blanks {
  predicate IsBlank(c: char) {
    c == ' ' || c == '\t' || c == '\n' || c == '\r'
  }

  function StripLeft(s: string): string {
    if s != "" && IsBlank(s[0]) then StripLeft(s[1..]) else s
  }

  function StripRight(s: string): string {
    if s != "" && IsBlank(s[|s| - 1]) then StripRight(s[..|s| - 1]) else s
  }

  function Strip(s: string): string {
    StripLeft(StripRight(s))
  }

  predicate AllBlank(s: string) {
    forall i :: 0 <= i < |s| ==> IsBlank(s[i])
  }

  /** `t` neither begins nor ends with a blank. */
  predicate Trim(t: string) {
    t != "" ==> !IsBlank(t[0]) && !IsBlank(t[|t| - 1])
  }

  lemma {:induction false} StripLeftIs(a: string, t: string)
    requires AllBlank(a) && (t != "" ==> !IsBlank(t[0]))
    ensures StripLeft(a + t) == t
    decreases |a|
  {
    if a == "" {
      assert a + t == t;
    } else {
      assert (a + t)[1..] == a[1..] + t;
      StripLeftIs(a[1..], t);
    }
  }

  lemma {:induction false} StripRightIs(t: string, b: string)
    requires AllBlank(b) && (t != "" ==> !IsBlank(t[|t| - 1]))
    ensures StripRight(t + b) == t
    decreases |b|
  {
    if b == "" {
      assert t + b == t;
    } else {
      assert (t + b)[..|t + b| - 1] == t + b[..|b| - 1];
      StripRightIs(t, b[..|b| - 1]);
    }
  }

  lemma {:induction false} StripLeftSplits(s: string) returns (a: string)
    ensures s == a + StripLeft(s) && AllBlank(a) && (StripLeft(s) != "" ==> !IsBlank(StripLeft(s)[0]))
    decreases |s|
  {
    if s != "" && IsBlank(s[0]) {
      var rest := StripLeftSplits(s[1..]);
      a := [s[0]] + rest;
      assert s == [s[0]] + s[1..];
    } else {
      a := "";
    }
  }

  lemma {:induction false} StripRightSplits(s: string) returns (b: string)
    ensures s == StripRight(s) + b && AllBlank(b)
    ensures StripRight(s) != "" ==> !IsBlank(StripRight(s)[|StripRight(s)| - 1])
    decreases |s|
  {
    if s != "" && IsBlank(s[|s| - 1]) {
      var rest := StripRightSplits(s[..|s| - 1]);
      b := rest + [s[|s| - 1]];
      assert s == s[..|s| - 1] + [s[|s| - 1]];
    } else {
      b := "";
    }
  }

  /** The blanks of `s` lie around `t`. */
  ghost predicate Trims(s: string, t: string) {
    Trim(t) && exists a, b :: AllBlank(a) && AllBlank(b) && s == a + t + b
  }

  /** Stripping gives exactly what is left when the blanks at both ends are taken away. */
  lemma StripTrims(s: string, t: string)
    ensures Strip(s) == t <==> Trims(s, t)
  {
    var b := StripRightSplits(s);
    var right := StripRight(s);
    var a := StripLeftSplits(right);
    var stripped := Strip(s);
    if stripped != "" { assert right[|right| - 1] == stripped[|stripped| - 1]; }
    assert s == a + stripped + b;
    assert Trims(s, stripped);
    if Trims(s, t) {
      var c, d :| AllBlank(c) && AllBlank(d) && s == c + t + d;
      if t == "" {
        assert s == "" + (c + d) && AllBlank(c + d);
        StripRightIs("", c + d);
      } else {
        StripRightIs(c + t, d);
        StripLeftIs(c, t);
      }
    }
  }
}
