/** Sorting strings without repetition, as `sorted(set(...))` does. */
module Ordering {
  /** Lexicographic order by character. */
  predicate Less(a: string, b: string)
    decreases |a|
  {
    b != "" && (a == "" || a[0] < b[0] || (a[0] == b[0] && Less(a[1..], b[1..])))
  }

  lemma {:induction false} LessIsTotal(a: string, b: string)
    ensures (Less(a, b) || a == b || Less(b, a)) && !(Less(a, b) && Less(b, a)) && !Less(a, a)
    decreases |a|
  {
    if a != "" {
      LessIsTotal(a[1..], a[1..]);
      if b != "" && a[0] == b[0] {
        LessIsTotal(a[1..], b[1..]);
        if a[1..] == b[1..] { assert a == [a[0]] + a[1..] == b; }
      }
    }
  }

  lemma {:induction false} LessIsTransitive(a: string, b: string, c: string)
    requires Less(a, b) && Less(b, c)
    ensures Less(a, c)
    decreases |a|
  {
    if a != "" && a[0] == b[0] == c[0] {
      LessIsTransitive(a[1..], b[1..], c[1..]);
    }
  }

  predicate Ascending(s: seq<string>) {
    forall i, j :: 0 <= i < j < |s| ==> Less(s[i], s[j])
  }

  /** `x` put in its place, unless it is there already. */
  function Insert(x: string, s: seq<string>): (r: seq<string>)
    requires Ascending(s)
    ensures Ascending(r) && forall y :: y in r <==> y == x || y in s
  {
    if s == [] then [x]
    else if x == s[0] then s
    else if Less(x, s[0]) then
      InsertFirst(x, s);
      [x] + s
    else
      LessIsTotal(x, s[0]);
      var tail := Insert(x, s[1..]);
      InsertLater(x, s, tail);
      [s[0]] + tail
  }

  lemma InsertFirst(x: string, s: seq<string>)
    requires s != [] && Ascending(s) && Less(x, s[0])
    ensures Ascending([x] + s)
  {
    forall j | 0 <= j < |s| ensures Less(x, s[j]) {
      if j > 0 { LessIsTransitive(x, s[0], s[j]); }
    }
  }

  lemma InsertLater(x: string, s: seq<string>, tail: seq<string>)
    requires s != [] && Ascending(s) && Ascending(tail) && Less(s[0], x)
    requires forall y :: y in tail <==> y == x || y in s[1..]
    ensures Ascending([s[0]] + tail) && forall y :: y in [s[0]] + tail <==> y == x || y in s
  {
    forall j | 0 <= j < |tail| ensures Less(s[0], tail[j]) {
      assert tail[j] in tail;
    }
    assert s == [s[0]] + s[1..];
  }

  function Sorted(xs: seq<string>): (r: seq<string>)
    ensures Ascending(r) && forall y :: y in r <==> y in xs
  {
    if xs == [] then []
    else
      assert xs == [xs[0]] + xs[1..];
      Insert(xs[0], Sorted(xs[1..]))
  }

  lemma AscendingHasNoRepeats(s: seq<string>)
    requires Ascending(s)
    ensures forall i, j :: 0 <= i < j < |s| ==> s[i] != s[j]
  {
    forall i, j | 0 <= i < j < |s| ensures s[i] != s[j] { LessIsTotal(s[i], s[j]); }
  }

  /** The order leaves no choice: only one ascending sequence has the given elements. */
  lemma {:induction false} AscendingIsUnique(s: seq<string>, t: seq<string>)
    requires Ascending(s) && Ascending(t) && forall y :: y in s <==> y in t
    ensures s == t
    decreases |s|
  {
    assert s != [] ==> s[0] in t;
    assert t != [] ==> t[0] in s;
    if s != [] && t != [] {
      SameLeast(s, t);
      forall y ensures y in s[1..] <==> y in t[1..] {
        AscendingHasNoRepeats(s);
        AscendingHasNoRepeats(t);
        assert y in s <==> y == s[0] || y in s[1..];
        assert y in t <==> y == t[0] || y in t[1..];
      }
      AscendingIsUnique(s[1..], t[1..]);
      assert s == [s[0]] + s[1..] && t == [t[0]] + t[1..];
    }
  }

  lemma SameLeast(s: seq<string>, t: seq<string>)
    requires s != [] && t != [] && Ascending(s) && Ascending(t) && forall y :: y in s <==> y in t
    ensures s[0] == t[0]
  {
    assert s[0] in t && t[0] in s;
    LessIsTotal(s[0], t[0]);
  }
}
