/** The few Python `str` operations the turn engine relies on: `strip()`, `lower()`,
    `replace(c, "")` and `sep.join(parts)`. */
module PyText {

  /** Python's `str.isspace()` for one character. */
  predicate IsSpace(c: char) {
    || c == ' '
    || ('\t' <= c <= '\r')
    || ('\U{1C}' <= c <= '\U{1F}')
    || c == '\U{85}' || c == '\U{A0}' || c == '\U{1680}'
    || ('\U{2000}' <= c <= '\U{200A}')
    || c == '\U{2028}' || c == '\U{2029}' || c == '\U{202F}' || c == '\U{205F}' || c == '\U{3000}'
  }

  predicate AllSpace(s: string) {
    forall i :: 0 <= i < |s| ==> IsSpace(s[i])
  }

  /** Neither end of `s` is white space (vacuously true of ""). */
  predicate Trimmed(s: string) {
    s == [] || (!IsSpace(s[0]) && !IsSpace(s[|s| - 1]))
  }

  function StripLeading(s: string): string {
    if s != [] && IsSpace(s[0]) then StripLeading(s[1..]) else s
  }

  function StripTrailing(s: string): string {
    if s != [] && IsSpace(s[|s| - 1]) then StripTrailing(s[..|s| - 1]) else s
  }

  /** Python's `s.strip()`: drop white space at both ends. */
  function Strip(s: string): string {
    StripTrailing(StripLeading(s))
  }

  /** `lstrip()` drops a prefix made only of white space and stops at the first other character. */
  lemma {:induction false} StripLeadingDrops(s: string)
    ensures var r := StripLeading(s);
      && |r| <= |s| && r == s[|s| - |r|..]
      && AllSpace(s[..|s| - |r|])
      && (r == [] || !IsSpace(r[0]))
  {
    if s != [] && IsSpace(s[0]) {
      StripLeadingDrops(s[1..]);
      var r := StripLeading(s);
      assert s[..|s| - |r|] == [s[0]] + s[1..][..|s| - 1 - |r|];
    }
  }

  /** `rstrip()` drops a suffix made only of white space and stops at the last other character. */
  lemma {:induction false} StripTrailingDrops(s: string)
    ensures var r := StripTrailing(s);
      && |r| <= |s| && r == s[..|r|]
      && AllSpace(s[|r|..])
      && (r == [] || !IsSpace(r[|r| - 1]))
  {
    if s != [] && IsSpace(s[|s| - 1]) {
      StripTrailingDrops(s[..|s| - 1]);
      var r := StripTrailing(s);
      assert s[|r|..] == s[..|s| - 1][|r|..] + [s[|s| - 1]];
    }
  }

  /** The result of `strip()` has no white space at either end and is no longer than its input. */
  lemma StripTrimmed(s: string)
    ensures Trimmed(Strip(s))
    ensures |Strip(s)| <= |s|
  {
    var l := StripLeading(s);
    StripLeadingDrops(s);
    StripTrailingDrops(l);
    var r := StripTrailing(l);
    assert r != [] ==> r[0] == l[0];
  }

  lemma {:induction false} StripLeadingPadded(w: string, v: string)
    requires AllSpace(w) && (v == [] || !IsSpace(v[0]))
    ensures StripLeading(w + v) == v
  {
    if w != [] {
      assert (w + v)[1..] == w[1..] + v;
      StripLeadingPadded(w[1..], v);
    }
  }

  lemma {:induction false} StripTrailingPadded(v: string, w: string)
    requires AllSpace(w) && (v == [] || !IsSpace(v[|v| - 1]))
    ensures StripTrailing(v + w) == v
  {
    if w != [] {
      assert (v + w)[..|v + w| - 1] == v + w[..|w| - 1];
      StripTrailingPadded(v, w[..|w| - 1]);
    } else {
      assert v + w == v;
    }
  }

  /** `strip()` removes exactly the white-space padding around a trimmed core; with `Trimmed(Strip(s))`
      this determines `Strip` completely. */
  lemma StripPadded(w1: string, v: string, w2: string)
    requires AllSpace(w1) && AllSpace(w2) && Trimmed(v)
    ensures Strip(w1 + v + w2) == v
  {
    if v == [] {
      assert w1 + v + w2 == w1 + w2;
      assert AllSpace(w1 + w2);
      StripLeadingPadded(w1 + w2, []);
      assert w1 + w2 + [] == w1 + w2;
      StripTrailingPadded([], []);
    } else {
      assert w1 + v + w2 == w1 + (v + w2);
      assert (v + w2)[0] == v[0];
      StripLeadingPadded(w1, v + w2);
      StripTrailingPadded(v, w2);
    }
  }

  function LowerChar(c: char): char {
    if 'A' <= c <= 'Z' then (c as int + 32) as char else c
  }

  /** Python's `s.lower()` on ASCII letters; every other character is kept. */
  function Lower(s: string): (r: string)
    ensures |r| == |s|
    ensures forall i :: 0 <= i < |s| ==> r[i] == LowerChar(s[i])
  {
    if s == [] then [] else [LowerChar(s[0])] + Lower(s[1..])
  }

  /** Python's `s.replace(c, "")`: every occurrence of `c` deleted, the rest kept in order. */
  function RemoveAll(s: string, c: char): (r: string)
    ensures c !in r
    ensures forall x :: x != c ==> multiset(r)[x] == multiset(s)[x]
    ensures c !in s ==> r == s
  {
    if s == [] then []
    else
      assert s == [s[0]] + s[1..];
      if s[0] == c then RemoveAll(s[1..], c) else [s[0]] + RemoveAll(s[1..], c)
  }

  function TotalLength(parts: seq<string>): nat {
    if parts == [] then 0 else |parts[0]| + TotalLength(parts[1..])
  }

  /** Python's `sep.join(parts)`. */
  function Join(sep: string, parts: seq<string>): (r: string)
    ensures parts == [] ==> r == ""
    ensures |parts| == 1 ==> r == parts[0]
    ensures parts != [] ==> |r| == TotalLength(parts) + |sep| * (|parts| - 1)
    ensures parts != [] ==> r[..|parts[0]|] == parts[0]
  {
    if parts == [] then ""
    else if |parts| == 1 then parts[0]
    else parts[0] + sep + Join(sep, parts[1..])
  }

  /** Joining one more part appends the separator and that part, so a join lists its parts in
      order with exactly one separator between neighbours. */
  lemma {:induction false} JoinAppend(sep: string, parts: seq<string>, p: string)
    requires parts != []
    ensures Join(sep, parts + [p]) == Join(sep, parts) + sep + p
  {
    if |parts| == 1 {
      assert parts + [p] == [parts[0], p];
      assert (parts + [p])[1..] == [p];
    } else {
      assert (parts + [p])[1..] == parts[1..] + [p];
      JoinAppend(sep, parts[1..], p);
    }
  }
}
