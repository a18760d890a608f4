/** The handful of Python string operations the core relies on:
    `str.strip`, `str.startswith`, the `in` operator on strings,
    `" ".join` and `str.lower`. */
module Text {

  /** Characters that Python's `str.strip()` removes (the ASCII and Latin-1
      whitespace characters). */
  predicate IsSpace(c: char) {
    c == ' ' || c == '\t' || c == '\n' || c == '\r' || c == '\U{000B}' || c == '\U{000C}'
    || ('\U{001C}' <= c <= '\U{001F}') || c == '\U{0085}' || c == '\U{00A0}'
  }

  /** No leading and no trailing whitespace. */
  predicate IsStripped(s: string) {
    |s| == 0 || (!IsSpace(s[0]) && !IsSpace(s[|s| - 1]))
  }

  /** `s.lstrip()` */
  function StripStart(s: string): (r: string)
    ensures |r| <= |s| && r == s[|s| - |r|..]
    ensures |r| == 0 || !IsSpace(r[0])
    ensures forall i :: 0 <= i < |s| - |r| ==> IsSpace(s[i])
  {
    if |s| == 0 || !IsSpace(s[0]) then s else StripStart(s[1..])
  }

  /** `s.rstrip()` */
  function StripEnd(s: string): (r: string)
    ensures |r| <= |s| && r == s[..|r|]
    ensures |r| == 0 || !IsSpace(r[|r| - 1])
    ensures forall i :: |r| <= i < |s| ==> IsSpace(s[i])
  {
    if |s| == 0 || !IsSpace(s[|s| - 1]) then s else StripEnd(s[..|s| - 1])
  }

  /** `s.strip()`: what is left after removing the leading whitespace
      (the first `|s| - |StripStart(s)|` characters) and then the trailing
      whitespace; every character outside the result is whitespace. */
  function Strip(s: string): (r: string)
    ensures IsStripped(r)
    ensures OccursAt(s, r, |s| - |StripStart(s)|)
    ensures forall i :: 0 <= i < |s| - |StripStart(s)| ==> IsSpace(s[i])
    ensures forall i :: |s| - |StripStart(s)| + |r| <= i < |s| ==> IsSpace(s[i])
    ensures Contains(s, r)
  {
    var t := StripStart(s);
    var r := StripEnd(t);
    SliceOfSuffix(s, t, r);
    r
  }

  /** A prefix `r` of a suffix `t` of `s` sits in `s` right where `t`
      starts, and what follows `r` in `t` follows it in `s`. */
  lemma SliceOfSuffix(s: string, t: string, r: string)
    requires |t| <= |s| && t == s[|s| - |t|..]
    requires |r| <= |t| && r == t[..|r|]
    requires forall j :: |r| <= j < |t| ==> IsSpace(t[j])
    ensures OccursAt(s, r, |s| - |t|)
    ensures forall i :: |s| - |t| + |r| <= i < |s| ==> IsSpace(s[i])
  {
    var k := |s| - |t|;
    forall i | k + |r| <= i < |s|
      ensures IsSpace(s[i])
    {
      assert s[i] == t[i - k];
    }
  }

  /** `not s.strip()`: the string is empty or whitespace only. */
  predicate IsBlank(s: string) {
    forall i :: 0 <= i < |s| ==> IsSpace(s[i])
  }

  lemma {:induction false} StripEmptyIffBlank(s: string)
    ensures Strip(s) == "" <==> IsBlank(s)
  {
    var t := StripStart(s);
    if |t| > 0 {
      assert !IsSpace(t[0]) && t[0] == s[|s| - |t|];
      assert |StripEnd(t)| > 0;
    }
  }

  /** `s.startswith(prefix)` */
  predicate StartsWith(s: string, prefix: string) {
    |prefix| <= |s| && s[..|prefix|] == prefix
  }

  /** `sub` occurs in `s` starting at index `k`. */
  predicate OccursAt(s: string, sub: string, k: int) {
    0 <= k <= |s| - |sub| && s[k..k + |sub|] == sub
  }

  /** `sub in s` */
  predicate Contains(s: string, sub: string) {
    exists k | 0 <= k <= |s| - |sub| :: OccursAt(s, sub, k)
  }

  lemma {:induction false} ContainsInLeft(a: string, b: string, sub: string)
    requires Contains(a, sub)
    ensures Contains(a + b, sub)
  {
    var k :| 0 <= k <= |a| - |sub| && OccursAt(a, sub, k);
    assert (a + b)[k..k + |sub|] == a[k..k + |sub|];
    assert OccursAt(a + b, sub, k);
  }

  /** `" ".join(parts)` */
  function JoinSpace(parts: seq<string>): string
  {
    if |parts| == 0 then ""
    else if |parts| == 1 then parts[0]
    else parts[0] + " " + JoinSpace(parts[1..])
  }

  /** Joining non-empty, stripped words with single spaces yields a
      non-empty, stripped string that begins with the first word and
      ends with the last. */
  lemma {:induction false} JoinSpaceStripped(parts: seq<string>)
    requires |parts| > 0
    requires forall i :: 0 <= i < |parts| ==> parts[i] != "" && IsStripped(parts[i])
    ensures var j := JoinSpace(parts);
      && StartsWith(j, parts[0])
      && |j| >= |parts[|parts| - 1]| && j[|j| - |parts[|parts| - 1]|..] == parts[|parts| - 1]
      && j != "" && IsStripped(j)
  {
    if |parts| > 1 {
      JoinSpaceStripped(parts[1..]);
      var rest := JoinSpace(parts[1..]);
      var j := parts[0] + " " + rest;
      assert j[..|parts[0]|] == parts[0];
      var last := parts[|parts| - 1];
      assert last == parts[1..][|parts[1..]| - 1];
      assert j[|j| - |last|..] == rest[|rest| - |last|..];
      assert j[0] == parts[0][0];
      assert j[|j| - 1] == rest[|rest| - 1];
    }
  }

  /** Every part appears inside the joined string. */
  lemma {:induction false} JoinSpaceContains(parts: seq<string>, i: nat)
    requires i < |parts|
    ensures Contains(JoinSpace(parts), parts[i])
  {
    if |parts| == 1 || i == 0 {
      assert JoinSpace(parts)[0..|parts[0]|] == parts[0];
      assert OccursAt(JoinSpace(parts), parts[0], 0);
    } else {
      JoinSpaceContains(parts[1..], i - 1);
      assert parts[1..][i - 1] == parts[i];
      var rest := JoinSpace(parts[1..]);
      var k :| 0 <= k <= |rest| - |parts[i]| && OccursAt(rest, parts[i], k);
      var off := |parts[0]| + 1;
      assert JoinSpace(parts) == (parts[0] + " ") + rest;
      assert JoinSpace(parts)[off + k..off + k + |parts[i]|] == rest[k..k + |parts[i]|];
      assert OccursAt(JoinSpace(parts), parts[i], off + k);
    }
  }

  /** `s.lower()` restricted to ASCII letters. */
  function Lower(s: string): (r: string)
    ensures |r| == |s|
    ensures forall i :: 0 <= i < |s| ==>
      r[i] == if 'A' <= s[i] <= 'Z' then (s[i] - 'A' + 'a') as char else s[i]
  {
    if |s| == 0 then ""
    else [if 'A' <= s[0] <= 'Z' then (s[0] - 'A' + 'a') as char else s[0]] + Lower(s[1..])
  }
}
