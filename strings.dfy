/** The Python string operations the handlers rely on: prefix and suffix
    tests, `split(sep)[0]`, `strip()`, `lower()` and `join`. */
module Strings {

  predicate StartsWith(s: string, prefix: string) {
    |prefix| <= |s| && s[..|prefix|] == prefix
  }

  predicate EndsWith(s: string, suffix: string) {
    |suffix| <= |s| && s[|s| - |suffix|..] == suffix
  }

  /** `sep` occurs in `s` at position `i`. */
  predicate OccursAt(s: string, sep: string, i: nat)
    requires i <= |s|
  {
    StartsWith(s[i..], sep)
  }

  /** `sub` occurs somewhere in `s` (Python's `sub in s`). */
  predicate Contains(s: string, sub: string) {
    exists i :: 0 <= i <= |s| && OccursAt(s, sub, i)
  }

  /** Python's `s.split(sep)[0]`: what precedes the first occurrence of
      `sep`, or all of `s` when `sep` does not occur in it. */
  function BeforeFirst(s: string, sep: string): (r: string)
    requires sep != ""
    ensures StartsWith(s, r)
    ensures forall i :: 0 <= i < |r| ==> !OccursAt(s, sep, i)
    ensures r == s || OccursAt(s, sep, |r|)
    decreases |s|
  {
    if |s| < |sep| then s
    else if s[..|sep|] == sep then ""
    else
      var r' := BeforeFirst(s[1..], sep);
      assert forall i :: 0 <= i < |s| ==> s[1..][i..] == s[i + 1..];
      assert s[..|sep|] != sep;
      assert r' == s[1..] ==> [s[0]] + r' == s;
      var r := [s[0]] + r';
      assert s[..|r|] == [s[0]] + s[1..][..|r'|];
      assert StartsWith(s, r);
      assert forall i :: 1 <= i < |r| ==> OccursAt(s, sep, i) == OccursAt(s[1..], sep, i - 1);
      assert !OccursAt(s, sep, 0);
      assert forall i :: 0 <= i < |r| ==> !OccursAt(s, sep, i);
      assert r == s || OccursAt(s, sep, |r|);
      r
  }

  /** The first occurrence determines the split: any position where `sep`
      occurs with no earlier occurrence is where `BeforeFirst` stops. */
  lemma BeforeFirstIsFirstOccurrence(s: string, sep: string, k: nat)
    requires sep != "" && k <= |s|
    requires OccursAt(s, sep, k)
    requires forall i :: 0 <= i < k ==> !OccursAt(s, sep, i)
    ensures BeforeFirst(s, sep) == s[..k]
  {
  }

  /** The characters for which Python's `str.isspace()` holds. */
  const SpaceChars: set<char> := {
    ' ', '\t', '\n', '\U{0b}', '\U{0c}', '\r',
    '\U{1c}', '\U{1d}', '\U{1e}', '\U{1f}',
    '\U{85}', '\U{a0}', '\U{1680}',
    '\U{2000}', '\U{2001}', '\U{2002}', '\U{2003}', '\U{2004}', '\U{2005}',
    '\U{2006}', '\U{2007}', '\U{2008}', '\U{2009}', '\U{200a}',
    '\U{2028}', '\U{2029}', '\U{202f}', '\U{205f}', '\U{3000}'
  }

  /** Python's `str.isspace()` for one character. */
  predicate IsSpace(c: char) {
    c in SpaceChars
  }

  /** Drops the leading white space. */
  function TrimStart(s: string): (r: string)
    ensures EndsWith(s, r)
    ensures forall i :: 0 <= i < |s| - |r| ==> IsSpace(s[i])
    ensures r != [] ==> !IsSpace(r[0])
  {
    if s != [] && IsSpace(s[0]) then
      var r := TrimStart(s[1..]);
      assert s[1..][|s| - 1 - |r|..] == s[|s| - |r|..];
      r
    else s
  }

  /** Drops the trailing white space. */
  function TrimEnd(s: string): (r: string)
    ensures StartsWith(s, r)
    ensures forall i :: |r| <= i < |s| ==> IsSpace(s[i])
    ensures r != [] ==> !IsSpace(r[|r| - 1])
  {
    if s != [] && IsSpace(s[|s| - 1]) then TrimEnd(s[..|s| - 1]) else s
  }

  /** `r` is the slice of `s` starting at `k` with only white space
      around it. */
  predicate TrimmedAt(s: string, r: string, k: nat) {
    k + |r| <= |s| && r == s[k..k + |r|]
    && (forall i :: 0 <= i < k ==> IsSpace(s[i]))
    && (forall i :: k + |r| <= i < |s| ==> IsSpace(s[i]))
  }

  /** Python's `str.strip()` with no argument. */
  function Strip(s: string): (r: string)
    ensures exists k: nat :: TrimmedAt(s, r, k)
    ensures r == "" <==> forall i :: 0 <= i < |s| ==> IsSpace(s[i])
    ensures r != "" ==> !IsSpace(r[0]) && !IsSpace(r[|r| - 1])
  {
    TrimBoth(s);
    TrimEnd(TrimStart(s))
  }

  /** Trimming both ends leaves the slice of `s` that starts where the
      leading white space ends. */
  lemma TrimBoth(s: string)
    ensures TrimmedAt(s, TrimEnd(TrimStart(s)), |s| - |TrimStart(s)|)
  {
    var t := TrimStart(s);
    var k := |s| - |t|;
    assert t == s[k..];
    var r := TrimEnd(t);
    assert r == t[..|r|];
    SliceOfSuffix(s, k, |r|);
    forall i | k + |r| <= i < |s|
      ensures IsSpace(s[i])
    {
      assert s[i] == t[i - k];
    }
  }

  /** A prefix of a suffix is a slice. */
  lemma SliceOfSuffix(s: string, k: nat, n: nat)
    requires k + n <= |s|
    ensures s[k..][..n] == s[k..k + n]
  {
  }

  /** Stripping twice is stripping once. */
  lemma StripIdempotent(s: string)
    ensures Strip(Strip(s)) == Strip(s)
  {
    var r := Strip(s);
    if r != "" {
      assert TrimStart(r) == r;
      assert TrimEnd(r) == r;
    }
  }

  /** Python's `str.lower()` on one character, for the ASCII letters. */
  function LowerChar(c: char): char {
    if 'A' <= c <= 'Z' then (c as int + 32) as char else c
  }

  function Lower(s: string): string {
    seq(|s|, i requires 0 <= i < |s| => LowerChar(s[i]))
  }

  /** Python's `sep.join(parts)`. */
  function Join(parts: seq<string>, sep: string): string {
    if parts == [] then ""
    else if |parts| == 1 then parts[0]
    else parts[0] + sep + Join(parts[1..], sep)
  }

  /** Python's `"".join(parts)`. */
  function Concat(parts: seq<string>): string {
    if parts == [] then "" else parts[0] + Concat(parts[1..])
  }

  /** Joining with an empty separator concatenates piece by piece, so the
      result of a longer list extends the result of any prefix of it. */
  lemma {:induction false} ConcatAppend(a: seq<string>, b: seq<string>)
    ensures Concat(a + b) == Concat(a) + Concat(b)
  {
    if a != [] {
      assert (a + b)[1..] == a[1..] + b;
      ConcatAppend(a[1..], b);
    } else {
      assert a + b == b;
    }
  }
}
