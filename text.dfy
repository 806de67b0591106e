/**
 * String helpers the classifier leans on: lower-casing, upper-case tests,
 * whitespace stripping, substring containment, Python-style slicing and
 * joining. Characters are modelled on ASCII: Python's Unicode-aware
 * `lower()`, `isupper()`, `isspace()` and `\w` agree with these on ASCII text.
 */
module Text {

  predicate IsUpper(c: char) { 'A' <= c <= 'Z' }

  function LowerChar(c: char): (r: char)
    ensures !IsUpper(r)
    ensures !IsUpper(c) ==> r == c
  {
    if IsUpper(c) then (c as int + 32) as char else c
  }

  /** `s.lower()` */
  function Lower(s: string): (r: string)
    ensures |r| == |s|
    ensures forall i :: 0 <= i < |s| ==> r[i] == LowerChar(s[i])
  {
    seq(|s|, i requires 0 <= i < |s| => LowerChar(s[i]))
  }

  /** Lower-casing twice is lower-casing once. */
  lemma LowerIdempotent(s: string)
    ensures Lower(Lower(s)) == Lower(s)
  {
    assert forall i :: 0 <= i < |s| ==> Lower(Lower(s))[i] == Lower(s)[i];
  }

  /** A text without upper-case letters is its own lower case. */
  lemma NoUpperLowersToItself(s: string)
    requires forall i :: 0 <= i < |s| ==> !IsUpper(s[i])
    ensures Lower(s) == s
  {
    assert forall i :: 0 <= i < |s| ==> Lower(s)[i] == s[i];
  }

  /** Every piece of a lower-cased text is free of upper-case letters. */
  lemma PieceOfLowerHasNoUpper(s: string, r: string, i: int)
    requires OccursAt(Lower(s), r, i)
    ensures forall j :: 0 <= j < |r| ==> !IsUpper(r[j])
  {
    forall j | 0 <= j < |r|
      ensures !IsUpper(r[j])
    {
      assert r[j] == Lower(s)[i + j];
    }
  }

  /** Characters for which Python's `str.isspace()` holds, restricted to ASCII. */
  predicate IsSpace(c: char) {
    c == ' ' || c == '\t' || c == '\n' || c == '\r' || c == '\U{000B}' || c == '\U{000C}'
    || ('\U{001C}' <= c <= '\U{001F}')
  }

  /** Letters, digits and underscore: the ASCII part of the regex class `\w`. */
  predicate IsWordChar(c: char) {
    ('a' <= c <= 'z') || ('A' <= c <= 'Z') || ('0' <= c <= '9') || c == '_'
  }

  function StripLeft(s: string): (r: string)
    ensures |r| <= |s| && r == s[|s| - |r|..]
    ensures r == [] || !IsSpace(r[0])
    ensures forall i :: 0 <= i < |s| - |r| ==> IsSpace(s[i])
  {
    if s == [] || !IsSpace(s[0]) then s else StripLeft(s[1..])
  }

  function StripRight(s: string): (r: string)
    ensures |r| <= |s| && r == s[..|r|]
    ensures r == [] || !IsSpace(r[|r| - 1])
    ensures forall i :: |r| <= i < |s| ==> IsSpace(s[i])
  {
    if s == [] || !IsSpace(s[|s| - 1]) then s else StripRight(s[..|s| - 1])
  }

  /** `w` occurs in `t` starting at index `i`. */
  predicate OccursAt(t: string, w: string, i: int) {
    0 <= i && i + |w| <= |t| && t[i..i + |w|] == w
  }

  /** Every character of `s` from `lo` up to `hi` is whitespace. */
  predicate SpaceBetween(s: string, lo: int, hi: int)
    requires 0 <= lo && hi <= |s|
  {
    forall i :: lo <= i < hi ==> IsSpace(s[i])
  }

  /** `s.strip()`: the piece of `s` left once the whitespace at both ends is removed;
      everything before and after that piece is whitespace. */
  function Strip(s: string): (r: string)
    ensures r == [] || (!IsSpace(r[0]) && !IsSpace(r[|r| - 1]))
    ensures exists k :: OccursAt(s, r, k) && SpaceBetween(s, 0, k) && SpaceBetween(s, k + |r|, |s|)
  {
    var l := StripLeft(s);
    var r := StripRight(l);
    assert SpaceBetween(s, 0, |s| - |l|) && SpaceBetween(l, |r|, |l|);
    StripPiece(s, l, r);
    r
  }

  /** The two halves of `Strip`: `l` is `s` less a whitespace prefix and `r` is `l`
      less a whitespace suffix, so `r` sits at |s| - |l| with nothing but whitespace
      around it. */
  lemma StripPiece(s: string, l: string, r: string)
    requires |l| <= |s| && l == s[|s| - |l|..] && SpaceBetween(s, 0, |s| - |l|)
    requires |r| <= |l| && r == l[..|r|] && SpaceBetween(l, |r|, |l|)
    ensures OccursAt(s, r, |s| - |l|) && SpaceBetween(s, 0, |s| - |l|) && SpaceBetween(s, |s| - |l| + |r|, |s|)
  {
    var k := |s| - |l|;
    forall j | 0 <= j < |r|
      ensures s[k + j] == r[j]
    {
      assert r[j] == l[j] == s[k + j];
    }
    assert s[k..k + |r|] == r;
    forall i | k + |r| <= i < |s|
      ensures IsSpace(s[i])
    {
      assert s[i] == l[i - k];
    }
  }

  /** Stripped text has no whitespace at either end and is the whole of `s` but for
      the whitespace around it: stripping leaves a stripped text alone. */
  lemma StrippedIsFixed(s: string)
    requires s == [] || (!IsSpace(s[0]) && !IsSpace(s[|s| - 1]))
    ensures Strip(s) == s
  {
    var r := Strip(s);
    var k :| OccursAt(s, r, k) && SpaceBetween(s, 0, k) && SpaceBetween(s, k + |r|, |s|);
    if s != [] {
      assert k == 0;
      assert k + |r| == |s|;
    }
  }

  /** Stripping yields the empty string exactly when every character is whitespace. */
  lemma StripEmptyIffAllSpace(s: string)
    ensures Strip(s) == [] <==> forall i :: 0 <= i < |s| ==> IsSpace(s[i])
  {
    if Strip(s) != [] {
      var i :| OccursAt(s, Strip(s), i);
      assert s[i] == Strip(s)[0];
    }
  }

  /** Stripping twice is stripping once. */
  lemma StripIdempotent(s: string)
    ensures Strip(Strip(s)) == Strip(s)
  {
    var r := Strip(s);
    if r != [] {
      assert StripLeft(r) == r;
      assert StripRight(r) == r;
    }
  }

  /** Python's `w in t` for strings: `w` occurs as a contiguous substring of `t`. */
  predicate Contains(t: string, w: string)
    decreases |t|
  {
    |w| <= |t| && (t[..|w|] == w || Contains(t[1..], w))
  }

  /** An occurrence is found by the containment test. */
  lemma {:induction false} OccurrenceIsContained(t: string, w: string, i: int)
    requires OccursAt(t, w, i)
    ensures Contains(t, w)
    decreases i
  {
    if i > 0 {
      assert t[1..][i - 1..i - 1 + |w|] == t[i..i + |w|];
      OccurrenceIsContained(t[1..], w, i - 1);
    }
  }

  /** The containment test finds an occurrence. */
  lemma {:induction false} ContainedOccurs(t: string, w: string) returns (i: int)
    requires Contains(t, w)
    ensures OccursAt(t, w, i)
    decreases |t|
  {
    if t[..|w|] == w {
      i := 0;
    } else {
      var j := ContainedOccurs(t[1..], w);
      i := j + 1;
      assert t[i..i + |w|] == t[1..][j..j + |w|];
    }
  }

  /** Containment is the existence of an occurrence. */
  lemma ContainsIffOccurs(t: string, w: string)
    ensures Contains(t, w) <==> exists i :: OccursAt(t, w, i)
  {
    if Contains(t, w) {
      var i := ContainedOccurs(t, w);
    }
    if exists i :: OccursAt(t, w, i) {
      var i :| OccursAt(t, w, i);
      OccurrenceIsContained(t, w, i);
    }
  }

  /** A word with an upper-case letter never occurs in lower-cased text. */
  lemma UpperNeverInLower(s: string, w: string, k: nat)
    requires k < |w| && IsUpper(w[k])
    ensures !Contains(Lower(s), w)
  {
    var t := Lower(s);
    forall i | 0 <= i && i + |w| <= |t| ensures !OccursAt(t, w, i) {
      assert t[i..i + |w|][k] == t[i + k];
    }
    ContainsIffOccurs(t, w);
  }

  /** `any(word in t for word in words)` */
  predicate AnyContained(t: string, words: seq<string>) {
    exists i :: 0 <= i < |words| && Contains(t, words[i])
  }

  /** Python's `s[:n]`: a negative `n` counts from the end of `s`. */
  function PyPrefix(s: string, n: int): (r: string)
    ensures |r| <= |s| && r == s[..|r|]
    ensures n >= 0 ==> |r| == if n <= |s| then n else |s|
    ensures n < 0 ==> |r| == if |s| + n >= 0 then |s| + n else 0
  {
    if n >= 0 then (if n <= |s| then s[..n] else s)
    else if |s| + n >= 0 then s[..|s| + n] else []
  }

  /** Number of occurrences of character `c`: Python's `s.count(c)`. */
  function CountChar(s: string, c: char): (n: nat)
    ensures n <= |s|
    ensures n == 0 <==> forall i :: 0 <= i < |s| ==> s[i] != c
  {
    if s == [] then 0 else (if s[0] == c then 1 else 0) + CountChar(s[1..], c)
  }

  /** `sum(1 for c in s if c.isupper())` */
  function CountUpper(s: string): (n: nat)
    ensures n <= |s|
  {
    if s == [] then 0 else (if IsUpper(s[0]) then 1 else 0) + CountUpper(s[1..])
  }

  /** `sep.join(parts)` */
  function Join(parts: seq<string>, sep: string): string {
    if parts == [] then []
    else if |parts| == 1 then parts[0]
    else parts[0] + sep + Join(parts[1..], sep)
  }
}
