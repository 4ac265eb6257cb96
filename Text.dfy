/** The small optional-value wrapper used for the operations that raise in
    the original program. */
module Wrappers {
  datatype Option<+T> = None | Some(value: T)
}

/** The Python string operations the analyser uses, over `seq<char>`:
    `str.upper`, `str.lower`, `str.replace`, `str.split(sep)[0]`,
    `sep in s`, `str.endswith`, `str.strip`, `sep.join`, `str.split` and
    left-justified padding. */
module Text {
  import opened Wrappers

  /** `str.upper()` on one character: ASCII letters and U+00F8 ('ø' becomes 'Ø'). */
  function UpperChar(c: char): char
  {
    if 'a' <= c <= 'z' then (c as int - 32) as char
    else if c == 'ø' then 'Ø'
    else c
  }

  /** `str.lower()` on one character, ASCII letters only. */
  function LowerChar(c: char): char
  {
    if 'A' <= c <= 'Z' then (c as int + 32) as char else c
  }

  function Upper(s: string): string
  {
    seq(|s|, i requires 0 <= i < |s| => UpperChar(s[i]))
  }

  function Lower(s: string): string
  {
    seq(|s|, i requires 0 <= i < |s| => LowerChar(s[i]))
  }

  /** `s.replace(a, b)` for one-character `a` and `b`. */
  function ReplaceChar(s: string, a: char, b: char): string
  {
    seq(|s|, i requires 0 <= i < |s| => if s[i] == a then b else s[i])
  }

  /** `s.startswith(pat)`, character by character. */
  predicate StartsWith(s: string, pat: string)
    decreases |pat|
  {
    |pat| == 0 || (|s| > 0 && s[0] == pat[0] && StartsWith(s[1..], pat[1..]))
  }

  lemma {:induction false} StartsWithIsPrefix(s: string, pat: string)
    ensures StartsWith(s, pat) <==> pat <= s
    decreases |pat|
  {
    if |pat| > 0 && |s| > 0 {
      StartsWithIsPrefix(s[1..], pat[1..]);
      assert pat <= s <==> s[0] == pat[0] && pat[1..] <= s[1..];
    }
  }

  /** `pat` occurs in `s` starting at position `i`. */
  predicate IsAt(s: string, pat: string, i: nat)
    requires i <= |s|
  {
    i + |pat| <= |s| && StartsWith(s[i..], pat)
  }

  /** The first occurrence of `pat` in `s` at or after `from` (`str.find`). */
  function FindFrom(s: string, pat: string, from: nat): (r: Option<nat>)
    requires from <= |s|
    ensures r.Some? ==> from <= r.value <= |s| && IsAt(s, pat, r.value)
    ensures r.Some? ==> forall j :: from <= j < r.value ==> !IsAt(s, pat, j)
    ensures r.None? ==> forall j :: from <= j <= |s| ==> !IsAt(s, pat, j)
    decreases |s| - from
  {
    if IsAt(s, pat, from) then Some(from)
    else if from == |s| then None
    else FindFrom(s, pat, from + 1)
  }

  function Find(s: string, pat: string): Option<nat>
  {
    FindFrom(s, pat, 0)
  }

  /** `pat in s`. */
  predicate Contains(s: string, pat: string)
  {
    Find(s, pat).Some?
  }

  /** `s.split(sep)[0]`: everything before the first occurrence of `sep`. */
  function BeforeFirst(s: string, sep: string): string
  {
    match Find(s, sep)
    case None => s
    case Some(i) => s[..i]
  }

  /** `s.endswith(suffix)`. */
  predicate EndsWith(s: string, suffix: string)
  {
    |suffix| <= |s| && s[|s| - |suffix|..] == suffix
  }

  /** `s.replace(pat, "")`: occurrences removed left to right, without overlap. */
  function RemoveAll(s: string, pat: string): string
    requires |pat| > 0
    decreases |s|
  {
    if |s| == 0 then []
    else if |pat| <= |s| && StartsWith(s, pat) then RemoveAll(s[|pat|..], pat)
    else [s[0]] + RemoveAll(s[1..], pat)
  }

  /** The characters `str.strip()` removes: Python's whitespace code points. */
  predicate IsSpace(c: char)
  {
    c == ' ' || c == '\t' || c == '\n' || c == '\r' || c == '\U{B}' || c == '\U{C}'
    || ('\U{1C}' <= c <= '\U{1F}') || c == '\U{85}' || c == '\U{A0}' || c == '\U{1680}'
    || ('\U{2000}' <= c <= '\U{200A}') || c == '\U{2028}' || c == '\U{2029}'
    || c == '\U{202F}' || c == '\U{205F}' || c == '\U{3000}'
  }

  function TrimStart(s: string): string
    decreases |s|
  {
    if |s| > 0 && IsSpace(s[0]) then TrimStart(s[1..]) else s
  }

  function TrimEnd(s: string): string
    decreases |s|
  {
    if |s| > 0 && IsSpace(s[|s| - 1]) then TrimEnd(s[..|s| - 1]) else s
  }

  /** `str.strip()`. */
  function Strip(s: string): string
  {
    TrimEnd(TrimStart(s))
  }

  function Spaces(n: nat): string
  {
    seq(n, _ => ' ')
  }

  /** `f"{s:<width}"`: `s` left-justified in a field of at least `width`. */
  function PadRight(s: string, width: nat): string
  {
    if |s| >= width then s else s + Spaces(width - |s|)
  }

  /** `sep.join(xs)`. */
  function Join(xs: seq<string>, sep: string): string
    decreases |xs|
  {
    if |xs| == 0 then ""
    else if |xs| == 1 then xs[0]
    else xs[0] + sep + Join(xs[1..], sep)
  }

  /** `s.split(sep)` for a non-empty separator. */
  function Split(s: string, sep: string): (r: seq<string>)
    requires |sep| > 0
    ensures |r| >= 1
    decreases |s|
  {
    match Find(s, sep)
    case None => [s]
    case Some(i) => [s[..i]] + Split(s[i + |sep|..], sep)
  }

  // ---------------------------------------------------------------------
  // Facts about the primitives

  /** A pattern whose first character never occurs in `s` does not occur in it. */
  lemma NotFound(s: string, pat: string)
    requires |pat| > 0 && forall k :: 0 <= k < |s| ==> s[k] != pat[0]
    ensures Find(s, pat) == None
  {
    forall j | 0 <= j <= |s| ensures !IsAt(s, pat, j) {
      if j < |s| { assert s[j..][0] == s[j]; }
    }
  }

  /** A prefix free of the pattern's first character shifts every occurrence. */
  lemma {:induction false} FindAfterPrefix(a: string, b: string, pat: string)
    requires |pat| > 0 && forall k :: 0 <= k < |a| ==> a[k] != pat[0]
    ensures Find(a + b, pat) == (match Find(b, pat) case None => None case Some(i) => Some(|a| + i))
  {
    var s := a + b;
    forall j | 0 <= j < |a| ensures !IsAt(s, pat, j) {
      assert s[j..][0] == a[j];
    }
    forall j | 0 <= j <= |b| ensures IsAt(s, pat, |a| + j) == IsAt(b, pat, j) {
      assert s[|a| + j..] == b[j..];
    }
    match Find(b, pat)
    case None =>
      forall j | 0 <= j <= |s| ensures !IsAt(s, pat, j) {
        if j >= |a| { assert IsAt(s, pat, |a| + (j - |a|)) == IsAt(b, pat, j - |a|); }
      }
    case Some(i) =>
      assert IsAt(s, pat, |a| + i);
      forall j | 0 <= j < |a| + i ensures !IsAt(s, pat, j) {
        if j >= |a| { assert IsAt(s, pat, |a| + (j - |a|)) == IsAt(b, pat, j - |a|); }
      }
  }

  lemma BeforeFirstAfterPrefix(a: string, b: string, sep: string)
    requires |sep| > 0 && forall k :: 0 <= k < |a| ==> a[k] != sep[0]
    ensures BeforeFirst(a + b, sep) == a + BeforeFirst(b, sep)
  {
    FindAfterPrefix(a, b, sep);
    match Find(b, sep)
    case None =>
    case Some(i) => assert (a + b)[..|a| + i] == a + b[..i];
  }

  /** `str.upper()` leaves no lower-case ASCII letter and no 'ø'. */
  lemma UpperHasNo(s: string, c: char)
    requires 'a' <= c <= 'z' || c == 'ø'
    ensures forall k :: 0 <= k < |Upper(s)| ==> Upper(s)[k] != c
  {
  }

  /** Upper-casing distributes over concatenation. */
  lemma UpperAppend(a: string, b: string)
    ensures Upper(a + b) == Upper(a) + Upper(b)
  {
  }

  /** Python's `"x".join(...).split("x")` round trip: it holds whenever no
      element contains the separator's first character. */
  lemma {:induction false} SplitJoin(xs: seq<string>, sep: string)
    requires |sep| > 0 && |xs| >= 1
    requires forall x, k :: x in xs && 0 <= k < |x| ==> x[k] != sep[0]
    ensures Split(Join(xs, sep), sep) == xs
    decreases |xs|
  {
    if |xs| == 1 {
      NotFound(xs[0], sep);
    } else {
      SplitFirstOfJoin(xs, sep);
      SplitJoin(xs[1..], sep);
      assert xs == [xs[0]] + xs[1..];
    }
  }

  /** Splitting a join of two or more names cuts off the first name at the
      first separator. */
  lemma SplitFirstOfJoin(xs: seq<string>, sep: string)
    requires |sep| > 0 && |xs| >= 2
    requires forall k :: 0 <= k < |xs[0]| ==> xs[0][k] != sep[0]
    ensures Split(Join(xs, sep), sep) == [xs[0]] + Split(Join(xs[1..], sep), sep)
  {
    var rest := sep + Join(xs[1..], sep);
    var joined := Join(xs, sep);
    assert joined == xs[0] + rest;
    assert Find(joined, sep) == Some(|xs[0]|) by {
      FindAfterPrefix(xs[0], rest, sep);
      StartsWithIsPrefix(rest, sep);
      assert IsAt(rest, sep, 0);
    }
    assert joined[..|xs[0]|] == xs[0];
    assert joined[|xs[0]| + |sep|..] == Join(xs[1..], sep);
  }

  /** Removing a pattern leaves a prefix that cannot start it untouched. */
  lemma {:induction false} RemoveAllAfterPrefix(a: string, b: string, pat: string)
    requires |pat| > 0 && forall k :: 0 <= k < |a| ==> a[k] != pat[0]
    ensures RemoveAll(a + b, pat) == a + RemoveAll(b, pat)
    decreases |a|
  {
    if |a| > 0 {
      assert (a + b)[0] == a[0];
      assert !(pat <= a + b);
      assert (a + b)[1..] == a[1..] + b;
      RemoveAllAfterPrefix(a[1..], b, pat);
      assert RemoveAll(a + b, pat) == [a[0]] + RemoveAll(a[1..] + b, pat);
      assert a == [a[0]] + a[1..];
    } else {
      assert a + b == b;
    }
  }

  /** A field produced by PadRight keeps the text and is at least `width` wide. */
  lemma PadRightShape(s: string, width: nat)
    ensures |PadRight(s, width)| == if |s| >= width then |s| else width
    ensures s <= PadRight(s, width)
    ensures forall k :: |s| <= k < |PadRight(s, width)| ==> PadRight(s, width)[k] == ' '
  {
  }
}
