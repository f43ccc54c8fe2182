/**
  The few str operations the repository relies on: strip(), upper(), the
  substring test `in`, partition() and split(), for ASCII text.
*/
module Text {
  import opened Wrappers

  /** str.isspace for ASCII (including the information separators
      \x1c-\x1f, which Python also strips). */
  predicate IsSpace(c: char)
  {
    c == ' ' || '\t' <= c <= '\r' || '\U{1c}' <= c <= '\U{1f}'
  }

  /** str.lstrip() */
  function StripLeft(s: string): (r: string)
    ensures |r| <= |s| && r == s[|s| - |r|..]
    ensures forall k :: 0 <= k < |s| - |r| ==> IsSpace(s[k])
    ensures r != [] ==> !IsSpace(r[0])
  {
    if s != [] && IsSpace(s[0]) then StripLeft(s[1..]) else s
  }

  /** str.rstrip() */
  function StripRight(s: string): (r: string)
    ensures |r| <= |s| && r == s[..|r|]
    ensures forall k :: |r| <= k < |s| ==> IsSpace(s[k])
    ensures r != [] ==> !IsSpace(r[|r| - 1])
  {
    if s != [] && IsSpace(s[|s| - 1]) then StripRight(s[..|s| - 1]) else s
  }

  /** str.strip(): the text between the leading and the trailing white space. */
  function Strip(s: string): string
  {
    StripRight(StripLeft(s))
  }

  function UpperChar(c: char): char
  {
    if 'a' <= c <= 'z' then (c as int - 32) as char else c
  }

  /** str.upper() for ASCII letters. */
  function Upper(s: string): (r: string)
    ensures |r| == |s| && forall k :: 0 <= k < |s| ==> r[k] == UpperChar(s[k])
  {
    seq(|s|, k requires 0 <= k < |s| => UpperChar(s[k]))
  }

  /** Stripping a stripped text changes nothing. */
  lemma StripIdempotent(s: string)
    ensures Strip(Strip(s)) == Strip(s)
  {
    var l := StripLeft(s);
    var r := StripRight(l);
    if r != [] {
      assert r[0] == l[0];
      if |l| > 0 {
        assert !IsSpace(l[0]);
      }
      assert StripLeft(r) == r;
    }
  }

  /** upper() does not touch white space, so it commutes with strip(). */
  lemma {:induction false} UpperKeepsSpace(s: string)
    ensures Strip(Upper(s)) == Upper(Strip(s))
  {
    LeftUpper(s);
    RightUpper(StripLeft(s));
  }

  lemma {:induction false} LeftUpper(s: string)
    ensures StripLeft(Upper(s)) == Upper(StripLeft(s))
    decreases |s|
  {
    if s != [] {
      assert Upper(s)[1..] == Upper(s[1..]);
      LeftUpper(s[1..]);
    }
  }

  lemma {:induction false} RightUpper(s: string)
    ensures StripRight(Upper(s)) == Upper(StripRight(s))
    decreases |s|
  {
    if s != [] {
      assert Upper(s)[..|s| - 1] == Upper(s[..|s| - 1]);
      RightUpper(s[..|s| - 1]);
    }
  }

  lemma UpperIdempotent(s: string)
    ensures Upper(Upper(s)) == Upper(s)
  {
  }

  // ------------------------------------------------------------ substrings

  /** pat occurs in s starting at i. */
  predicate OccursAt(s: string, pat: string, i: nat)
  {
    i + |pat| <= |s| && s[i..i + |pat|] == pat
  }

  /** The first occurrence of pat in s at position from or later. */
  function FindFrom(s: string, pat: string, from: nat): (r: Option<nat>)
    requires from <= |s|
    ensures r.Some? ==> from <= r.value && OccursAt(s, pat, r.value)
    ensures forall j: nat :: from <= j && (r.None? || j < r.value) ==> !OccursAt(s, pat, j)
    decreases |s| - from
  {
    if OccursAt(s, pat, from) then Some(from)
    else if from + |pat| >= |s| then None
    else FindFrom(s, pat, from + 1)
  }

  /** str.find(pat): the first occurrence of pat in s. */
  function Find(s: string, pat: string): (r: Option<nat>)
    ensures r.Some? ==> OccursAt(s, pat, r.value) && forall j: nat :: j < r.value ==> !OccursAt(s, pat, j)
    ensures r.None? ==> forall j: nat :: !OccursAt(s, pat, j)
  {
    FindFrom(s, pat, 0)
  }

  /** pat in s */
  predicate Contains(s: string, pat: string)
  {
    Find(s, pat).Some?
  }

  /** s.partition(pat)[2]: what follows the first occurrence of pat. */
  function After(s: string, pat: string): (r: string)
    requires Contains(s, pat)
    ensures s == s[..Find(s, pat).value] + pat + r
  {
    var i := Find(s, pat).value;
    assert s == s[..i] + s[i..i + |pat|] + s[i + |pat|..];
    s[i + |pat|..]
  }

  /** s.split(pat)[1]: the piece between the first occurrence of pat and the
      next one, or the end. */
  function SecondPiece(s: string, pat: string): (r: string)
    requires Contains(s, pat)
  {
    var rest := After(s, pat);
    match Find(rest, pat)
    case None => rest
    case Some(j) => rest[..j]
  }

  /** A message written as text without pat, then pat, then anything, has
      its first occurrence of pat right after that text when the first
      character of pat does not occur in the text. */
  lemma FirstOccurrence(p: string, pat: string, v: string)
    requires |pat| > 0 && pat[0] !in p
    ensures Find(p + pat + v, pat) == Some(|p|)
    ensures After(p + pat + v, pat) == v
  {
    var s := p + pat + v;
    assert OccursAt(s, pat, |p|) by {
      assert s[|p|..|p| + |pat|] == pat;
    }
    forall j: nat | j < |p| ensures !OccursAt(s, pat, j) {
      assert s[j] == p[j];
    }
    var i := Find(s, pat).value;
    assert i == |p|;
  }
}
