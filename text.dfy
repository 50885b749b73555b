/** Plain string scanning: literal search and Python's `str.strip()`. */
module Text {
  import opened Optional

  /** The pattern `p` occurs in `s` starting at index `i`. */
  predicate Occurs(s: string, p: string, i: int)
  {
    0 <= i && i + |p| <= |s| && s[i..i + |p|] == p
  }

  /** The first index at or after `from` where `p` occurs. */
  function IndexOf(s: string, p: string, from: nat): (r: Option<nat>)
    ensures r.Some? ==> from <= r.value && Occurs(s, p, r.value)
    ensures forall j :: from <= j && (r.None? || j < r.value) ==> !Occurs(s, p, j)
    decreases |s| - from
  {
    if |s| < from + |p| then None
    else if s[from..from + |p|] == p then Some(from)
    else IndexOf(s, p, from + 1)
  }

  /** The first index at or after `from` holding the character `c`. */
  function IndexOfChar(s: string, c: char, from: nat): (r: Option<nat>)
    ensures r.Some? ==> from <= r.value < |s| && s[r.value] == c
    ensures forall j :: from <= j < |s| && (r.None? || j < r.value) ==> s[j] != c
    decreases |s| - from
  {
    if |s| <= from then None
    else if s[from] == c then Some(from)
    else IndexOfChar(s, c, from + 1)
  }

  /** An occurrence inside a slice is an occurrence in the whole string, shifted. */
  lemma OccursInSlice(s: string, lo: int, hi: int, p: string, i: int)
    requires 0 <= lo <= hi <= |s|
    requires Occurs(s[lo..hi], p, i)
    ensures Occurs(s, p, lo + i)
  {
    forall k | 0 <= k < |p|
      ensures s[lo + i..lo + i + |p|][k] == p[k]
    {
      assert s[lo..hi][i..i + |p|][k] == p[k];
    }
  }

  /** Python's `str.isspace()` for one character (the Unicode whitespace set). */
  predicate IsSpace(c: char)
  {
    var n := c as int;
    (9 <= n <= 13) || (28 <= n <= 32) || n == 0x85 || n == 0xA0 || n == 0x1680
    || (0x2000 <= n <= 0x200A) || n == 0x2028 || n == 0x2029 || n == 0x202F
    || n == 0x205F || n == 0x3000
  }

  predicate AllSpace(s: string, lo: int, hi: int)
    requires 0 <= lo <= hi <= |s|
  {
    forall j :: lo <= j < hi ==> IsSpace(s[j])
  }

  /** `s[lo..hi]` is what remains of `s` once the whitespace at both ends is removed. */
  predicate StrippedAt(s: string, lo: int, hi: int)
  {
    && 0 <= lo <= hi <= |s|
    && AllSpace(s, 0, lo)
    && AllSpace(s, hi, |s|)
    && (lo < hi ==> !IsSpace(s[lo]) && !IsSpace(s[hi - 1]))
  }

  function SkipSpaces(s: string, i: nat): (j: nat)
    requires i <= |s|
    ensures i <= j <= |s| && AllSpace(s, i, j)
    ensures j < |s| ==> !IsSpace(s[j])
    decreases |s| - i
  {
    if i == |s| || !IsSpace(s[i]) then i else SkipSpaces(s, i + 1)
  }

  function TrimSpaces(s: string, lo: nat, hi: nat): (j: nat)
    requires lo <= hi <= |s|
    ensures lo <= j <= hi && AllSpace(s, j, hi)
    ensures lo < j ==> !IsSpace(s[j - 1])
    decreases hi - lo
  {
    if hi == lo || !IsSpace(s[hi - 1]) then hi else TrimSpaces(s, lo, hi - 1)
  }

  /** Python's `str.strip()` with no argument. */
  function Strip(s: string): (r: string)
    ensures exists lo, hi :: StrippedAt(s, lo, hi) && r == s[lo..hi]
    ensures r != [] ==> !IsSpace(r[0]) && !IsSpace(r[|r| - 1])
    ensures forall c :: c in r ==> c in s
  {
    var lo := SkipSpaces(s, 0);
    var hi := TrimSpaces(s, lo, |s|);
    assert StrippedAt(s, lo, hi);
    s[lo..hi]
  }

  /** There is only one way to strip a string: `Strip` is exactly Python's. */
  lemma StrippedAtUnique(s: string, lo: int, hi: int, lo': int, hi': int)
    requires StrippedAt(s, lo, hi) && StrippedAt(s, lo', hi')
    ensures s[lo..hi] == s[lo'..hi']
  {
  }

  /** Stripping twice is stripping once. */
  lemma StripIdempotent(s: string)
    ensures Strip(Strip(s)) == Strip(s)
  {
    var r := Strip(s);
    if r != [] {
      assert StrippedAt(r, 0, |r|);
      StrippedAtUnique(r, 0, |r|, SkipSpaces(r, 0), TrimSpaces(r, SkipSpaces(r, 0), |r|));
    }
  }

  /** Python's `str.endswith('*')`: the key marks a value stored as IEEE 754 bits. */
  predicate EndsWithStar(key: string)
  {
    |key| > 0 && key[|key| - 1] == '*'
  }
}
