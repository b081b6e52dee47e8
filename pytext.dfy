/**
 * Python's argument-less `str.strip()`, which the controller applies to the
 * text of the description box before handing it to a worker.
 */
module PyText {

  /**
   * The characters CPython's `str.isspace()` accepts: the ones `strip()` removes.
   * The ASCII blanks are among them; no letter or digit is.
   */
  predicate IsSpace(c: char)
    ensures c == ' ' || c == '\t' || c == '\n' || c == '\r' ==> IsSpace(c)
    ensures IsSpace(c) ==> !('0' <= c <= '9') && !('a' <= c <= 'z') && !('A' <= c <= 'Z')
  {
    || ('\t' <= c <= '\r')
    || ('\U{1c}' <= c <= '\U{1f}')
    || c == ' '
    || c == '\U{85}'
    || c == '\U{a0}'
    || c == '\U{1680}'
    || ('\U{2000}' <= c <= '\U{200a}')
    || c == '\U{2028}'
    || c == '\U{2029}'
    || c == '\U{202f}'
    || c == '\U{205f}'
    || c == '\U{3000}'
  }

  /** Every character of `s` at an index in [lo, hi) is whitespace. */
  predicate SpaceBetween(s: string, lo: int, hi: int)
    requires 0 <= lo <= hi <= |s|
  {
    forall k :: lo <= k < hi ==> IsSpace(s[k])
  }

  /** Every character of `s` is whitespace. */
  predicate AllSpace(s: string)
  {
    SpaceBetween(s, 0, |s|)
  }

  /** Neither the first nor the last character of `s` is whitespace. */
  predicate Trimmed(s: string)
  {
    s == [] || (!IsSpace(s[0]) && !IsSpace(s[|s| - 1]))
  }

  /** Scans forward from `i` over whitespace: the index of the first non-space at or after `i`, or `|s|`. */
  function SkipLeading(s: string, i: nat): (n: nat)
    requires i <= |s|
    ensures i <= n <= |s|
    ensures SpaceBetween(s, i, n)
    ensures n == |s| || !IsSpace(s[n])
    decreases |s| - i
  {
    if i < |s| && IsSpace(s[i]) then SkipLeading(s, i + 1) else i
  }

  /** Scans backward from `j` over whitespace, not below `lo`: the end of the last non-space, or `lo`. */
  function SkipTrailing(s: string, lo: nat, j: nat): (m: nat)
    requires lo <= j <= |s|
    ensures lo <= m <= j
    ensures SpaceBetween(s, m, j)
    ensures m == lo || !IsSpace(s[m - 1])
  {
    if lo < j && IsSpace(s[j - 1]) then SkipTrailing(s, lo, j - 1) else j
  }

  /**
   * `s.strip()`: the result is trimmed and is the slice of `s` between a
   * leading and a trailing run of whitespace.
   */
  function Strip(s: string): (r: string)
    ensures Trimmed(r)
    ensures |r| <= |s|
    ensures exists i :: 0 <= i <= |s| - |r| && r == s[i..i + |r|]
                        && SpaceBetween(s, 0, i) && SpaceBetween(s, i + |r|, |s|)
  {
    var i := SkipLeading(s, 0);
    var j := SkipTrailing(s, i, |s|);
    assert i == j ==> SpaceBetween(s, i, |s|);
    s[i..j]
  }

  /** SkipLeading stops at the first non-space after a run of whitespace, whatever that run's length. */
  lemma SkipLeadingStops(s: string, i: nat, n: nat)
    requires i <= n <= |s|
    requires SpaceBetween(s, i, n)
    requires n == |s| || !IsSpace(s[n])
    ensures SkipLeading(s, i) == n
  {
  }

  /** SkipTrailing stops just after the last non-space before a run of whitespace. */
  lemma SkipTrailingStops(s: string, lo: nat, m: nat, j: nat)
    requires lo <= m <= j <= |s|
    requires SpaceBetween(s, m, j)
    requires m == lo || !IsSpace(s[m - 1])
    ensures SkipTrailing(s, lo, j) == m
  {
  }

  /**
   * The reference characterisation of `strip()`: whenever `s` splits into
   * whitespace, a trimmed middle and whitespace, the middle is what `strip()`
   * returns. Together with Strip's own contract this pins the result down.
   */
  lemma StripCharacterized(p: string, m: string, q: string)
    requires AllSpace(p) && AllSpace(q) && Trimmed(m)
    ensures Strip(p + m + q) == m
  {
    var s := p + m + q;
    var i, j := |p|, |p| + |m|;
    forall k | 0 <= k < i ensures IsSpace(s[k]) {
      assert s[k] == p[k];
    }
    forall k | j <= k < |s| ensures IsSpace(s[k]) {
      assert s[k] == q[k - j];
    }
    if m == [] {
      SkipLeadingStops(s, 0, |s|);
      SkipTrailingStops(s, |s|, |s|, |s|);
    } else {
      assert s[i] == m[0] && s[j - 1] == m[|m| - 1];
      SkipLeadingStops(s, 0, i);
      SkipTrailingStops(s, i, j, |s|);
    }
    assert s[i..j] == m;
  }

  /** Stripping twice is the same as stripping once. */
  lemma StripIdempotent(s: string)
    ensures Strip(Strip(s)) == Strip(s)
  {
  }

  /** A string is left alone by `strip()` exactly when it is already trimmed. */
  lemma StripFixedPoint(s: string)
    ensures Strip(s) == s <==> Trimmed(s)
  {
  }

  /** `strip()` yields the empty string exactly when the text is all whitespace. */
  lemma StripEmpty(s: string)
    ensures Strip(s) == [] <==> AllSpace(s)
  {
  }
}
