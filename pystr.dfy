/**
 * The two Python string operations the selector normalisation relies on:
 * `str.strip()` with no argument and `str.upper()`.
 */
module PyStr {

  /** Python's `str.isspace()` on one code point: ASCII tab to carriage
      return, the four information separators, space, and the Unicode
      separators Python counts as whitespace. On ASCII it is exactly the
      ten characters listed in the postcondition. */
  predicate IsSpace(c: char)
    ensures c < '\U{80}' ==> (IsSpace(c) <==> c in "\t\n\U{B}\U{C}\r\U{1C}\U{1D}\U{1E}\U{1F} ")
  {
    '\t' <= c <= '\r' || '\U{1C}' <= c <= ' ' || c == '\U{85}' || c == '\U{A0}'
    || c == '\U{1680}' || '\U{2000}' <= c <= '\U{200A}' || c == '\U{2028}' || c == '\U{2029}'
    || c == '\U{202F}' || c == '\U{205F}' || c == '\U{3000}'
  }

  predicate AllSpace(s: string)
  {
    forall k :: 0 <= k < |s| ==> IsSpace(s[k])
  }

  /** A string `str.strip()` leaves as it is: empty, or non-space at both ends. */
  predicate Unpadded(t: string)
  {
    t == [] || (!IsSpace(t[0]) && !IsSpace(t[|t| - 1]))
  }

  /** The left scan of `strip()`: from index `i`, the first index that is
      not whitespace, or `|s|`. */
  function LeadingEnd(s: string, i: nat): (n: nat)
    requires i <= |s|
    ensures i <= n <= |s|
    ensures forall k :: i <= k < n ==> IsSpace(s[k])
    ensures n == |s| || !IsSpace(s[n])
    decreases |s| - i
  {
    if i < |s| && IsSpace(s[i]) then LeadingEnd(s, i + 1) else i
  }

  /** The right scan of `strip()`: from index `j` down to the bound `lo`,
      the index where the trailing run of whitespace starts. */
  function TrailingStart(s: string, lo: nat, j: nat): (m: nat)
    requires lo <= j <= |s|
    ensures lo <= m <= j
    ensures forall k :: m <= k < j ==> IsSpace(s[k])
    ensures m == lo || !IsSpace(s[m - 1])
    decreases j
  {
    if lo < j && IsSpace(s[j - 1]) then TrailingStart(s, lo, j - 1) else j
  }

  /** Python's `s.strip()`: the string without its surrounding whitespace. */
  function Strip(s: string): (r: string)
    ensures Unpadded(r)
    ensures |r| <= |s|
  {
    var i := LeadingEnd(s, 0);
    s[i..TrailingStart(s, i, |s|)]
  }

  /** The whitespace `Strip` removes in front ... */
  function LeadingSpace(s: string): string
  {
    s[..LeadingEnd(s, 0)]
  }

  /** ... and behind. */
  function TrailingSpace(s: string): string
  {
    s[TrailingStart(s, LeadingEnd(s, 0), |s|)..]
  }

  /** What `Strip` removes is whitespace on both sides and nothing else. */
  lemma StripSplits(s: string)
    ensures AllSpace(LeadingSpace(s)) && AllSpace(TrailingSpace(s))
    ensures s == LeadingSpace(s) + Strip(s) + TrailingSpace(s)
  {
    var i := LeadingEnd(s, 0);
    var j := TrailingStart(s, i, |s|);
    SliceAllSpace(s, 0, i);
    SliceAllSpace(s, j, |s|);
    assert s[0..i] == s[..i] && s[j..|s|] == s[j..];
    assert s == s[..i] + s[i..j] + s[j..];
  }

  lemma SliceAllSpace(s: string, lo: nat, hi: nat)
    requires lo <= hi <= |s|
    requires forall k :: lo <= k < hi ==> IsSpace(s[k])
    ensures AllSpace(s[lo..hi])
  {
    forall k | 0 <= k < hi - lo ensures IsSpace(s[lo..hi][k]) { assert s[lo..hi][k] == s[lo + k]; }
  }

  /** Upper-cases one character: ASCII letters only. */
  function UpperChar(c: char): char
  {
    if 'a' <= c <= 'z' then (c as int - 32) as char else c
  }

  /** Python's `s.upper()` restricted to ASCII letters; every other character
      is kept. */
  function Upper(s: string): (r: string)
    ensures |r| == |s|
    ensures forall k :: 0 <= k < |s| ==> r[k] == UpperChar(s[k])
  {
    if s == [] then [] else [UpperChar(s[0])] + Upper(s[1..])
  }

  /** Surrounding whitespace does not reach `strip()`'s result: any unpadded
      core between two runs of whitespace is exactly what `Strip` returns. */
  lemma StripPadded(p: string, t: string, q: string)
    requires AllSpace(p) && AllSpace(q) && Unpadded(t)
    ensures Strip(p + t + q) == t
  {
    var s := p + t + q;
    var a, b := |p|, |p| + |t|;
    assert forall k :: 0 <= k < a ==> IsSpace(s[k]) by {
      forall k | 0 <= k < a ensures IsSpace(s[k]) { assert s[k] == p[k]; }
    }
    assert forall k :: b <= k < |s| ==> IsSpace(s[k]) by {
      forall k | b <= k < |s| ensures IsSpace(s[k]) { assert s[k] == q[k - b]; }
    }
    var i := LeadingEnd(s, 0);
    if t == [] {
      assert i == |s|;
    } else {
      assert s[a] == t[0] && s[b - 1] == t[|t| - 1];
      assert i == a;
      assert TrailingStart(s, i, |s|) == b;
      assert s[a..b] == t;
    }
  }

  /** Upper-casing never turns whitespace into non-whitespace or back. */
  lemma UpperCharKeepsSpace(c: char)
    ensures IsSpace(UpperChar(c)) == IsSpace(c)
  {
  }

  lemma UpperAppend(x: string, y: string)
    ensures Upper(x + y) == Upper(x) + Upper(y)
  {
  }

  lemma UpperAllSpace(s: string)
    requires AllSpace(s)
    ensures AllSpace(Upper(s))
  {
    forall k | 0 <= k < |s| ensures IsSpace(Upper(s)[k]) { UpperCharKeepsSpace(s[k]); }
  }

  /** `s.upper().strip() == s.strip().upper()` in the model: stripping and
      upper-casing commute, so the order the source applies them in is
      immaterial. */
  lemma StripUpperCommute(s: string)
    ensures Strip(Upper(s)) == Upper(Strip(s))
  {
    var p, t, q := LeadingSpace(s), Strip(s), TrailingSpace(s);
    StripSplits(s);
    UpperAppend(p + t, q);
    UpperAppend(p, t);
    assert Upper(s) == Upper(p) + Upper(t) + Upper(q);
    UpperAllSpace(p);
    UpperAllSpace(q);
    UpperUnpadded(t);
    StripPadded(Upper(p), Upper(t), Upper(q));
  }

  lemma UpperUnpadded(t: string)
    requires Unpadded(t)
    ensures Unpadded(Upper(t))
  {
    if t != [] {
      UpperCharKeepsSpace(t[0]);
      UpperCharKeepsSpace(t[|t| - 1]);
    }
  }

}
