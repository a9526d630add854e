/** Whitespace trimming of user identifiers, as done by Python's `str.strip()`
    without arguments. */
module Text {

  /** The characters Python's `str.isspace` accepts, which are the ones
      `str.strip()` removes. */
  predicate IsSpace(c: char) {
    || ('\t' <= c <= '\r')
    || ('\U{1C}' <= c <= '\U{1F}')
    || c == ' '
    || c == '\U{85}'
    || c == '\U{A0}'
    || c == '\U{1680}'
    || ('\U{2000}' <= c <= '\U{200A}')
    || c == '\U{2028}'
    || c == '\U{2029}'
    || c == '\U{202F}'
    || c == '\U{205F}'
    || c == '\U{3000}'
  }

  /** Every character of `s` is whitespace (true of the empty string). */
  predicate AllSpace(s: string) {
    forall k :: 0 <= k < |s| ==> IsSpace(s[k])
  }

  /** `s` neither starts nor ends with whitespace. */
  predicate Unpadded(s: string) {
    s == [] || (!IsSpace(s[0]) && !IsSpace(s[|s| - 1]))
  }

  /** The positions before `lo` and from `hi` on hold whitespace only. */
  predicate SpaceOutside(s: string, lo: int, hi: int) {
    && (forall k :: 0 <= k < lo && k < |s| ==> IsSpace(s[k]))
    && (forall k :: hi <= k < |s| && 0 <= k ==> IsSpace(s[k]))
  }

  /** The first position at or after `i` that does not hold whitespace, or
      `|s|` if there is none. */
  function SkipForward(s: string, i: nat): (j: nat)
    requires i <= |s|
    ensures i <= j <= |s|
    ensures forall k :: i <= k < j ==> IsSpace(s[k])
    ensures j < |s| ==> !IsSpace(s[j])
    decreases |s| - i
  {
    if i < |s| && IsSpace(s[i]) then SkipForward(s, i + 1) else i
  }

  /** The position just after the last non-whitespace character in
      `s[lo..hi]`, or `lo` if there is none. */
  function SkipBackward(s: string, lo: nat, hi: nat): (j: nat)
    requires lo <= hi <= |s|
    ensures lo <= j <= hi
    ensures forall k :: j <= k < hi ==> IsSpace(s[k])
    ensures lo < j ==> !IsSpace(s[j - 1])
    decreases hi - lo
  {
    if lo < hi && IsSpace(s[hi - 1]) then SkipBackward(s, lo, hi - 1) else hi
  }

  /** `s` without leading and trailing whitespace. */
  function Trim(s: string): (r: string)
    ensures Unpadded(r)
    ensures r == [] <==> AllSpace(s)
  {
    var i := SkipForward(s, 0);
    var j := SkipBackward(s, i, |s|);
    assert j == i ==> AllSpace(s) by {
      if j == i {
        forall k | 0 <= k < |s| ensures IsSpace(s[k]) {
          if k < i { } else { }
        }
      }
    }
    s[i..j]
  }

  /** Trimming is characterised by its result: the unpadded part of `s` that
      has only whitespace before and after it. */
  lemma TrimUnique(s: string, lo: nat, hi: nat)
    requires lo <= hi <= |s|
    requires SpaceOutside(s, lo, hi)
    requires Unpadded(s[lo..hi])
    ensures Trim(s) == s[lo..hi]
  {
    var i := SkipForward(s, 0);
    if lo == hi {
      assert AllSpace(s) by {
        forall k | 0 <= k < |s| ensures IsSpace(s[k]) {
          if k < lo { } else { }
        }
      }
    } else {
      assert s[lo..hi][0] == s[lo];
      assert s[lo..hi][hi - lo - 1] == s[hi - 1];
      assert i == lo;
      var j := SkipBackward(s, i, |s|);
      assert j == hi;
    }
  }

  /** Padded and unpadded spellings of an identifier trim to the same string. */
  lemma TrimIgnoresPadding(a: string, s: string, b: string)
    requires AllSpace(a) && AllSpace(b)
    ensures Trim(a + s + b) == Trim(s)
  {
    var i := SkipForward(s, 0);
    var j := SkipBackward(s, i, |s|);
    assert Trim(s) == s[i..j];
    SliceOfPadded(a, s, b, i, j);
    SpaceOutsidePadded(a, s, b, i, j);
    TrimUnique(a + s + b, |a| + i, |a| + j);
  }

  /** A slice of `s` is the same slice, shifted, of `s` with text around it. */
  lemma SliceOfPadded(a: string, s: string, b: string, i: nat, j: nat)
    requires i <= j <= |s|
    ensures (a + s + b)[|a| + i..|a| + j] == s[i..j]
  {
    var w := a + s + b;
    assert w == a + (s + b);
    assert (s + b)[i..j] == s[i..j];
  }

  /** Surrounding `s` with whitespace keeps whitespace around its middle. */
  lemma SpaceOutsidePadded(a: string, s: string, b: string, i: nat, j: nat)
    requires AllSpace(a) && AllSpace(b)
    requires i <= j <= |s| && SpaceOutside(s, i, j)
    ensures SpaceOutside(a + s + b, |a| + i, |a| + j)
  {
    var w := a + s + b;
    forall k | 0 <= k < |a| + i && k < |w| ensures IsSpace(w[k]) {
      if k < |a| { assert w[k] == a[k]; } else { assert w[k] == s[k - |a|]; }
    }
    forall k | |a| + j <= k < |w| && 0 <= k ensures IsSpace(w[k]) {
      if k < |a| + |s| { assert w[k] == s[k - |a|]; } else { assert w[k] == b[k - |a| - |s|]; }
    }
  }

  /** Trimming twice is trimming once. */
  lemma TrimIdempotent(s: string)
    ensures Trim(Trim(s)) == Trim(s)
  {
    var t := Trim(s);
    assert t[0..|t|] == t;
    TrimUnique(t, 0, |t|);
  }
}
