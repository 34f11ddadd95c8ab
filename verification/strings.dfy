/** The pieces of Go's `strings` package that the options and the error
    classification use: `TrimSpace`, `TrimRight` with a one-character cut set,
    and `HasSuffix`. Strings are sequences of Unicode code points. */
module Strings {

  /** Go's `unicode.IsSpace`: the Unicode White_Space property. */
  predicate IsSpace(c: char) {
    var n := c as int;
    || 0x09 <= n <= 0x0D
    || n == 0x20
    || n == 0x85
    || n == 0xA0
    || n == 0x1680
    || 0x2000 <= n <= 0x200A
    || n == 0x2028
    || n == 0x2029
    || n == 0x202F
    || n == 0x205F
    || n == 0x3000
  }

  /** Every character of `s` is white space (vacuously true of ""). */
  predicate Blank(s: string) {
    forall k :: 0 <= k < |s| ==> IsSpace(s[k])
  }

  /** Every character of `s` outside the slice `s[i..j]` is white space. */
  predicate SpaceOutside(s: string, i: nat, j: nat)
    requires i <= j <= |s|
  {
    forall k :: 0 <= k < |s| && !(i <= k < j) ==> IsSpace(s[k])
  }

  /** `r` is the slice of `s` starting at `i`, and all around it is white space. */
  predicate SliceAmidSpace(s: string, r: string, i: nat) {
    i + |r| <= |s| && r == s[i..i + |r|] && SpaceOutside(s, i, i + |r|)
  }

  /** `s` neither starts nor ends with white space. */
  predicate Trimmed(s: string) {
    s == [] || (!IsSpace(s[0]) && !IsSpace(s[|s| - 1]))
  }

  /** The end of the run of white space in `s` that starts at `i`. */
  function SpaceRunEnd(s: string, i: nat): (n: nat)
    requires i <= |s|
    ensures i <= n <= |s|
    ensures forall k :: i <= k < n ==> IsSpace(s[k])
    ensures n < |s| ==> !IsSpace(s[n])
    decreases |s| - i
  {
    if i < |s| && IsSpace(s[i]) then SpaceRunEnd(s, i + 1) else i
  }

  /** The start of the run of white space in `s[lo..j]` that ends at `j`. */
  function SpaceRunStart(s: string, lo: nat, j: nat): (m: nat)
    requires lo <= j <= |s|
    ensures lo <= m <= j
    ensures forall k :: m <= k < j ==> IsSpace(s[k])
    ensures m > lo ==> !IsSpace(s[m - 1])
    decreases j
  {
    if j > lo && IsSpace(s[j - 1]) then SpaceRunStart(s, lo, j - 1) else j
  }

  /** Go's `strings.TrimSpace`: `s` without its leading and trailing white
      space. The result is a slice of `s`, everything cut away is white space,
      and the result is empty exactly when `s` is blank. */
  function TrimSpace(s: string): (r: string)
    ensures Trimmed(r)
    ensures exists i :: SliceAmidSpace(s, r, i)
    ensures r == [] <==> Blank(s)
  {
    var i := SpaceRunEnd(s, 0);
    var j := SpaceRunStart(s, i, |s|);
    assert SliceAmidSpace(s, s[i..j], i);
    if i < j then
      assert !IsSpace(s[i]);
      s[i..j]
    else
      s[i..j]
  }

  /** A trimmed string is a fixed point of `TrimSpace`. */
  lemma {:induction false} TrimSpaceOfTrimmed(s: string)
    requires Trimmed(s)
    ensures TrimSpace(s) == s
  {
    assert SpaceRunEnd(s, 0) == 0;
    assert SpaceRunStart(s, 0, |s|) == |s|;
    assert s[0..|s|] == s;
  }

  /** Skipping leading white space from inside a blank prefix `a` lands at
      the first character after `a`. */
  lemma {:induction false} SpaceRunEndSkipsBlank(s: string, a: nat, i: nat)
    requires i <= a < |s|
    requires forall k :: i <= k < a ==> IsSpace(s[k])
    requires !IsSpace(s[a])
    ensures SpaceRunEnd(s, i) == a
    decreases a - i
  {
    if i < a {
      SpaceRunEndSkipsBlank(s, a, i + 1);
    }
  }

  /** Skipping trailing white space from inside a blank suffix starting at
      `b` lands at `b`. */
  lemma {:induction false} SpaceRunStartSkipsBlank(s: string, lo: nat, b: nat, j: nat)
    requires lo < b <= j <= |s|
    requires forall k :: b <= k < j ==> IsSpace(s[k])
    requires !IsSpace(s[b - 1])
    ensures SpaceRunStart(s, lo, j) == b
    decreases j
  {
    if b < j {
      SpaceRunStartSkipsBlank(s, lo, b, j - 1);
    }
  }

  /** Trimming a non-empty trimmed string padded with white space on both
      sides gives back exactly that string. */
  lemma TrimSpaceOfPadded(a: string, t: string, b: string)
    requires Blank(a) && Blank(b) && Trimmed(t) && t != []
    ensures TrimSpace(a + t + b) == t
  {
    var s := a + t + b;
    assert forall k :: 0 <= k < |a| ==> s[k] == a[k];
    assert forall k :: |a| + |t| <= k < |s| ==> s[k] == b[k - |a| - |t|];
    assert s[|a|] == t[0] && s[|a| + |t| - 1] == t[|t| - 1];
    SpaceRunEndSkipsBlank(s, |a|, 0);
    SpaceRunStartSkipsBlank(s, |a|, |a| + |t|, |s|);
    assert s[|a|..|a| + |t|] == t;
  }

  /** `TrimSpace` is idempotent. */
  lemma TrimSpaceIdempotent(s: string)
    ensures TrimSpace(TrimSpace(s)) == TrimSpace(s)
  {
    TrimSpaceOfTrimmed(TrimSpace(s));
  }

  /** Go's `strings.TrimRight(s, cut)` for a one-character cut set: `s`
      without its trailing run of `cut`. */
  function TrimRight(s: string, cut: char): (r: string)
    ensures |r| <= |s| && r == s[..|r|]
    ensures forall k :: |r| <= k < |s| ==> s[k] == cut
    ensures r == [] || r[|r| - 1] != cut
  {
    if |s| > 0 && s[|s| - 1] == cut then TrimRight(s[..|s| - 1], cut) else s
  }

  /** Trimming twice gives the same result as trimming once. */
  lemma {:induction false} TrimRightIdempotent(s: string, cut: char)
    ensures TrimRight(TrimRight(s, cut), cut) == TrimRight(s, cut)
  {
  }

  /** Go's `strings.HasSuffix`. */
  predicate HasSuffix(s: string, suffix: string) {
    |suffix| <= |s| && s[|s| - |suffix|..] == suffix
  }
}
