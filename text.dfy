/** The two Python string operations the script relies on: `sep.join(parts)` and
    `s.strip()` with no argument. */
module Text {

  /** `sep.join(parts)`: the parts in order with `sep` between neighbours. */
  function Join(parts: seq<string>, sep: string): string
  {
    if |parts| == 0 then ""
    else if |parts| == 1 then parts[0]
    else Join(parts[..|parts| - 1], sep) + sep + parts[|parts| - 1]
  }

  /** Where the i-th part starts in `Join(parts, sep)`: after every earlier part
      and one separator per earlier part. */
  function PartOffset(parts: seq<string>, sep: string, i: nat): nat
    requires i <= |parts|
  {
    if i == 0 then 0 else PartOffset(parts, sep, i - 1) + |parts[i - 1]| + |sep|
  }

  /** The offsets of the first parts do not see the last one. */
  lemma {:induction false} PartOffsetInit(parts: seq<string>, sep: string, i: nat)
    requires i < |parts|
    ensures PartOffset(parts, sep, i) == PartOffset(parts[..|parts| - 1], sep, i)
  {
    if i > 0 {
      PartOffsetInit(parts, sep, i - 1);
    }
  }

  /** A joined string ends right after its last part. */
  lemma {:induction false} JoinLength(parts: seq<string>, sep: string)
    requires |parts| > 0
    ensures |Join(parts, sep)| == PartOffset(parts, sep, |parts| - 1) + |parts[|parts| - 1]|
  {
    var n := |parts|;
    if n > 1 {
      var init := parts[..n - 1];
      JoinLength(init, sep);
      PartOffsetInit(parts, sep, n - 2);
    }
  }

  /** Element-wise reading of `Join`: every part appears verbatim at its offset,
      and so the parts appear in input order. */
  lemma {:induction false} JoinPlaces(parts: seq<string>, sep: string, i: nat)
    requires i < |parts|
    ensures PartOffset(parts, sep, i) + |parts[i]| <= |Join(parts, sep)|
    ensures Join(parts, sep)[PartOffset(parts, sep, i)..PartOffset(parts, sep, i) + |parts[i]|] == parts[i]
  {
    var n := |parts|;
    if n > 1 {
      var init := parts[..n - 1];
      var j := Join(init, sep);
      var whole := Join(parts, sep);
      assert whole == j + sep + parts[n - 1];
      var off := PartOffset(parts, sep, i);
      if i < n - 1 {
        PartOffsetInit(parts, sep, i);
        JoinPlaces(init, sep, i);
        assert whole[..|j|] == j;
        assert whole[off..off + |parts[i]|] == whole[..|j|][off..off + |parts[i]|];
      } else {
        JoinLength(init, sep);
        PartOffsetInit(parts, sep, n - 2);
        assert off == |j| + |sep|;
        assert whole[|j| + |sep|..] == parts[n - 1];
      }
    }
  }

  /** Between two neighbouring parts of `Join` sits exactly the separator. */
  lemma {:induction false} JoinSeparates(parts: seq<string>, sep: string, i: nat)
    requires i + 1 < |parts|
    ensures PartOffset(parts, sep, i + 1) <= |Join(parts, sep)|
    ensures Join(parts, sep)[PartOffset(parts, sep, i) + |parts[i]|..PartOffset(parts, sep, i + 1)] == sep
  {
    var n := |parts|;
    var init := parts[..n - 1];
    var j := Join(init, sep);
    var whole := Join(parts, sep);
    assert whole == j + sep + parts[n - 1];
    var lo := PartOffset(parts, sep, i) + |parts[i]|;
    PartOffsetInit(parts, sep, i);
    if i + 1 < n - 1 {
      PartOffsetInit(parts, sep, i + 1);
      JoinSeparates(init, sep, i);
      assert whole[..|j|] == j;
      assert whole[lo..lo + |sep|] == whole[..|j|][lo..lo + |sep|];
    } else {
      JoinLength(init, sep);
      assert lo == |j|;
      assert whole[|j|..|j| + |sep|] == sep;
    }
  }

  /** Python's `str.isspace`: Unicode bidirectional classes WS, B and S and
      category Zs (ideographic space U+3000 included). */
  predicate IsSpace(c: char)
  {
    c == ' ' || ('\t' <= c <= '\r') || ('\U{1C}' <= c <= '\U{1F}') || c == '\U{85}' ||
    c == '\U{A0}' || c == '\U{1680}' || ('\U{2000}' <= c <= '\U{200A}') ||
    c == '\U{2028}' || c == '\U{2029}' || c == '\U{202F}' || c == '\U{205F}' || c == '\U{3000}'
  }

  predicate AllSpace(s: string)
  {
    forall k :: 0 <= k < |s| ==> IsSpace(s[k])
  }

  /** Neither end of `s` is white space (vacuous for the empty string). */
  predicate Trimmed(s: string)
  {
    s == [] || (!IsSpace(s[0]) && !IsSpace(s[|s| - 1]))
  }

  /** `r` occurs in `s` starting at index `i`. */
  predicate OccursAt(s: string, r: string, i: int)
  {
    0 <= i <= |s| - |r| && s[i..i + |r|] == r
  }

  /** Every character of `s` in [lo, hi) is white space. */
  predicate SpaceBetween(s: string, lo: int, hi: int)
    requires 0 <= lo && hi <= |s|
  {
    forall k :: lo <= k < hi ==> IsSpace(s[k])
  }

  /** The first index at or after `i` that is not white space (|s| if none):
      where `s.lstrip()` starts. */
  function SkipSpace(s: string, i: nat): (b: nat)
    requires i <= |s|
    ensures i <= b <= |s| && SpaceBetween(s, i, b)
    ensures b < |s| ==> !IsSpace(s[b])
    decreases |s| - i
  {
    if i < |s| && IsSpace(s[i]) then SkipSpace(s, i + 1) else i
  }

  /** The least index at or above `lo` such that s[e..j] is all white space: where
      `s.rstrip()` ends when looking no further left than `lo`. */
  function SkipSpaceBack(s: string, lo: nat, j: nat): (e: nat)
    requires lo <= j <= |s|
    ensures lo <= e <= j && SpaceBetween(s, e, j)
    ensures e > lo ==> !IsSpace(s[e - 1])
  {
    if j > lo && IsSpace(s[j - 1]) then SkipSpaceBack(s, lo, j - 1) else j
  }

  /** `s.strip()`: a white-space-free-ended infix of `s` whose surroundings are
      all white space. */
  function Strip(s: string): (r: string)
    ensures Trimmed(r)
    ensures exists i :: OccursAt(s, r, i) && SpaceBetween(s, 0, i) && SpaceBetween(s, i + |r|, |s|)
  {
    var b := SkipSpace(s, 0);
    var e := SkipSpaceBack(s, b, |s|);
    assert OccursAt(s, s[b..e], b);
    s[b..e]
  }

  /** Reference characterisation of `strip`: whatever white space surrounds a
      trimmed core, stripping gives exactly that core. */
  lemma StripUnique(pre: string, core: string, suf: string)
    requires AllSpace(pre) && AllSpace(suf) && Trimmed(core)
    ensures Strip(pre + core + suf) == core
  {
    var s := pre + core + suf;
    var b := SkipSpace(s, 0);
    var e := SkipSpaceBack(s, b, |s|);
    assert forall k :: 0 <= k < |pre| ==> s[k] == pre[k];
    assert forall k :: 0 <= k < |suf| ==> s[|pre| + |core| + k] == suf[k];
    if core == [] {
      assert SpaceBetween(s, 0, |s|);
      assert b == |s|;
    } else {
      assert s[|pre|] == core[0] && s[|pre| + |core| - 1] == core[|core| - 1];
      assert b == |pre|;
      assert e == |pre| + |core|;
      assert s[b..e] == core;
    }
  }

  /** Stripping twice is stripping once. */
  lemma StripIdempotent(s: string)
    ensures Strip(Strip(s)) == Strip(s)
  {
    var r := Strip(s);
    assert r == [] + r + [];
    StripUnique([], r, []);
  }
}
