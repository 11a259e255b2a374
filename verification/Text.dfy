/**
 JavaScript strings and the string primitives the modelled code relies on.

 A string is a sequence of UTF-16 code units, so lengths and offsets are the ones
 the source computes.
 */
module Text {

  /** A UTF-16 code unit. Nothing below needs the bound 0xFFFF, so the type leaves it out. */
  type CodeUnit = int
  type Str = seq<CodeUnit>

  const TAB: CodeUnit := 9
  const LF: CodeUnit := 10
  const CR: CodeUnit := 13
  const SPACE: CodeUnit := 32

  /** White space and line terminators, the characters `String.prototype.trim` strips. */
  predicate IsSpace(u: CodeUnit) {
    || 9 <= u <= 13
    || u == 0x20
    || u == 0xA0
    || u == 0x1680
    || 0x2000 <= u <= 0x200A
    || u == 0x2028
    || u == 0x2029
    || u == 0x202F
    || u == 0x205F
    || u == 0x3000
    || u == 0xFEFF
  }

  /** Those of ECMA-262 sections 12.2 and 12.3: five controls, the space separators of Unicode, and a few others. */
  lemma SpacesAre(u: CodeUnit)
    ensures IsSpace(u) <==>
      u in {9, 10, 11, 12, 13, 32, 160, 5760, 8192, 8193, 8194, 8195, 8196, 8197, 8198, 8199, 8200, 8201, 8202,
            8232, 8233, 8239, 8287, 12288, 65279}
  {
  }

  predicate AllSpace(s: Str, lo: nat, hi: nat)
    requires hi <= |s|
  {
    forall i :: lo <= i < hi ==> IsSpace(s[i])
  }

  /** The first position in `[lo, hi)` that is not white space, or `hi`. */
  function SkipSpace(s: Str, lo: nat, hi: nat): (p: nat)
    requires lo <= hi <= |s|
    ensures lo <= p <= hi
    ensures AllSpace(s, lo, p)
    ensures p < hi ==> !IsSpace(s[p])
    decreases hi - lo
  {
    if lo < hi && IsSpace(s[lo]) then SkipSpace(s, lo + 1, hi) else lo
  }

  /** The end of `[lo, hi)` once trailing white space is dropped. */
  function DropSpace(s: Str, lo: nat, hi: nat): (q: nat)
    requires lo <= hi <= |s|
    ensures lo <= q <= hi
    ensures AllSpace(s, q, hi)
    ensures lo < q ==> !IsSpace(s[q - 1])
    decreases hi
  {
    if lo < hi && IsSpace(s[hi - 1]) then DropSpace(s, lo, hi - 1) else hi
  }

  /** `String.prototype.trim`. */
  function Trim(s: Str): (t: Str)
    ensures t != [] ==> !IsSpace(t[0]) && !IsSpace(t[|t| - 1])
  {
    var p := SkipSpace(s, 0, |s|);
    s[p..DropSpace(s, p, |s|)]
  }

  lemma {:induction false} SkipSlice(s: Str, lo: nat, hi: nat, i: nat)
    requires lo <= i <= hi <= |s|
    ensures SkipSpace(s[lo..hi], i - lo, hi - lo) == SkipSpace(s, i, hi) - lo
    decreases hi - i
  {
  }

  lemma {:induction false} DropSlice(s: Str, lo: nat, hi: nat, p: nat, i: nat)
    requires lo <= p <= i <= hi <= |s|
    ensures DropSpace(s[lo..hi], p - lo, i - lo) == DropSpace(s, p, i) - lo
    decreases i
  {
  }

  lemma TrimIs(t: Str, p: nat, q: nat)
    requires SkipSpace(t, 0, |t|) == p && DropSpace(t, p, |t|) == q
    ensures p <= q <= |t| && Trim(t) == t[p..q]
  {
  }

  lemma SliceOfSlice(s: Str, lo: nat, hi: nat, p: nat, q: nat)
    requires lo <= p <= q <= hi <= |s|
    ensures s[lo..hi][p - lo..q - lo] == s[p..q]
  {
    var t := s[lo..hi];
    assert forall i :: p <= i < q ==> t[i - lo] == s[i];
    var u := t[p - lo..q - lo];
    assert forall i :: 0 <= i < q - p ==> u[i] == s[p..q][i];
  }

  /** Trimming a slice keeps exactly the sub-range between its outermost non-space characters. */
  lemma TrimSlice(s: Str, lo: nat, hi: nat)
    requires lo <= hi <= |s|
    ensures
      var p := SkipSpace(s, lo, hi);
      Trim(s[lo..hi]) == s[p..DropSpace(s, p, hi)]
  {
    hide IsSpace;
    hide SkipSpace, DropSpace, IsSpace, AllSpace, Trim;
    var p := SkipSpace(s, lo, hi);
    var q := DropSpace(s, p, hi);
    SkipSlice(s, lo, hi, lo);
    DropSlice(s, lo, hi, p, hi);
    SliceOfSlice(s, lo, hi, p, q);
    TrimIs(s[lo..hi], p - lo, q - lo);
  }

  /** A string without white space at its ends is unchanged by `trim`, and conversely. */
  lemma TrimIdentity(s: Str)
    ensures Trim(s) == s <==> (s == [] || (!IsSpace(s[0]) && !IsSpace(s[|s| - 1])))
  {
  }

  predicate OccursAt(s: Str, pattern: Str, i: nat) {
    i + |pattern| <= |s| && s[i..i + |pattern|] == pattern
  }

  /** `String.prototype.indexOf(pattern, from)`. */
  function IndexOf(s: Str, pattern: Str, from: nat): (r: int)
    requires from <= |s|
    ensures r == -1 || (from <= r && OccursAt(s, pattern, r))
    ensures forall i: nat :: from <= i && (r == -1 || i < r) ==> !OccursAt(s, pattern, i)
    decreases |s| - from
  {
    if OccursAt(s, pattern, from) then from
    else if from == |s| then -1
    else IndexOf(s, pattern, from + 1)
  }

  /** `String.prototype.lastIndexOf(c, from)` for a one-character pattern. */
  function LastIndexOf(s: Str, c: CodeUnit, from: nat): (r: int)
    requires from < |s|
    ensures -1 <= r <= from
    ensures 0 <= r ==> s[r] == c
    ensures forall i :: r < i <= from ==> s[i] != c
    decreases from
  {
    if s[from] == c then from
    else if from == 0 then -1
    else LastIndexOf(s, c, from - 1)
  }
}
