/**
 The text normalisation that runs before chunking: five stages over the whole document.

 Main results: the stages lose no visible character (`NormalizeKeepsInk`), their
 output satisfies `Normal` (`NormalizeIsNormal`), and the strings left unchanged are
 exactly the `Normal` ones (`FixedPoints`), so normalising twice is normalising once.
 */
module Normalization {
  import opened Text

  predicate IsKept(u: CodeUnit) {
    u == TAB || u == LF || u == CR || u >= 32
  }

  predicate IsBlank(u: CodeUnit) {
    u == SPACE || u == TAB
  }

  /** Stage 1: drop control characters other than tab, line feed and carriage return. */
  function DropControls(s: Str): Str {
    if s == [] then [] else (if IsKept(s[0]) then [s[0]] else []) + DropControls(s[1..])
  }

  /** Stage 2: every CR LF or lone CR becomes LF. */
  function UnixNewlines(s: Str): Str {
    if s == [] then []
    else if s[0] != CR then [s[0]] + UnixNewlines(s[1..])
    else if |s| > 1 && s[1] == LF then [LF] + UnixNewlines(s[2..])
    else [LF] + UnixNewlines(s[1..])
  }

  /** Stage 3: every maximal run of spaces and tabs becomes one space. */
  function CollapseBlanks(s: Str): Str {
    if s == [] then []
    else if !IsBlank(s[0]) then [s[0]] + CollapseBlanks(s[1..])
    else if |s| > 1 && IsBlank(s[1]) then CollapseBlanks(s[1..])
    else [SPACE] + CollapseBlanks(s[1..])
  }

  /** The number of line feeds at the front of `s`. */
  function LeadingNewlines(s: Str): (n: nat)
    ensures n <= |s|
    ensures forall i :: 0 <= i < n ==> s[i] == LF
    ensures n < |s| ==> s[n] != LF
  {
    if s == [] || s[0] != LF then 0 else 1 + LeadingNewlines(s[1..])
  }

  /** Stage 4: every maximal run of three or more line feeds becomes two. */
  function LimitNewlines(s: Str): Str
    decreases |s|
  {
    if s == [] then []
    else if s[0] != LF then [s[0]] + LimitNewlines(s[1..])
    else
      var n := LeadingNewlines(s);
      (if n >= 3 then [LF, LF] else s[..n]) + LimitNewlines(s[n..])
  }

  function Normalize(s: Str): Str {
    Trim(LimitNewlines(CollapseBlanks(UnixNewlines(DropControls(s)))))
  }

  // ---------- What each stage does, wherever it does it ----------

  /** Controls are dropped one by one; tab, line feed, carriage return and everything from space on stay. */
  lemma ControlsGo(a: Str, u: CodeUnit, b: Str)
    ensures DropControls(a + [u] + b)
         == DropControls(a) + (if u == 9 || u == 10 || u == 13 || u >= 32 then [u] else []) + DropControls(b)
  {
    DropsEach(a, u, b);
  }

  lemma {:induction false} DropsEach(a: Str, u: CodeUnit, b: Str)
    ensures DropControls(a + [u] + b) == DropControls(a) + (if IsKept(u) then [u] else []) + DropControls(b)
  {
    hide IsKept;
    if a == [] {
      assert [] + [u] + b == [u] + b && ([u] + b)[1..] == b;
    } else {
      DropsEach(a[1..], u, b);
      assert (a + [u] + b)[1..] == a[1..] + [u] + b;
      Regroup(if IsKept(a[0]) then [a[0]] else [], DropControls(a[1..]), if IsKept(u) then [u] else [],
              DropControls(b));
    }
  }

  lemma Regroup(x: Str, a: Str, m: Str, b: Str)
    ensures x + (a + m + b) == x + a + m + b
  {
  }

  lemma Unix(s: Str)
    requires s != []
    ensures s[0] != CR ==> UnixNewlines(s) == [s[0]] + UnixNewlines(s[1..])
    ensures s[0] == CR && |s| > 1 && s[1] == LF ==> UnixNewlines(s) == [LF] + UnixNewlines(s[2..])
    ensures s[0] == CR && (|s| == 1 || s[1] != LF) ==> UnixNewlines(s) == [LF] + UnixNewlines(s[1..])
  {
  }

  lemma NothingUnix()
    ensures UnixNewlines([]) == []
  {
  }

  /** CR LF becomes one line feed. */
  lemma {:induction false} PairBecomesNewline(a: Str, b: Str)
    ensures UnixNewlines(a + [13, 10] + b) == UnixNewlines(a) + [10] + UnixNewlines(b)
    decreases |a|
  {
    hide UnixNewlines;
    EndBecomesNewline(a, [13, 10], b);
  }

  /** So does a carriage return that no line feed follows. */
  lemma {:induction false} ReturnBecomesNewline(a: Str, b: Str)
    requires b == [] || b[0] != 10
    ensures UnixNewlines(a + [13] + b) == UnixNewlines(a) + [10] + UnixNewlines(b)
    decreases |a|
  {
    hide UnixNewlines;
    EndBecomesNewline(a, [13], b);
  }

  lemma {:induction false} EndBecomesNewline(a: Str, end: Str, b: Str)
    requires end == [CR, LF] || (end == [CR] && (b == [] || b[0] != LF))
    ensures UnixNewlines(a + end + b) == UnixNewlines(a) + [LF] + UnixNewlines(b)
    decreases |a|
  {
    hide UnixNewlines;
    var s := a + end + b;
    Unix(s);
    if a == [] {
      NothingUnix();
      assert s == end + b && s[|end|..] == b;
      assert [] + [LF] + UnixNewlines(b) == [LF] + UnixNewlines(b);
    } else {
      Unix(a);
      var k := if |a| > 1 && a[0] == CR && a[1] == LF then 2 else 1;
      assert s[k..] == a[k..] + end + b;
      EndBecomesNewline(a[k..], end, b);
      Regroup(if a[0] == CR then [LF] else [a[0]], UnixNewlines(a[k..]), [LF], UnixNewlines(b));
    }
  }

  /** A text without carriage returns keeps its line ends. */
  lemma {:induction false} NoReturns(s: Str)
    requires forall i :: 0 <= i < |s| ==> s[i] != 13
    ensures UnixNewlines(s) == s
  {
    if s != [] { NoReturns(s[1..]); }
  }

  /** A whole run of spaces and tabs becomes one space. */
  lemma {:induction false} BlanksBecomeSpace(a: Str, blanks: Str, b: Str)
    requires blanks != [] && forall i :: 0 <= i < |blanks| ==> blanks[i] == 32 || blanks[i] == 9
    requires a == [] || (a[|a| - 1] != 32 && a[|a| - 1] != 9)
    requires b == [] || (b[0] != 32 && b[0] != 9)
    ensures CollapseBlanks(a + blanks + b) == CollapseBlanks(a) + [32] + CollapseBlanks(b)
    decreases |a| + |blanks|
  {
    var s := a + blanks + b;
    if a != [] {
      assert s[1..] == a[1..] + blanks + b;
      BlanksBecomeSpace(a[1..], blanks, b);
    } else if |blanks| > 1 {
      assert s[1..] == [] + blanks[1..] + b;
      BlanksBecomeSpace([], blanks[1..], b);
    } else {
      assert s == blanks + b && s[1..] == b;
    }
  }

  function Newlines(n: nat): (s: Str)
    ensures |s| == n && forall i :: 0 <= i < n ==> s[i] == 10
  {
    seq(n, _ => 10)
  }

  lemma {:induction false} LeadingIs(s: Str, k: nat)
    requires k <= |s| && (forall i :: 0 <= i < k ==> s[i] == LF) && (k == |s| || s[k] != LF)
    ensures LeadingNewlines(s) == k
  {
  }

  /** A whole run of line feeds keeps two of them at most. */
  lemma {:induction false} NewlinesLimited(a: Str, n: nat, b: Str)
    requires (a == [] || a[|a| - 1] != 10) && (b == [] || b[0] != 10)
    ensures LimitNewlines(a + Newlines(n) + b)
         == LimitNewlines(a) + Newlines(if n > 2 then 2 else n) + LimitNewlines(b)
    decreases |a|
  {
    hide LimitNewlines;
    var s := a + Newlines(n) + b;
    if a == [] {
      assert s == Newlines(n) + b;
      NothingLimited();
      FrontLimited(n, b);
    } else if a[0] != LF {
      assert s[1..] == a[1..] + Newlines(n) + b;
      NewlinesLimited(a[1..], n, b);
      LimitAtOther(a);
      LimitAtOther(s);
      Regroup([a[0]], LimitNewlines(a[1..]), Newlines(if n > 2 then 2 else n), LimitNewlines(b));
    } else {
      var k := LeadingNewlines(a);
      LeadingIs(a, k);
      LeadingIs(s, k);
      assert s[k..] == a[k..] + Newlines(n) + b && s[..k] == a[..k];
      NewlinesLimited(a[k..], n, b);
      LimitAtNewline(a, k);
      LimitAtNewline(s, k);
      Regroup(if k >= 3 then [LF, LF] else a[..k], LimitNewlines(a[k..]), Newlines(if n > 2 then 2 else n),
              LimitNewlines(b));
    }
  }

  lemma FrontLimited(n: nat, b: Str)
    requires b == [] || b[0] != 10
    ensures LimitNewlines(Newlines(n) + b) == Newlines(if n > 2 then 2 else n) + LimitNewlines(b)
  {
    hide LimitNewlines;
    var s := Newlines(n) + b;
    if n == 0 {
      assert s == b;
    } else {
      LeadingIs(s, n);
      LimitAtNewline(s, n);
      assert s[n..] == b && s[..n] == Newlines(n) && [LF, LF] == Newlines(2);
    }
  }

  lemma NothingLimited()
    ensures LimitNewlines([]) == []
  {
  }

  lemma LimitAtNewline(s: Str, n: nat)
    requires s != [] && s[0] == LF && LeadingNewlines(s) == n
    ensures LimitNewlines(s) == (if n >= 3 then [LF, LF] else s[..n]) + LimitNewlines(s[n..])
  {
  }

  lemma LimitAtOther(s: Str)
    requires s != [] && s[0] != LF
    ensures LimitNewlines(s) == [s[0]] + LimitNewlines(s[1..])
  {
  }

  // ---------- What a normalised text looks like ----------

  predicate NoTripleNewline(s: Str) {
    forall i :: 0 <= i < |s| - 2 ==> !(s[i] == LF && s[i + 1] == LF && s[i + 2] == LF)
  }

  predicate SingleBlanks(s: Str) {
    && (forall i :: 0 <= i < |s| ==> s[i] != TAB)
    && (forall i :: 0 <= i < |s| - 1 ==> !(s[i] == SPACE && s[i + 1] == SPACE))
  }

  /** No control character but tab and line feed. */
  predicate Clean(s: Str) {
    forall i :: 0 <= i < |s| ==> IsKept(s[i]) && s[i] != CR
  }

  predicate Trimmed(s: Str) {
    s == [] || (!IsSpace(s[0]) && !IsSpace(s[|s| - 1]))
  }

  predicate Normal(s: Str) {
    Clean(s) && SingleBlanks(s) && NoTripleNewline(s) && Trimmed(s)
  }

  lemma {:induction false} DropControlsKeeps(s: Str)
    ensures forall i :: 0 <= i < |DropControls(s)| ==> IsKept(DropControls(s)[i])
  {
    if s != [] { DropControlsKeeps(s[1..]); }
  }

  lemma {:induction false} UnixNewlinesClean(s: Str)
    requires forall i :: 0 <= i < |s| ==> IsKept(s[i])
    ensures Clean(UnixNewlines(s))
    decreases |s|
  {
    if s != [] {
      UnixNewlinesClean(s[1..]);
      if |s| > 1 { UnixNewlinesClean(s[2..]); }
    }
  }

  lemma {:induction false} CollapseBlanksSingle(s: Str)
    requires Clean(s)
    ensures var t := CollapseBlanks(s);
      Clean(t) && SingleBlanks(t) && (t != [] ==> s != [] && (t[0] == SPACE <==> IsBlank(s[0])))
  {
    if s != [] { CollapseBlanksSingle(s[1..]); }
  }

  lemma {:induction false} LimitNewlinesShort(s: Str)
    requires Clean(s) && SingleBlanks(s)
    ensures var t := LimitNewlines(s);
      Clean(t) && SingleBlanks(t) && NoTripleNewline(t) && (t != [] <==> s != []) && (s != [] ==> t[0] == s[0])
    decreases |s|
  {
    if s != [] {
      var n := LeadingNewlines(s);
      if n == 0 {
        LimitNewlinesShort(s[1..]);
        assert LimitNewlines(s) == [s[0]] + LimitNewlines(s[1..]);
      } else {
        LimitNewlinesShort(s[n..]);
        NewlinesInFront(if n >= 3 then 2 else n, LimitNewlines(s[n..]));
        assert s[..n] == seq(n, _ => LF);
        assert [LF, LF] == seq(2, _ => LF);
      }
    }
  }

  lemma NewlinesInFront(n: nat, t: Str)
    requires 0 < n <= 2 && Clean(t) && SingleBlanks(t) && NoTripleNewline(t)
    requires t != [] ==> t[0] != LF
    ensures var u := seq(n, _ => LF) + t; Clean(u) && SingleBlanks(u) && NoTripleNewline(u)
  {
  }

  lemma {:induction false} NormalizeIsNormal(s: Str)
    ensures Normal(Normalize(s))
  {
    hide DropControls, UnixNewlines, CollapseBlanks, LimitNewlines, Trim, Clean, SingleBlanks, NoTripleNewline, Normal;
    var a := DropControls(s);
    DropControlsKeeps(s);
    var b := UnixNewlines(a);
    UnixNewlinesClean(a);
    var c := CollapseBlanks(b);
    CollapseBlanksSingle(b);
    var d := LimitNewlines(c);
    LimitNewlinesShort(c);
    TrimNormal(d);
  }

  lemma TrimNormal(s: Str)
    requires Clean(s) && SingleBlanks(s) && NoTripleNewline(s)
    ensures Normal(Trim(s))
  {
  }

  // ---------- Normal texts are the fixed points ----------

  lemma {:induction false} CleanFixed(s: Str)
    requires Clean(s)
    ensures DropControls(s) == s && UnixNewlines(s) == s
  {
    if s != [] { CleanFixed(s[1..]); }
  }

  lemma {:induction false} SingleBlanksFixed(s: Str)
    requires SingleBlanks(s)
    ensures CollapseBlanks(s) == s
  {
    if s != [] { SingleBlanksFixed(s[1..]); }
  }

  lemma {:induction false} ShortNewlinesFixed(s: Str)
    requires NoTripleNewline(s)
    ensures LimitNewlines(s) == s
    decreases |s|
  {
    if s != [] {
      var n := LeadingNewlines(s);
      ShortNewlinesFixed(if n == 0 then s[1..] else s[n..]);
      assert !(|s| >= 3 && s[0] == LF && s[0 + 1] == LF && s[0 + 2] == LF);
    }
  }

  /** The strings normalisation leaves alone are exactly the normal ones. */
  lemma {:induction false} FixedPoints(s: Str)
    ensures Normalize(s) == s <==> Normal(s)
  {
    NormalizeIsNormal(s);
    if Normal(s) {
      CleanFixed(s);
      SingleBlanksFixed(s);
      ShortNewlinesFixed(s);
      TrimIdentity(s);
    }
  }

  /** The second normalisation, inside the chunker, cannot move an offset. */
  lemma NormalizeIdempotent(s: Str)
    ensures Normalize(Normalize(s)) == Normalize(s)
  {
    NormalizeIsNormal(s);
    FixedPoints(Normalize(s));
  }

  // ---------- No visible character is lost ----------

  predicate IsInk(u: CodeUnit) {
    IsKept(u) && !IsSpace(u)
  }

  /** The visible characters of `s`, in order. */
  function Ink(s: Str): Str {
    if s == [] then [] else (if IsInk(s[0]) then [s[0]] else []) + Ink(s[1..])
  }

  lemma {:induction false} InkConcat(a: Str, b: Str)
    ensures Ink(a + b) == Ink(a) + Ink(b)
  {
    if a == [] {
      assert a + b == b;
    } else {
      InkConcat(a[1..], b);
      assert (a + b)[1..] == a[1..] + b;
    }
  }

  lemma {:induction false} NoInk(s: Str)
    requires forall i :: 0 <= i < |s| ==> !IsInk(s[i])
    ensures Ink(s) == []
  {
    if s != [] { NoInk(s[1..]); }
  }

  lemma {:induction false} DropControlsInk(s: Str)
    ensures Ink(DropControls(s)) == Ink(s)
  {
    if s != [] {
      DropControlsInk(s[1..]);
      InkConcat(if IsKept(s[0]) then [s[0]] else [], DropControls(s[1..]));
    }
  }

  lemma {:induction false} UnixNewlinesInk(s: Str)
    ensures Ink(UnixNewlines(s)) == Ink(s)
    decreases |s|
  {
    if s != [] {
      var k := if |s| > 1 && s[0] == CR && s[1] == LF then 2 else 1;
      UnixNewlinesInk(s[k..]);
      InkConcat([if s[0] == CR then LF else s[0]], UnixNewlines(s[k..]));
      InkConcat(s[..k], s[k..]);
      assert s == s[..k] + s[k..];
      assert Ink(s[..k]) == Ink([if s[0] == CR then LF else s[0]]);
    }
  }

  lemma BlanksHaveNoInk()
    ensures !IsInk(SPACE) && !IsInk(TAB)
  {
  }

  lemma {:induction false} CollapseBlanksInk(s: Str)
    ensures Ink(CollapseBlanks(s)) == Ink(s)
  {
    hide IsInk;
    BlanksHaveNoInk();
    if s != [] {
      CollapseBlanksInk(s[1..]);
      InkConcat([if IsBlank(s[0]) then SPACE else s[0]], CollapseBlanks(s[1..]));
    }
  }

  lemma {:induction false} LimitNewlinesInk(s: Str)
    ensures Ink(LimitNewlines(s)) == Ink(s)
    decreases |s|
  {
    if s != [] {
      var n := LeadingNewlines(s);
      if n == 0 {
        LimitNewlinesInk(s[1..]);
        InkConcat([s[0]], LimitNewlines(s[1..]));
      } else {
        LimitNewlinesInk(s[n..]);
        var run := if n >= 3 then [LF, LF] else s[..n];
        InkConcat(run, LimitNewlines(s[n..]));
        InkConcat(s[..n], s[n..]);
        assert s == s[..n] + s[n..];
        NoInk(run);
        NoInk(s[..n]);
      }
    }
  }

  lemma SpaceHasNoInk(s: Str, lo: nat, hi: nat)
    requires lo <= hi <= |s| && AllSpace(s, lo, hi)
    ensures Ink(s[lo..hi]) == []
  {
    hide IsSpace, Ink;
    NoInk(s[lo..hi]);
  }

  lemma TrimInk(s: Str)
    ensures Ink(Trim(s)) == Ink(s)
  {
    hide IsSpace, Ink, IsInk, AllSpace;
    var p := SkipSpace(s, 0, |s|);
    var q := DropSpace(s, p, |s|);
    hide SkipSpace, DropSpace;
    InkOfParts(s, p, q);
    SpaceHasNoInk(s, 0, p);
    SpaceHasNoInk(s, q, |s|);
  }

  lemma Parts(s: Str, p: nat, q: nat)
    requires p <= q <= |s|
    ensures s == s[0..p] + s[p..q] + s[q..|s|]
  {
  }

  lemma InkOfParts(s: Str, p: nat, q: nat)
    requires p <= q <= |s|
    ensures Ink(s) == Ink(s[0..p]) + Ink(s[p..q]) + Ink(s[q..|s|])
  {
    hide Ink;
    Parts(s, p, q);
    var a, b, c := s[0..p], s[p..q], s[q..|s|];
    InkConcat(a + b, c);
    InkConcat(a, b);
  }

  /** Normalisation changes white space and control characters only. */
  lemma {:induction false} NormalizeKeepsInk(s: Str)
    ensures Ink(Normalize(s)) == Ink(s)
  {
    var a := DropControls(s);
    DropControlsInk(s);
    var b := UnixNewlines(a);
    UnixNewlinesInk(a);
    var c := CollapseBlanks(b);
    CollapseBlanksInk(b);
    LimitNewlinesInk(c);
    TrimInk(LimitNewlines(c));
  }
}
