/**
 The text of an uploaded source: HTML loses its scripts, styles and tags, and two entities
 are replaced, before everything is normalized.
 */
module HtmlText {
  import opened Text
  import opened Normalization

  const LT: CodeUnit := 60
  const GT: CodeUnit := 62

  const SCRIPT_OPEN: Str := [60, 115, 99, 114, 105, 112, 116]
  const SCRIPT_CLOSE: Str := [60, 47, 115, 99, 114, 105, 112, 116, 62]
  const STYLE_OPEN: Str := [60, 115, 116, 121, 108, 101]
  const STYLE_CLOSE: Str := [60, 47, 115, 116, 121, 108, 101, 62]
  const NBSP: Str := [38, 110, 98, 115, 112, 59]
  const AMP: Str := [38, 97, 109, 112, 59]
  const AMPERSAND: CodeUnit := 38

  function Lower(u: CodeUnit): CodeUnit {
    if 65 <= u <= 90 then u + 32 else u
  }

  /** `s` has the lower-case `pattern` at `i`, letter case aside. */
  predicate MatchesAt(s: Str, pattern: Str, i: nat) {
    i + |pattern| <= |s| && forall k :: 0 <= k < |pattern| ==> Lower(s[i + k]) == pattern[k]
  }

  /** The first match at `from` or later. */
  function Find(s: Str, pattern: Str, from: nat): (r: int)
    requires from <= |s|
    ensures r == -1 || (from <= r && MatchesAt(s, pattern, r))
    ensures forall i: nat :: from <= i && (r == -1 || i < r) ==> !MatchesAt(s, pattern, i)
    decreases |s| - from
  {
    if MatchesAt(s, pattern, from) then from
    else if from == |s| then -1
    else Find(s, pattern, from + 1)
  }

  /** Each shortest stretch from `open` to `close` becomes a space. */
  function RemoveElements(s: Str, open: Str, close: Str): Str
    requires open != []
  {
    if s == [] then []
    else
      var end := if MatchesAt(s, open, 0) then Find(s, close, |open|) else -1;
      if end >= 0 then [SPACE] + RemoveElements(s[end + |close|..], open, close)
      else [s[0]] + RemoveElements(s[1..], open, close)
  }

  /** Each `<`, one or more other characters, `>` becomes a space. */
  function RemoveTags(s: Str): Str {
    if s == [] then []
    else
      var end := if s[0] == LT then IndexOf(s, [GT], 1) else -1;
      if end >= 2 then [SPACE] + RemoveTags(s[end + 1..]) else [s[0]] + RemoveTags(s[1..])
  }

  function ReplaceAll(s: Str, pattern: Str, u: CodeUnit): Str
    requires pattern != []
  {
    if s == [] then []
    else if MatchesAt(s, pattern, 0) then [u] + ReplaceAll(s[|pattern|..], pattern, u)
    else [s[0]] + ReplaceAll(s[1..], pattern, u)
  }

  function StripHtml(s: Str): Str {
    var a := RemoveElements(s, SCRIPT_OPEN, SCRIPT_CLOSE);
    var b := RemoveElements(a, STYLE_OPEN, STYLE_CLOSE);
    var c := RemoveTags(b);
    ReplaceAll(ReplaceAll(c, NBSP, SPACE), AMP, AMPERSAND)
  }

  datatype Mime = Html | Pdf | OtherType

  function SourceText(content: Str, mime: Mime): Str {
    Normalize(if mime.Html? then StripHtml(content) else content)
  }

  // ---------- What is replaced ----------

  /** `u` is `c`, or its upper case. */
  predicate Reads(u: CodeUnit, c: char) {
    u == c as int || ('a' <= c <= 'z' && u == c as int - 32)
  }

  /** `s` says `word` at `i`, in upper or lower case. */
  predicate SaysAt(s: Str, word: string, i: nat) {
    i + |word| <= |s| && forall k :: 0 <= k < |word| ==> Reads(s[i + k], word[k])
  }

  datatype Pattern = Element(open: string, close: string) | Tag | Word(word: string)

  /**
   Characters `i` to `j - 1` of `s` match: an element up to the first end of it, a `<` with
   one or more other characters and the first `>`, or a word.
   */
  ghost predicate Match(p: Pattern, s: Str, i: nat, j: nat) {
    match p
    case Element(open, close) =>
      && SaysAt(s, open, i) && i + |open| + |close| <= j && SaysAt(s, close, j - |close|)
      && forall k: nat :: i + |open| <= k < j - |close| ==> !SaysAt(s, close, k)
    case Tag => i + 3 <= j <= |s| && s[i] == 60 && s[j - 1] == 62 && forall k :: i < k < j - 1 ==> s[k] != 62
    case Word(word) => SaysAt(s, word, i) && j == i + |word|
  }

  /** The leftmost match. */
  ghost predicate FirstMatch(p: Pattern, s: Str, i: nat, j: nat) {
    i < j <= |s| && Match(p, s, i, j) && forall i': nat, j': nat :: i' < i ==> !Match(p, s, i', j')
  }

  /** `t` is `s` with its leftmost match, then the leftmost one after that, and so on, replaced by `u`. */
  ghost predicate Rewritten(p: Pattern, u: CodeUnit, s: Str, t: Str)
    decreases |s|
  {
    if exists i: nat, j: nat :: Match(p, s, i, j) then
      exists i: nat, j: nat :: FirstMatch(p, s, i, j) && i < |t| && t[..i] == s[..i] && t[i] == u
        && Rewritten(p, u, s[j..], t[i + 1..])
    else t == s
  }

  lemma SaysShift(s: Str, word: string, i: nat)
    requires s != [] && i > 0
    ensures SaysAt(s, word, i) <==> SaysAt(s[1..], word, i - 1)
  {
    if SaysAt(s[1..], word, i - 1) {
      forall k | 0 <= k < |word|
        ensures Reads(s[i + k], word[k])
      {
        assert Reads(s[1..][i - 1 + k], word[k]);
      }
    }
  }

  lemma MatchShift(p: Pattern, s: Str, i: nat, j: nat)
    requires s != [] && i > 0
    ensures Match(p, s, i, j) <==> j > 0 && Match(p, s[1..], i - 1, j - 1)
  {
    hide SaysAt;
    match p
    case Element(open, close) =>
      SaysShift(s, open, i);
      if j >= |close| && j - |close| > 0 { SaysShift(s, close, j - |close|); }
      forall k: nat
        ensures SaysAt(s[1..], close, k) <==> SaysAt(s, close, k + 1)
      {
        SaysShift(s, close, k + 1);
      }
      if j > 0 && Match(p, s[1..], i - 1, j - 1) {
        forall k: nat | i + |open| <= k < j - |close|
          ensures !SaysAt(s, close, k)
        {
          assert !SaysAt(s[1..], close, k - 1);
        }
      }
    case Tag =>
    case Word(word) => SaysShift(s, word, i);
  }

  /** If nothing matches at the front, the leftmost match is that of the rest, one further on. */
  lemma FirstMatchShift(p: Pattern, s: Str, i: nat, j: nat)
    requires s != [] && (forall k: nat :: !Match(p, s, 0, k)) && FirstMatch(p, s[1..], i, j)
    ensures FirstMatch(p, s, i + 1, j + 1)
  {
    hide Match;
    MatchShift(p, s, i + 1, j + 1);
    forall i': nat, j': nat | i' < i + 1
      ensures !Match(p, s, i', j')
    {
      if i' > 0 { MatchShift(p, s, i', j'); }
    }
  }

  lemma Unfold(p: Pattern, u: CodeUnit, s: Str, t: Str) returns (i: nat, j: nat)
    requires Rewritten(p, u, s, t) && exists i: nat, j: nat :: Match(p, s, i, j)
    ensures FirstMatch(p, s, i, j) && i < j <= |s| && i < |t|
    ensures t[..i] == s[..i] && t[i] == u && Rewritten(p, u, s[j..], t[i + 1..])
  {
    i, j :| FirstMatch(p, s, i, j) && i < |t| && t[..i] == s[..i] && t[i] == u && Rewritten(p, u, s[j..], t[i + 1..]);
  }

  lemma Fold(p: Pattern, u: CodeUnit, s: Str, t: Str, i: nat, j: nat)
    requires FirstMatch(p, s, i, j) && i < |t| && t[..i] == s[..i] && t[i] == u && Rewritten(p, u, s[j..], t[i + 1..])
    ensures Rewritten(p, u, s, t)
  {
    hide Match;
    assert Match(p, s, i, j);
  }

  lemma NoMatchHere(p: Pattern, u: CodeUnit, s: Str, t: Str)
    requires s != [] && (forall j: nat :: !Match(p, s, 0, j)) && Rewritten(p, u, s[1..], t)
    ensures Rewritten(p, u, s, [s[0]] + t)
  {
    hide Match, FirstMatch;
    var t' := [s[0]] + t;
    if i: nat, j: nat :| Match(p, s, i, j) {
      MatchShift(p, s, i, j);
      MatchedLater(p, u, s, t);
    } else {
      forall i: nat, j: nat
        ensures !Match(p, s[1..], i, j)
      {
        MatchShift(p, s, i + 1, j + 1);
      }
      assert t' == s;
    }
  }

  lemma MatchedLater(p: Pattern, u: CodeUnit, s: Str, t: Str)
    requires s != [] && (forall j: nat :: !Match(p, s, 0, j)) && Rewritten(p, u, s[1..], t)
    requires exists i: nat, j: nat :: Match(p, s[1..], i, j)
    ensures Rewritten(p, u, s, [s[0]] + t)
  {
    hide Match, FirstMatch, Rewritten;
    var t' := [s[0]] + t;
    var i, j := Unfold(p, u, s[1..], t);
    FirstMatchShift(p, s, i, j);
    assert s[1..][j..] == s[j + 1..] && t'[i + 2..] == t[i + 1..] && t'[..i + 1] == s[..i + 1];
    FirstFits(p, s, i + 1, j + 1);
    Fold(p, u, s, t', i + 1, j + 1);
  }

  lemma FirstFits(p: Pattern, s: Str, i: nat, j: nat)
    requires FirstMatch(p, s, i, j)
    ensures i < j <= |s|
  {
  }

  lemma MatchHere(p: Pattern, u: CodeUnit, s: Str, j: nat, t: Str)
    requires 0 < j <= |s| && Match(p, s, 0, j) && Rewritten(p, u, s[j..], t)
    ensures Rewritten(p, u, s, [u] + t)
  {
    hide Match;
    assert ([u] + t)[1..] == t;
    Fold(p, u, s, [u] + t, 0, j);
  }

  /** The code units of a word in lower case. */
  predicate Spells(pattern: Str, word: string) {
    |pattern| == |word| && forall k :: 0 <= k < |word| ==> pattern[k] == word[k] as int && !('A' <= word[k] <= 'Z')
  }

  lemma SaysWhatMatches(s: Str, pattern: Str, word: string, i: nat)
    requires Spells(pattern, word)
    ensures MatchesAt(s, pattern, i) <==> SaysAt(s, word, i)
  {
  }

  lemma {:induction false} ElementsGo(s: Str, open: Str, close: Str, p: Pattern)
    requires p.Element? && open != [] && Spells(open, p.open) && Spells(close, p.close)
    ensures Rewritten(p, 32, s, RemoveElements(s, open, close))
    decreases |s|
  {
    hide Rewritten, SaysAt, Reads;
    if s == [] {
      NothingRewritten(p, 32);
    } else {
      forall i: nat
        ensures MatchesAt(s, open, i) <==> SaysAt(s, p.open, i)
        ensures MatchesAt(s, close, i) <==> SaysAt(s, p.close, i)
      {
        SaysWhatMatches(s, open, p.open, i);
        SaysWhatMatches(s, close, p.close, i);
      }
      var end := if MatchesAt(s, open, 0) then Find(s, close, |open|) else -1;
      if end >= 0 {
        ElementsGo(s[end + |close|..], open, close, p);
        MatchHere(p, 32, s, end + |close|, RemoveElements(s[end + |close|..], open, close));
      } else {
        ElementsGo(s[1..], open, close, p);
        NoMatchHere(p, 32, s, RemoveElements(s[1..], open, close));
      }
    }
  }

  lemma {:induction false} TagsGo(s: Str)
    ensures Rewritten(Tag, 32, s, RemoveTags(s))
    decreases |s|
  {
    hide Rewritten, Match, OccursAt;
    if s == [] {
      NothingRewritten(Tag, 32);
    } else {
      var end := if s[0] == LT then IndexOf(s, [GT], 1) else -1;
      if end >= 2 {
        TagHere(s, end);
        TagsGo(s[end + 1..]);
        MatchHere(Tag, 32, s, end + 1, RemoveTags(s[end + 1..]));
      } else {
        NoTagHere(s, end);
        TagsGo(s[1..]);
        NoMatchHere(Tag, 32, s, RemoveTags(s[1..]));
      }
    }
  }

  lemma OccursSingle(s: Str, u: CodeUnit)
    ensures forall i: nat :: i < |s| ==> (OccursAt(s, [u], i) <==> s[i] == u)
  {
    forall i: nat | i < |s|
      ensures OccursAt(s, [u], i) <==> s[i] == u
    {
      assert s[i..i + 1] == [s[i]];
    }
  }

  lemma TagHere(s: Str, end: int)
    requires s != [] && s[0] == 60 && end == IndexOf(s, [62], 1) && end >= 2
    ensures end < |s| && Match(Tag, s, 0, end + 1)
  {
    OccursSingle(s, 62);
    assert OccursAt(s, [62], end);
    forall k: nat | 0 < k < end
      ensures s[k] != 62
    {
      assert !OccursAt(s, [62], k);
    }
  }

  lemma NoTagHere(s: Str, end: int)
    requires s != [] && end == (if s[0] == 60 then IndexOf(s, [62], 1) else -1) && end < 2
    ensures forall j: nat :: !Match(Tag, s, 0, j)
  {
    OccursSingle(s, 62);
  }

  lemma {:induction false} WordsGo(s: Str, pattern: Str, word: string, u: CodeUnit)
    requires pattern != [] && Spells(pattern, word)
    ensures Rewritten(Word(word), u, s, ReplaceAll(s, pattern, u))
    decreases |s|
  {
    hide Rewritten, SaysAt, Reads;
    if s == [] {
      NothingRewritten(Word(word), u);
    } else {
      SaysWhatMatches(s, pattern, word, 0);
      if MatchesAt(s, pattern, 0) {
        WordsGo(s[|pattern|..], pattern, word, u);
        MatchHere(Word(word), u, s, |pattern|, ReplaceAll(s[|pattern|..], pattern, u));
      } else {
        WordsGo(s[1..], pattern, word, u);
        NoMatchHere(Word(word), u, s, ReplaceAll(s[1..], pattern, u));
      }
    }
  }

  lemma NothingRewritten(p: Pattern, u: CodeUnit)
    requires p.Element? ==> p.open != []
    requires p.Word? ==> p.word != []
    ensures Rewritten(p, u, [], [])
  {
  }

  /**
   What stripping does, in this order: every element from `<script` to its first
   `</script>` becomes a space, then every `<style` element, then every tag; then every
   `&nbsp;` becomes a space and every `&amp;` an ampersand; letter case aside.
   */
  lemma StripMeans(s: Str) returns (a: Str, b: Str, c: Str, d: Str)
    ensures Rewritten(Element("<script", "</script>"), 32, s, a)
    ensures Rewritten(Element("<style", "</style>"), 32, a, b)
    ensures Rewritten(Tag, 32, b, c)
    ensures Rewritten(Word("&nbsp;"), 32, c, d)
    ensures Rewritten(Word("&amp;"), 38, d, StripHtml(s))
  {
    hide Rewritten, RemoveElements, RemoveTags, ReplaceAll;
    a := RemoveElements(s, SCRIPT_OPEN, SCRIPT_CLOSE);
    ElementsGo(s, SCRIPT_OPEN, SCRIPT_CLOSE, Element("<script", "</script>"));
    b := RemoveElements(a, STYLE_OPEN, STYLE_CLOSE);
    ElementsGo(a, STYLE_OPEN, STYLE_CLOSE, Element("<style", "</style>"));
    c := RemoveTags(b);
    TagsGo(b);
    d := ReplaceAll(c, NBSP, SPACE);
    WordsGo(c, NBSP, "&nbsp;", SPACE);
    WordsGo(d, AMP, "&amp;", AMPERSAND);
  }

  // ---------- No tag survives ----------

  /** No `<` has its first `>` further on than the next character. */
  predicate NoTag(s: Str) {
    s == [] || ((s[0] == LT ==> GT !in s[1..] || s[1] == GT) && NoTag(s[1..]))
  }

  lemma {:induction false} RemoveTagsAddsNone(s: Str)
    ensures GT !in s ==> GT !in RemoveTags(s)
    ensures s != [] && s[0] == GT ==> RemoveTags(s) != [] && RemoveTags(s)[0] == GT
  {
    if s != [] {
      var end := if s[0] == LT then IndexOf(s, [GT], 1) else -1;
      if end >= 2 { RemoveTagsAddsNone(s[end + 1..]); } else { RemoveTagsAddsNone(s[1..]); }
    }
  }

  lemma {:induction false} TagsRemoved(s: Str)
    ensures NoTag(RemoveTags(s))
  {
    if s != [] {
      var end := if s[0] == LT then IndexOf(s, [GT], 1) else -1;
      if end >= 2 {
        TagsRemoved(s[end + 1..]);
      } else {
        TagsRemoved(s[1..]);
        RemoveTagsAddsNone(s[1..]);
        if s[0] == LT { UnclosedTag(s, end); }
      }
    }
  }

  /** A `<` that starts no tag is the last one, or meets its `>` at once. */
  lemma UnclosedTag(s: Str, end: int)
    requires s != [] && end == IndexOf(s, [GT], 1) && end < 2
    ensures GT !in s[1..] || s[1] == GT
  {
    if end == -1 && GT in s[1..] {
      var i :| 1 <= i < |s| && s[i] == GT;
      assert OccursAt(s, [GT], i);
    }
    if end == 1 { assert s[1..2][0] == s[1]; }
  }

  lemma {:induction false} ReplaceKeeps(s: Str, pattern: Str, u: CodeUnit)
    requires pattern != [] && u != LT && u != GT
    requires forall k :: 0 <= k < |pattern| ==> pattern[k] != LT && pattern[k] != GT
    ensures GT !in s ==> GT !in ReplaceAll(s, pattern, u)
    ensures s != [] && s[0] == GT ==> ReplaceAll(s, pattern, u) != [] && ReplaceAll(s, pattern, u)[0] == GT
    ensures NoTag(s) ==> NoTag(ReplaceAll(s, pattern, u))
  {
    if s != [] {
      if MatchesAt(s, pattern, 0) {
        assert Lower(s[0 + 0]) == pattern[0];
        ReplaceKeeps(s[|pattern|..], pattern, u);
        if NoTag(s) { NoTagSuffix(s, |pattern|); }
      } else {
        ReplaceKeeps(s[1..], pattern, u);
      }
    }
  }

  lemma {:induction false} NoTagSuffix(s: Str, n: nat)
    requires NoTag(s) && n <= |s|
    ensures NoTag(s[n..])
  {
    if n == 0 {
      assert s[0..] == s;
    } else {
      NoTagSuffix(s[1..], n - 1);
      assert s[1..][n - 1..] == s[n..];
    }
  }

  /** Stripping leaves no tag: replacing the entities afterwards cannot make one. */
  lemma StripLeavesNoTag(s: Str)
    ensures NoTag(StripHtml(s))
  {
    var c := RemoveTags(RemoveElements(RemoveElements(s, SCRIPT_OPEN, SCRIPT_CLOSE), STYLE_OPEN, STYLE_CLOSE));
    TagsRemoved(RemoveElements(RemoveElements(s, SCRIPT_OPEN, SCRIPT_CLOSE), STYLE_OPEN, STYLE_CLOSE));
    ReplaceKeeps(c, NBSP, SPACE);
    ReplaceKeeps(ReplaceAll(c, NBSP, SPACE), AMP, AMPERSAND);
  }

  /** The chunker's own normalization leaves the source's text as it is. */
  lemma SourceIsNormal(content: Str, mime: Mime)
    ensures Normalize(SourceText(content, mime)) == SourceText(content, mime)
  {
    NormalizeIdempotent(if mime.Html? then StripHtml(content) else content);
  }
}
