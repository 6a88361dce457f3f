/** The static requirement analyzer of bot.py: `count_inputs`, the number of
    `input(` calls a script appears to make, and `has_loop`, whether it
    appears to contain a loop. Both are lexical scans; regex character classes
    are taken in their ASCII form (Text.IsWordChar, Text.IsSpace). */
module Analyzer {
  import opened Text

  /** The regex assertion `\b` at position `i` of `s`: the characters on
      either side of `i` (outside the text counting as non-word) differ in
      being word characters. */
  predicate WordBoundary(s: string, i: nat)
    requires i <= |s|
  {
    (i > 0 && IsWordChar(s[i - 1])) != (i < |s| && IsWordChar(s[i]))
  }

  /** `s[p..]` starts with the literal `lit`. */
  predicate LiteralAt(s: string, p: nat, lit: string) {
    p + |lit| <= |s| && s[p..p + |lit|] == lit
  }

  // ---------------------------------------------------------------------
  // count_inputs: len(re.findall(r"\binput\s*\(", code))
  // ---------------------------------------------------------------------

  /** What counts as one input call: `input` starting at `p`, not preceded
      by a word character, followed by zero or more whitespace characters
      and then `(`. */
  ghost predicate InputCallAt(s: string, p: int) {
    && 0 <= p
    && LiteralAt(s, p, "input")
    && (p == 0 || !IsWordChar(s[p - 1]))
    && exists q :: p + 5 <= q < |s| && s[q] == '(' && AllSpace(s[p + 5..q])
  }

  /** The regex `\binput\s*\(` tried at position `p`, as the regex engine
      does it: the end of the match, or None. The greedy `\s*` takes every
      whitespace character; giving some back cannot help, since `(` is not
      whitespace. */
  function MatchInputAt(s: string, p: nat): (e: Option<nat>)
    ensures e.Some? <==> InputCallAt(s, p)
    ensures e.Some? ==> p + 6 <= e.value <= |s| && s[e.value - 1] == '('
    ensures e.Some? ==> forall k :: p + 5 <= k < e.value - 1 ==> IsSpace(s[k])
  {
    if p <= |s| && WordBoundary(s, p) && LiteralAt(s, p, "input") then
      var q := p + 5 + LeadingSpace(s[p + 5..]);
      assert forall k :: p + 5 <= k < q ==> IsSpace(s[k]) by {
        forall k | p + 5 <= k < q ensures IsSpace(s[k]) { assert s[p + 5..][k - p - 5] == s[k]; }
      }
      assert AllSpace(s[p + 5..q]);
      assert s[p] == 'i';
      if q < |s| && s[q] == '(' then
        Some(q + 1)
      else
        assert !InputCallAt(s, p) by {
          if q < |s| { assert s[p + 5..][q - p - 5] == s[q]; }
          forall q' | p + 5 <= q' < |s| && s[q'] == '(' ensures !AllSpace(s[p + 5..q']) {
            assert s[p + 5..q'][q - p - 5] == s[q];
          }
        }
        None
    else
      assert LiteralAt(s, p, "input") ==> s[p] == s[p..p + 5][0] == 'i';
      None
  }

  /** No input call starts strictly inside another one's match: the only
      `i` a match contains is its first character. */
  lemma InputCallsDoNotOverlap(s: string, p: nat, k: nat)
    requires MatchInputAt(s, p).Some?
    requires p < k < MatchInputAt(s, p).value
    ensures !InputCallAt(s, k)
  {
    var e := MatchInputAt(s, p).value;
    assert s[p..p + 5] == "input";
    if k < p + 5 {
      assert s[k] == "input"[k - p];
    }
    assert s[k] != 'i';
    assert LiteralAt(s, k, "input") ==> s[k] == s[k..k + 5][0];
  }

  /** `re.findall(r"\binput\s*\(", s)` scanning from position `i`: the number
      of matches found when every match resumes the scan at its end. */
  function FindAllFrom(s: string, i: nat): (n: nat)
    requires i <= |s|
    ensures 6 * n <= |s| - i
    decreases |s| - i
  {
    if i == |s| then 0
    else
      match MatchInputAt(s, i)
      case Some(e) => 1 + FindAllFrom(s, e)
      case None => FindAllFrom(s, i + 1)
  }

  /** The positions at or after `i` where an input call starts. */
  ghost function CallSitesFrom(s: string, i: nat): set<int>
  {
    set p | i <= p < |s| && InputCallAt(s, p)
  }

  lemma {:induction false} FindAllCountsCallSites(s: string, i: nat)
    requires i <= |s|
    ensures FindAllFrom(s, i) == |CallSitesFrom(s, i)|
    decreases |s| - i
  {
    if i == |s| {
      assert CallSitesFrom(s, i) == {};
    } else {
      match MatchInputAt(s, i)
      case Some(e) =>
        forall k | i < k < e ensures !InputCallAt(s, k) { InputCallsDoNotOverlap(s, i, k); }
        assert CallSitesFrom(s, i) == {i} + CallSitesFrom(s, e);
        FindAllCountsCallSites(s, e);
      case None =>
        assert CallSitesFrom(s, i) == CallSitesFrom(s, i + 1);
        FindAllCountsCallSites(s, i + 1);
    }
  }

  /** `count_inputs(code)`: the number of matches `findall` returns from the
      start; each takes at least six characters. */
  function CountInputs(code: string): (n: nat)
    ensures 6 * n <= |code|
  {
    FindAllFrom(code, 0)
  }

  /** `count_inputs(code)` is the number of positions of `code` where an
      input call starts; each takes at least six characters. */
  lemma CountInputsCountsCallSites(code: string)
    ensures CountInputs(code) == |set p | 0 <= p < |code| && InputCallAt(code, p)|
    ensures 6 * CountInputs(code) <= |code|
  {
    FindAllCountsCallSites(code, 0);
  }

  // ---------------------------------------------------------------------
  // has_loop: bool(re.search(r"\b(for|while)\b", code))
  // ---------------------------------------------------------------------

  /** `kw` occurs at `p` as a whole word: a non-word character or the edge of
      the text on either side. */
  predicate WholeWordAt(s: string, p: nat, kw: string) {
    && LiteralAt(s, p, kw)
    && (p == 0 || !IsWordChar(s[p - 1]))
    && (p + |kw| == |s| || !IsWordChar(s[p + |kw|]))
  }

  /** The regex `\b(for|while)\b` tried at position `p`: the alternatives in
      order, each with the closing `\b` after it. */
  predicate MatchLoopAt(s: string, p: nat)
    requires p <= |s|
  {
    WordBoundary(s, p)
    && ((LiteralAt(s, p, "for") && WordBoundary(s, p + 3))
        || (LiteralAt(s, p, "while") && WordBoundary(s, p + 5)))
  }

  /** `re.search` scanning from position `i`. */
  function SearchLoopFrom(s: string, i: nat): (found: bool)
    requires i <= |s|
    ensures found <==> exists p :: i <= p <= |s| && MatchLoopAt(s, p)
    decreases |s| - i
  {
    if MatchLoopAt(s, i) then true
    else if i == |s| then false
    else SearchLoopFrom(s, i + 1)
  }

  /** The regex's boundaries are exactly the whole-word condition. */
  lemma MatchLoopIsWholeWord(s: string, p: nat)
    requires p <= |s|
    ensures MatchLoopAt(s, p) <==> WholeWordAt(s, p, "for") || WholeWordAt(s, p, "while")
  {
    if LiteralAt(s, p, "for") {
      assert s[p] == 'f' && s[p + 2] == "for"[2];
    }
    if LiteralAt(s, p, "while") {
      assert s[p] == 'w' && s[p + 4] == "while"[4];
    }
  }

  /** `has_loop(code)`. */
  function HasLoop(code: string): bool {
    SearchLoopFrom(code, 0)
  }

  /** `has_loop(code)` holds exactly when `for` or `while` occurs in `code`
      as a whole word. */
  lemma {:induction false} HasLoopFindsWholeWord(code: string)
    ensures HasLoop(code) <==> exists p :: 0 <= p < |code| && (WholeWordAt(code, p, "for") || WholeWordAt(code, p, "while"))
  {
    forall p | 0 <= p <= |code|
      ensures MatchLoopAt(code, p) <==> WholeWordAt(code, p, "for") || WholeWordAt(code, p, "while")
    {
      MatchLoopIsWholeWord(code, p);
    }
  }

  // ---------------------------------------------------------------------
  // Worked examples
  // ---------------------------------------------------------------------

  /** `input` must stand as its own word: a longer name ending in `input`
      does not count. */
  lemma LongerNameNotCounted()
    ensures CountInputs("myinput(") == 0
  {
    var s := "myinput(";
    forall p | 0 <= p < |s| ensures MatchInputAt(s, p).None? {
      assert LiteralAt(s, p, "input") ==> s[p] == s[p..p + 5][0];
    }
  }

  /** Nor does a longer name starting with `input`. */
  lemma LongerPrefixNotCounted()
    ensures CountInputs("inputs(") == 0
  {
    var t := "inputs(";
    forall p | 0 <= p < |t| ensures MatchInputAt(t, p).None? {
      assert LiteralAt(t, p, "input") ==> t[p] == t[p..p + 5][0];
    }
    assert FindAllFrom(t, 0) == FindAllFrom(t, 1);
  }

  /** Whitespace between `input` and `(` is allowed. */
  lemma SpaceBeforeParenCounted()
    ensures CountInputs("input (") == 1
  {
    assert MatchInputAt("input (", 0) == Some(7);
  }

  /** A script that only prints has no input call. */
  lemma PrintHasNoInputCall()
    ensures CountInputs("print(\"hi\")") == 0
  {
    var code := "print(\"hi\")";
    forall p | 0 <= p < |code| ensures MatchInputAt(code, p).None? {
      assert LiteralAt(code, p, "input") ==> code[p] == code[p..p + 5][0];
    }
    assert FindAllFrom(code, 0) == FindAllFrom(code, 1);
  }

  /** `for` or `while` inside a longer word is not a loop keyword. */
  lemma {:induction false} NoLoopInsideWords()
    ensures !HasLoop("format") && !HasLoop("forward") && !HasLoop("while_x") && !HasLoop("afor")
  {
    HasLoopFindsWholeWord("format");
    HasLoopFindsWholeWord("forward");
    HasLoopFindsWholeWord("while_x");
    HasLoopFindsWholeWord("afor");
    forall s: string, p: nat | s in ["format", "forward", "while_x", "afor"] && p < |s|
      ensures !WholeWordAt(s, p, "for") && !WholeWordAt(s, p, "while")
    {
      assert LiteralAt(s, p, "for") ==> s[p] == s[p..p + 3][0] == 'f';
      assert LiteralAt(s, p, "while") ==> s[p] == s[p..p + 5][0] == 'w';
    }
  }

  /** A keyword standing as its own word is found. */
  lemma LoopKeywordsFound()
    ensures HasLoop("for i in range(3):") && HasLoop("while True:")
  {
    HasLoopFindsWholeWord("for i in range(3):");
    HasLoopFindsWholeWord("while True:");
    assert WholeWordAt("for i in range(3):", 0, "for");
    assert WholeWordAt("while True:", 0, "while");
  }
}
