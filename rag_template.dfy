/**
 * The web client's `RAGTemplate`: the RAG prompt template (the server's, or a
 * built-in one when fetching it fails) with every `[context]` replaced by the
 * retrieved context and then every `[query]` replaced by the user's query.
 * Each replacement is a global, left-to-right, non-overlapping substitution of
 * a literal pattern; the inserted text is not searched again by the same
 * substitution.
 */
module RagTemplate {
  import opened Wrappers
  import PyStr

  /** `s.replace(/pat/g, rep)` for a literal, non-empty pattern. */
  function ReplaceAll(s: string, pat: string, rep: string): string
    requires |pat| > 0
    decreases |s|
  {
    if |s| < |pat| then s
    else if s[..|pat|] == pat then rep + ReplaceAll(s[|pat|..], pat, rep)
    else [s[0]] + ReplaceAll(s[1..], pat, rep)
  }

  /** A string without the pattern comes back unchanged. */
  lemma {:induction false} ReplaceAbsent(s: string, pat: string, rep: string)
    requires |pat| > 0
    requires !PyStr.Contains(s, pat)
    ensures ReplaceAll(s, pat, rep) == s
    decreases |s|
  {
    if |s| >= |pat| {
      assert !PyStr.StartsWith(s, pat);
      ReplaceAbsent(s[1..], pat, rep);
    }
  }

  /** Replacing a pattern by itself changes nothing. */
  lemma {:induction false} ReplaceBySelf(s: string, pat: string)
    requires |pat| > 0
    ensures ReplaceAll(s, pat, pat) == s
    decreases |s|
  {
    if |s| >= |pat| {
      if s[..|pat|] == pat {
        ReplaceBySelf(s[|pat|..], pat);
        assert s == pat + s[|pat|..];
      } else {
        ReplaceBySelf(s[1..], pat);
        assert s == [s[0]] + s[1..];
      }
    }
  }

  /** An occurrence at the front is replaced and the search resumes after it. */
  lemma ReplaceAtFront(pat: string, rest: string, rep: string)
    requires |pat| > 0
    ensures ReplaceAll(pat + rest, pat, rep) == rep + ReplaceAll(rest, pat, rep)
  {
    assert (pat + rest)[..|pat|] == pat;
    assert (pat + rest)[|pat|..] == rest;
  }

  /**
   * Text that starts with a character the pattern does not contain cannot
   * complete an occurrence begun before it, so the two sides are replaced
   * independently.
   */
  lemma {:induction false} ReplaceSplit(x: string, y: string, pat: string, rep: string)
    requires |pat| > 0
    requires |y| > 0 && y[0] !in pat
    ensures ReplaceAll(x + y, pat, rep) == ReplaceAll(x, pat, rep) + ReplaceAll(y, pat, rep)
    decreases |x|, 1
  {
    if x == [] {
      assert x + y == y;
    } else if |x| < |pat| {
      ReplaceSplitShort(x, y, pat, rep);
    } else {
      ReplaceSplitLong(x, y, pat, rep);
    }
  }

  /** `ReplaceSplit` when `x` is shorter than the pattern: nothing in `x` is replaced. */
  lemma {:induction false} ReplaceSplitShort(x: string, y: string, pat: string, rep: string)
    requires |pat| > 0 && 0 < |x| < |pat|
    requires |y| > 0 && y[0] !in pat
    ensures ReplaceAll(x + y, pat, rep) == x + ReplaceAll(y, pat, rep)
    decreases |x|, 0
  {
    var s := x + y;
    if |s| < |pat| {
      assert ReplaceAll(y, pat, rep) == y;
    } else {
      calc {
        ReplaceAll(s, pat, rep);
        { NoOccurrenceAcross(x, y, pat); ReplaceSkipFirst(s, pat, rep); assert s[1..] == x[1..] + y; }
        [x[0]] + ReplaceAll(x[1..] + y, pat, rep);
        { ReplaceSplit(x[1..], y, pat, rep); assert ReplaceAll(x[1..], pat, rep) == x[1..]; }
        [x[0]] + (x[1..] + ReplaceAll(y, pat, rep));
        { assert x == [x[0]] + x[1..]; }
        x + ReplaceAll(y, pat, rep);
      }
    }
  }

  /** An occurrence starting inside a text shorter than the pattern would cover `y[0]`. */
  lemma NoOccurrenceAcross(x: string, y: string, pat: string)
    requires 0 < |x| < |pat| <= |x + y|
    requires y[0] !in pat
    ensures (x + y)[..|pat|] != pat
  {
    var s := x + y;
    assert s[|x|] == y[0];
    assert pat[|x|] in pat;
    assert s[..|pat|][|x|] == s[|x|];
  }

  /** Without an occurrence at the front, the first character is kept. */
  lemma ReplaceSkipFirst(s: string, pat: string, rep: string)
    requires |pat| > 0 && |s| >= |pat| && s[..|pat|] != pat
    ensures ReplaceAll(s, pat, rep) == [s[0]] + ReplaceAll(s[1..], pat, rep)
  {
  }

  /** `ReplaceSplit` when `x` is at least as long as the pattern: its first step stays inside `x`. */
  lemma {:induction false} ReplaceSplitLong(x: string, y: string, pat: string, rep: string)
    requires |pat| > 0 && |x| >= |pat|
    requires |y| > 0 && y[0] !in pat
    ensures ReplaceAll(x + y, pat, rep) == ReplaceAll(x, pat, rep) + ReplaceAll(y, pat, rep)
    decreases |x|, 0
  {
    var s := x + y;
    assert s[..|pat|] == x[..|pat|];
    if x[..|pat|] == pat {
      assert s[|pat|..] == x[|pat|..] + y;
      ReplaceSplit(x[|pat|..], y, pat, rep);
    } else {
      assert s[1..] == x[1..] + y;
      ReplaceSplit(x[1..], y, pat, rep);
    }
  }

  /** A non-empty text whose first character does not start the pattern keeps it. */
  lemma ReplaceKeepFirst(s: string, pat: string, rep: string)
    requires |pat| > 0 && |s| > 0 && s[0] != pat[0]
    ensures ReplaceAll(s, pat, rep) == [s[0]] + ReplaceAll(s[1..], pat, rep)
  {
    if |s| < |pat| {
      assert ReplaceAll(s[1..], pat, rep) == s[1..];
      assert s == [s[0]] + s[1..];
    } else {
      assert s[..|pat|][0] == s[0];
    }
  }

  /** A text without the pattern's first character is left unchanged, whatever follows it. */
  lemma {:induction false} ReplaceSkipsFree(a: string, b: string, pat: string, rep: string)
    requires |pat| > 0
    requires pat[0] !in a
    ensures ReplaceAll(a + b, pat, rep) == a + ReplaceAll(b, pat, rep)
    decreases |a|
  {
    if a == [] {
      assert a + b == b;
    } else {
      var s := a + b;
      assert a[0] in a && s[0] == a[0];
      assert pat[0] !in a[1..] by {
        assert forall i :: 0 <= i < |a| - 1 ==> a[1..][i] == a[i + 1];
      }
      calc {
        ReplaceAll(s, pat, rep);
        { ReplaceKeepFirst(s, pat, rep); assert s[1..] == a[1..] + b; }
        [a[0]] + ReplaceAll(a[1..] + b, pat, rep);
        { ReplaceSkipsFree(a[1..], b, pat, rep); }
        [a[0]] + (a[1..] + ReplaceAll(b, pat, rep));
        { assert a == [a[0]] + a[1..]; }
        a + ReplaceAll(b, pat, rep);
      }
    }
  }

  const ContextPlaceholder: string := "[context]"
  const QueryPlaceholder: string := "[query]"

  /** The built-in template's text before `[context]`. */
  const FallbackHead: string := Head1 + Head2 + Head3
  const Head1: string := "Use the following context as your "
  const Head2: string := "learned knowledge, inside <context>"
  const Head3: string := "</context> XML tags.\n\t\t<context>\n\t\t  "
  /** The built-in template's text between `[context]` and `[query]`. */
  const FallbackMiddle: string := Middle1 + Middle2
  const Middle1: string := "\n\t\t</context>\n\t\t\n\t\tGiven the context "
  const Middle2: string := "information, answer the query.\n\t\tQuery: "

  /** The template used when fetching the server's template fails. */
  const Fallback: string := FallbackHead + ContextPlaceholder + FallbackMiddle + QueryPlaceholder

  /**
   * `RAGTemplate(token, context, query)`; `fetched` is the server's template,
   * or `None` when the request failed.
   */
  function RenderTemplate(fetched: Option<string>, context: string, query: string): string {
    var template := if fetched.Some? then fetched.value else Fallback;
    ReplaceAll(ReplaceAll(template, ContextPlaceholder, context), QueryPlaceholder, query)
  }

  /** A template with neither placeholder is returned unchanged. */
  lemma RenderWithoutPlaceholders(template: string, context: string, query: string)
    requires !PyStr.Contains(template, ContextPlaceholder) && !PyStr.Contains(template, QueryPlaceholder)
    ensures RenderTemplate(Some(template), context, query) == template
  {
    ReplaceAbsent(template, ContextPlaceholder, context);
    ReplaceAbsent(template, QueryPlaceholder, query);
  }

  lemma FallbackFreeOfBrackets()
    ensures '[' !in FallbackHead && '[' !in FallbackMiddle
    ensures |FallbackMiddle| > 0 && FallbackMiddle[0] == '\n'
  {
    HeadFree();
    MiddleFree();
  }

  lemma HeadFree()
    ensures '[' !in Head1 && '[' !in Head2 && '[' !in Head3
  {
    Head1Free();
    Head2Free();
    Head3Free();
  }

  lemma Head1Free() ensures '[' !in Head1 { }
  lemma Head2Free() ensures '[' !in Head2 { }
  lemma Head3Free() ensures '[' !in Head3 { }

  lemma MiddleFree()
    ensures '[' !in Middle1 && '[' !in Middle2 && Middle1[0] == '\n'
  {
    Middle1Free();
    Middle2Free();
  }

  lemma Middle1Free() ensures '[' !in Middle1 && Middle1[0] == '\n' { }
  lemma Middle2Free() ensures '[' !in Middle2 { }

  /** A pattern on its own is replaced by the replacement. */
  lemma ReplaceWhole(pat: string, rep: string)
    requires |pat| > 0
    ensures ReplaceAll(pat, pat, rep) == rep
  {
    ReplaceAtFront(pat, "", rep);
    assert pat + "" == pat;
    assert ReplaceAll("", pat, rep) == "";
  }

  /**
   * The first substitution on a template of the built-in shape: the one
   * occurrence is replaced, and a text shorter than the pattern after it
   * is kept.
   */
  lemma FillFirst(head: string, pat: string, middle: string, other: string, rep: string)
    requires |pat| > 0 && pat[0] !in head && pat[0] !in middle && |other| < |pat|
    ensures ReplaceAll(head + pat + middle + other, pat, rep) == head + rep + middle + other
  {
    var tail := middle + other;
    calc {
      ReplaceAll(head + pat + middle + other, pat, rep);
      { assert head + pat + middle + other == head + (pat + tail); }
      ReplaceAll(head + (pat + tail), pat, rep);
      { ReplaceSkipsFree(head, pat + tail, pat, rep); }
      head + ReplaceAll(pat + tail, pat, rep);
      { ReplaceAtFront(pat, tail, rep); }
      head + (rep + ReplaceAll(middle + other, pat, rep));
      { ReplaceSkipsFree(middle, other, pat, rep); assert ReplaceAll(other, pat, rep) == other; }
      head + (rep + (middle + other));
      head + rep + middle + other;
    }
  }

  /**
   * The second substitution: the pattern at the end is replaced, and so is
   * every occurrence inside the text inserted by the first one.
   */
  lemma FillLast(head: string, context: string, middle: string, pat: string, rep: string)
    requires |pat| > 0 && pat[0] !in head && pat[0] !in middle && |middle| > 0 && middle[0] !in pat
    ensures ReplaceAll(head + context + middle + pat, pat, rep)
            == head + ReplaceAll(context, pat, rep) + middle + rep
  {
    var tail := middle + pat;
    calc {
      ReplaceAll(head + context + middle + pat, pat, rep);
      { assert head + context + middle + pat == head + (context + tail); }
      ReplaceAll(head + (context + tail), pat, rep);
      { ReplaceSkipsFree(head, context + tail, pat, rep); }
      head + ReplaceAll(context + tail, pat, rep);
      { assert tail[0] == middle[0]; ReplaceSplit(context, tail, pat, rep); }
      head + (ReplaceAll(context, pat, rep) + ReplaceAll(tail, pat, rep));
      { ReplaceSkipsFree(middle, pat, pat, rep); ReplaceWhole(pat, rep); }
      head + (ReplaceAll(context, pat, rep) + (middle + rep));
      head + ReplaceAll(context, pat, rep) + middle + rep;
    }
  }

  /**
   * Without the server's template, the context is inserted in the built-in
   * one and the query placed after it; a `[query]` inside the context is
   * replaced by the query too, since the second substitution runs over the
   * text the first one produced.
   */
  lemma RenderFallback(context: string, query: string)
    ensures RenderTemplate(None, context, query)
            == FallbackHead + ReplaceAll(context, QueryPlaceholder, query) + FallbackMiddle + query
  {
    FallbackFreeOfBrackets();
    assert ContextPlaceholder[0] == QueryPlaceholder[0] == '[';
    assert FallbackMiddle[0] !in QueryPlaceholder;
    FillFirst(FallbackHead, ContextPlaceholder, FallbackMiddle, QueryPlaceholder, context);
    FillLast(FallbackHead, context, FallbackMiddle, QueryPlaceholder, query);
  }
}
