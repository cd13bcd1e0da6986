/** Which names the filter takes for sensitive, and the exact text that it makes of an
    assignment or a pair of any name. */
module RedactedFields {
  import opened Redaction
  import opened RedactedValues
  import opened RedactedPairs
  import opened RedactedText

  predicate AllWord(g: string) {
    g != [] && forall i :: 0 <= i < |g| ==> IsWord(g[i])
  }

  /** Inside a word the first rewrite copies. */
  lemma {:induction false} InWordIsKept(w: string, r: string)
    requires forall i :: 0 <= i < |w| ==> IsWord(w[i])
    ensures RedactValues(false, w + "=" + r) == w + "=" + RedactValues(true, r)
    decreases |w|
  {
    var s := w + "=" + r;
    if w == [] {
      assert s[1..] == r;
    } else {
      InWordIsKept(w[1..], r);
      Peeled(w, r);
      Peeled(w, RedactValues(true, r));
    }
  }

  lemma WordHasNoMark(g: string)
    requires AllWord(g)
    ensures '=' !in g && '"' !in g
  {
  }

  lemma OtherNameAssignsNothing(g: string, v: string)
    requires AllWord(g) && !Name(g)
    ensures !Assigns(g + "=" + v)
  {
    var s := g + "=" + v;
    WordHasNoMark(g);
    assert s[..|g|] == g && s[|g|] == '=';
    assert forall i :: 0 <= i < |g| ==> s[i] == g[i];
    assert First(s, '=') == |g|;
  }

  lemma StepIsCopied(s: string)
    requires s != [] && !Assigns(s)
    ensures RedactValues(true, s) == [s[0]] + RedactValues(!IsWord(s[0]), s[1..])
  {
  }

  lemma Peeled(g: string, v: string)
    requires g != []
    ensures (g + "=" + v)[1..] == g[1..] + "=" + v && (g + "=" + v)[0] == g[0]
    ensures [g[0]] + (g[1..] + "=" + v) == g + "=" + v
  {
  }

  lemma OtherNameIsKept(g: string, v: string)
    requires AllWord(g) && !Name(g) && '=' !in v
    ensures RedactValues(true, g + "=" + v) == g + "=" + v
  {
    OtherNameAssignsNothing(g, v);
    StepIsCopied(g + "=" + v);
    Peeled(g, v);
    InWordIsKept(g[1..], v);
    NoAssignment(true, v);
  }

  lemma NoQuotes(g: string, v: string)
    requires '"' !in g && ('"' !in v || v == MASK)
    ensures RedactPairs(g + "=" + v) == g + "=" + v
  {
    MaskIsSolid();
    NothingToPair(g + "=" + v);
  }

  /** For every one-word name and every value of one word: the value is replaced exactly if
      the name, in any case, is one of the six, and all else is left as it is. */
  lemma AssignmentOutcome(g: string, v: string)
    requires AllWord(g) && Solid(v) && '=' !in v && '"' !in v
    ensures RedactString(g + "=" + v)
         == if LowerCase(g) in {"refresh_token", "access_token", "authorization", "cookie", "ring_refresh_token",
                                "ring_access_token"}
            then g + "=" + "[REDACTED]" else g + "=" + v
  {
    WordHasNoMark(g);
    if Name(g) {
      OneValue(g, v);
      NoQuotes(g, MASK);
    } else {
      OtherNameIsKept(g, v);
      NoQuotes(g, v);
    }
  }

  // ---- pairs -----------------------------------------------------------------------------------

  lemma QuoteIsCopied(x: string, r: string)
    requires '"' !in x && !Name(x)
    ensures RedactPairs(['"'] + x + ['"'] + r) == ['"'] + x + RedactPairs(['"'] + r)
  {
    var t := x + ['"'] + r;
    QuoteAfter(x, r);
    assert ['"'] + x + ['"'] + r == ['"'] + t && (['"'] + t)[1..] == t;
    CharIsCopied('"', t);
    Grouped(x, ['"'], r);
    PlainIsCopied(x, ['"'] + r);
    Grouped(['"'], x, RedactPairs(['"'] + r));
  }

  lemma LastPairIsKept(v: string)
    requires '"' !in v
    ensures RedactPairs(['"'] + v + ['"']) == ['"'] + v + ['"']
  {
    var s := ['"'] + v + ['"'];
    Grouped(['"'] + v, ['"'], []);
    assert s == ['"'] + v + ['"'] + [];
    assert s[1..] == v + ['"'];
    QuoteAfter(v, []);
    assert v + ['"'] + [] == v + ['"'];
    CharIsCopied('"', v + ['"']);
    PlainIsCopied(v, ['"']);
    OneQuote([]);
    assert ['"'] + [] == ['"'];
    Grouped(['"'], v, ['"']);
  }

  lemma PairShape(g: string, sep: string, v: string)
    ensures PairText(g, sep, v, []) == ['"'] + g + ['"'] + (sep + (['"'] + v + ['"']))
    ensures ['"'] + (sep + (['"'] + v + ['"'])) == ['"'] + sep + ['"'] + (v + ['"'])
    ensures ['"'] + (v + ['"']) == ['"'] + v + ['"']
    ensures PairText(g, sep, v, []) == ['"'] + g + (['"'] + sep + (['"'] + v + ['"']))
  {
    assert PairText(g, sep, v, []) == ['"'] + g + ['"'] + sep + ['"'] + v + ['"'];
  }

  lemma OtherPairIsKept(g: string, sep: string, v: string)
    requires AllWord(g) && !Name(g) && Separator(sep) && '"' !in v
    ensures RedactPairs(PairText(g, sep, v, [])) == PairText(g, sep, v, [])
  {
    WordHasNoMark(g);
    SeparatorChars(sep);
    NoSeparatorIsAName(sep);
    PairShape(g, sep, v);
    QuoteIsCopied(g, sep + (['"'] + v + ['"']));
    QuoteIsCopied(sep, v + ['"']);
    LastPairIsKept(v);
  }

  lemma NoSeparatorIsAName(sep: string)
    requires Separator(sep)
    ensures !Name(sep)
  {
    if Name(sep) {
      NoQuoteInName(sep);
    }
  }

  lemma NothingAssigned(g: string, sep: string, v: string)
    requires AllWord(g) && Separator(sep) && '=' !in v
    ensures RedactString(PairText(g, sep, v, [])) == RedactPairs(PairText(g, sep, v, []))
  {
    var s := PairText(g, sep, v, []);
    WordHasNoMark(g);
    SeparatorChars(sep);
    NoAssignment(true, s);
  }

  lemma NamedPairIsMasked(g: string, sep: string, v: string)
    requires Name(g) && Separator(sep) && '"' !in v
    ensures RedactPairs(PairText(g, sep, v, [])) == MaskedPair(g)
  {
    PairOf(g, sep, v, []);
    assert MaskedPair(g) + [] == MaskedPair(g);
  }

  /** For every one-word name, separator and value: the value of the pair is replaced exactly
      if the name is one of the six, and then the separator is normalised; else the pair is
      left as it is. */
  lemma PairOutcome(g: string, sep: string, v: string)
    requires AllWord(g) && Separator(sep) && '=' !in v && '"' !in v
    ensures RedactString(PairText(g, sep, v, []))
         == if LowerCase(g) in {"refresh_token", "access_token", "authorization", "cookie", "ring_refresh_token",
                                "ring_access_token"}
            then ['"'] + g + ['"'] + ": " + ['"'] + "[REDACTED]" + ['"']
            else ['"'] + g + ['"'] + sep + ['"'] + v + ['"'] + []
  {
    NothingAssigned(g, sep, v);
    if Name(g) {
      NamedPairIsMasked(g, sep, v);
    } else {
      OtherPairIsKept(g, sep, v);
    }
  }

  /** Text without '=' and quotes is never changed. */
  lemma PlainIsKept(s: string)
    requires '=' !in s && '"' !in s
    ensures RedactString(s) == s
  {
    NoAssignment(true, s);
    NothingToPair(s);
  }
}
