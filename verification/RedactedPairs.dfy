/** The second rewrite of log text: it is stable, keeps what the first rewrite ensured,
    and hides the value of a pair unless the text before it leaves a pair unfinished. */
module RedactedPairs {
  import opened Redaction
  import opened RedactedValues

  // ---- the second rewrite ------------------------------------------------------------

  /** s and t agree up to their first quote, which neither or both have. */
  predicate SamePlain(s: string, t: string) {
    if s == [] || t == [] then s == t else s[0] == t[0] && (s[0] == '"' || SamePlain(s[1..], t[1..]))
  }

  lemma {:induction false} SameUpToQuote(s: string, t: string)
    requires SamePlain(s, t)
    ensures UpToQuote(s) == UpToQuote(t) && ('"' in s <==> '"' in t)
    ensures '"' !in s ==> s == t
  {
    if s != [] && s[0] != '"' {
      SameUpToQuote(s[1..], t[1..]);
      assert UpToQuote(s) == [s[0]] + UpToQuote(s[1..]) && UpToQuote(t) == [t[0]] + UpToQuote(t[1..]);
      assert s == [s[0]] + s[1..] && t == [t[0]] + t[1..];
    }
  }

  lemma {:induction false} PairsKeepPlain(s: string)
    ensures SamePlain(s, RedactPairs(s))
    decreases |s|
  {
    if s != [] && !Pairs(s) {
      PairsKeepPlain(s[1..]);
      assert RedactPairs(s)[1..] == RedactPairs(s[1..]);
    }
  }

  lemma NoPairAt(c: char, s: string)
    requires c != '"'
    ensures !Pairs([c] + s)
  {}

  lemma CharIsCopied(c: char, s: string)
    requires !Pairs([c] + s)
    ensures RedactPairs([c] + s) == [c] + RedactPairs(s)
  {
    assert ([c] + s)[1..] == s;
  }

  /** Text before the first quote is copied. */
  lemma {:induction false} PlainIsCopied(x: string, s: string)
    requires '"' !in x
    ensures RedactPairs(x + s) == x + RedactPairs(s)
  {
    if x == [] {
      assert x + s == s;
    } else {
      var y, t := x[1..], RedactPairs(s);
      PlainIsCopied(y, s);
      NoPairAt(x[0], y + s);
      CharIsCopied(x[0], y + s);
      Moved(x, s);
      Moved(x, t);
    }
  }

  lemma QuoteAfter(x: string, s: string)
    requires '"' !in x
    ensures '"' in x + ['"'] + s && UpToQuote(x + ['"'] + s) == x && Cut(x + ['"'] + s) == s
  {
    var t := x + ['"'] + s;
    assert t[|x|] == '"' && forall i :: 0 <= i < |x| ==> t[i] == x[i];
    assert First(t, '"') == |x|;
  }

  lemma AtQuote(s: string)
    requires '"' in s
    ensures s == UpToQuote(s) + ['"'] + Cut(s) && '"' !in UpToQuote(s)
  {
    var n := First(s, '"');
    assert s == s[..n] + [s[n]] + s[n + 1..];
  }

  /** `"field"sep"` with a closing quote to come makes a pair. */
  lemma PairOf(f: string, sep: string, v: string, r: string)
    requires Name(f) && Separator(sep) && '"' !in v
    ensures var s := ['"'] + f + ['"'] + sep + ['"'] + v + ['"'] + r;
            Pairs(s) && PairName(s) == f && AfterPair(s) == r
  {
    var s := ['"'] + f + ['"'] + sep + ['"'] + v + ['"'] + r;
    NoQuoteInName(f);
    var z := v + ['"'] + r;
    var y := sep + ['"'] + z;
    assert s[1..] == f + ['"'] + y;
    QuoteAfter(f, y);
    QuoteAfter(sep, z);
    QuoteAfter(v, r);
  }

  lemma MaskedPairIsAPair(f: string, r: string)
    requires Name(f)
    ensures var s := MaskedPair(f) + r; Pairs(s) && PairName(s) == f && AfterPair(s) == r
  {
    MaskIsSolid();
    PairOf(f, ": ", MASK, r);
  }

  lemma OneQuote(r: string)
    requires '"' !in r
    ensures RedactPairs(['"'] + r) == ['"'] + r
  {
    assert (['"'] + r)[1..] == r;
    PlainIsCopied(r, []);
    assert r + [] == r;
  }

  lemma LastQuote(s: string)
    requires '"' in s && '"' !in Cut(s)
    ensures RedactPairs(s) == s
  {
    AtQuote(s);
    var x, r := UpToQuote(s), Cut(s);
    PlainIsCopied(x, ['"'] + r);
    OneQuote(r);
    Grouped(x, ['"'], r);
  }

  /** Rewriting what follows a quote makes no pair begin at it. */
  lemma ValueStillFollows(s: string)
    requires ValueFollows(RedactPairs(s))
    ensures ValueFollows(s)
  {
    PairsKeepPlain(s);
    SameUpToQuote(s, RedactPairs(s));
    if '"' !in Cut(s) {
      LastQuote(s);
    }
  }

  lemma NoPairBeforeName(x: string, f: string, u: string)
    requires '"' !in x && '"' !in f && !Separator(f)
    ensures !Pairs(['"'] + (x + ['"'] + (f + ['"'] + u)))
  {
    var t := x + ['"'] + (f + ['"'] + u);
    QuoteAfter(f, u);
    QuoteAfter(x, f + ['"'] + u);
    assert (['"'] + t)[1..] == t;
  }

  lemma Regrouped(x: string, q: string, f: string, k: string, m: string, z: string)
    ensures x + (q + f + q + k + q + m + q + z) == x + q + (f + q + (k + q + m + q + z))
  {}

  /** The rewritten text after an opening quote, when a pair begins at the next quote:
      what stands between the two quotes cannot name a pair. */
  lemma NoPairBeforePair(x: string, r: string)
    requires '"' !in x && Pairs(r)
    ensures !Pairs(['"'] + (x + RedactPairs(r)))
  {
    var f, z := PairName(r), RedactPairs(AfterPair(r));
    NoQuoteInName(f);
    NoPairBeforeName(x, f, ": " + ['"'] + MASK + ['"'] + z);
    Regrouped(x, ['"'], f, ": ", MASK, z);
  }

  lemma NoPairBeforeQuote(x: string, r: string)
    requires '"' !in x && Pairs(['"'] + (x + ['"'] + RedactPairs(r)))
    ensures Pairs(['"'] + (x + ['"'] + r))
  {
    var s, t := x + ['"'] + r, x + ['"'] + RedactPairs(r);
    assert (['"'] + t)[1..] == t && (['"'] + s)[1..] == s;
    QuoteAfter(x, r);
    QuoteAfter(x, RedactPairs(r));
    ValueStillFollows(r);
  }

  lemma NoNewPairAt(x: string, c: string)
    requires '"' !in x && Pairs(['"'] + RedactPairs(x + (['"'] + c)))
    ensures Pairs(['"'] + (x + ['"'] + c))
  {
    var r := ['"'] + c;
    PlainIsCopied(x, r);
    if Pairs(r) {
      NoPairBeforePair(x, r);
    } else {
      CharIsCopied('"', c);
      assert x + (['"'] + RedactPairs(c)) == x + ['"'] + RedactPairs(c);
      NoPairBeforeQuote(x, c);
    }
  }

  lemma NothingToPair(s: string)
    requires '"' !in s
    ensures RedactPairs(s) == s
  {
    PairsKeepPlain(s);
    SameUpToQuote(s, RedactPairs(s));
  }

  lemma NoNewPair(s: string)
    requires Pairs(['"'] + RedactPairs(s))
    ensures Pairs(['"'] + s)
  {
    if '"' in s {
      AtQuote(s);
      Grouped(UpToQuote(s), ['"'], Cut(s));
      NoNewPairAt(UpToQuote(s), Cut(s));
    } else {
      NothingToPair(s);
    }
  }

  /** The second rewrite does nothing the second time. */
  lemma {:induction false} PairsAreKept(s: string)
    ensures RedactPairs(RedactPairs(s)) == RedactPairs(s)
    decreases |s|
  {
    if s == [] {
    } else if Pairs(s) {
      PairsAreKept(AfterPair(s));
      MaskedPairIsAPair(PairName(s), RedactPairs(AfterPair(s)));
    } else {
      PairsAreKept(s[1..]);
      var t := RedactPairs(s[1..]);
      assert s == [s[0]] + s[1..] && ([s[0]] + t)[1..] == t;
      if Pairs([s[0]] + t) {
        NoNewPair(s[1..]);
      }
    }
  }

  // ---- the second rewrite keeps what the first ensured -------------------------------

  lemma {:induction false} SamePlainTurned(s: string, t: string)
    requires SamePlain(s, t)
    ensures SamePlain(t, s)
  {
    if s != [] && s[0] != '"' {
      SamePlainTurned(s[1..], t[1..]);
    }
  }

  lemma {:induction false} SamePlainPrefix(x: string, s: string, t: string) returns (r: string)
    requires '"' !in x && SamePlain(x + s, t)
    ensures t == x + r && SamePlain(s, r)
  {
    if x == [] {
      r := t;
      assert x + s == s;
    } else {
      Moved(x, s);
      assert (x + s)[1..] == x[1..] + s && (x + s)[0] == x[0];
      r := SamePlainPrefix(x[1..], s, t[1..]);
      assert t == [t[0]] + t[1..];
      Moved(x, r);
    }
  }

  /** Where the texts agree up to the first quote, an assignment in one is in the other. */
  lemma SameAssigns(s: string, t: string)
    requires SamePlain(s, t) && Assigns(t)
    ensures Assigns(s) && FieldOf(s) == FieldOf(t)
  {
    Apart(t);
    var f, z := FieldOf(t), Value(t) + After(t);
    Grouped(f + "=", Value(t), After(t));
    NoQuoteInName(f);
    SamePlainTurned(s, t);
    var r := SamePlainPrefix(f + "=", z, s);
    AssignsOf(f, r);
  }

  /** ... and if its value is the mask, so is the other's. */
  lemma SameMasked(s: string, t: string)
    requires SamePlain(s, t) && Assigns(s) && Value(s) == MASK
    ensures Assigns(t) && Value(t) == MASK
  {
    Apart(s);
    MaskIsSolid();
    var f := FieldOf(s);
    NoQuoteInName(f);
    var r := SamePlainPrefix(f + "=" + MASK, After(s), t);
    Assignment(f, MASK, r);
  }

  lemma CleanCut(boundary: bool, s: string)
    requires Clean(boundary, s) && '"' in s
    ensures Clean(true, Cut(s))
  {
    CleanSuffix(boundary, s, First(s, '"') + 1);
  }

  lemma CleanAfterPair(boundary: bool, s: string)
    requires Clean(boundary, s) && Pairs(s)
    ensures Clean(true, AfterPair(s))
  {
    CleanCut(!IsWord(s[0]), s[1..]);
    CleanCut(true, Cut(s[1..]));
    CleanCut(true, Cut(Cut(s[1..])));
  }

  lemma MaskedPairIsClean(boundary: bool, f: string, r: string)
    requires Name(f) && Clean(true, r)
    ensures Clean(boundary, MaskedPair(f) + r)
  {
    NameChars(f);
    MaskIsSolid();
    var x := ['"'] + f + ['"'] + ": " + ['"'] + MASK;
    CleanPast(boundary, x, '"', r);
  }

  lemma {:induction false} PairsKeepClean(boundary: bool, s: string)
    requires Clean(boundary, s)
    ensures Clean(boundary, RedactPairs(s))
    decreases |s|
  {
    if s == [] {
    } else if Pairs(s) {
      CleanAfterPair(boundary, s);
      PairsKeepClean(true, AfterPair(s));
      MaskedPairIsClean(boundary, PairName(s), RedactPairs(AfterPair(s)));
    } else {
      PairsKeepClean(!IsWord(s[0]), s[1..]);
      var t := RedactPairs(s);
      assert t[0] == s[0] && t[1..] == RedactPairs(s[1..]);
      if boundary && Assigns(t) {
        PairsKeepPlain(s);
        SameAssigns(s, t);
        SameMasked(s, t);
      }
    }
  }

  // ---- the value of a pair does not show, unless a pair before it swallows a quote -----

  function PairText(f: string, sep: string, v: string, r: string): string {
    ['"'] + f + ['"'] + sep + ['"'] + v + ['"'] + r
  }

  /** p begins a pair of which it lacks the closing, or the opening, quote of the value. */
  predicate HalfPair(p: string) {
    && p != [] && p[0] == '"' && '"' in p[1..] && Name(UpToQuote(p[1..]))
    && HalfValue(Cut(p[1..]))
  }

  predicate HalfValue(s: string) {
    if '"' in s then Separator(UpToQuote(s)) && '"' !in Cut(s) else Separator(s)
  }

  /** The scan of p does not end inside an unfinished pair. */
  predicate Free(p: string)
    decreases |p|
  {
    p == [] || if Pairs(p) then Free(AfterPair(p)) else !HalfPair(p) && Free(p[1..])
  }

  lemma CutOver(x: string, t: string)
    requires t != [] && t[0] == '"'
    ensures '"' in x ==> UpToQuote(x + t) == UpToQuote(x) && Cut(x + t) == Cut(x) + t
    ensures '"' !in x ==> UpToQuote(x + t) == x && Cut(x + t) == t[1..]
    ensures '"' in x + t
  {
    if '"' in x {
      AtQuote(x);
      var u, c := UpToQuote(x), Cut(x);
      Grouped(u + ['"'], c, t);
      QuoteAfter(u, c + t);
    } else {
      assert t == ['"'] + t[1..];
      Grouped(x, ['"'], t[1..]);
      QuoteAfter(x, t[1..]);
    }
  }

  lemma ValueOver(s: string, t: string)
    requires t != [] && t[0] == '"' && '"' in t[1..]
    ensures ValueFollows(s + t) == (ValueFollows(s) || HalfValue(s))
  {
    CutOver(s, t);
    if '"' in s {
      CutOver(Cut(s), t);
    }
  }

  /** Whether a pair begins p is settled by p, if a field that is no separator follows. */
  lemma PairOver(p: string, f: string, u: string)
    requires p != [] && Name(f)
    ensures Pairs(p + (['"'] + f + ['"'] + u)) == (Pairs(p) || HalfPair(p))
  {
    var t := ['"'] + f + ['"'] + u;
    assert t[1..] == f + ['"'] + u;
    NoQuoteInName(f);
    QuoteAfter(f, u);
    Drop(p, t, 1);
    CutOver(p[1..], t);
    if '"' in p[1..] {
      ValueOver(Cut(p[1..]), t);
    }
  }

  lemma AfterPairOver(p: string, t: string)
    requires Pairs(p) && t != [] && t[0] == '"' && Pairs(p + t)
    ensures PairName(p + t) == PairName(p) && AfterPair(p + t) == AfterPair(p) + t
  {
    Drop(p, t, 1);
    CutOver(p[1..], t);
    CutOver(Cut(p[1..]), t);
    CutOver(Cut(Cut(p[1..])), t);
  }

  lemma AfterHalfValue(s: string, f: string, u: string)
    requires HalfValue(s) && '"' !in f
    ensures var t := ['"'] + f + ['"'] + u;
            '"' in s + t && '"' in Cut(s + t) && Cut(Cut(s + t)) in {f + ['"'] + u, u}
  {
    var t := ['"'] + f + ['"'] + u;
    assert t[1..] == f + ['"'] + u;
    QuoteAfter(f, u);
    CutOver(s, t);
    if '"' in s {
      CutOver(Cut(s), t);
    }
  }

  /** A pair that p leaves unfinished ends at one of the two quotes of the field. */
  lemma AfterHalfPair(p: string, f: string, u: string)
    requires HalfPair(p) && Name(f) && Pairs(p + (['"'] + f + ['"'] + u))
    ensures AfterPair(p + (['"'] + f + ['"'] + u)) in {f + ['"'] + u, u}
  {
    var t := ['"'] + f + ['"'] + u;
    NoQuoteInName(f);
    Drop(p, t, 1);
    CutOver(p[1..], t);
    AfterHalfValue(Cut(p[1..]), f, u);
  }

  lemma PairTextParts(f: string, sep: string, v: string, r: string)
    ensures PairText(f, sep, v, r) == ['"'] + f + ['"'] + (sep + ['"'] + v + ['"'] + r)
  {}

  lemma {:induction false} PairIsHidden(p: string, f: string, sep: string, v: string, w: string, r: string)
    requires Name(f) && Separator(sep) && '"' !in v && '"' !in w && Free(p)
    ensures RedactPairs(p + PairText(f, sep, v, r)) == RedactPairs(p + PairText(f, sep, w, r))
    decreases |p|
  {
    var s, t := PairText(f, sep, v, r), PairText(f, sep, w, r);
    PairTextParts(f, sep, v, r);
    PairTextParts(f, sep, w, r);
    if p == [] {
      assert p + s == s && p + t == t;
      PairOf(f, sep, v, r);
      PairOf(f, sep, w, r);
      return;
    }
    PairOver(p, f, sep + ['"'] + v + ['"'] + r);
    PairOver(p, f, sep + ['"'] + w + ['"'] + r);
    if Pairs(p) {
      AfterPairOver(p, s);
      AfterPairOver(p, t);
      PairIsHidden(AfterPair(p), f, sep, v, w, r);
    } else {
      Drop(p, s, 1);
      Drop(p, t, 1);
      PairIsHidden(p[1..], f, sep, v, w, r);
    }
  }

  /** v stands in s. */
  ghost predicate Shows(s: string, v: string) {
    exists i :: 0 <= i <= |s| && v <= s[i..]
  }

  lemma ShowsIn(x: string, v: string, y: string)
    ensures Shows(x + v + y, v)
  {
    Grouped(x, v, y);
    Skip(x, v + y);
    assert v <= (x + v + y)[|x|..];
  }

  lemma ShowsAfter(x: string, s: string, v: string)
    requires Shows(s, v)
    ensures Shows(x + s, v)
  {
    var i :| 0 <= i <= |s| && v <= s[i..];
    assert (x + s)[|x| + i..] == s[i..];
  }

  lemma MaskedNameParts(q: string, f: string, k: string, m: string)
    ensures q + f + q + k + q + m + q == q + f + (q + k + q + m + q)
  {}

  lemma MaskedNameShows(v: string, z: string)
    ensures Shows(MaskedPair(v) + z, v)
  {
    var k := ['"'] + ": " + ['"'] + MASK + ['"'];
    ShowsIn(['"'], v, k + z);
    MaskedNameParts(['"'], v, ": ", MASK);
    Grouped(['"'] + v, k, z);
  }

  lemma QuotedShows(v: string, r: string)
    requires '"' !in v
    ensures Shows(RedactPairs(['"'] + v + ['"'] + r), v)
  {
    var s, u := ['"'] + v + ['"'] + r, v + ['"'] + r;
    assert s[1..] == u;
    QuoteAfter(v, r);
    if Pairs(s) {
      MaskedNameShows(v, RedactPairs(AfterPair(s)));
    } else {
      Grouped(v, ['"'], r);
      PlainIsCopied(v, ['"'] + r);
      assert v <= RedactPairs(u)[0..];
      ShowsAfter(['"'], RedactPairs(u), v);
    }
  }

  /** A separator before the quoted value, or a field and a quote before that, do not
      hide it. */
  lemma TailShows(sep: string, v: string, r: string)
    requires Separator(sep) && '"' !in v
    ensures Shows(RedactPairs(sep + ['"'] + v + ['"'] + r), v)
    ensures Shows(RedactPairs(['"'] + (sep + ['"'] + v + ['"'] + r)), v)
  {
    var z := ['"'] + v + ['"'] + r;
    var u := sep + ['"'] + v + ['"'] + r;
    assert u == sep + z && '"' !in sep;
    QuotedShows(v, r);
    PlainIsCopied(sep, z);
    ShowsAfter(sep, RedactPairs(z), v);
    assert (['"'] + u)[1..] == u && u == sep + ['"'] + (v + ['"'] + r);
    QuoteAfter(sep, v + ['"'] + r);
    assert !Name(sep) by {
      if Name(sep) {
        NoQuoteInName(sep);
      }
    }
    CharIsCopied('"', u);
    ShowsAfter(['"'], RedactPairs(u), v);
  }

  lemma {:induction false} PairShows(p: string, f: string, sep: string, v: string, r: string)
    requires Name(f) && Separator(sep) && '"' !in v && !Free(p)
    ensures Shows(RedactPairs(p + PairText(f, sep, v, r)), v)
    decreases |p|
  {
    var t, u := PairText(f, sep, v, r), sep + ['"'] + v + ['"'] + r;
    PairTextParts(f, sep, v, r);
    PairOver(p, f, u);
    if Pairs(p) {
      AfterPairOver(p, t);
      PairShows(AfterPair(p), f, sep, v, r);
      ShowsAfter(MaskedPair(PairName(p)), RedactPairs(AfterPair(p) + t), v);
    } else if HalfPair(p) {
      AfterHalfPair(p, f, u);
      TailShows(sep, v, r);
      NoQuoteInName(f);
      PlainIsCopied(f, ['"'] + u);
      Grouped(f, ['"'], u);
      ShowsAfter(f, RedactPairs(['"'] + u), v);
      ShowsAfter(MaskedPair(PairName(p + t)), RedactPairs(AfterPair(p + t)), v);
    } else {
      Drop(p, t, 1);
      PairShows(p[1..], f, sep, v, r);
      ShowsAfter([p[0]], RedactPairs(p[1..] + t), v);
    }
  }

  /** The second rewrite hides the value of a pair exactly when the text before it does
      not leave an unfinished pair: then the outcome is the same for every value. */
  lemma PairHiddenIff(p: string, f: string, sep: string, r: string)
    requires Name(f) && Separator(sep)
    ensures Free(p) <==>
            forall v, w :: '"' !in v && '"' !in w ==>
              RedactPairs(p + PairText(f, sep, v, r)) == RedactPairs(p + PairText(f, sep, w, r))
  {
    if Free(p) {
      forall v, w | '"' !in v && '"' !in w
        ensures RedactPairs(p + PairText(f, sep, v, r)) == RedactPairs(p + PairText(f, sep, w, r))
      {
        PairIsHidden(p, f, sep, v, w, r);
      }
    } else {
      var t := RedactPairs(p + PairText(f, sep, [], r));
      var w := seq(|t| + 1, i => 'x');
      PairShows(p, f, sep, w, r);
      assert RedactPairs(p + PairText(f, sep, w, r)) != t;
    }
  }

  lemma HalfPairOf(f: string)
    requires Name(f)
    ensures var p := ['"'] + f + ['"'] + ":"; HalfPair(p) && !Pairs(p)
  {
    var p := ['"'] + f + ['"'] + ":";
    NoQuoteInName(f);
    assert p[1..] == f + ['"'] + ":";
    QuoteAfter(f, ":");
  }

  /** Such text exists: a field with a colon but without a value makes the value of the
      pair after it show, whatever it is. */
  lemma SwallowedQuote(f: string, g: string, v: string)
    requires Name(f) && Name(g) && '"' !in v
    ensures var p := ['"'] + f + ['"'] + ":";
            !Free(p) && Shows(RedactPairs(p + PairText(g, ":", v, [])), v)
  {
    HalfPairOf(f);
    PairShows(['"'] + f + ['"'] + ":", g, ":", v, []);
  }
}
