/** Both rewrites of log text together: exactly when the value of a pair is hidden. */
module RedactedText {
  import opened Redaction
  import opened RedactedValues
  import opened RedactedPairs

  // ---- a quote and the first rewrite ---------------------------------------------------

  /** A field and '=' and no more. */
  predicate Bare(p: string) {
    p != [] && p[|p| - 1] == '=' && Name(p[..|p| - 1])
  }

  /** The first rewrite, in the course of p, begins a value that goes on at the end of p. */
  predicate InValue(boundary: bool, p: string)
    decreases |p|
  {
    p != [] &&
    if boundary && Assigns(p) then After(p) == [] || InValue(BoundaryAfter(p), After(p))
    else (boundary && Bare(p)) || InValue(!IsWord(p[0]), p[1..])
  }

  /** What it has written by then. */
  function Opened(boundary: bool, p: string): string
    requires InValue(boundary, p)
    decreases |p|
  {
    if boundary && Assigns(p) then
      if After(p) == [] then FieldOf(p) + "=" else FieldOf(p) + "=" + MASK + Opened(BoundaryAfter(p), After(p))
    else if boundary && Bare(p) then p
    else [p[0]] + Opened(!IsWord(p[0]), p[1..])
  }

  lemma QuoteIsNoName(b: bool, t: string)
    requires t != [] && t[0] == '"'
    ensures !Assigns(t) && RedactValues(b, t) == ['"'] + RedactValues(true, t[1..])
  {
    if Assigns(t) {
      StartsLikeAName(t);
    }
  }

  /** A quote behind p makes an assignment of p only if it is the first character of its value. */
  lemma QuoteAssigns(p: string, t: string)
    requires p != [] && t != [] && t[0] == '"' && Assigns(p + t)
    ensures Assigns(p) || Bare(p)
  {
    var s := p + t;
    var n := First(s, '=');
    assert s[|p|] == '"';
    if n > |p| {
      NotAName(s, |p|);
    }
    Skip(p, t);
    assert s[n] == p[n] && s[..n] == p[..n];
    if n + 1 < |p| {
      assert s[n + 1] == p[n + 1];
      OnlyOneName(p, n);
    }
  }

  lemma AssignedOver(p: string, t: string, y: string)
    requires EndsInside(p)
    requires RedactValues(BoundaryAfter(p), After(p) + t) == y
    ensures RedactValues(true, p + t) == FieldOf(p) + "=" + MASK + y
  {
    GoesOn(p, t);
    Assigned(p + t);
  }

  /** Text is rewritten in pieces if it is cut before a quote that no value takes. */
  lemma {:induction false} CutsAtQuote(boundary: bool, p: string, t: string)
    requires !InValue(boundary, p) && t != [] && t[0] == '"'
    ensures RedactValues(boundary, p + t) == RedactValues(boundary, p) + RedactValues(true, t)
    decreases |p|
  {
    if p == [] {
      assert p + t == t;
      QuoteIsNoName(boundary, t);
      QuoteIsNoName(true, t);
    } else if boundary && Assigns(p) {
      CutsAtQuote(BoundaryAfter(p), After(p), t);
      AssignedOver(p, t, RedactValues(BoundaryAfter(p), After(p)) + RedactValues(true, t));
      Assigned(p);
      Grouped(FieldOf(p) + "=" + MASK, RedactValues(BoundaryAfter(p), After(p)), RedactValues(true, t));
    } else {
      if boundary && Assigns(p + t) {
        QuoteAssigns(p, t);
      }
      CutsAtQuote(!IsWord(p[0]), p[1..], t);
      CutsStep(boundary, p, t);
    }
  }

  lemma OneValue(f: string, v: string)
    requires Name(f) && Solid(v)
    ensures RedactValues(true, f + "=" + v) == f + "=" + MASK
  {
    var s := f + "=" + v;
    assert s + [] == s;
    Assignment(f, v, []);
    Assigned(s);
    assert f + "=" + MASK + [] == f + "=" + MASK;
  }

  lemma BareAssignsNothing(p: string)
    requires Bare(p)
    ensures !Assigns(p)
  {
    OnlyOneName(p, |p| - 1);
  }

  lemma OpenedBare(p: string)
    requires Bare(p)
    ensures InValue(true, p) && Opened(true, p) == p
  {
    BareAssignsNothing(p);
  }

  lemma BareParts(p: string)
    requires Bare(p)
    ensures p == p[..|p| - 1] + "="
  {}

  lemma TakesBare(p: string, a: string)
    requires Solid(a) && Bare(p)
    ensures RedactValues(true, p + a) == p + MASK
  {
    BareParts(p);
    OneValue(p[..|p| - 1], a);
  }

  lemma LongerValue(f: string, v: string, a: string)
    requires Name(f) && Solid(v) && Solid(a)
    ensures RedactValues(true, f + "=" + v + a) == f + "=" + MASK
  {
    Grouped(f + "=", v, a);
    OneValue(f, v + a);
  }

  lemma TakesQuote(p: string, a: string)
    requires Solid(a) && Assigns(p) && After(p) == []
    ensures RedactValues(true, p + a) == Opened(true, p) + MASK
  {
    Apart(p);
    assert p == FieldOf(p) + "=" + Value(p);
    LongerValue(FieldOf(p), Value(p), a);
  }

  lemma OpenedStep(boundary: bool, p: string, a: string)
    requires p != [] && InValue(boundary, p) && !(boundary && Assigns(p)) && !(boundary && Bare(p))
    requires !(boundary && Assigns(p + a))
    requires RedactValues(!IsWord(p[0]), p[1..] + a) == Opened(!IsWord(p[0]), p[1..]) + MASK
    ensures RedactValues(boundary, p + a) == Opened(boundary, p) + MASK
  {
    Drop(p, a, 1);
    Grouped([p[0]], Opened(!IsWord(p[0]), p[1..]), MASK);
  }

  /** A value that goes on at the end of p takes a quote and all up to white space. */
  lemma {:induction false} TakesOn(boundary: bool, p: string, a: string)
    requires InValue(boundary, p) && Solid(a) && a[0] == '"'
    ensures RedactValues(boundary, p + a) == Opened(boundary, p) + MASK
    decreases |p|
  {
    if boundary && Assigns(p) {
      if After(p) == [] {
        TakesQuote(p, a);
      } else {
        TakesOn(BoundaryAfter(p), After(p), a);
        AssignedOver(p, a, Opened(BoundaryAfter(p), After(p)) + MASK);
        Grouped(FieldOf(p) + "=" + MASK, Opened(BoundaryAfter(p), After(p)), MASK);
      }
    } else if boundary && Bare(p) {
      OpenedBare(p);
      TakesBare(p, a);
    } else {
      if boundary && Assigns(p + a) {
        QuoteAssigns(p, a);
      }
      TakesOn(!IsWord(p[0]), p[1..], a);
      OpenedStep(boundary, p, a);
    }
  }

  lemma {:induction false} NoAssignment(boundary: bool, x: string)
    requires '=' !in x
    ensures RedactValues(boundary, x) == x && !InValue(boundary, x)
    decreases |x|
  {
    if x != [] {
      assert First(x, '=') == |x|;
      NoAssignment(!IsWord(x[0]), x[1..]);
    }
  }

  lemma {:induction false} NoNewQuote(boundary: bool, x: string)
    requires '"' !in x
    ensures '"' !in RedactValues(boundary, x)
    decreases |x|
  {
    if x == [] {
    } else if boundary && Assigns(x) {
      Apart(x);
      MaskIsSolid();
      NoNewQuote(BoundaryAfter(x), After(x));
    } else {
      NoNewQuote(!IsWord(x[0]), x[1..]);
    }
  }

  // ---- a pair and the first rewrite ------------------------------------------------------

  /** A value in quotes, the closing one of which no assignment inside it takes. */
  predicate Quotable(v: string) {
    '"' !in v && !InValue(true, v)
  }

  lemma QuoteThen(x: string)
    ensures (['"'] + x)[1..] == x && (['"'] + x)[0] == '"'
    ensures RedactValues(true, ['"'] + x) == ['"'] + RedactValues(true, x)
  {
    assert (['"'] + x)[1..] == x;
    QuoteIsNoName(true, ['"'] + x);
  }

  lemma QuoteIsNotBare(s: string)
    requires s != [] && s[0] == '"'
    ensures !Bare(s)
  {
    if Bare(s) {
      NameChars(s[..|s| - 1]);
    }
  }

  lemma NotFromQuote(s: string)
    requires s != [] && s[0] == '"' && !InValue(true, s[1..])
    ensures !InValue(true, s)
  {
    QuoteIsNoName(true, s);
    QuoteIsNotBare(s);
  }

  lemma NotInQuoted(v: string)
    requires !InValue(true, v)
    ensures !InValue(true, ['"'] + v)
  {
    assert (['"'] + v)[1..] == v;
    NotFromQuote(['"'] + v);
  }

  lemma QuotedIsCut(v: string, r: string)
    requires Quotable(v)
    ensures RedactValues(true, ['"'] + v + ['"'] + r)
         == ['"'] + RedactValues(true, v) + ['"'] + RedactValues(true, r)
  {
    Grouped(['"'] + v, ['"'], r);
    NotInQuoted(v);
    QuoteThen(v);
    QuoteThen(r);
    CutsAtQuote(true, ['"'] + v, ['"'] + r);
    Grouped(['"'] + RedactValues(true, v), ['"'], RedactValues(true, r));
  }

  lemma SeparatorChars(sep: string)
    requires Separator(sep)
    ensures '=' !in sep && '"' !in sep && sep != []
  {}

  lemma LeftOfValue(f: string, sep: string)
    requires Name(f) && Separator(sep)
    ensures '=' !in ['"'] + f + ['"'] + sep
  {
    NameChars(f);
    SeparatorChars(sep);
  }

  lemma PairTextCut(f: string, sep: string, v: string, r: string)
    ensures PairText(f, sep, v, r) == (['"'] + f + ['"'] + sep) + (['"'] + v + ['"'] + r)
  {}

  lemma PairIsCut(f: string, sep: string, v: string, r: string)
    requires Name(f) && Separator(sep) && Quotable(v)
    ensures RedactValues(true, PairText(f, sep, v, r))
         == PairText(f, sep, RedactValues(true, v), RedactValues(true, r))
  {
    var x := ['"'] + f + ['"'] + sep;
    LeftOfValue(f, sep);
    NoAssignment(true, x);
    PairTextCut(f, sep, v, r);
    PairTextCut(f, sep, RedactValues(true, v), RedactValues(true, r));
    QuotedIsCut(v, r);
    CutsAtQuote(true, x, ['"'] + v + ['"'] + r);
  }

  /** Before an opening quote that no value takes, text and pair are rewritten apart. */
  lemma TextIsCut(p: string, f: string, sep: string, v: string, r: string)
    requires Name(f) && Separator(sep) && Quotable(v) && !InValue(true, p)
    ensures RedactValues(true, p + PairText(f, sep, v, r))
         == RedactValues(true, p) + PairText(f, sep, RedactValues(true, v), RedactValues(true, r))
  {
    PairIsCut(f, sep, v, r);
    PairTextCut(f, sep, v, r);
    CutsAtQuote(true, p, PairText(f, sep, v, r));
  }

  lemma TextIsHidden(p: string, f: string, sep: string, v: string, w: string, r: string)
    requires Name(f) && Separator(sep) && Quotable(v) && Quotable(w)
    requires !InValue(true, p) && Free(RedactValues(true, p))
    ensures RedactString(p + PairText(f, sep, v, r)) == RedactString(p + PairText(f, sep, w, r))
  {
    TextIsCut(p, f, sep, v, r);
    TextIsCut(p, f, sep, w, r);
    NoNewQuote(true, v);
    NoNewQuote(true, w);
    PairIsHidden(RedactValues(true, p), f, sep, RedactValues(true, v), RedactValues(true, w), RedactValues(true, r));
  }

  lemma UnfinishedShows(p: string, f: string, sep: string, v: string, r: string)
    requires Name(f) && Separator(sep) && '"' !in v && '=' !in v
    requires !InValue(true, p) && !Free(RedactValues(true, p))
    ensures Shows(RedactString(p + PairText(f, sep, v, r)), v)
  {
    NoAssignment(true, v);
    TextIsCut(p, f, sep, v, r);
    PairShows(RedactValues(true, p), f, sep, v, RedactValues(true, r));
  }

  // ---- an opening quote that a value takes -----------------------------------------------

  /** v in quotes behind a bracket and text without quotes. */
  function Behind(x: string, e: string, v: string, r: string): string {
    x + (("]" + e) + (['"'] + v + ['"'] + r))
  }

  lemma NoFieldHolds(x: string, e: string)
    ensures !Name(x + ("]" + e)) && !Separator(x + ("]" + e))
  {
    var s := x + ("]" + e);
    assert s[|x|] == ']';
    if Name(s) {
      NameChars(s);
    }
  }

  lemma HoldsNoQuote(e: string)
    requires '"' !in e
    ensures '"' !in "]" + e
  {}

  lemma PlainBehind(x: string, e: string, v: string, r: string)
    requires '"' !in x && '"' !in e && '"' !in v
    ensures Shows(RedactPairs(Behind(x, e, v, r)), v)
  {
    var y, z := x + ("]" + e), ['"'] + v + ['"'] + r;
    Grouped(x, "]" + e, z);
    QuotedShows(v, r);
    PlainIsCopied(y, z);
    ShowsAfter(y, RedactPairs(z), v);
  }

  lemma BehindTail(x: string, e: string, v: string, r: string)
    requires x != []
    ensures Behind(x, e, v, r)[1..] == x[1..] + ("]" + e) + (['"'] + v + ['"'] + r)
    ensures Behind(x, e, v, r)[0] == x[0]
  {
    var y, t := "]" + e, ['"'] + v + ['"'] + r;
    Drop(x, y + t, 1);
    Grouped(x[1..], y, t);
  }

  /** What stands between the bracket and the quote before it names and separates nothing. */
  lemma NoPairOverBracket(x: string, e: string, v: string, r: string)
    requires '"' !in e && x != []
    requires '"' in x[1..] ==> '"' !in Cut(x[1..])
    ensures !Pairs(Behind(x, e, v, r))
  {
    var b, t := "]" + e, ['"'] + v + ['"'] + r;
    HoldsNoQuote(e);
    BehindTail(x, e, v, r);
    BracketTail(x[1..], b, t);
    if '"' in x[1..] {
      BracketTail(Cut(x[1..]), b, t);
      NoFieldHolds(Cut(x[1..]), e);
    } else {
      NoFieldHolds(x[1..], e);
    }
  }

  lemma QuotedTail(v: string, r: string)
    ensures (['"'] + v + ['"'] + r)[1..] == v + ['"'] + r
  {}

  /** A pair that begins in x, before the bracket, and is not over in x ends at the quote
      before v. */
  lemma PairEndsAtQuote(x: string, e: string, v: string, r: string)
    requires '"' !in e && x != [] && '"' in x[1..] && '"' in Cut(x[1..])
    requires !Pairs(x) && Pairs(Behind(x, e, v, r))
    ensures AfterPair(Behind(x, e, v, r)) == v + ['"'] + r
  {
    var b, t, c := "]" + e, ['"'] + v + ['"'] + r, Cut(x[1..]);
    QuotedTail(v, r);
    HoldsNoQuote(e);
    BehindTail(x, e, v, r);
    BracketTail(x[1..], b, t);
    BracketTail(c, b, t);
    BracketTail(Cut(c), b, t);
  }

  lemma BracketTail(x: string, b: string, t: string)
    requires '"' !in b && t != [] && t[0] == '"'
    ensures '"' in x + b + t
    ensures '"' in x ==> UpToQuote(x + b + t) == UpToQuote(x) && Cut(x + b + t) == Cut(x) + b + t
    ensures '"' !in x ==> UpToQuote(x + b + t) == x + b && Cut(x + b + t) == t[1..]
  {
    CutOver(x + b, t);
    if '"' in x {
      AtQuote(x);
      Grouped(UpToQuote(x) + ['"'], Cut(x), b);
      QuoteAfter(UpToQuote(x), Cut(x) + b);
    }
  }

  /** A value in quotes shows, whatever x is, if a bracket and no quote stands before it. */
  lemma {:induction false} BehindShows(x: string, e: string, v: string, r: string)
    requires '"' !in e && '"' !in v
    ensures Shows(RedactPairs(Behind(x, e, v, r)), v)
    decreases |x|
  {
    var z := ("]" + e) + (['"'] + v + ['"'] + r);
    if '"' !in x {
      PlainBehind(x, e, v, r);
    } else if Pairs(x) {
      BehindPair(x, e, v, r);
      BehindShows(AfterPair(x), e, v, r);
      ShowsAfter(MaskedPair(PairName(x)), RedactPairs(Behind(AfterPair(x), e, v, r)), v);
    } else if Pairs(Behind(x, e, v, r)) {
      if '"' in x[1..] ==> '"' !in Cut(x[1..]) {
        NoPairOverBracket(x, e, v, r);
        assert false;
      }
      PairEndsAtQuote(x, e, v, r);
      PlainIsCopied(v, ['"'] + r);
      Grouped(v, ['"'], r);
      assert v <= RedactPairs(v + ['"'] + r)[0..];
      ShowsAfter(MaskedPair(PairName(Behind(x, e, v, r))), RedactPairs(v + ['"'] + r), v);
    } else {
      Drop(x, z, 1);
      BehindShows(x[1..], e, v, r);
      ShowsAfter([x[0]], RedactPairs(Behind(x[1..], e, v, r)), v);
    }
  }

  lemma BehindPair(x: string, e: string, v: string, r: string)
    requires Pairs(x) && '"' !in e
    ensures var s := Behind(x, e, v, r);
            Pairs(s) && PairName(s) == PairName(x) && AfterPair(s) == Behind(AfterPair(x), e, v, r)
  {
    var b, t := "]" + e, ['"'] + v + ['"'] + r;
    HoldsNoQuote(e);
    BehindTail(x, e, v, r);
    BracketTail(x[1..], b, t);
    BracketTail(Cut(x[1..]), b, t);
    BracketTail(Cut(Cut(x[1..])), b, t);
    Grouped(AfterPair(x), b, t);
  }

  lemma SolidSeparator(sep: string)
    requires Separator(sep) && Run(sep) == |sep|
    ensures sep == ":"
  {
    assert !IsSpace(sep[0]) && !IsSpace(sep[|sep| - 1]);
    assert sep == [sep[0]];
  }

  /** The field and the separator up to its first white space go with a value that takes
      the opening quote. */
  lemma SpacedSeparator(sep: string) returns (d: string, e: string)
    requires Separator(sep) && sep != ":"
    ensures sep == d + e && e != [] && IsSpace(e[0]) && '=' !in e && '"' !in e
    ensures forall i :: 0 <= i < |d| ==> !IsSpace(d[i]) && d[i] != '"'
  {
    var n := Run(sep);
    SeparatorChars(sep);
    if n == |sep| {
      SolidSeparator(sep);
      assert false;
    }
    d, e := sep[..n], sep[n..];
  }

  lemma SolidField(f: string, d: string)
    requires Name(f) && forall i :: 0 <= i < |d| ==> !IsSpace(d[i])
    ensures Solid(['"'] + f + ['"'] + d) && (['"'] + f + ['"'] + d)[0] == '"'
  {
    NameChars(f);
    var a := ['"'] + f + ['"'] + d;
    forall i | 0 <= i < |a|
      ensures !IsSpace(a[i])
    {
      assert 1 <= i < |f| + 1 ==> a[i] == f[i - 1];
      assert i >= |f| + 2 ==> a[i] == d[i - |f| - 2];
    }
  }

  lemma SpacedParts(p: string, f: string, d: string, e: string, v: string, r: string)
    ensures p + PairText(f, d + e, v, r)
         == (p + (['"'] + f + ['"'] + d)) + (e + (['"'] + v + ['"'] + r))
  {}

  lemma MaskEnds(x: string, e: string, v: string, r: string)
    ensures (x + MASK) + (e + (['"'] + v + ['"'] + r)) == Behind(x + "[REDACTED", e, v, r)
  {
    assert MASK == "[REDACTED" + "]";
  }

  lemma TakenQuoteShows(p: string, f: string, sep: string, v: string, r: string)
    requires Name(f) && Separator(sep) && sep != ":" && '"' !in v && '=' !in v && InValue(true, p)
    ensures Shows(RedactString(p + PairText(f, sep, v, r)), v)
  {
    var d, e := SpacedSeparator(sep);
    var a, t := ['"'] + f + ['"'] + d, ['"'] + v + ['"'] + r;
    NoAssignment(true, v);
    NoAssignment(true, e);
    SpacedParts(p, f, d, e, v, r);
    SolidField(f, d);
    TakesOn(true, p, a);
    CutsAtSpace(true, p + a, e + t);
    CutsAtQuote(true, e, t);
    QuotedIsCut(v, r);
    MaskEnds(Opened(true, p), e, v, RedactValues(true, r));
    BehindShows(Opened(true, p) + "[REDACTED", e, v, RedactValues(true, r));
  }

  lemma ColonParts(p: string, f: string, v: string, a: string, r: string)
    ensures p + PairText(f, ":", v, a + r) == (p + (['"'] + f + ['"'] + (":" + ['"'] + v + ['"'] + a))) + r
  {}

  lemma TakesAll(p: string, f: string, v: string, a: string, r: string)
    requires Name(f) && Solid(v) && (a == [] || Solid(a)) && Ends(r) && InValue(true, p)
    ensures RedactValues(true, p + PairText(f, ":", v, a + r)) == Opened(true, p) + MASK + RedactValues(true, r)
  {
    var d := ":" + ['"'] + v + ['"'] + a;
    ColonParts(p, f, v, a, r);
    SolidField(f, d);
    TakesOn(true, p, ['"'] + f + ['"'] + d);
    CutsAtSpace(true, p + (['"'] + f + ['"'] + d), r);
  }

  /** With no white space in the separator the value of the pair goes too. */
  lemma TakenWhole(p: string, f: string, v: string, w: string, r: string)
    requires Name(f) && Solid(v) && Solid(w) && InValue(true, p)
    ensures RedactString(p + PairText(f, ":", v, r)) == RedactString(p + PairText(f, ":", w, r))
  {
    var n := Run(r);
    assert r == r[..n] + r[n..];
    TakesAll(p, f, v, r[..n], r[n..]);
    TakesAll(p, f, w, r[..n], r[n..]);
  }

  // ---- the theorem -------------------------------------------------------------------------

  /** A value of one word in quotes. */
  predicate Fits(v: string) {
    Solid(v) && Quotable(v)
  }

  /** The text p before a pair does not keep its value from being hidden. */
  predicate Hides(p: string, sep: string) {
    if InValue(true, p) then sep == ":" else Free(RedactValues(true, p))
  }

  lemma LongValue(n: nat) returns (v: string)
    ensures |v| > n && Fits(v) && '=' !in v
  {
    v := seq(n + 1, i => 'x');
    NoAssignment(true, v);
  }

  /** The filter hides the value of a pair, so that the outcome is the same for every
      value, if and only if the text before it leaves no pair unfinished and its opening
      quote is not taken into a value by the first rewrite; or if it is, the value of the
      pair is taken along, for want of white space in the separator. */
  lemma PairHidden(p: string, f: string, sep: string, r: string)
    requires Name(f) && Separator(sep)
    ensures Hides(p, sep) <==>
            forall v, w :: Fits(v) && Fits(w) ==>
              RedactString(p + PairText(f, sep, v, r)) == RedactString(p + PairText(f, sep, w, r))
  {
    if Hides(p, sep) {
      forall v, w | Fits(v) && Fits(w)
        ensures RedactString(p + PairText(f, sep, v, r)) == RedactString(p + PairText(f, sep, w, r))
      {
        if InValue(true, p) {
          TakenWhole(p, f, v, w, r);
        } else {
          TextIsHidden(p, f, sep, v, w, r);
        }
      }
    } else {
      var v := LongValue(0);
      var t := RedactString(p + PairText(f, sep, v, r));
      var w := LongValue(|t|);
      ValueShows(p, f, sep, w, r);
      assert RedactString(p + PairText(f, sep, w, r)) != t;
    }
  }

  /** In the other case the value stands in the outcome. */
  lemma ValueShows(p: string, f: string, sep: string, v: string, r: string)
    requires Name(f) && Separator(sep) && '"' !in v && '=' !in v && !Hides(p, sep)
    ensures Shows(RedactString(p + PairText(f, sep, v, r)), v)
  {
    if InValue(true, p) {
      TakenQuoteShows(p, f, sep, v, r);
    } else {
      UnfinishedShows(p, f, sep, v, r);
    }
  }

  /** Such text exists: behind `field="` the value of a pair shows, as the first rewrite
      takes the name of the pair for the value of the field. */
  lemma QuotedPairShows(g: string, f: string, v: string, r: string)
    requires Name(g) && Name(f) && '"' !in v && '=' !in v
    ensures Shows(RedactString(g + "=" + ['"'] + PairText(f, ": ", v, r)), v)
  {
    var p := g + "=" + ['"'];
    assert p + [] == p;
    Assignment(g, ['"'], []);
    assert Separator(": ");
    ValueShows(p, f, ": ", v, r);
  }
}
