/** When the reordered answer matches the offer, and what it then consists of. */
module SdpReorder {
  import opened SdpText
  import opened Decimal
  import opened Sdp

  // ---- media types of one line ---------------------------------------------------

  /** The text contains "m=", which the type extraction would remove. */
  ghost predicate HasMark(t: string) {
    exists k :: 0 <= k <= |t| && IsMedia(t[k..])
  }

  /** A media type that survives being written into a stub and read back. */
  ghost predicate Safe(t: string) {
    !Breaks(t) && !HasMark(t)
  }

  lemma {:induction false} StripFixes(t: string)
    ensures Strip(t) == t <==> !HasMark(t)
    decreases |t|
  {
    if t == "" {
    } else if IsMedia(t) {
      assert t[0..] == t;
    } else {
      StripFixes(t[1..]);
      assert forall k | 0 <= k < |t| :: t[1..][k..] == t[k + 1..];
      if HasMark(t) {
        var k :| 0 <= k <= |t| && IsMedia(t[k..]);
        assert t[0..] == t && k > 0;
        assert IsMedia(t[1..][k - 1..]);
      }
    }
  }

  /** Every "m=" is removed, from the left, and nothing else. */
  lemma {:induction false} StripNext(a: string, b: string)
    requires !HasMark(a)
    ensures Strip(a + "m=" + b) == a + Strip(b)
  {
    var s := a + "m=" + b;
    if a == "" {
      assert s[2..] == b;
    } else {
      assert a[0..] == a && s[0] == a[0];
      assert !IsMedia(s) by {
        assert |a| >= 2 ==> s[1] == a[1];
        assert |a| == 1 ==> s[1] == 'm';
      }
      assert forall k | 0 <= k <= |a| - 1 :: a[1..][k..] == a[k + 1..];
      StripNext(a[1..], b);
      assert s[1..] == a[1..] + "m=" + b;
    }
  }

  lemma {:induction false} NoSpaces(s: string)
    ensures ' ' !in FirstWord(s)
  {
    if s == "" || s[0] == ' ' {
    } else {
      NoSpaces(s[1..]);
    }
  }

  lemma {:induction false} StripKeeps(s: string, c: char)
    requires c !in s
    ensures c !in Strip(s)
    decreases |s|
  {
    if s == "" {
    } else if IsMedia(s) {
      StripKeeps(s[2..], c);
    } else {
      StripKeeps(s[1..], c);
    }
  }

  lemma {:induction false} WordBeforeSpace(w: string, rest: string)
    requires ' ' !in w && (rest == "" || rest[0] == ' ')
    ensures FirstWord(w + rest) == w
  {
    if w == "" {
      assert w + rest == rest;
    } else {
      assert (w + rest)[1..] == w[1..] + rest;
      WordBeforeSpace(w[1..], rest);
    }
  }

  /** The type read from a line "m=" + w, a space, and anything. */
  lemma TypeAfterMark(w: string, rest: string)
    requires ' ' !in w && (rest == "" || rest[0] == ' ')
    ensures IsMedia("m=" + w + rest) && TypeOf("m=" + w + rest) == Strip(w)
  {
    WordBeforeSpace("m=" + w, rest);
    assert ("m=" + w)[2..] == w;
  }

  lemma {:induction false} MediaTypesConcat(a: seq<string>, b: seq<string>)
    ensures MediaTypes(a + b) == MediaTypes(a) + MediaTypes(b)
  {
    if a == [] {
      assert a + b == b;
    } else {
      assert (a + b)[0] == a[0] && (a + b)[1..] == a[1..] + b;
      MediaTypesConcat(a[1..], b);
    }
  }

  lemma {:induction false} MediaTypesPlain(lines: seq<string>)
    requires Plain(lines)
    ensures MediaTypes(lines) == []
  {
    if lines == [] {
    } else {
      MediaTypesPlain(lines[1..]);
    }
  }

  lemma MediaTypesOfSection(s: seq<string>)
    requires IsSection(s)
    ensures MediaTypes(s) == [TypeOf(s[0])]
  {
    MediaTypesPlain(s[1..]);
  }

  lemma {:induction false} TypesHaveNoSpaces(lines: seq<string>)
    ensures forall t | t in MediaTypes(lines) :: ' ' !in t
  {
    if lines == [] {
    } else {
      TypesHaveNoSpaces(lines[1..]);
      NoSpaces(lines[0]);
      StripKeeps(FirstWord(lines[0]), ' ');
    }
  }

  // ---- stubs ------------------------------------------------------------------------

  const TAIL := " 0 UDP/TLS/RTP/SAVPF 0"

  lemma StubIsSection(t: string, i: nat)
    ensures IsSection(Stub(t, i))
  {
  }

  lemma BreakInHead(t: string)
    ensures forall k: nat :: BreakAt("m=" + t + TAIL, k) <==> k >= 2 && BreakAt(t, k - 2)
  {
    var l := "m=" + t + TAIL;
    assert forall k | 0 <= k < |TAIL| :: TAIL[k] != '\r' && TAIL[k] != '\n';
    forall k: nat ensures BreakAt(l, k) <==> k >= 2 && BreakAt(t, k - 2) {
      assert k + 1 >= 2 + |t| && k + 1 < |l| ==> l[k + 1] == TAIL[k + 1 - 2 - |t|];
    }
  }

  lemma {:induction false} DigitsUnbroken(n: nat)
    ensures !Breaks("a=mid:" + Digits(n))
  {
    var l := "a=mid:" + Digits(n);
    forall k: nat ensures !BreakAt(l, k) {
      assert k + 1 < |l| ==> l[k] in "a=mid:" || l[k] in Digits(n);
    }
  }

  lemma SafeStubUnbroken(t: string, i: nat)
    requires !Breaks(t)
    ensures Unbroken(Stub(t, i))
  {
    BreakInHead(t);
    DigitsUnbroken(i);
  }

  lemma SafeStub(t: string, i: nat)
    requires Safe(t) && ' ' !in t
    ensures MediaTypes(Recut(Stub(t, i))) == [t]
  {
    SafeStubUnbroken(t, i);
    RecutUnbroken(Stub(t, i));
    StubIsSection(t, i);
    MediaTypesOfSection(Stub(t, i));
    TypeAfterMark(t, TAIL);
    StripFixes(t);
  }

  /** A stub for any other type does not read back as that type. */
  lemma UnsafeStub(t: string, i: nat)
    requires !Safe(t) && ' ' !in t
    ensures MediaTypes(Recut(Stub(t, i))) != [] && MediaTypes(Recut(Stub(t, i)))[0] != t
  {
    var l := "m=" + t + TAIL;
    BreakInHead(t);
    if Breaks(t) {
      var c := Cut(l);
      assert exists k: nat :: BreakAt(t, k);
      var k: nat :| BreakAt(t, k);
      assert BreakAt(l, k + 2);
      assert 2 <= c < |t| + 1 && Breaks(l);
      var w := t[..c - 2];
      assert l[..c] == "m=" + w + "";
      TypeAfterMark(w, "");
      assert Split(l)[0] == l[..c];
      assert TypeOf(l[..c]) == Strip(w);
    } else {
      assert !Breaks(l);
      TypeAfterMark(t, TAIL);
      StripFixes(t);
      assert Split(l)[0] == l;
    }
    assert Recut(Stub(t, i))[0] == Split(l)[0];
  }

  // ---- lines of the answer stay whole ---------------------------------------------

  lemma {:induction false} SectionUnbroken(lines: seq<string>, s: seq<string>)
    requires Unbroken(lines) && s in Sections(lines)
    ensures Unbroken(s)
  {
    if lines == [] {
    } else {
      assert Unbroken(lines[1..]);
      if s in Sections(lines[1..]) {
        SectionUnbroken(lines[1..], s);
      } else {
        assert !Breaks(lines[0]);
        assert Unbroken(Header(lines[1..]));
      }
    }
  }

  lemma HeaderUnbroken(lines: seq<string>)
    requires Unbroken(lines)
    ensures Unbroken(Header(lines))
  {
    assert forall i | 0 <= i < |Header(lines)| :: Header(lines)[i] == lines[i];
  }

  /** Every entry of the parsed dictionary is a whole section under its own type. */
  ghost predicate GoodDict(dict: map<string, seq<string>>) {
    forall t | t in dict :: IsSection(dict[t]) && TypeOf(dict[t][0]) == t && Unbroken(dict[t])
  }

  lemma ParsedGood(answer: string)
    ensures GoodDict(Parsed(answer))
    ensures forall t :: t in Parsed(answer) <==> t in MediaTypes(Split(answer))
  {
    var lines := Split(answer);
    SplitUnbroken(answer);
    SectionsAreSections(lines);
    TypesOfSections(lines);
    DictTypes(Sections(lines));
    forall t | t in Parsed(answer)
      ensures IsSection(Parsed(answer)[t]) && TypeOf(Parsed(answer)[t][0]) == t && Unbroken(Parsed(answer)[t])
    {
      DictEntry(Sections(lines), t);
      SectionUnbroken(lines, Parsed(answer)[t]);
    }
  }

  // ---- the answer matches the offer -------------------------------------------------

  ghost predicate MissingSafe(mtypes: seq<string>, dict: map<string, seq<string>>) {
    forall t | t in mtypes && t !in dict :: Safe(t)
  }

  lemma TypesOfPick(t: string, i: nat, dict: map<string, seq<string>>)
    requires GoodDict(dict) && ' ' !in t
    ensures var ts := MediaTypes(Recut(Pick(t, i, dict)));
            if t in dict || Safe(t) then ts == [t] else ts != [] && ts[0] != t
  {
    if t in dict {
      RecutUnbroken(dict[t]);
      MediaTypesOfSection(dict[t]);
    } else if Safe(t) {
      SafeStub(t, i);
    } else {
      UnsafeStub(t, i);
    }
  }

  lemma MissingSafeCons(mtypes: seq<string>, dict: map<string, seq<string>>)
    requires mtypes != []
    ensures MissingSafe(mtypes, dict) <==> (mtypes[0] in dict || Safe(mtypes[0])) && MissingSafe(mtypes[1..], dict)
  {
    assert forall t :: t in mtypes <==> t == mtypes[0] || t in mtypes[1..];
  }

  lemma SameHead(ts: seq<string>, us: seq<string>, mtypes: seq<string>)
    requires mtypes != [] && ts != []
    ensures ts == [mtypes[0]] ==> (ts + us == mtypes <==> us == mtypes[1..])
    ensures ts[0] != mtypes[0] ==> ts + us != mtypes
  {
    assert ts == [mtypes[0]] ==> (ts + us)[1..] == us;
    assert mtypes == [mtypes[0]] + mtypes[1..];
    assert (ts + us)[0] == ts[0];
  }

  lemma TypesOfPicks(mtypes: seq<string>, i: nat, dict: map<string, seq<string>>)
    requires mtypes != []
    ensures MediaTypes(Recut(Flat(Picks(mtypes, i, dict))))
            == MediaTypes(Recut(Pick(mtypes[0], i, dict))) + MediaTypes(Recut(Flat(Picks(mtypes[1..], i + 1, dict))))
  {
    var first, rest := Pick(mtypes[0], i, dict), Picks(mtypes[1..], i + 1, dict);
    FlatCons(first, rest);
    RecutConcat(first, Flat(rest));
    MediaTypesConcat(Recut(first), Recut(Flat(rest)));
  }

  lemma {:induction false} PicksMatch(mtypes: seq<string>, i: nat, dict: map<string, seq<string>>)
    requires GoodDict(dict) && forall t | t in mtypes :: ' ' !in t
    ensures MediaTypes(Recut(Flat(Picks(mtypes, i, dict)))) == mtypes <==> MissingSafe(mtypes, dict)
  {
    if mtypes == [] {
    } else {
      TypesOfPick(mtypes[0], i, dict);
      PicksMatch(mtypes[1..], i + 1, dict);
      TypesOfPicks(mtypes, i, dict);
      SameHead(MediaTypes(Recut(Pick(mtypes[0], i, dict))),
               MediaTypes(Recut(Flat(Picks(mtypes[1..], i + 1, dict)))), mtypes);
      MissingSafeCons(mtypes, dict);
    }
  }

  lemma PicksNonempty(mtypes: seq<string>, dict: map<string, seq<string>>)
    requires GoodDict(dict) && mtypes != []
    ensures Flat(Picks(mtypes, 0, dict)) != []
  {
    assert Pick(mtypes[0], 0, dict) != [];
  }

  /** The lines that the reordered text is cut into. */
  lemma ReorderedCut(offer: string, answer: string)
    ensures MediaTypes(Split(Reordered(offer, answer)))
            == MediaTypes(Recut(Flat(Picks(OfferTypes(offer), 0, Parsed(answer)))))
  {
    var h, f := Header(Split(answer)), Flat(Picks(OfferTypes(offer), 0, Parsed(answer)));
    if h + f == [] {
      assert Split("") == [""];
      assert f == [];
    } else {
      SplitJoinRecuts(h + f);
      RecutConcat(h, f);
      SplitUnbroken(answer);
      HeaderUnbroken(Split(answer));
      RecutUnbroken(h);
      HeaderPlain(Split(answer));
      MediaTypesPlain(h);
      MediaTypesConcat(h, Recut(f));
    }
  }

  /** Section 6 of RFC 3264: the reordered answer has the offer's m-lines in the
      offer's order, exactly when every type the answer lacks is safe to write. */
  lemma AnswerMatchesOffer(offer: string, answer: string)
    ensures OfferTypes(Reordered(offer, answer)) == OfferTypes(offer)
            <==> (forall t | t in OfferTypes(offer) && t !in OfferTypes(answer) :: Safe(t))
  {
    ReorderedCut(offer, answer);
    ParsedGood(answer);
    TypesHaveNoSpaces(Split(offer));
    PicksMatch(OfferTypes(offer), 0, Parsed(answer));
  }

  lemma StripExample()
    ensures Strip("mm==x") == "m=x"
  {
    assert "mm==x"[1..] == "m==x" && "m==x"[2..] == "=x" && "=x"[1..] == "x" && "x"[1..] == "";
    assert Strip("=x") == ['='] + Strip("x");
  }

  lemma LoneLine(l: string)
    requires !Breaks(l)
    ensures Split(l) == [l] && OfferTypes(l) == MediaTypes([l])
  {}

  /** The law does fail otherwise: the type read from this offer is "m=x", and its
      stub is read back as "x". */
  lemma UnsafeOfferFails()
    ensures OfferTypes(Reordered("m=mm==x", "")) != OfferTypes("m=mm==x")
  {
    var offer := "m=mm==x";
    assert forall k: nat :: !BreakAt(offer, k) && !BreakAt("", k);
    LoneLine(offer);
    LoneLine("");
    TypeAfterMark("mm==x", "");
    StripExample();
    assert offer == "m=" + "mm==x" + "";
    assert OfferTypes(offer) == ["m=x"];
    assert IsMedia("m=x"[0..]);
    AnswerMatchesOffer(offer, "");
    assert "m=x" in OfferTypes(offer) && !Safe("m=x") && OfferTypes("") == [];
  }

  // ---- what the reordered answer consists of -------------------------------------------

  lemma {:induction false} PicksUnbroken(mtypes: seq<string>, i: nat, dict: map<string, seq<string>>)
    requires GoodDict(dict) && MissingSafe(mtypes, dict)
    ensures AreSections(Picks(mtypes, i, dict)) && Unbroken(Flat(Picks(mtypes, i, dict)))
  {
    if mtypes == [] {
    } else {
      PicksUnbroken(mtypes[1..], i + 1, dict);
      if mtypes[0] !in dict {
        assert Safe(mtypes[0]);
        SafeStubUnbroken(mtypes[0], i);
        StubIsSection(mtypes[0], i);
      }
      FlatCons(Pick(mtypes[0], i, dict), Picks(mtypes[1..], i + 1, dict));
    }
  }

  lemma ReorderedLinesUnbroken(offer: string, answer: string)
    requires MissingSafe(OfferTypes(offer), Parsed(answer))
    ensures Unbroken(ReorderedLines(offer, answer))
    ensures AreSections(Picks(OfferTypes(offer), 0, Parsed(answer)))
  {
    ParsedGood(answer);
    PicksUnbroken(OfferTypes(offer), 0, Parsed(answer));
    SplitUnbroken(answer);
    HeaderUnbroken(Split(answer));
  }

  /** Each section of the output is, verbatim, the answer's last section of that type
      or else the port-0 stub whose mid is its index; the session lines are kept. */
  lemma ReorderedSections(offer: string, answer: string)
    requires forall t | t in OfferTypes(offer) && t !in OfferTypes(answer) :: Safe(t)
    ensures Sections(Split(Reordered(offer, answer))) == Picks(OfferTypes(offer), 0, Parsed(answer))
    ensures ReorderedLines(offer, answer) != [] ==> Header(Split(Reordered(offer, answer))) == Header(Split(answer))
  {
    ParsedGood(answer);
    ReorderedLinesUnbroken(offer, answer);
    HeaderPlain(Split(answer));
    WholeMakesParts(Header(Split(answer)), Picks(OfferTypes(offer), 0, Parsed(answer)));
    if ReorderedLines(offer, answer) != [] {
      SplitJoin(ReorderedLines(offer, answer));
    } else {
      if OfferTypes(offer) != [] {
        PicksNonempty(OfferTypes(offer), Parsed(answer));
      }
      assert Split("") == [""];
    }
  }

  // ---- an answer already in offer order ------------------------------------------------

  /** Sections with the same type are the same. */
  ghost predicate RepeatsAgree(text: string) {
    var ss, ts := Sections(Split(text)), MediaTypes(Split(text));
    |ts| == |ss| && forall i, j | 0 <= i < |ss| && 0 <= j < |ss| && ts[i] == ts[j] :: ss[i] == ss[j]
  }

  lemma {:induction false} LastOfType(ts: seq<string>, i: nat) returns (k: nat)
    requires i < |ts|
    ensures i <= k < |ts| && ts[k] == ts[i] && forall j | k < j < |ts| :: ts[j] != ts[k]
    decreases |ts| - i
  {
    if j :| i < j < |ts| && ts[j] == ts[i] {
      k := LastOfType(ts, j);
    } else {
      k := i;
    }
  }

  lemma PicksOwn(answer: string, i: nat)
    requires i < |MediaTypes(Split(answer))|
    ensures MediaTypes(Split(answer))[i] in Parsed(answer)
    ensures Picks(OfferTypes(answer), 0, Parsed(answer))[i] == Parsed(answer)[MediaTypes(Split(answer))[i]]
  {
    ParsedGood(answer);
  }

  lemma OwnSection(answer: string, i: nat)
    requires RepeatsAgree(answer) && i < |MediaTypes(Split(answer))|
    ensures MediaTypes(Split(answer))[i] in Parsed(answer)
    ensures Parsed(answer)[MediaTypes(Split(answer))[i]] == Sections(Split(answer))[i]
  {
    var k := LastOfType(MediaTypes(Split(answer)), i);
    SectionsAreSections(Split(answer));
    TypesOfSections(Split(answer));
    DictIsLast(Sections(Split(answer)), k);
  }

  /** If the types of the answer are already those of the offer, picking by type gives
      the sections of the answer exactly when repeated types have equal sections. */
  lemma PicksAreSections(answer: string)
    ensures Picks(OfferTypes(answer), 0, Parsed(answer)) == Sections(Split(answer)) <==> RepeatsAgree(answer)
  {
    var ss, ts := Sections(Split(answer)), MediaTypes(Split(answer));
    var ps := Picks(ts, 0, Parsed(answer));
    TypesOfSections(Split(answer));
    if RepeatsAgree(answer) {
      forall i | 0 <= i < |ss| ensures ps[i] == ss[i] {
        PicksOwn(answer, i);
        OwnSection(answer, i);
      }
    }
    if ps == ss {
      forall i, j | 0 <= i < |ss| && 0 <= j < |ss| && ts[i] == ts[j] ensures ss[i] == ss[j] {
        PicksOwn(answer, i);
        PicksOwn(answer, j);
      }
    }
  }

  /** For an answer whose m-lines are the offer's, in the offer's order, reordering
      gives back the exact text if and only if repeated types have equal sections. */
  lemma InOrderIsUnchanged(offer: string, answer: string)
    requires OfferTypes(answer) == OfferTypes(offer)
    ensures Reordered(offer, answer) == answer <==> RepeatsAgree(answer)
  {
    var lines := Split(answer);
    PicksAreSections(answer);
    PartsMakeWhole(lines);
    JoinSplit(answer);
    if Reordered(offer, answer) == answer {
      ParsedGood(answer);
      ReorderedSections(offer, answer);
    }
  }

  predicate NoRepeats(ts: seq<string>) {
    forall i, j | 0 <= i < j < |ts| :: ts[i] != ts[j]
  }

  /** With no repeated type, joining the parsed parts in document order gives the text. */
  lemma ParsePrintRoundTrip(text: string)
    requires NoRepeats(OfferTypes(text))
    ensures Reordered(text, text) == text
  {
    SectionsAreSections(Split(text));
    TypesOfSections(Split(text));
    InOrderIsUnchanged(text, text);
  }

  // ---- reordering twice -------------------------------------------------------------------

  lemma StubsDiffer(t: string, i: nat, j: nat)
    ensures Stub(t, i) == Stub(t, j) <==> i == j
  {
    if Stub(t, i) == Stub(t, j) {
      assert Stub(t, i)[3] == "a=mid:" + Digits(i) && Stub(t, j)[3] == "a=mid:" + Digits(j);
      assert ("a=mid:" + Digits(i))[6..] == Digits(i) && ("a=mid:" + Digits(j))[6..] == Digits(j);
      DigitsInjective(i, j);
    }
  }

  /** Every type that occurs twice in ts is present. */
  predicate RepeatsPresent(ts: seq<string>, present: seq<string>) {
    forall i, j | 0 <= i < j < |ts| && ts[i] == ts[j] :: ts[i] in present
  }

  ghost predicate SamePicks(ts: seq<string>, d: map<string, seq<string>>) {
    forall i, j | 0 <= i < |ts| && 0 <= j < |ts| && ts[i] == ts[j] :: Picks(ts, 0, d)[i] == Picks(ts, 0, d)[j]
  }

  lemma PickPair(ts: seq<string>, d: map<string, seq<string>>, i: nat, j: nat)
    requires i < |ts| && j < |ts| && ts[i] == ts[j]
    ensures Picks(ts, 0, d)[i] == Picks(ts, 0, d)[j] <==> (i == j || ts[i] in d)
  {
    StubsDiffer(ts[i], i, j);
  }

  lemma PicksAgree(ts: seq<string>, d: map<string, seq<string>>, present: seq<string>)
    requires forall t :: t in d <==> t in present
    ensures SamePicks(ts, d) <==> RepeatsPresent(ts, present)
  {
    if SamePicks(ts, d) {
      forall i, j | 0 <= i < j < |ts| && ts[i] == ts[j] ensures ts[i] in present {
        PickPair(ts, d, i, j);
      }
    } else {
      var i, j :| 0 <= i < |ts| && 0 <= j < |ts| && ts[i] == ts[j] && Picks(ts, 0, d)[i] != Picks(ts, 0, d)[j];
      PickPair(ts, d, i, j);
      assert ts[i] !in present && (i < j || j < i);
    }
  }

  lemma RepeatsOnce(offer: string, answer: string)
    requires forall t | t in OfferTypes(offer) && t !in OfferTypes(answer) :: Safe(t)
    ensures RepeatsAgree(Reordered(offer, answer)) <==> SamePicks(OfferTypes(offer), Parsed(answer))
  {
    AnswerMatchesOffer(offer, answer);
    ReorderedSections(offer, answer);
  }

  /** Reordering twice is reordering once, exactly when no type that the answer lacks
      occurs twice in the offer (its two stubs have different mids). */
  lemma ReorderingTwice(offer: string, answer: string)
    requires forall t | t in OfferTypes(offer) && t !in OfferTypes(answer) :: Safe(t)
    ensures Reordered(offer, Reordered(offer, answer)) == Reordered(offer, answer)
            <==> RepeatsPresent(OfferTypes(offer), OfferTypes(answer))
  {
    AnswerMatchesOffer(offer, answer);
    InOrderIsUnchanged(offer, Reordered(offer, answer));
    RepeatsOnce(offer, answer);
    ParsedGood(answer);
    PicksAgree(OfferTypes(offer), Parsed(answer), OfferTypes(answer));
  }
}
