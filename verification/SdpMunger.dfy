/** The SDP helpers of StreamSessionManager.swift as they run: loops over lines that
    fill arrays, a dictionary and a section buffer. */
module SdpMunger {
  import opened Common
  import opened SdpText
  import opened Sdp
  import opened SdpReorder
  import opened SdpMux

  // ---- one line more ---------------------------------------------------------------

  lemma TypesOneMore(lines: seq<string>, l: string)
    ensures MediaTypes(lines + [l]) == MediaTypes(lines) + if IsMedia(l) then [TypeOf(l)] else []
  {
    MediaTypesConcat(lines, [l]);
  }

  /** The sections after one more line: a new one, or the last one grown. */
  function Grow(ss: seq<seq<string>>, l: string): seq<seq<string>> {
    if IsMedia(l) then ss + [[l]]
    else if ss == [] then []
    else ss[..|ss| - 1] + [ss[|ss| - 1] + [l]]
  }

  lemma {:induction false} HeaderOneMore(lines: seq<string>, l: string)
    ensures Header(lines + [l]) == if Sections(lines) == [] && !IsMedia(l) then lines + [l] else Header(lines)
    ensures Sections(lines) == [] ==> Header(lines) == lines
  {
    if lines == [] {
    } else {
      assert (lines + [l])[1..] == lines[1..] + [l];
      HeaderOneMore(lines[1..], l);
    }
  }

  lemma {:induction false} SectionsOneMore(lines: seq<string>, l: string)
    ensures Sections(lines + [l]) == Grow(Sections(lines), l)
  {
    if lines == [] {
      assert lines + [l] == [l] && [l] + Header([l][1..]) == [l] && Sections([l][1..]) == [];
      assert Sections([l]) == if IsMedia(l) then [[l]] else [];
    } else {
      assert (lines + [l])[1..] == lines[1..] + [l];
      SectionsOneMore(lines[1..], l);
      HeaderOneMore(lines[1..], l);
      if IsMedia(lines[0]) {
        var s, ss := [lines[0]] + Header(lines[1..]), Sections(lines[1..]);
        assert Sections(lines) == [s] + ss;
        if IsMedia(l) {
          assert [s] + (ss + [[l]]) == ([s] + ss) + [[l]];
        } else if ss == [] {
          assert Header(lines[1..]) == lines[1..] && Header(lines[1..] + [l]) == lines[1..] + [l];
          assert [lines[0]] + (lines[1..] + [l]) == ([lines[0]] + lines[1..]) + [l];
          assert [s] + ss == [s] && Grow([s], l) == [s + [l]];
        } else {
          assert ([s] + ss)[..|ss|] == [s] + ss[..|ss| - 1];
        }
      }
    }
  }

  lemma {:induction false} FlatSnoc(ss: seq<seq<string>>, s: seq<string>)
    ensures Flat(ss + [s]) == Flat(ss) + s
  {
    if ss == [] {
      assert Flat([s]) == s + Flat([]);
    } else {
      assert (ss + [s])[1..] == ss[1..] + [s];
      FlatSnoc(ss[1..], s);
    }
  }

  lemma FixAllSnoc(ss: seq<seq<string>>, s: seq<string>)
    requires AreSections(ss) && IsSection(s)
    ensures AreSections(ss + [s]) && FixAll(ss + [s]) == FixAll(ss) + [Fix(s)]
  {
  }

  // ---- the helpers -------------------------------------------------------------------

  method ExtractMediaTypes(sdp: string) returns (mtypes: seq<string>)
    ensures mtypes == OfferTypes(sdp)
  {
    var lines := Split(sdp);
    mtypes := [];
    for i := 0 to |lines|
      invariant mtypes == MediaTypes(lines[..i])
    {
      TypesOneMore(lines[..i], lines[i]);
      assert lines[..i + 1] == lines[..i] + [lines[i]];
      if IsMedia(lines[i]) {
        mtypes := mtypes + [Strip(FirstWord(lines[i]))];
      }
    }
    assert lines[..|lines|] == lines;
  }

  /** Where the parsing loop stands after the given lines. */
  ghost predicate Parsing(lines: seq<string>, sessionLines: seq<string>, sections: map<string, seq<string>>,
                          currentMType: Option<string>, currentSection: seq<string>)
  {
    var ss := Sections(lines);
    && AreSections(ss)
    && sessionLines == Header(lines)
    && (currentMType.None? <==> ss == [])
    && (ss == [] ==> sections == map[])
    && (ss != [] ==>
          && IsSection(ss[|ss| - 1])
          && currentSection == ss[|ss| - 1]
          && currentMType.value == TypeOf(currentSection[0])
          && sections == Dict(ss[..|ss| - 1]))
  }

  lemma DictSnoc(ss: seq<seq<string>>)
    requires AreSections(ss) && ss != []
    ensures var last := ss[|ss| - 1];
            IsSection(last) && AreSections(ss[..|ss| - 1]) && Dict(ss) == Dict(ss[..|ss| - 1])[TypeOf(last[0]) := last]
  {
    assert IsSection(ss[|ss| - 1]);
  }

  /** What the dictionary is once the section in the buffer is stored. */
  lemma ParsingStored(lines: seq<string>, sessionLines: seq<string>, sections: map<string, seq<string>>,
                      currentMType: Option<string>, currentSection: seq<string>)
    requires Parsing(lines, sessionLines, sections, currentMType, currentSection)
    ensures AreSections(Sections(lines))
    ensures (if currentMType.Some? then sections[currentMType.value := currentSection] else sections)
         == Dict(Sections(lines))
  {
    if Sections(lines) != [] {
      DictSnoc(Sections(lines));
    }
  }

  lemma ParsingMedia(lines: seq<string>, l: string, sessionLines: seq<string>)
    requires IsMedia(l) && sessionLines == Header(lines)
    ensures AreSections(Sections(lines))
    ensures Parsing(lines + [l], sessionLines, Dict(Sections(lines)), Some(TypeOf(l)), [l])
  {
    HeaderOneMore(lines, l);
    SectionsOneMore(lines, l);
    SectionsAreSections(lines);
    SectionsAreSections(lines + [l]);
    assert (Sections(lines) + [[l]])[..|Sections(lines)|] == Sections(lines);
  }

  lemma ParsingOther(lines: seq<string>, l: string, sessionLines: seq<string>, sections: map<string, seq<string>>,
                     currentMType: Option<string>, currentSection: seq<string>)
    requires Parsing(lines, sessionLines, sections, currentMType, currentSection) && !IsMedia(l)
    ensures currentMType.None? ==> Parsing(lines + [l], sessionLines + [l], sections, currentMType, currentSection)
    ensures currentMType.Some? ==> Parsing(lines + [l], sessionLines, sections, currentMType, currentSection + [l])
  {
    var ss := Sections(lines);
    HeaderOneMore(lines, l);
    SectionsOneMore(lines, l);
    SectionsAreSections(lines + [l]);
    if ss != [] {
      assert Grow(ss, l)[..|ss| - 1] == ss[..|ss| - 1];
    }
  }

  method ParseSdpSections(sdp: string) returns (sessionLines: seq<string>, sections: map<string, seq<string>>)
    ensures sessionLines == Header(Split(sdp)) && sections == Parsed(sdp)
  {
    var lines := Split(sdp);
    sessionLines, sections := [], map[];
    var currentMType: Option<string> := None;
    var currentSection := [];
    for i := 0 to |lines|
      invariant Parsing(lines[..i], sessionLines, sections, currentMType, currentSection)
    {
      var line := lines[i];
      assert lines[..i + 1] == lines[..i] + [line];
      if IsMedia(line) {
        ParsingStored(lines[..i], sessionLines, sections, currentMType, currentSection);
        ParsingMedia(lines[..i], line, sessionLines);
        if currentMType.Some? {
          sections := sections[currentMType.value := currentSection];
        }
        currentMType := Some(Strip(FirstWord(line)));
        currentSection := [line];
      } else {
        ParsingOther(lines[..i], line, sessionLines, sections, currentMType, currentSection);
        if currentMType.None? {
          sessionLines := sessionLines + [line];
        } else {
          currentSection := currentSection + [line];
        }
      }
    }
    assert lines[..|lines|] == lines;
    ParsingStored(lines, sessionLines, sections, currentMType, currentSection);
    if currentMType.Some? {
      sections := sections[currentMType.value := currentSection];
    }
  }

  /** Where the insertion loop stands after the given lines. */
  ghost predicate Muxing(lines: seq<string>, result: seq<string>, currentSection: seq<string>, hasMux: bool) {
    var ss := Sections(lines);
    && AreSections(ss)
    && (currentSection == [] <==> ss == [])
    && (ss == [] ==> result == Header(lines) && !hasMux)
    && (ss != [] ==>
          && IsSection(ss[|ss| - 1])
          && currentSection == ss[|ss| - 1]
          && (hasMux <==> MUX in currentSection[1..])
          && result == Header(lines) + Flat(FixAll(ss[..|ss| - 1])))
  }

  lemma FlushFlat(h: seq<string>, init: seq<seq<string>>, s: seq<string>)
    requires AreSections(init) && IsSection(s)
    ensures AreSections(init + [s]) && h + Flat(FixAll(init + [s])) == h + Flat(FixAll(init)) + Fix(s)
  {
    FixAllSnoc(init, s);
    FlatSnoc(FixAll(init), Fix(s));
  }

  lemma FixPlaces(s: seq<string>)
    requires IsSection(s)
    ensures Fix(s) == if MUX in s[1..] then s else s[..1] + [MUX] + s[1..]
  {
    assert [s[0], MUX] == s[..1] + [MUX];
  }

  lemma MuxingFlush(lines: seq<string>, result: seq<string>, currentSection: seq<string>, hasMux: bool)
    requires Muxing(lines, result, currentSection, hasMux)
    ensures currentSection == [] ==> MuxedLines(lines) == result
    ensures currentSection != [] ==>
              && IsMedia(currentSection[0])
              && MuxedLines(lines)
              == result + if hasMux then currentSection else currentSection[..1] + [MUX] + currentSection[1..]
  {
    var ss := Sections(lines);
    if ss != [] {
      var init := ss[..|ss| - 1];
      assert ss == init + [currentSection];
      FlushFlat(Header(lines), init, currentSection);
      FixPlaces(currentSection);
    }
  }

  lemma MuxingMedia(lines: seq<string>, l: string)
    requires IsMedia(l)
    ensures Muxing(lines + [l], MuxedLines(lines), [l], false)
  {
    HeaderOneMore(lines, l);
    SectionsOneMore(lines, l);
    SectionsAreSections(lines);
    SectionsAreSections(lines + [l]);
    assert Grow(Sections(lines), l)[..|Sections(lines)|] == Sections(lines);
  }

  lemma MuxingOther(lines: seq<string>, l: string, result: seq<string>, currentSection: seq<string>, hasMux: bool)
    requires Muxing(lines, result, currentSection, hasMux) && !IsMedia(l)
    ensures currentSection == [] ==> Muxing(lines + [l], result + [l], [], hasMux)
    ensures currentSection != [] ==> Muxing(lines + [l], result, currentSection + [l], hasMux || l == MUX)
  {
    var ss := Sections(lines);
    HeaderOneMore(lines, l);
    SectionsOneMore(lines, l);
    SectionsAreSections(lines + [l]);
    if ss != [] {
      assert (currentSection + [l])[1..] == currentSection[1..] + [l];
      assert Grow(ss, l)[..|ss| - 1] == ss[..|ss| - 1];
    }
  }

  /** flushSection: what one buffered section adds to the result. */
  method FlushSection(result: seq<string>, currentSection: seq<string>, hasMux: bool, ghost lines: seq<string>)
    returns (flushed: seq<string>)
    requires Muxing(lines, result, currentSection, hasMux)
    ensures flushed == MuxedLines(lines)
  {
    MuxingFlush(lines, result, currentSection, hasMux);
    if currentSection == [] {
      return result;
    }
    var section := currentSection;
    if IsMedia(section[0]) && !hasMux {
      section := section[..1] + [MUX] + section[1..];
    }
    flushed := result + section;
  }

  method EnsureRtcpMux(sdp: string) returns (munged: string)
    ensures munged == Muxed(sdp)
  {
    var lines := Split(sdp);
    var result, currentSection, hasMux := [], [], false;
    for i := 0 to |lines|
      invariant Muxing(lines[..i], result, currentSection, hasMux)
    {
      var line := lines[i];
      assert lines[..i + 1] == lines[..i] + [line];
      if IsMedia(line) {
        MuxingMedia(lines[..i], line);
        result := FlushSection(result, currentSection, hasMux, lines[..i]);
        currentSection, hasMux := [line], false;
      } else {
        MuxingOther(lines[..i], line, result, currentSection, hasMux);
        if currentSection == [] {
          result := result + [line];
        } else {
          if line == MUX {
            hasMux := true;
          }
          currentSection := currentSection + [line];
        }
      }
    }
    assert lines[..|lines|] == lines;
    result := FlushSection(result, currentSection, hasMux, lines);
    munged := Join(result);
  }

  // ---- String ordering, for the sorted() of the early exit -----------------------------

  /** String comparison by character code. */
  predicate Less(a: string, b: string) {
    b != "" && (a == "" || a[0] < b[0] || (a[0] == b[0] && Less(a[1..], b[1..])))
  }

  lemma {:induction false} LessTotal(a: string, b: string)
    ensures Less(a, b) || a == b || Less(b, a)
  {
    if a != "" && b != "" && a[0] == b[0] {
      LessTotal(a[1..], b[1..]);
      assert a == [a[0]] + a[1..] && b == [b[0]] + b[1..];
    }
  }

  lemma {:induction false} LessTransitive(a: string, b: string, c: string)
    requires Less(a, b) && Less(b, c)
    ensures Less(a, c)
  {
    if a != "" && a[0] == b[0] && b[0] == c[0] {
      LessTransitive(a[1..], b[1..], c[1..]);
    }
  }

  predicate Ascending(ts: seq<string>) {
    forall i, j | 0 <= i < j < |ts| :: Less(ts[i], ts[j])
  }

  method Least(keys: set<string>) returns (least: string)
    requires keys != {}
    ensures least in keys && forall k | k in keys :: k == least || Less(least, k)
  {
    least :| least in keys;
    var rest := keys - {least};
    while rest != {}
      invariant rest <= keys && least in keys
      invariant forall k | k in keys && k !in rest :: k == least || Less(least, k)
      decreases |rest|
    {
      var k :| k in rest;
      rest := rest - {k};
      LessTotal(k, least);
      if Less(k, least) {
        forall q | q in keys && q !in rest ensures q == k || Less(k, q) {
          if q != least && q != k { LessTransitive(k, least, q); }
        }
        least := k;
      }
    }
  }

  /** The dictionary's keys, sorted. */
  method Sorted(keys: set<string>) returns (ts: seq<string>)
    ensures Ascending(ts) && |ts| == |keys| && forall k :: k in ts <==> k in keys
  {
    ts := [];
    var rest := keys;
    while rest != {}
      invariant rest <= keys && |ts| + |rest| == |keys|
      invariant forall k :: k in ts <==> k in keys && k !in rest
      invariant Ascending(ts) && forall k, i | k in rest && 0 <= i < |ts| :: Less(ts[i], k)
      decreases |rest|
    {
      var k := Least(rest);
      ts, rest := ts + [k], rest - {k};
    }
  }

  // ---- reorderMLinesToMatchOffer --------------------------------------------------------

  lemma {:induction false} Distinct(ts: seq<string>, keys: set<string>)
    requires |ts| == |keys| && forall k :: k in keys <==> k in ts
    ensures NoRepeats(ts)
  {
    if ts == [] {
    } else {
      var t, rest := ts[0], ts[1..];
      assert ts == [t] + rest;
      if t in rest {
        var others := set k | k in rest;
        assert others == keys;
        Fewer(rest);
      } else {
        Distinct(rest, keys - {t});
      }
    }
  }

  lemma {:induction false} Fewer(ts: seq<string>)
    ensures |set k | k in ts| <= |ts|
  {
    if ts == [] {
    } else {
      Fewer(ts[1..]);
      assert (set k | k in ts) == {ts[0]} + set k | k in ts[1..];
    }
  }

  lemma PicksSnoc(mtypes: seq<string>, i: nat, dict: map<string, seq<string>>)
    requires i < |mtypes|
    ensures Picks(mtypes[..i + 1], 0, dict) == Picks(mtypes[..i], 0, dict) + [Pick(mtypes[i], i, dict)]
  {
  }

  lemma PicksOneMore(h: seq<string>, mtypes: seq<string>, i: nat, dict: map<string, seq<string>>)
    requires i < |mtypes|
    ensures h + Flat(Picks(mtypes[..i + 1], 0, dict))
         == h + Flat(Picks(mtypes[..i], 0, dict)) + Pick(mtypes[i], i, dict)
  {
    PicksSnoc(mtypes, i, dict);
    FlatSnoc(Picks(mtypes[..i], 0, dict), Pick(mtypes[i], i, dict));
  }

  lemma ShortcutIsSound(offer: string, answer: string)
    requires OfferTypes(answer) == OfferTypes(offer) && |OfferTypes(offer)| == |Parsed(answer).Keys|
    ensures Reordered(offer, answer) == answer
  {
    ParsedGood(answer);
    Distinct(OfferTypes(offer), Parsed(answer).Keys);
    TypesOfSections(Split(answer));
    InOrderIsUnchanged(offer, answer);
  }

  /** Session lines, then the sections in offer order with stubs for missing ones. */
  method Reassemble(sessionLines: seq<string>, offerMTypes: seq<string>, sections: map<string, seq<string>>)
    returns (result: seq<string>)
    ensures result == sessionLines + Flat(Picks(offerMTypes, 0, sections))
  {
    result := sessionLines;
    assert offerMTypes[..0] == [] && sessionLines + [] == sessionLines;
    for i := 0 to |offerMTypes|
      invariant result == sessionLines + Flat(Picks(offerMTypes[..i], 0, sections))
    {
      PicksOneMore(sessionLines, offerMTypes, i, sections);
      result := result + Pick(offerMTypes[i], i, sections);
    }
    assert offerMTypes[..|offerMTypes|] == offerMTypes;
  }

  /** The early exit is only a shortcut: with or without it the result is the same. */
  method ReorderMLinesToMatchOffer(offer: string, answer: string) returns (reordered: string)
    ensures reordered == Reordered(offer, answer)
  {
    var offerMTypes := ExtractMediaTypes(offer);
    var sessionLines, answerSections := ParseSdpSections(answer);
    var sorted := Sorted(answerSections.Keys);
    var answerMTypes := ExtractMediaTypes(answer);
    if offerMTypes == sorted && |offerMTypes| == |answerSections.Keys| && answerMTypes == offerMTypes {
      ShortcutIsSound(offer, answer);
      return answer;
    }
    var result := Reassemble(sessionLines, offerMTypes, answerSections);
    reordered := Join(result);
  }
}
