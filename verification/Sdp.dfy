/** Reordering the m-lines of an SDP answer to match the offer
    (StreamSessionManager.swift), on lines and on whole texts. */
module Sdp {
  import opened SdpText
  import opened Decimal

  // ---- media lines and their types --------------------------------------------

  predicate IsMedia(line: string) {
    |line| >= 2 && line[0] == 'm' && line[1] == '='
  }

  /** The first piece of components(separatedBy: " "). */
  function FirstWord(s: string): string {
    if s == "" || s[0] == ' ' then "" else [s[0]] + FirstWord(s[1..])
  }

  /** replacingOccurrences(of: "m=", with: ""). */
  function Strip(s: string): (r: string)
    ensures |r| <= |s|
    decreases |s|
  {
    if s == "" then ""
    else if IsMedia(s) then Strip(s[2..])
    else [s[0]] + Strip(s[1..])
  }

  function TypeOf(line: string): string {
    Strip(FirstWord(line))
  }

  function MediaTypes(lines: seq<string>): seq<string> {
    if lines == [] then []
    else (if IsMedia(lines[0]) then [TypeOf(lines[0])] else []) + MediaTypes(lines[1..])
  }

  // ---- session lines and media sections ---------------------------------------

  function Header(lines: seq<string>): (h: seq<string>)
    ensures h <= lines
  {
    if lines == [] || IsMedia(lines[0]) then [] else [lines[0]] + Header(lines[1..])
  }

  /** Each section is an m-line with the lines up to the next one. */
  function Sections(lines: seq<string>): seq<seq<string>> {
    if lines == [] then []
    else if IsMedia(lines[0]) then [[lines[0]] + Header(lines[1..])] + Sections(lines[1..])
    else Sections(lines[1..])
  }

  function Flat(ss: seq<seq<string>>): seq<string> {
    if ss == [] then [] else ss[0] + Flat(ss[1..])
  }

  predicate Plain(lines: seq<string>) {
    forall i | 0 <= i < |lines| :: !IsMedia(lines[i])
  }

  predicate IsSection(s: seq<string>) {
    s != [] && IsMedia(s[0]) && Plain(s[1..])
  }

  predicate AreSections(ss: seq<seq<string>>) {
    forall i | 0 <= i < |ss| :: IsSection(ss[i])
  }

  lemma {:induction false} HeaderPlain(lines: seq<string>)
    ensures Plain(Header(lines))
  {
    if lines == [] || IsMedia(lines[0]) {
    } else {
      HeaderPlain(lines[1..]);
    }
  }

  lemma {:induction false} SectionsAreSections(lines: seq<string>)
    ensures AreSections(Sections(lines))
  {
    if lines == [] {
    } else {
      SectionsAreSections(lines[1..]);
      HeaderPlain(lines[1..]);
    }
  }

  lemma FlatCons(s: seq<string>, ss: seq<seq<string>>)
    ensures Flat([s] + ss) == s + Flat(ss)
  {
    assert ([s] + ss)[1..] == ss;
  }

  /** Nothing is lost by taking a document apart ... */
  lemma {:induction false} PartsMakeWhole(lines: seq<string>)
    ensures lines == Header(lines) + Flat(Sections(lines))
  {
    if lines == [] {
    } else {
      var l, rest := lines[0], lines[1..];
      var h, f := Header(rest), Flat(Sections(rest));
      PartsMakeWhole(rest);
      assert lines == [l] + (h + f);
      assert [l] + (h + f) == ([l] + h) + f;
      FlatCons([l] + h, Sections(rest));
    }
  }

  lemma {:induction false} HeaderOf(h: seq<string>, rest: seq<string>)
    requires Plain(h)
    ensures Header(h + rest) == h + Header(rest)
    ensures Sections(h + rest) == Sections(rest)
  {
    if h == [] {
      assert h + rest == rest;
    } else {
      assert (h + rest)[1..] == h[1..] + rest;
      HeaderOf(h[1..], rest);
    }
  }

  lemma {:induction false} HeaderOfFlat(ss: seq<seq<string>>)
    requires AreSections(ss)
    ensures Header(Flat(ss)) == []
  {
    if ss != [] {
      assert IsSection(ss[0]) && Flat(ss)[0] == ss[0][0];
    }
  }

  lemma SectionFirst(s: seq<string>, rest: seq<string>)
    requires IsSection(s) && Header(rest) == []
    ensures Header(s + rest) == [] && Sections(s + rest) == [s] + Sections(rest)
  {
    HeaderOf(s[1..], rest);
    assert (s + rest)[0] == s[0] && (s + rest)[1..] == s[1..] + rest;
    assert [s[0]] + s[1..] == s && s[1..] + [] == s[1..];
  }

  lemma {:induction false} SectionsOfFlat(ss: seq<seq<string>>)
    requires AreSections(ss)
    ensures Sections(Flat(ss)) == ss
  {
    if ss == [] {
    } else {
      assert IsSection(ss[0]) && AreSections(ss[1..]);
      SectionsOfFlat(ss[1..]);
      HeaderOfFlat(ss[1..]);
      SectionFirst(ss[0], Flat(ss[1..]));
      assert ss == [ss[0]] + ss[1..];
    }
  }

  /** ... and taking apart what was put together gives the parts back. */
  lemma WholeMakesParts(h: seq<string>, ss: seq<seq<string>>)
    requires Plain(h) && AreSections(ss)
    ensures Header(h + Flat(ss)) == h && Sections(h + Flat(ss)) == ss
  {
    HeaderOf(h, Flat(ss));
    HeaderOfFlat(ss);
    SectionsOfFlat(ss);
  }

  /** The media types of a list of sections. */
  function Types(ss: seq<seq<string>>): (ts: seq<string>)
    requires AreSections(ss)
    ensures |ts| == |ss| && forall i | 0 <= i < |ss| :: ts[i] == TypeOf(ss[i][0])
  {
    if ss == [] then [] else assert IsSection(ss[0]); [TypeOf(ss[0][0])] + Types(ss[1..])
  }

  lemma {:induction false} TypesOfSections(lines: seq<string>)
    ensures AreSections(Sections(lines)) && MediaTypes(lines) == Types(Sections(lines))
  {
    SectionsAreSections(lines);
    if lines == [] {
    } else {
      TypesOfSections(lines[1..]);
      if IsMedia(lines[0]) {
        assert Sections(lines)[1..] == Sections(lines[1..]);
      }
    }
  }

  // ---- the parsed dictionary and the rebuilt answer -----------------------------

  /** The dictionary keeps the last section of each type. */
  function Dict(ss: seq<seq<string>>): map<string, seq<string>>
    requires AreSections(ss)
  {
    if ss == [] then map[]
    else
      var last := ss[|ss| - 1];
      assert IsSection(last);
      Dict(ss[..|ss| - 1])[TypeOf(last[0]) := last]
  }

  lemma {:induction false} TypesSnoc(ss: seq<seq<string>>)
    requires AreSections(ss) && ss != []
    ensures IsSection(ss[|ss| - 1])
    ensures Types(ss) == Types(ss[..|ss| - 1]) + [TypeOf(ss[|ss| - 1][0])]
  {
    var init, last := ss[..|ss| - 1], ss[|ss| - 1];
    assert IsSection(last);
    var a, b := Types(ss), Types(init) + [TypeOf(last[0])];
    forall i | 0 <= i < |ss| ensures a[i] == b[i] {
      if i < |init| {
        assert init[i] == ss[i];
      }
    }
  }

  lemma {:induction false} DictTypes(ss: seq<seq<string>>)
    requires AreSections(ss)
    ensures forall t :: t in Dict(ss) <==> t in Types(ss)
  {
    if ss == [] {
    } else {
      DictTypes(ss[..|ss| - 1]);
      TypesSnoc(ss);
    }
  }

  lemma {:induction false} DictEntry(ss: seq<seq<string>>, t: string)
    requires AreSections(ss) && t in Dict(ss)
    ensures IsSection(Dict(ss)[t]) && TypeOf(Dict(ss)[t][0]) == t && Dict(ss)[t] in ss
  {
    var init, last := ss[..|ss| - 1], ss[|ss| - 1];
    assert IsSection(last) && last in ss;
    if t != TypeOf(last[0]) {
      DictEntry(init, t);
      var i :| 0 <= i < |init| && init[i] == Dict(init)[t];
      assert ss[i] == Dict(init)[t];
    }
  }

  function TypeAt(ss: seq<seq<string>>, i: nat): string
    requires AreSections(ss) && i < |ss|
  {
    assert IsSection(ss[i]);
    TypeOf(ss[i][0])
  }

  lemma {:induction false} DictIsLast(ss: seq<seq<string>>, i: nat)
    requires AreSections(ss) && i < |ss|
    requires forall j: nat | i < j < |ss| :: TypeAt(ss, j) != TypeAt(ss, i)
    ensures TypeAt(ss, i) in Dict(ss) && Dict(ss)[TypeAt(ss, i)] == ss[i]
  {
    var init, k := ss[..|ss| - 1], |ss| - 1;
    if i < k {
      forall j: nat | i <= j < k ensures TypeAt(init, j) == TypeAt(ss, j) {
      }
      DictIsLast(init, i);
      assert TypeAt(ss, k) != TypeAt(ss, i);
    }
  }

  /** The rejected placeholder for the i-th m-line of the offer. */
  function Stub(mtype: string, i: nat): seq<string> {
    ["m=" + mtype + " 0 UDP/TLS/RTP/SAVPF 0", "c=IN IP4 0.0.0.0", "a=inactive", "a=mid:" + Digits(i)]
  }

  function Pick(mtype: string, i: nat, dict: map<string, seq<string>>): seq<string> {
    if mtype in dict then dict[mtype] else Stub(mtype, i)
  }

  /** The chosen sections for the m-lines from number i on. */
  function Picks(mtypes: seq<string>, i: nat, dict: map<string, seq<string>>): (ss: seq<seq<string>>)
    ensures |ss| == |mtypes|
    ensures forall k | 0 <= k < |mtypes| :: ss[k] == Pick(mtypes[k], i + k, dict)
  {
    if mtypes == [] then [] else [Pick(mtypes[0], i, dict)] + Picks(mtypes[1..], i + 1, dict)
  }

  ghost function OfferTypes(offer: string): seq<string> {
    MediaTypes(Split(offer))
  }

  ghost function Parsed(answer: string): map<string, seq<string>> {
    SectionsAreSections(Split(answer));
    Dict(Sections(Split(answer)))
  }

  /** What reorderMLinesToMatchOffer is meant to compute: session lines, then per
      m-line of the offer the answer's section of that type or a stub. */
  ghost function ReorderedLines(offer: string, answer: string): seq<string> {
    Header(Split(answer)) + Flat(Picks(OfferTypes(offer), 0, Parsed(answer)))
  }

  ghost function Reordered(offer: string, answer: string): string {
    Join(ReorderedLines(offer, answer))
  }
}
