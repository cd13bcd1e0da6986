/** Inserting a=rtcp-mux into every media section that lacks it. */
module SdpMux {
  import opened SdpText
  import opened Sdp
  import opened SdpReorder

  const MUX := "a=rtcp-mux"

  /** Right after the m-line, and only where it is missing. */
  function Fix(s: seq<string>): (t: seq<string>)
    requires IsSection(s)
    ensures IsSection(t) && t[0] == s[0] && MUX in t[1..]
  {
    if MUX in s[1..] then s
    else
      assert IsMedia(s[0]) && Plain(s[1..]);
      var t := [s[0], MUX] + s[1..];
      assert t[1..][0] == MUX && t[1..][1..] == s[1..];
      t
  }

  function FixAll(ss: seq<seq<string>>): (ts: seq<seq<string>>)
    requires AreSections(ss)
    ensures |ts| == |ss| && AreSections(ts) && forall i | 0 <= i < |ss| :: ts[i] == Fix(ss[i])
  {
    if ss == [] then [] else assert IsSection(ss[0]); [Fix(ss[0])] + FixAll(ss[1..])
  }

  ghost function MuxedLines(lines: seq<string>): seq<string> {
    SectionsAreSections(lines);
    Header(lines) + Flat(FixAll(Sections(lines)))
  }

  /** What ensureRtcpMux is meant to compute. */
  ghost function Muxed(text: string): string {
    Join(MuxedLines(Split(text)))
  }

  lemma {:induction false} FixAllUnbroken(ss: seq<seq<string>>)
    requires AreSections(ss) && Unbroken(Flat(ss))
    ensures Unbroken(Flat(FixAll(ss)))
  {
    if ss == [] {
    } else {
      var s := ss[0];
      assert IsSection(s);
      assert forall k: nat :: !BreakAt(MUX, k);
      assert Flat(ss) == s + Flat(ss[1..]);
      assert forall i | 0 <= i < |s| :: s[i] == Flat(ss)[i];
      assert forall i | 0 <= i < |Flat(ss[1..])| :: Flat(ss[1..])[i] == Flat(ss)[|s| + i];
      FixAllUnbroken(ss[1..]);
      assert Unbroken(Fix(s));
      FlatCons(Fix(s), FixAll(ss[1..]));
    }
  }

  lemma MuxedUnbroken(text: string)
    ensures Unbroken(MuxedLines(Split(text))) && MuxedLines(Split(text)) != []
    ensures Split(Muxed(text)) == MuxedLines(Split(text))
  {
    var lines := Split(text);
    SplitUnbroken(text);
    PartsMakeWhole(lines);
    SectionsAreSections(lines);
    HeaderUnbroken(lines);
    var f := Flat(Sections(lines));
    assert forall i | 0 <= i < |f| :: f[i] == lines[|Header(lines)| + i];
    FixAllUnbroken(Sections(lines));
    if Sections(lines) != [] {
      assert IsSection(FixAll(Sections(lines))[0]);
    }
    SplitJoin(MuxedLines(lines));
  }

  /** The sections of the output are the fixed sections of the input, one for one, and
      the session lines are kept; so every media section has rtcp-mux (section 5.1.1
      of RFC 5761) and the order of the m-lines is kept. */
  lemma MuxedSections(text: string)
    ensures AreSections(Sections(Split(text)))
    ensures Header(Split(Muxed(text))) == Header(Split(text))
    ensures Sections(Split(Muxed(text))) == FixAll(Sections(Split(text)))
    ensures forall s | s in Sections(Split(Muxed(text))) :: s != [] && MUX in s[1..]
    ensures MediaTypes(Split(Muxed(text))) == MediaTypes(Split(text))
  {
    var lines := Split(text);
    SectionsAreSections(lines);
    HeaderPlain(lines);
    MuxedUnbroken(text);
    WholeMakesParts(Header(lines), FixAll(Sections(lines)));
    TypesOfSections(lines);
    TypesOfSections(Split(Muxed(text)));
  }

  ghost predicate HasMuxThroughout(text: string) {
    forall s | s in Sections(Split(text)) :: s != [] && MUX in s[1..]
  }

  lemma {:induction false} FixAllIdentity(ss: seq<seq<string>>)
    requires AreSections(ss)
    ensures FixAll(ss) == ss <==> forall s | s in ss :: s != [] && MUX in s[1..]
  {
    forall i | 0 <= i < |ss| ensures IsSection(ss[i]) && (FixAll(ss)[i] == ss[i] <==> MUX in ss[i][1..]) {
      assert IsSection(ss[i]);
    }
    if FixAll(ss) == ss {
      assert forall i | 0 <= i < |ss| :: FixAll(ss)[i] == ss[i];
    } else {
      var i :| 0 <= i < |ss| && FixAll(ss)[i] != ss[i];
      assert ss[i] in ss;
    }
  }

  /** The text is left alone exactly when every section has rtcp-mux already; so a
      second pass changes nothing. */
  lemma MuxedIsUnchanged(text: string)
    ensures Muxed(text) == text <==> HasMuxThroughout(text)
    ensures Muxed(Muxed(text)) == Muxed(text)
  {
    var lines := Split(text);
    SectionsAreSections(lines);
    FixAllIdentity(Sections(lines));
    MuxedSections(text);
    PartsMakeWhole(lines);
    JoinSplit(text);
    SectionsAreSections(Split(Muxed(text)));
    FixAllIdentity(Sections(Split(Muxed(text))));
    PartsMakeWhole(Split(Muxed(text)));
    JoinSplit(Muxed(text));
  }

  // ---- only insertions -----------------------------------------------------------------

  /** b is a with lines inserted that are all equal to x, n of them. */
  ghost predicate Inserted(a: seq<string>, b: seq<string>, x: string, n: nat)
    decreases |b|
  {
    if b == [] then a == [] && n == 0
    else (a != [] && a[0] == b[0] && Inserted(a[1..], b[1..], x, n))
         || (b[0] == x && n > 0 && Inserted(a, b[1..], x, n - 1))
  }

  lemma {:induction false} NothingInserted(a: seq<string>, x: string)
    ensures Inserted(a, a, x, 0)
  {
    if a == [] {
    } else {
      NothingInserted(a[1..], x);
    }
  }

  lemma {:induction false} InsertedConcat(a: seq<string>, b: seq<string>, c: seq<string>, d: seq<string>,
                                          x: string, m: nat, n: nat)
    requires Inserted(a, b, x, m) && Inserted(c, d, x, n)
    ensures Inserted(a + c, b + d, x, m + n)
    decreases |b|
  {
    if b == [] {
      assert a + c == c && b + d == d;
    } else {
      assert (b + d)[1..] == b[1..] + d && (b + d)[0] == b[0];
      if a != [] && a[0] == b[0] && Inserted(a[1..], b[1..], x, m) {
        assert (a + c)[1..] == a[1..] + c && (a + c)[0] == a[0];
        InsertedConcat(a[1..], b[1..], c, d, x, m, n);
      } else {
        InsertedConcat(a, b[1..], c, d, x, m - 1, n);
      }
    }
  }

  function Lacking(ss: seq<seq<string>>): nat
    requires AreSections(ss)
  {
    if ss == [] then 0
    else assert IsSection(ss[0]); (if MUX in ss[0][1..] then 0 else 1) + Lacking(ss[1..])
  }

  lemma FixInserts(s: seq<string>)
    requires IsSection(s)
    ensures Inserted(s, Fix(s), MUX, if MUX in s[1..] then 0 else 1)
  {
    if MUX in s[1..] {
      NothingInserted(s, MUX);
    } else {
      var rest := s[1..];
      NothingInserted(rest, MUX);
      assert ([MUX] + rest)[1..] == rest;
      NothingInserted([s[0]], MUX);
      InsertedConcat([s[0]], [s[0]], rest, [MUX] + rest, MUX, 0, 1);
      assert s == [s[0]] + rest && Fix(s) == [s[0]] + ([MUX] + rest);
    }
  }

  lemma {:induction false} FixAllInserts(ss: seq<seq<string>>)
    requires AreSections(ss)
    ensures Inserted(Flat(ss), Flat(FixAll(ss)), MUX, Lacking(ss))
  {
    if ss == [] {
    } else {
      assert IsSection(ss[0]);
      FixInserts(ss[0]);
      FixAllInserts(ss[1..]);
      InsertedConcat(ss[0], Fix(ss[0]), Flat(ss[1..]), Flat(FixAll(ss[1..])), MUX,
                     if MUX in ss[0][1..] then 0 else 1, Lacking(ss[1..]));
      FlatCons(Fix(ss[0]), FixAll(ss[1..]));
    }
  }

  lemma LinesOnlyInsert(lines: seq<string>)
    ensures AreSections(Sections(lines))
    ensures Inserted(lines, MuxedLines(lines), MUX, Lacking(Sections(lines)))
  {
    var h, ss := Header(lines), Sections(lines);
    SectionsAreSections(lines);
    PartsMakeWhole(lines);
    FixAllInserts(ss);
    NothingInserted(h, MUX);
    InsertedConcat(h, h, Flat(ss), Flat(FixAll(ss)), MUX, 0, Lacking(ss));
  }

  /** The output is the input with one line inserted per section that lacked it. */
  lemma MuxedOnlyInserts(text: string)
    ensures AreSections(Sections(Split(text)))
    ensures Inserted(Split(text), Split(Muxed(text)), MUX, Lacking(Sections(Split(text))))
  {
    MuxedUnbroken(text);
    LinesOnlyInsert(Split(text));
  }

  /** The pipeline of startStream: reorder, then insert. */
  lemma PipelineMatchesOffer(offer: string, answer: string)
    ensures OfferTypes(Muxed(Reordered(offer, answer))) == OfferTypes(offer)
            <==> (forall t | t in OfferTypes(offer) && t !in OfferTypes(answer) :: Safe(t))
    ensures HasMuxThroughout(Muxed(Reordered(offer, answer)))
  {
    MuxedSections(Reordered(offer, answer));
    AnswerMatchesOffer(offer, answer);
  }
}
