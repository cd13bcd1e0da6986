/** The sections of the reordered answer, read back: those that the answer lacked are
    rejected, all others are the answer's own. */
module SdpReject {
  import opened Decimal
  import opened SdpText
  import opened Sdp
  import opened SdpReorder
  import opened SdpMux

  // ---- words -----------------------------------------------------------------------------

  /** components(separatedBy: " "). */
  function Words(s: string): (ws: seq<string>)
    decreases |s|
  {
    var w := FirstWord(s);
    if |w| >= |s| then [w] else [w] + Words(s[|w| + 1..])
  }

  lemma WordThen(w: string, rest: string)
    requires ' ' !in w
    ensures Words(w + " " + rest) == [w] + Words(rest)
  {
    var s := w + " " + rest;
    assert s == w + (" " + rest);
    WordBeforeSpace(w, " " + rest);
    assert s[|w| + 1..] == rest;
  }

  lemma LastWord(w: string)
    requires ' ' !in w
    ensures Words(w) == [w]
  {
    assert w + "" == w;
    WordBeforeSpace(w, "");
  }

  lemma WordsOfTail(a: string, b: string, c: string)
    requires ' ' !in a && ' ' !in b && ' ' !in c
    ensures Words(a + " " + (b + " " + c)) == [a, b, c]
  {
    WordThen(a, b + " " + c);
    WordThen(b, c);
    LastWord(c);
  }

  lemma TailIs()
    ensures TAIL == " " + ("0" + " " + ("UDP/TLS/RTP/SAVPF" + " " + "0"))
  {}

  lemma WordsOfHead(t: string)
    requires ' ' !in t
    ensures Words("m=" + t + TAIL) == ["m=" + t, "0", "UDP/TLS/RTP/SAVPF", "0"]
  {
    var rest := "0" + " " + ("UDP/TLS/RTP/SAVPF" + " " + "0");
    TailIs();
    assert "m=" + t + TAIL == ("m=" + t) + " " + rest;
    WordThen("m=" + t, rest);
    WordsOfTail("0", "UDP/TLS/RTP/SAVPF", "0");
  }

  // ---- rejected sections --------------------------------------------------------------------

  /** The line gives the number i as the mid, in decimal. */
  predicate HasMid(line: string, i: nat) {
    && |line| > 6 && line[..6] == "a=mid:"
    && (forall k | 6 <= k < |line| :: '0' <= line[k] <= '9') && Value(line[6..]) == i
    && (line[6] == '0' ==> i == 0)
  }

  /** Section 6 of RFC 3264: an offered stream is rejected with port zero; the mid of the
      placeholder is the number of its m-line. */
  predicate Rejects(s: seq<string>, t: string, i: nat) {
    && |s| == 4 && Words(s[0]) == ["m=" + t, "0", "UDP/TLS/RTP/SAVPF", "0"]
    && s[1] == "c=IN IP4 0.0.0.0" && s[2] == "a=inactive" && HasMid(s[3], i)
  }

  lemma MidLine(i: nat)
    ensures HasMid("a=mid:" + Digits(i), i)
  {
    var line := "a=mid:" + Digits(i);
    assert line[6..] == Digits(i) && line[..6] == "a=mid:";
    DigitsValue(i);
    forall k | 6 <= k < |line| ensures '0' <= line[k] <= '9' {
      assert line[k] == Digits(i)[k - 6];
    }
  }

  lemma StubRejects(t: string, i: nat)
    requires ' ' !in t
    ensures Rejects(Stub(t, i), t, i)
  {
    WordsOfHead(t);
    MidLine(i);
  }

  /** Every m-line of the offer whose type the answer lacks is rejected in the result, at the
      place that it has in the offer. */
  lemma MissingIsRejected(offer: string, answer: string, i: nat)
    requires forall t | t in OfferTypes(offer) && t !in OfferTypes(answer) :: Safe(t)
    requires i < |OfferTypes(offer)| && OfferTypes(offer)[i] !in OfferTypes(answer)
    ensures |Sections(Split(Reordered(offer, answer)))| == |OfferTypes(offer)|
    ensures Rejects(Sections(Split(Reordered(offer, answer)))[i], OfferTypes(offer)[i], i)
  {
    ReorderedSections(offer, answer);
    ParsedGood(answer);
    TypesHaveNoSpaces(Split(offer));
    StubRejects(OfferTypes(offer)[i], i);
  }

  /** Every other one has the section that the answer has for its type, word for word; the
      last one, if there are several. */
  lemma PresentIsKept(offer: string, answer: string, i: nat, k: nat)
    requires forall t | t in OfferTypes(offer) && t !in OfferTypes(answer) :: Safe(t)
    requires i < |OfferTypes(offer)| && k < |OfferTypes(answer)| && OfferTypes(answer)[k] == OfferTypes(offer)[i]
    requires forall j | k < j < |OfferTypes(answer)| :: OfferTypes(answer)[j] != OfferTypes(answer)[k]
    ensures |Sections(Split(Reordered(offer, answer)))| == |OfferTypes(offer)|
    ensures |Sections(Split(answer))| == |OfferTypes(answer)|
    ensures Sections(Split(Reordered(offer, answer)))[i] == Sections(Split(answer))[k]
  {
    ReorderedSections(offer, answer);
    ParsedGood(answer);
    SectionsAreSections(Split(answer));
    TypesOfSections(Split(answer));
    DictIsLast(Sections(Split(answer)), k);
  }

  // ---- and in the munged text -----------------------------------------------------------------

  /** Where the line is inserted: right after the m-line, and nothing else changes. */
  lemma MuxedPlaces(text: string, i: nat)
    requires i < |Sections(Split(text))|
    ensures |Sections(Split(Muxed(text)))| == |Sections(Split(text))|
    ensures var s, t := Sections(Split(text))[i], Sections(Split(Muxed(text)))[i];
            s != [] && t == if "a=rtcp-mux" in s[1..] then s else [s[0], "a=rtcp-mux"] + s[1..]
  {
    MuxedSections(text);
    assert IsSection(Sections(Split(text))[i]);
  }

  /** What startStream hands on for an m-line that the answer lacks is still rejected. */
  lemma MissingStaysRejected(offer: string, answer: string, i: nat)
    requires forall t | t in OfferTypes(offer) && t !in OfferTypes(answer) :: Safe(t)
    requires i < |OfferTypes(offer)| && OfferTypes(offer)[i] !in OfferTypes(answer)
    ensures |Sections(Split(Muxed(Reordered(offer, answer))))| == |OfferTypes(offer)|
    ensures var s := Sections(Split(Muxed(Reordered(offer, answer))))[i];
            |s| == 5 && s[1] == "a=rtcp-mux" && Rejects([s[0]] + s[2..], OfferTypes(offer)[i], i)
  {
    MissingIsRejected(offer, answer, i);
    MuxedPlaces(Reordered(offer, answer), i);
    var s := Sections(Split(Reordered(offer, answer)))[i];
    NotMux(s, OfferTypes(offer)[i], i);
    var t := [s[0], "a=rtcp-mux"] + s[1..];
    assert [t[0]] + t[2..] == s;
  }

  lemma NotMux(s: seq<string>, t: string, i: nat)
    requires Rejects(s, t, i)
    ensures "a=rtcp-mux" !in s[1..]
  {
    assert "a=rtcp-mux"[0] == 'a' && "a=rtcp-mux"[2] == 'r';
    assert s[1][0] == 'c' && s[2][2] == 'i' && s[3][..6][2] == 'm';
  }
}
