/** Text as lines: Swift's components(separatedBy:) and joined(separator:) for CRLF. */
module SdpText {

  const CRLF := "\r\n"

  predicate BreakAt(s: string, k: nat) {
    k + 1 < |s| && s[k] == '\r' && s[k + 1] == '\n'
  }

  /** The text has a line break for components(separatedBy:) to cut at. */
  ghost predicate Breaks(s: string) {
    exists k: nat :: BreakAt(s, k)
  }

  /** Position of the first line break, or the length. */
  function Cut(s: string): (i: nat)
    ensures i <= |s|
    ensures i == |s| <==> !Breaks(s)
    ensures i < |s| ==> BreakAt(s, i)
    ensures forall k: nat | k < i :: !BreakAt(s, k)
  {
    if |s| < 2 then |s|
    else if s[0] == '\r' && s[1] == '\n' then assert BreakAt(s, 0); 0
    else
      var i := Cut(s[1..]);
      assert forall k: nat | k > 0 :: BreakAt(s, k) <==> BreakAt(s[1..], k - 1);
      assert i < |s[1..]| ==> BreakAt(s, i + 1);
      i + 1
  }

  function Split(s: string): (lines: seq<string>)
    ensures lines != []
    decreases |s|
  {
    var i := Cut(s);
    if i == |s| then [s] else [s[..i]] + Split(s[i + 2..])
  }

  function Join(lines: seq<string>): string {
    if lines == [] then ""
    else if |lines| == 1 then lines[0]
    else lines[0] + CRLF + Join(lines[1..])
  }

  ghost predicate Unbroken(lines: seq<string>) {
    forall i | 0 <= i < |lines| :: !Breaks(lines[i])
  }

  lemma CutAfter(l: string, rest: string)
    requires !Breaks(l)
    ensures Cut(l + CRLF + rest) == |l|
  {
    var s := l + CRLF + rest;
    assert BreakAt(s, |l|);
    forall k: nat | k < |l| ensures !BreakAt(s, k) {
      assert !BreakAt(l, k);
    }
  }

  lemma CutUnbroken(s: string)
    ensures !Breaks(s[..Cut(s)])
  {
    var p := s[..Cut(s)];
    forall k: nat ensures !BreakAt(p, k) {
      assert k < |p| ==> !BreakAt(s, k);
    }
  }

  lemma JoinCons(l: string, lines: seq<string>)
    requires lines != []
    ensures Join([l] + lines) == l + CRLF + Join(lines)
  {
    assert ([l] + lines)[1..] == lines;
  }

  lemma AtBreak(s: string, i: nat)
    requires BreakAt(s, i)
    ensures s == s[..i] + CRLF + s[i + 2..]
  {}

  /** Printing and cutting are inverse. */
  lemma {:induction false} JoinSplit(s: string)
    ensures Join(Split(s)) == s
    decreases |s|
  {
    var i := Cut(s);
    if i < |s| {
      var rest := s[i + 2..];
      JoinSplit(rest);
      JoinCons(s[..i], Split(rest));
      AtBreak(s, i);
    }
  }

  lemma {:induction false} SplitUnbroken(s: string)
    ensures Unbroken(Split(s))
    decreases |s|
  {
    var i := Cut(s);
    if i < |s| {
      SplitUnbroken(s[i + 2..]);
      CutUnbroken(s);
    }
  }

  lemma SplitFirst(l: string, rest: string)
    requires !Breaks(l)
    ensures Split(l + CRLF + rest) == [l] + Split(rest)
  {
    var s := l + CRLF + rest;
    CutAfter(l, rest);
    assert s[..|l|] == l && s[|l| + 2..] == rest;
  }

  lemma Regrouped(x: string, y: string, z: string)
    ensures (x + CRLF + y) + CRLF + z == x + CRLF + (y + CRLF + z)
  {}

  /** Cutting after a line break that was put in: the two sides are cut separately. */
  lemma {:induction false} SplitConcat(l: string, rest: string)
    ensures Split(l + CRLF + rest) == Split(l) + Split(rest)
    decreases |l|
  {
    var i := Cut(l);
    if i == |l| {
      SplitFirst(l, rest);
    } else {
      var head, tail := l[..i], l[i + 2..];
      CutUnbroken(l);
      AtBreak(l, i);
      Regrouped(head, tail, rest);
      SplitFirst(head, tail + CRLF + rest);
      SplitConcat(tail, rest);
    }
  }

  /** All the lines that the given lines are cut into. */
  function Recut(lines: seq<string>): seq<string> {
    if lines == [] then [] else Split(lines[0]) + Recut(lines[1..])
  }

  lemma {:induction false} SplitJoinRecuts(lines: seq<string>)
    requires lines != []
    ensures Split(Join(lines)) == Recut(lines)
  {
    if |lines| == 1 {
      assert Recut(lines[1..]) == [];
    } else {
      SplitConcat(lines[0], Join(lines[1..]));
      SplitJoinRecuts(lines[1..]);
    }
  }

  lemma {:induction false} RecutUnbroken(lines: seq<string>)
    requires Unbroken(lines)
    ensures Recut(lines) == lines
  {
    if lines == [] {
    } else {
      assert !Breaks(lines[0]);
      RecutUnbroken(lines[1..]);
      assert Split(lines[0]) == [lines[0]];
    }
  }

  lemma SplitJoin(lines: seq<string>)
    requires lines != [] && Unbroken(lines)
    ensures Split(Join(lines)) == lines
  {
    SplitJoinRecuts(lines);
    RecutUnbroken(lines);
  }

  lemma {:induction false} RecutConcat(a: seq<string>, b: seq<string>)
    ensures Recut(a + b) == Recut(a) + Recut(b)
  {
    if a == [] {
      assert a + b == b;
    } else {
      assert (a + b)[0] == a[0] && (a + b)[1..] == a[1..] + b;
      RecutConcat(a[1..], b);
    }
  }
}
