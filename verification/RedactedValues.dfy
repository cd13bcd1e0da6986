/** The first rewrite of log text masks every `field=value` and shows nothing of it. */
module RedactedValues {
  import opened Redaction

  // ---- what is clean -----------------------------------------------------------------

  /** Every assignment at a word boundary has the mask for its value. */
  predicate Clean(boundary: bool, s: string)
    decreases |s|
  {
    s == [] || ((boundary && Assigns(s) ==> Value(s) == MASK) && Clean(!IsWord(s[0]), s[1..]))
  }

  lemma {:induction false} CleanSuffix(boundary: bool, s: string, i: nat)
    requires Clean(boundary, s) && i <= |s|
    ensures Clean(if i == 0 then boundary else BoundaryAt(s, i), s[i..])
    decreases i
  {
    if i == 0 {
      assert s[0..] == s;
    } else {
      CleanSuffix(!IsWord(s[0]), s[1..], i - 1);
      assert s[1..][i - 1..] == s[i..];
      assert i > 1 ==> s[1..][i - 2] == s[i - 1];
    }
  }

  /** Text without '=' that ends in a character no name has makes no demand. */
  lemma {:induction false} CleanPast(boundary: bool, x: string, c: char, r: string)
    requires '=' !in x && c != '=' && !IsLower(Lower(c))
    requires Clean(!IsWord(c), r)
    ensures Clean(boundary, x + [c] + r)
    decreases |x|
  {
    var s := x + [c] + r;
    assert forall i :: 0 <= i < |x| ==> s[i] == x[i];
    assert s[|x|] == c;
    NotAName(s, |x|);
    if x == [] {
      assert s[1..] == r;
    } else {
      CleanPast(!IsWord(x[0]), x[1..], c, r);
      assert s[1..] == x[1..] + [c] + r;
    }
  }

  /** Inside a word nothing is demanded. */
  lemma {:induction false} CleanInWord(w: string, r: string)
    requires forall i :: 0 <= i < |w| ==> IsWord(w[i])
    requires Clean(true, r)
    ensures Clean(false, w + "=" + r)
    decreases |w|
  {
    var s := w + "=" + r;
    if w == [] {
      assert s[1..] == r;
    } else {
      CleanInWord(w[1..], r);
      assert s[1..] == w[1..] + "=" + r;
    }
  }

  /** At white space, or at the end, it does not matter what came before. */
  lemma AtSpace(b: bool, c: bool, s: string)
    requires s == [] || IsSpace(s[0])
    ensures RedactValues(b, s) == RedactValues(c, s)
    ensures RedactValues(b, s) == [] <==> s == []
    ensures s != [] ==> RedactValues(b, s)[0] == s[0]
    ensures Clean(b, s) == Clean(c, s)
  {
    if Assigns(s) {
      StartsLikeAName(s);
    }
  }

  // ---- the first rewrite -------------------------------------------------------------

  /** s and t agree up to their first '=', and on whether a space or the end follows. */
  predicate SameHead(s: string, t: string) {
    if s == [] || t == [] then s == t
    else && s[0] == t[0]
         && if s[0] != '=' then SameHead(s[1..], t[1..])
            else if |s| == 1 || |t| == 1 then |s| == |t| else IsSpace(s[1]) == IsSpace(t[1])
  }

  lemma {:induction false} SameFirst(s: string, t: string)
    requires SameHead(s, t)
    ensures First(s, '=') == First(t, '=') && s[..First(s, '=')] == t[..First(s, '=')]
    ensures First(s, '=') + 1 < |s| <==> First(s, '=') + 1 < |t|
    ensures First(s, '=') + 1 < |s| ==> IsSpace(s[First(s, '=') + 1]) == IsSpace(t[First(s, '=') + 1])
  {
    if s != [] && s[0] != '=' {
      SameFirst(s[1..], t[1..]);
      var n := First(s[1..], '=');
      assert s[..n + 1] == [s[0]] + s[1..][..n];
      assert t[..n + 1] == [t[0]] + t[1..][..n];
    }
  }

  lemma {:induction false} SameHeadPrefix(x: string, a: string, b: string)
    requires '=' in x && a != [] && b != [] && IsSpace(a[0]) == IsSpace(b[0])
    ensures SameHead(x + a, x + b)
  {
    var s, t := x + a, x + b;
    assert s[1..] == x[1..] + a && t[1..] == x[1..] + b;
    if x[0] != '=' {
      SameHeadPrefix(x[1..], a, b);
    } else if |x| == 1 {
      assert s[1] == a[0] && t[1] == b[0];
    } else {
      assert s[1] == x[1] && t[1] == x[1];
    }
  }

  lemma SameHeadStep(c: char, s: string, t: string)
    requires SameHead(s, t)
    ensures SameHead([c] + s, [c] + t)
  {
    assert ([c] + s)[1..] == s && ([c] + t)[1..] == t;
  }

  lemma SameHeadMasked(s: string, r: string)
    requires Assigns(s)
    ensures SameHead(s, FieldOf(s) + "=" + MASK + r)
  {
    Apart(s);
    MaskIsSolid();
    var f := FieldOf(s) + "=";
    assert f[|f| - 1] == '=';
    SameHeadPrefix(f, Value(s) + After(s), MASK + r);
    Grouped(f, Value(s), After(s));
    Grouped(f, MASK, r);
  }

  /** Up to the first '=' nothing is rewritten, and what is no space stays none. */
  lemma {:induction false} KeepsHead(boundary: bool, s: string)
    ensures SameHead(s, RedactValues(boundary, s))
    decreases |s|
  {
    if s == [] {
    } else if boundary && Assigns(s) {
      SameHeadMasked(s, RedactValues(BoundaryAfter(s), After(s)));
    } else {
      KeepsHead(!IsWord(s[0]), s[1..]);
      SameHeadStep(s[0], s[1..], RedactValues(!IsWord(s[0]), s[1..]));
      assert s == [s[0]] + s[1..];
    }
  }

  lemma MaskIsClean(r: string)
    requires Clean(true, r)
    ensures Clean(true, MASK + r)
  {
    var x := "[REDACTED";
    CleanPast(true, x, ']', r);
    assert MASK + r == x + [']'] + r;
  }

  lemma CleanTail(f: string, m: string, r: string)
    requires Name(f) && Clean(true, m + r)
    ensures var s := f + "=" + m + r; s != [] && Clean(!IsWord(s[0]), s[1..])
  {
    NameChars(f);
    CleanInWord(f[1..], m + r);
    var s := f + "=" + m + r;
    assert s[0] == f[0] && s[1..] == f[1..] + "=" + (m + r);
  }

  lemma CleanMasked(f: string, r: string)
    requires Name(f) && Clean(true, r) && (r == [] || IsSpace(r[0]))
    ensures Clean(true, f + "=" + MASK + r)
  {
    MaskIsSolid();
    Assignment(f, MASK, r);
    MaskIsClean(r);
    CleanTail(f, MASK, r);
  }

  lemma AssignedIsClean(s: string)
    requires Assigns(s) && Clean(BoundaryAfter(s), RedactValues(BoundaryAfter(s), After(s)))
    ensures Clean(true, RedactValues(true, s))
  {
    var r := RedactValues(BoundaryAfter(s), After(s));
    Apart(s);
    AtSpace(BoundaryAfter(s), true, After(s));
    AtSpace(BoundaryAfter(s), true, r);
    CleanMasked(FieldOf(s), r);
    Assigned(s);
  }

  lemma StepIsClean(boundary: bool, s: string)
    requires s != [] && !(boundary && Assigns(s)) && Clean(!IsWord(s[0]), RedactValues(!IsWord(s[0]), s[1..]))
    ensures Clean(boundary, RedactValues(boundary, s))
  {
    var t := RedactValues(!IsWord(s[0]), s[1..]);
    KeepsHead(boundary, s);
    SameFirst(s, [s[0]] + t);
    assert ([s[0]] + t)[1..] == t;
  }

  /** After the first rewrite every assignment at a word boundary is masked. */
  lemma {:induction false} ValuesAreClean(boundary: bool, s: string)
    ensures Clean(boundary, RedactValues(boundary, s))
    decreases |s|
  {
    if s == [] {
    } else if boundary && Assigns(s) {
      ValuesAreClean(BoundaryAfter(s), After(s));
      AssignedIsClean(s);
    } else {
      ValuesAreClean(!IsWord(s[0]), s[1..]);
      StepIsClean(boundary, s);
    }
  }

  lemma KeptWhole(s: string)
    requires Assigns(s) && Value(s) == MASK && RedactValues(BoundaryAfter(s), After(s)) == After(s)
    ensures RedactValues(true, s) == s
  {
    Apart(s);
  }

  lemma CleanAfter(boundary: bool, s: string)
    requires Assigns(s) && Clean(boundary, s)
    ensures Clean(BoundaryAfter(s), After(s))
  {
    var p := FieldOf(s) + "=" + Value(s);
    Apart(s);
    Skip(p, After(s));
    assert s[|p| - 1] == p[|p| - 1] == Value(s)[|Value(s)| - 1];
    CleanSuffix(boundary, s, |p|);
  }

  /** The first rewrite leaves clean text as it is; so it does nothing the second time. */
  lemma {:induction false} CleanIsKept(boundary: bool, s: string)
    requires Clean(boundary, s)
    ensures RedactValues(boundary, s) == s
    decreases |s|
  {
    if s == [] {
    } else if boundary && Assigns(s) {
      CleanAfter(boundary, s);
      CleanIsKept(BoundaryAfter(s), After(s));
      KeptWhole(s);
    } else {
      CleanIsKept(!IsWord(s[0]), s[1..]);
      assert s == [s[0]] + s[1..];
    }
  }

  // ---- the value does not show -------------------------------------------------------

  /** An assignment whose value ends in q is the same whatever follows q ... */
  lemma GoesOn(q: string, x: string)
    requires Assigns(q) && After(q) != []
    ensures var s := q + x;
            Assigns(s) && FieldOf(s) == FieldOf(q) && Value(s) == Value(q) && After(s) == After(q) + x
  {
    Apart(q);
    var p := FieldOf(q) + "=" + Value(q);
    Assignment(FieldOf(q), Value(q), After(q) + x);
    Grouped(p, After(q), x);
  }

  predicate EndsInside(q: string) {
    Assigns(q) && After(q) != []
  }

  lemma RestIsSolid(f: string, y: string)
    requires Name(f) && !EndsInside(f + "=" + y) && (y == [] || !IsSpace(y[0]))
    ensures forall i :: 0 <= i < |y| ==> !IsSpace(y[i])
  {
    if y != [] {
      AssignsOf(f, y);
      Apart(f + "=" + y);
      Skip(f + "=", y);
    }
  }

  /** ... and any other one takes a solid v along. */
  lemma TakesAlong(q: string, v: string, r: string)
    requires Solid(v) && Ends(r) && !EndsInside(q)
    requires Assigns(q + v + r) && |FieldOf(q + v + r)| < |q|
    ensures After(q + v + r) == r
  {
    var s := q + v + r;
    var f := FieldOf(s);
    var y := q[|f| + 1..];
    assert s[|f|] == '=' && q == f + "=" + y;
    assert y != [] ==> s[|f| + 1] == y[0];
    RestIsSolid(f, y);
    Grouped(f + "=", y, v);
    Assignment(f, y + v, r);
  }

  /** q ends in `field=`, with the field at n. */
  predicate Opens(q: string, n: nat) {
    n < |q| && q[|q| - 1] == '=' && Name(q[n..|q| - 1])
  }

  lemma OpensSolid(q: string, n: nat)
    requires Opens(q, n)
    ensures '=' in q && forall i :: n <= i < |q| ==> !IsSpace(q[i])
  {
    var f := q[n..|q| - 1];
    NameChars(f);
    forall i | n <= i < |q|
      ensures !IsSpace(q[i])
    {
      assert i < |q| - 1 ==> q[i] == f[i - n];
    }
  }

  lemma OpensSuffix(q: string, n: nat, j: nat)
    requires Opens(q, n) && j <= n
    ensures Opens(q[j..], n - j)
  {
    assert q[j..][n - j..|q| - j - 1] == q[n..|q| - 1];
  }

  lemma OpensAfter(q: string, n: nat) returns (m: nat)
    requires n > 0 && Opens(q, n) && EndsInside(q)
    ensures 0 < m <= |After(q)| && Opens(After(q), m) && After(q)[m - 1] == q[n - 1]
  {
    var d := |q| - |After(q)|;
    Apart(q);
    Skip(FieldOf(q) + "=" + Value(q), After(q));
    assert q[d..] == After(q) && q[d] == After(q)[0];
    OpensSolid(q, n);
    OpensSuffix(q, n, d);
    m := n - d;
  }

  /** An assignment that begins at a boundary before n has its '=' before n. */
  lemma StartsBefore(s: string, n: nat)
    requires 0 < n <= |s| && !IsWord(s[n - 1]) && Assigns(s)
    ensures First(s, '=') < n
  {
    var k := First(s, '=');
    var f := s[..k];
    NameChars(f);
    forall i | 0 <= i < k
      ensures IsWord(s[i])
    {
      assert f[i] == s[i];
    }
  }

  lemma SameAssigned(s: string, t: string)
    requires Assigns(s) && Assigns(t) && FieldOf(s) == FieldOf(t)
    requires RedactValues(BoundaryAfter(s), After(s)) == RedactValues(BoundaryAfter(t), After(t))
    ensures RedactValues(true, s) == RedactValues(true, t)
  {}

  lemma SameStep(boundary: bool, s: string, t: string)
    requires s != [] && t != [] && s[0] == t[0]
    requires !(boundary && Assigns(s)) && !(boundary && Assigns(t))
    requires RedactValues(!IsWord(s[0]), s[1..]) == RedactValues(!IsWord(s[0]), t[1..])
    ensures RedactValues(boundary, s) == RedactValues(boundary, t)
  {}

  lemma SameOpening(q: string, n: nat, v: string, w: string, r: string)
    requires Opens(q, n) && Solid(v) && Solid(w)
    ensures Assigns(q + v + r) == Assigns(q + w + r)
    ensures Assigns(q + v + r) ==> FieldOf(q + v + r) == FieldOf(q + w + r)
  {
    OpensSolid(q, n);
    var s, t := q + v + r, q + w + r;
    Grouped(q, v, r);
    Grouped(q, w, r);
    SameHeadPrefix(q, v + r, w + r);
    SameFirst(s, t);
  }

  lemma HiddenAtOnce(q: string, v: string, w: string, r: string)
    requires Opens(q, 0) && Solid(v) && Solid(w) && Ends(r)
    ensures RedactValues(true, q + v + r) == RedactValues(true, q + w + r)
  {
    var f := q[..|q| - 1];
    assert q == f + "=" && f == q[0..|q| - 1];
    Assignment(f, v, r);
    Assignment(f, w, r);
    AtSpace(BoundaryAfter(q + v + r), BoundaryAfter(q + w + r), r);
    SameAssigned(q + v + r, q + w + r);
  }

  /** What comes out of the first rewrite is the same whatever solid value follows. */
  lemma {:induction false} OpenValueIsHidden(boundary: bool, q: string, n: nat, v: string, w: string, r: string)
    requires Opens(q, n) && Solid(v) && Solid(w) && Ends(r)
    requires if n == 0 then boundary else !IsWord(q[n - 1])
    ensures RedactValues(boundary, q + v + r) == RedactValues(boundary, q + w + r)
    decreases |q|, 1
  {
    SameOpening(q, n, v, w, r);
    if n == 0 {
      HiddenAtOnce(q, v, w, r);
    } else if boundary && Assigns(q + v + r) {
      HiddenInside(q, n, v, w, r);
    } else {
      HiddenLater(boundary, q, n, v, w, r);
    }
  }

  lemma {:induction false} HiddenLater(boundary: bool, q: string, n: nat, v: string, w: string, r: string)
    requires Opens(q, n) && Solid(v) && Solid(w) && Ends(r)
    requires n > 0 && !IsWord(q[n - 1])
    requires !(boundary && Assigns(q + v + r)) && !(boundary && Assigns(q + w + r))
    ensures RedactValues(boundary, q + v + r) == RedactValues(boundary, q + w + r)
    decreases |q|, 0
  {
    var s, t := q + v + r, q + w + r;
    Drop(q, v, 1);
    Drop(q + v, r, 1);
    Drop(q, w, 1);
    Drop(q + w, r, 1);
    OpensSuffix(q, n, 1);
    OpenValueIsHidden(!IsWord(q[0]), q[1..], n - 1, v, w, r);
    SameStep(boundary, s, t);
  }

  lemma {:induction false} HiddenInside(q: string, n: nat, v: string, w: string, r: string)
    requires Opens(q, n) && Solid(v) && Solid(w) && Ends(r)
    requires n > 0 && !IsWord(q[n - 1])
    requires Assigns(q + v + r) && Assigns(q + w + r) && FieldOf(q + v + r) == FieldOf(q + w + r)
    ensures RedactValues(true, q + v + r) == RedactValues(true, q + w + r)
    decreases |q|, 0
  {
    var s, t := q + v + r, q + w + r;
    StartsBefore(s, n);
    if EndsInside(q) {
      var m := OpensAfter(q, n);
      GoesOnOver(q, v, r);
      GoesOnOver(q, w, r);
      OpenValueIsHidden(BoundaryAfter(q), After(q), m, v, w, r);
    } else {
      TakesAlong(q, v, r);
      TakesAlong(q, w, r);
      AtSpace(BoundaryAfter(s), BoundaryAfter(t), r);
    }
    SameAssigned(s, t);
  }

  lemma GoesOnOver(q: string, v: string, r: string)
    requires EndsInside(q)
    ensures var s := q + v + r;
            Assigns(s) && BoundaryAfter(s) == BoundaryAfter(q) && After(s) == After(q) + v + r
  {
    Grouped(q, v, r);
    GoesOn(q, v + r);
    Grouped(After(q), v, r);
  }

  // ---- but only the first word of it -------------------------------------------------

  lemma NoSpaceAhead(s: string)
    requires Assigns(s)
    ensures forall k :: 0 <= k <= First(s, '=') + 1 ==> !IsSpace(s[k])
  {
    var n := First(s, '=');
    var f := s[..n];
    NameChars(f);
    forall k | 0 <= k <= n + 1
      ensures !IsSpace(s[k])
    {
      assert k < n ==> s[k] == f[k];
    }
  }

  lemma SpaceBehind(f: string, v: string, a: string, r: string)
    requires Name(f) && Solid(v) && Ends(a) && Ends(r)
    ensures var s := f + "=" + v + a + r;
            Assigns(s) && FieldOf(s) == f && Value(s) == v && After(s) == a + r
  {
    assert a + r != [] ==> (a + r)[0] == if a != [] then a[0] else r[0];
    Assignment(f, v, a + r);
    Grouped(f + "=" + v, a, r);
  }

  /** An assignment that begins x is the same with white space behind x ... */
  lemma AssignsBefore(x: string, r: string)
    requires Assigns(x) && Ends(r)
    ensures var s := x + r;
            Assigns(s) && FieldOf(s) == FieldOf(x) && BoundaryAfter(s) == BoundaryAfter(x) && After(s) == After(x) + r
  {
    Apart(x);
    SpaceBehind(FieldOf(x), Value(x), After(x), r);
  }

  /** ... and it begins x if it begins them both. */
  lemma AssignsStill(x: string, r: string)
    requires Assigns(x + r) && Ends(r)
    ensures Assigns(x)
  {
    var s := x + r;
    var n := First(s, '=');
    NoSpaceAhead(s);
    assert r != [] ==> s[|x|] == r[0];
    assert x[..n] == s[..n] && x[n] == s[n] && x[n + 1] == s[n + 1];
    OnlyOneName(x, n);
  }

  lemma Assigned(s: string)
    requires Assigns(s)
    ensures RedactValues(true, s) == FieldOf(s) + "=" + MASK + RedactValues(BoundaryAfter(s), After(s))
  {
  }

  lemma CutsAssigned(x: string, r: string)
    requires Assigns(x) && Ends(r)
    requires RedactValues(BoundaryAfter(x), After(x) + r)
          == RedactValues(BoundaryAfter(x), After(x)) + RedactValues(true, r)
    ensures RedactValues(true, x + r) == RedactValues(true, x) + RedactValues(true, r)
  {
    AssignsBefore(x, r);
    Assigned(x);
    Assigned(x + r);
    Grouped(FieldOf(x) + "=" + MASK, RedactValues(BoundaryAfter(x), After(x)), RedactValues(true, r));
  }

  lemma CutsStep(boundary: bool, x: string, r: string)
    requires x != [] && !(boundary && Assigns(x)) && !(boundary && Assigns(x + r))
    requires RedactValues(!IsWord(x[0]), x[1..] + r) == RedactValues(!IsWord(x[0]), x[1..]) + RedactValues(true, r)
    ensures RedactValues(boundary, x + r) == RedactValues(boundary, x) + RedactValues(true, r)
  {
    Drop(x, r, 1);
    Grouped([x[0]], RedactValues(!IsWord(x[0]), x[1..]), RedactValues(true, r));
  }

  /** Text is rewritten in pieces if it is cut before white space. */
  lemma {:induction false} CutsAtSpace(boundary: bool, x: string, r: string)
    requires Ends(r)
    ensures RedactValues(boundary, x + r) == RedactValues(boundary, x) + RedactValues(true, r)
    decreases |x|
  {
    if x == [] {
      assert x + r == r;
      AtSpace(boundary, true, r);
    } else if boundary && Assigns(x) {
      CutsAtSpace(BoundaryAfter(x), After(x), r);
      CutsAssigned(x, r);
    } else {
      if boundary && Assigns(x + r) {
        AssignsStill(x, r);
      }
      CutsAtSpace(!IsWord(x[0]), x[1..], r);
      CutsStep(boundary, x, r);
    }
  }

  lemma {:induction false} SolidPrefix(v: string) returns (n: nat)
    requires v != [] && !IsSpace(v[0])
    ensures 0 < n <= |v| && Solid(v[..n]) && Ends(v[n..])
    ensures n == |v| <==> Solid(v)
  {
    n := Run(v);
    if n == |v| {
      assert v[..n] == v;
    } else {
      assert IsSpace(v[n]);
    }
  }

  lemma MaskHides(p: string, f: string, v: string, r: string)
    requires Name(f) && Solid(v) && Ends(r) && BoundaryAt(p, |p|)
    ensures RedactValues(true, p + f + "=" + v + r) == RedactValues(true, p + f + "=" + MASK + r)
  {
    MaskIsSolid();
    var q := p + f + "=";
    assert q[|p|..|q| - 1] == f;
    OpenValueIsHidden(true, q, |p|, v, MASK, r);
  }

  lemma MoreShows(x: string, w: string, r: string)
    requires w != [] && Ends(w) && Ends(r)
    ensures |RedactValues(true, x + (w + r))| > |RedactValues(true, x + r)|
  {
    assert w + r != [] && (w + r)[0] == w[0];
    CutsAtSpace(true, x, w + r);
    CutsAtSpace(true, w, r);
    CutsAtSpace(true, x, r);
    AtSpace(true, true, w);
  }

  lemma SecondWordShows(p: string, f: string, u: string, w: string, r: string)
    requires Name(f) && Solid(u) && w != [] && Ends(w) && Ends(r) && BoundaryAt(p, |p|)
    ensures RedactValues(true, p + f + "=" + (u + w) + r) != RedactValues(true, p + f + "=" + MASK + r)
  {
    var q := p + f + "=";
    assert w + r != [] && (w + r)[0] == w[0];
    MaskHides(p, f, u, w + r);
    Grouped(q, u + w, r);
    Grouped(u, w, r);
    Grouped(q, u, w + r);
    MoreShows(q + MASK, w, r);
  }

  /** The first rewrite treats the text after `field=` like the mask if and only if that
      text holds no white space: of several words it hides the first alone. */
  lemma OnlyTheFirstWordIsHidden(p: string, f: string, v: string, r: string)
    requires Name(f) && v != [] && !IsSpace(v[0]) && Ends(r) && BoundaryAt(p, |p|)
    ensures RedactValues(true, p + f + "=" + v + r) == RedactValues(true, p + f + "=" + MASK + r) <==> Solid(v)
  {
    var n := SolidPrefix(v);
    if n == |v| {
      MaskHides(p, f, v, r);
    } else {
      SecondWordShows(p, f, v[..n], v[n..], r);
      assert v == v[..n] + v[n..];
    }
  }
}
