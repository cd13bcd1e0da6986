/** The two leftmost, non-overlapping rewrites of log text (logging_redaction.py), run one
    after the other, over ASCII letters and white space. */
module Redaction {

  const MASK := "[REDACTED]"

  const FIELDS := {
    "refresh_token", "access_token", "authorization", "cookie", "ring_refresh_token", "ring_access_token"
  }

  predicate IsSpace(c: char) {
    9 <= c as int <= 13 || 28 <= c as int <= 32
  }

  predicate IsLower(c: char) {
    'a' <= c <= 'z' || c == '_'
  }

  function Lower(c: char): char {
    if 'A' <= c <= 'Z' then ((c as int) + 32) as char else c
  }

  predicate IsWord(c: char) {
    IsLower(Lower(c)) || '0' <= c <= '9'
  }

  function LowerCase(s: string): string {
    seq(|s|, i requires 0 <= i < |s| => Lower(s[i]))
  }

  /** s is a sensitive field, in any case. */
  predicate Name(s: string) {
    LowerCase(s) in FIELDS
  }

  /** Where c first occurs in s, or the length of s. */
  function First(s: string, c: char): (n: nat)
    ensures n <= |s| && (n < |s| ==> s[n] == c)
    ensures forall i :: 0 <= i < n ==> s[i] != c
  {
    if s == [] || s[0] == c then 0 else 1 + First(s[1..], c)
  }

  /** The length of the greedy run of non-spaces that s begins with. */
  function Run(s: string): (n: nat)
    ensures n <= |s| && (n < |s| ==> IsSpace(s[n]))
    ensures forall i :: 0 <= i < n ==> !IsSpace(s[i])
  {
    if s == [] || IsSpace(s[0]) then 0 else 1 + Run(s[1..])
  }

  /** s begins with a field, '=' and a non-space. */
  predicate Assigns(s: string) {
    var n := First(s, '=');
    n + 1 < |s| && Name(s[..n]) && !IsSpace(s[n + 1])
  }

  function FieldOf(s: string): string
    requires Assigns(s)
  {
    s[..First(s, '=')]
  }

  /** The value of the assignment that s begins with. */
  function Value(s: string): (v: string)
    requires Assigns(s)
    ensures v != []
  {
    var v := s[First(s, '=') + 1..];
    v[..Run(v)]
  }

  function After(s: string): (r: string)
    requires Assigns(s)
    ensures |r| < |s|
  {
    var v := s[First(s, '=') + 1..];
    v[Run(v)..]
  }

  /** The boundary that the scan takes along past the assignment that begins s. */
  predicate BoundaryAfter(s: string)
    requires Assigns(s)
  {
    !IsWord(Value(s)[|Value(s)| - 1])
  }

  /** First rewrite, from a place that is (or is not) at a word boundary if a word
      character comes next. */
  function RedactValues(boundary: bool, s: string): string
    decreases |s|
  {
    if s == [] then []
    else if boundary && Assigns(s) then
      FieldOf(s) + "=" + MASK + RedactValues(BoundaryAfter(s), After(s))
    else
      [s[0]] + RedactValues(!IsWord(s[0]), s[1..])
  }

  /** White space, a colon, white space. */
  predicate Separator(s: string) {
    var n := First(s, ':');
    n < |s| && forall i :: 0 <= i < |s| && i != n ==> IsSpace(s[i])
  }

  /** What follows the first quote. */
  function Cut(s: string): (r: string)
    requires '"' in s
    ensures |r| < |s|
  {
    s[First(s, '"') + 1..]
  }

  function UpToQuote(s: string): string {
    s[..First(s, '"')]
  }

  /** `  :  "value"` */
  predicate ValueFollows(s: string) {
    '"' in s && Separator(UpToQuote(s)) && '"' in Cut(s)
  }

  /** s begins with `"field" : "value"`. */
  predicate Pairs(s: string) {
    && s != [] && s[0] == '"'
    && '"' in s[1..] && Name(UpToQuote(s[1..])) && ValueFollows(Cut(s[1..]))
  }

  function PairName(s: string): string
    requires Pairs(s)
  {
    UpToQuote(s[1..])
  }

  function AfterPair(s: string): (r: string)
    requires Pairs(s)
    ensures |r| < |s|
  {
    Cut(Cut(Cut(s[1..])))
  }

  function MaskedPair(name: string): string {
    ['"'] + name + ['"'] + ": " + ['"'] + MASK + ['"']
  }

  /** Second rewrite. */
  function RedactPairs(s: string): string
    decreases |s|
  {
    if s == [] then []
    else if Pairs(s) then MaskedPair(PairName(s)) + RedactPairs(AfterPair(s))
    else [s[0]] + RedactPairs(s[1..])
  }

  function RedactString(s: string): string {
    RedactPairs(RedactValues(true, s))
  }

  // ---- field names -------------------------------------------------------------------

  predicate AllLower(s: string) {
    forall c :: c in s ==> IsLower(c)
  }

  lemma NameChars(s: string)
    requires Name(s)
    ensures s != [] && forall i :: 0 <= i < |s| ==> IsLower(Lower(s[i]))
  {
    assert AllLower("refresh_token") && AllLower("access_token") && AllLower("authorization");
    assert AllLower("cookie") && AllLower("ring_refresh_token") && AllLower("ring_access_token");
    var f := LowerCase(s);
    assert f != [] && AllLower(f);
    forall i | 0 <= i < |s|
      ensures IsLower(Lower(s[i]))
    {
      assert f[i] in f;
    }
  }

  /** No field holds '=', so at most one can precede one: the order of the alternatives
      in the pattern does not matter. */
  lemma OnlyOneName(s: string, n: nat)
    requires n < |s| && s[n] == '=' && Name(s[..n])
    ensures n == First(s, '=')
  {
    var f := s[..n];
    NameChars(f);
    forall i | 0 <= i < n
      ensures s[i] != '='
    {
      assert s[i] == f[i];
    }
  }

  /** An odd character before the first '=' rules an assignment out. */
  lemma NotAName(s: string, i: nat)
    requires i < |s| && s[i] != '=' && !IsLower(Lower(s[i])) && i < First(s, '=')
    ensures !Assigns(s)
  {
    var f := s[..First(s, '=')];
    assert f[i] == s[i];
    if Name(f) {
      NameChars(f);
    }
  }

  lemma StartsLikeAName(s: string)
    requires Assigns(s)
    ensures IsLower(Lower(s[0]))
  {
    NameChars(s[..First(s, '=')]);
    assert s[..First(s, '=')][0] == s[0];
  }

  // ---- texts, taken apart and put together ----------------------------------------------

  predicate Solid(v: string) {
    v != [] && forall i :: 0 <= i < |v| ==> !IsSpace(v[i])
  }

  predicate Ends(r: string) {
    r == [] || IsSpace(r[0])
  }

  predicate BoundaryAt(s: string, i: nat)
    requires i <= |s|
  {
    i == 0 || !IsWord(s[i - 1])
  }

  lemma Moved(x: string, s: string)
    requires x != []
    ensures x + s == [x[0]] + (x[1..] + s)
  {}

  lemma AssignsOf(f: string, z: string)
    requires Name(f) && z != [] && !IsSpace(z[0])
    ensures Assigns(f + "=" + z) && FieldOf(f + "=" + z) == f
  {
    var s := f + "=" + z;
    assert s[..|f|] == f && s[|f|] == '=' && s[|f| + 1] == z[0];
    OnlyOneName(s, |f|);
  }

  lemma NoQuoteInName(f: string)
    requires Name(f)
    ensures '"' !in f && !Separator(f)
  {
    NameChars(f);
  }

  lemma RunIs(v: string, r: string)
    requires forall i :: 0 <= i < |v| ==> !IsSpace(v[i])
    requires r == [] || IsSpace(r[0])
    ensures Run(v + r) == |v|
  {
    var s := v + r;
    assert forall i :: 0 <= i < |v| ==> s[i] == v[i];
    assert r != [] ==> s[|v|] == r[0];
  }

  lemma Drop(p: string, x: string, n: nat)
    requires n <= |p|
    ensures (p + x)[n..] == p[n..] + x && (p + x)[..n] == p[..n]
  {}

  lemma Skip(p: string, x: string)
    ensures (p + x)[|p|..] == x && (p + x)[..|p|] == p
  {}

  lemma Grouped(x: string, y: string, z: string)
    ensures x + y + z == x + (y + z)
  {}

  /** An assignment, put together ... */
  lemma Assignment(f: string, v: string, r: string)
    requires Name(f) && v != [] && (forall i :: 0 <= i < |v| ==> !IsSpace(v[i]))
    requires r == [] || IsSpace(r[0])
    ensures var s := f + "=" + v + r; Assigns(s) && FieldOf(s) == f && Value(s) == v && After(s) == r
  {
    var s := f + "=" + v + r;
    Grouped(f + "=", v, r);
    Skip(f + "=", v + r);
    Skip(v, r);
    RunIs(v, r);
    assert s[..|f|] == f && s[|f|] == '=' && s[|f| + 1] == v[0];
    OnlyOneName(s, |f|);
  }

  /** ... and taken apart. */
  lemma Apart(s: string)
    requires Assigns(s)
    ensures s == FieldOf(s) + "=" + Value(s) + After(s) && Name(FieldOf(s))
    ensures forall i :: 0 <= i < |Value(s)| ==> !IsSpace(Value(s)[i])
    ensures After(s) == [] || IsSpace(After(s)[0])
  {
    var n := First(s, '=');
    var v := s[n + 1..];
    assert s == s[..n] + "=" + v;
    assert v == v[..Run(v)] + v[Run(v)..];
    Grouped(s[..n] + "=", v[..Run(v)], v[Run(v)..]);
  }

  lemma MaskIsSolid()
    ensures |MASK| == 10 && forall i :: 0 <= i < |MASK| ==> !IsSpace(MASK[i]) && MASK[i] != '=' && MASK[i] != '"'
  {
    assert MASK == ['[', 'R', 'E', 'D', 'A', 'C', 'T', 'E', 'D', ']'];
  }
}
