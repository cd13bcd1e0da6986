/** RedactingFilter: what it makes of a log record (logging_redaction.py). */
module LogFilter {
  import opened Common
  import opened Redaction
  import opened RedactedValues
  import opened RedactedPairs

  /** Complete: in what is logged every `field=` at a word boundary with a value has the
      mask for it.  Stable: redacting again changes nothing. */
  lemma Redacted(s: string)
    ensures Clean(true, RedactString(s))
    ensures RedactString(RedactString(s)) == RedactString(s)
  {
    var t := RedactValues(true, s);
    ValuesAreClean(true, s);
    PairsKeepClean(true, t);
    CleanIsKept(true, RedactPairs(t));
    PairsAreKept(t);
  }

  lemma ValueOf(f: string, z: string)
    requires Name(f) && z != [] && !IsSpace(z[0])
    ensures Assigns(f + "=" + z) && Value(f + "=" + z) == z[..Run(z)]
  {
    AssignsOf(f, z);
    Skip(f + "=", z);
  }

  lemma CleanFrom(p: string, t: string)
    requires Clean(true, p + t) && BoundaryAt(p, |p|)
    ensures Clean(true, t)
  {
    CleanSuffix(true, p + t, |p|);
    Skip(p, t);
  }

  lemma CleanAt(p: string, f: string, z: string)
    requires Clean(true, p + f + "=" + z) && BoundaryAt(p, |p|)
    requires Name(f) && z != [] && !IsSpace(z[0])
    ensures MASK <= z && Ends(z[|MASK|..])
  {
    Grouped(p, f, "=");
    Grouped(p, f + "=", z);
    CleanFrom(p, f + "=" + z);
    ValueOf(f, z);
  }

  /** Clean, read at one place of what is logged: the mask, then white space or the end. */
  lemma EveryValueIsMasked(s: string, p: string, f: string, z: string)
    requires RedactString(s) == p + f + "=" + z && BoundaryAt(p, |p|)
    requires Name(f) && z != [] && !IsSpace(z[0])
    ensures MASK <= z && Ends(z[|MASK|..])
  {
    Redacted(s);
    CleanAt(p, f, z);
  }

  /** However long the text around it, the first word after `field=` at a word boundary
      leaves no trace in what is logged. */
  lemma ValueIsHidden(p: string, f: string, v: string, w: string, r: string)
    requires Name(f) && Solid(v) && Solid(w) && Ends(r) && BoundaryAt(p, |p|)
    ensures RedactString(p + f + "=" + v + r) == RedactString(p + f + "=" + w + r)
  {
    var q := p + f + "=";
    assert q[|p|..|q| - 1] == f;
    OpenValueIsHidden(true, q, |p|, v, w, r);
  }

  // ---- records -----------------------------------------------------------------------

  /** A key of a dictionary of arguments: a string; or something else with a lower(), such
      as bytes, shown as such unless that raises; or something whose lower() raises. */
  datatype Key = Text(name: string) | Lowers(sensitive: bool, shown: Option<string>) | NoLower

  /** One item of a dictionary of arguments; no value if rendering it raises. */
  datatype Arg = Arg(key: Key, value: Option<string>)

  /** record.args, when it is there: a dictionary, in its order, or anything else. */
  datatype Args = Dict(items: seq<Arg>) | Other

  predicate Sensitive(key: Key) {
    match key
    case Text(name) => Name(name)
    case Lowers(sensitive, _) => sensitive
    case NoLower => false
  }

  function Label(key: Key): Option<string> {
    match key
    case Text(name) => Some(name)
    case Lowers(_, shown) => shown
    case NoLower => None
  }

  predicate Renders(a: Arg) {
    Label(a.key).Some? && (Sensitive(a.key) || a.value.Some?)
  }

  function Shown(a: Arg): string
    requires Renders(a)
  {
    Label(a.key).value + "=" + if Sensitive(a.key) then MASK else a.value.value
  }

  function Rendered(items: seq<Arg>): string
    requires forall a | a in items :: Renders(a)
  {
    if items == [] then []
    else if |items| == 1 then Shown(items[0])
    else Shown(items[0]) + " " + Rendered(items[1..])
  }

  /** The items are shown one after the other, each as `key=value` with the mask for the value
      of a sensitive key, with one space between them. */
  lemma {:induction false} RenderedOneMore(items: seq<Arg>, a: Arg)
    requires Renders(a) && forall x | x in items :: Renders(x)
    ensures forall x | x in items + [a] :: Renders(x)
    ensures Rendered(items + [a]) ==
            (if items == [] then "" else Rendered(items) + " ")
            + (Label(a.key).value + "=" + if Sensitive(a.key) then "[REDACTED]" else a.value.value)
    ensures Rendered([]) == ""
  {
    assert (items + [a])[0] == if items == [] then a else items[0];
    if items == [] {
      assert items + [a] == [a];
    } else {
      assert (items + [a])[1..] == items[1..] + [a];
      RenderedOneMore(items[1..], a);
    }
  }

  /** _format_dict_summary; None if it raises. */
  function DictSummary(template: Option<string>, items: seq<Arg>): Option<string> {
    if template.None? || exists a :: a in items && !Renders(a) then None
    else if Rendered(items) == [] then template
    else Some(template.value + " " + Rendered(items))
  }

  lemma NotEmpty(items: seq<Arg>)
    ensures items != [] && (forall a | a in items :: Renders(a)) ==> Rendered(items) != []
  {
  }

  /** What filter makes of the message; None if it leaves the record as it is. */
  function Logged(message: Option<string>, text: Option<string>, args: Option<Args>): Option<string> {
    var formatted := if message.Some? then message else text;
    var summary := if formatted.Some? && args.Some? && args.value.Dict? then DictSummary(text, args.value.items)
                   else formatted;
    if summary.None? then None else Some(RedactString(summary.value))
  }

  /** The same keys in the same order, and the same values under all keys that are not
      sensitive. */
  predicate SameButSecrets(a: seq<Arg>, b: seq<Arg>) {
    |a| == |b| && forall i :: 0 <= i < |a| ==> a[i].key == b[i].key && (Sensitive(a[i].key) || a[i] == b[i])
  }

  lemma {:induction false} SameRendered(a: seq<Arg>, b: seq<Arg>)
    requires SameButSecrets(a, b)
    ensures (exists x :: x in a && !Renders(x)) <==> (exists x :: x in b && !Renders(x))
    ensures (forall x | x in a :: Renders(x)) && (forall x | x in b :: Renders(x)) ==> Rendered(a) == Rendered(b)
  {
    if a != [] {
      SameRendered(a[1..], b[1..]);
      assert Renders(a[0]) == Renders(b[0]);
      assert forall x :: x in a <==> x == a[0] || x in a[1..];
      assert forall x :: x in b <==> x == b[0] || x in b[1..];
    }
  }

  /** No secret of a dictionary of arguments leaves a trace in the logged message, not
      even one that the formatted message would have shown. */
  lemma SecretsDoNotShow(m: Option<string>, n: Option<string>, text: Option<string>, a: seq<Arg>, b: seq<Arg>)
    requires SameButSecrets(a, b)
    ensures Logged(m, text, Some(Dict(a))) == Logged(n, text, Some(Dict(b)))
  {
    SameRendered(a, b);
  }

  predicate Fails(a: Arg) {
    a.key.NoLower? || (a.key.Lowers? && a.key.shown.None?) || (a.value.None? && !Sensitive(a.key))
  }

  /** When the record is left as it is, and so unredacted: nothing could be formatted, or
      the dictionary has a key whose lower() raises, or a key, or a value under a key that
      is not sensitive, that cannot be rendered. */
  lemma LeftAsItWas(message: Option<string>, text: Option<string>, args: Option<Args>)
    ensures Logged(message, text, args).None? <==>
              || (message.None? && text.None?)
              || (args.Some? && args.value.Dict? &&
                    (text.None? || exists a :: a in args.value.items && Fails(a)))
  {
  }

  class LogRecord {
    var msg: string
    var args: Option<Args>

    constructor (msg: string, args: Option<Args>)
      ensures this.msg == msg && this.args == args
    {
      this.msg, this.args := msg, args;
    }

    /** filter.  `message` is what getMessage gives, None if it raises; `text` is
        str(msg), None if that raises. */
    method Filter(message: Option<string>, text: Option<string>) returns (kept: bool)
      modifies this
      ensures kept
      ensures var logged := Logged(message, text, old(args));
              if logged.Some? then msg == logged.value && args == None else msg == old(msg) && args == old(args)
      ensures (old(args).None? || old(args).value.Other?) && (message.Some? || text.Some?) ==>
                msg == RedactString(if message.Some? then message.value else text.value)
      ensures old(args).Some? && old(args).value.Dict? && text.Some?
              && (forall a | a in old(args).value.items :: Renders(a)) ==>
                var items := old(args).value.items;
                msg == RedactString(if items == [] then text.value else text.value + " " + Rendered(items))
    {
      kept := true;
      var formatted := message;
      if formatted.None? {
        formatted := text;
      }
      if formatted.None? {
        return;
      }
      if args.Some? && args.value.Dict? {
        NotEmpty(args.value.items);
        formatted := DictSummary(text, args.value.items);
        if formatted.None? {
          return;
        }
      }
      msg := RedactString(formatted.value);
      args := None;
    }
  }
}
