/** The TTL response cache of RingConsumerClient and the two reads that use it
    (ring_consumer_client.py).  A read that misses awaits its request, so any other
    reads may run between its lookup and its store. */
module ResponseCache {
  import opened Common
  import opened Decimal

  /** What a read asks for. */
  datatype Query = Devices | History(device: string, limit: int)

  /** Decoded JSON, as far as the reads look into it. */
  datatype Json = Object(id: nat, members: map<string, seq<Json>>) | List(items: seq<Json>) | Scalar

  datatype Entry = Entry(data: seq<Json>, expiresAt: real)

  /** One answered request. */
  datatype Processed = Processed(query: Query, at: real, raw: Json)

  const FAMILIES := ["doorbots", "authorized_doorbots", "stickup_cams", "chimes", "base_stations", "other"]

  function Ttl(q: Query): real {
    if q.Devices? then 30.0 else 10.0
  }

  function Key(q: Query): string {
    match q
    case Devices => "devices"
    case History(device, limit) => "history:" + device + ":" + Render(limit)
  }

  /** data are the objects among the items, each once and in their order: entry i of data is
      the item at position at[i]. */
  predicate Picks(items: seq<Json>, data: seq<Json>, at: seq<nat>) {
    && |at| == |data|
    && (forall i | 0 <= i < |at| :: at[i] < |items| && items[at[i]].Object? && data[i] == items[at[i]])
    && (forall i, j | 0 <= i < j < |at| :: at[i] < at[j])
    && (forall k | 0 <= k < |items| && items[k].Object? :: k in at)
  }

  ghost predicate AreObjectsOf(items: seq<Json>, data: seq<Json>) {
    exists at :: Picks(items, data, at)
  }

  /** The objects of one device family, which may be missing. */
  ghost predicate IsFamily(members: map<string, seq<Json>>, family: string, data: seq<Json>) {
    if family in members then AreObjectsOf(members[family], data) else data == []
  }

  /** The objects of the six families, one family after the other. */
  ghost predicate AreParts(members: map<string, seq<Json>>, data: seq<Json>, a: seq<Json>, b: seq<Json>, c: seq<Json>,
                           d: seq<Json>, e: seq<Json>, f: seq<Json>)
  {
    && data == a + b + c + d + e + f
    && IsFamily(members, "doorbots", a) && IsFamily(members, "authorized_doorbots", b)
    && IsFamily(members, "stickup_cams", c) && IsFamily(members, "chimes", d)
    && IsFamily(members, "base_stations", e) && IsFamily(members, "other", f)
  }

  ghost predicate AreDevices(members: map<string, seq<Json>>, data: seq<Json>) {
    exists a, b, c, d, e, f :: AreParts(members, data, a, b, c, d, e, f)
  }

  /** What a read returns for a decoded reply: the objects of a list; for the devices also
      those of the families of an envelope; and nothing for any other reply. */
  ghost predicate Filtered(q: Query, raw: Json, data: seq<Json>) {
    match raw
    case List(items) => AreObjectsOf(items, data)
    case Object(_, members) => if q.Devices? then AreDevices(members, data) else data == []
    case Scalar => data == []
  }

  lemma BothEmpty(items: seq<Json>, d: seq<Json>, e: seq<Json>, at: seq<nat>, bt: seq<nat>)
    requires Picks(items, d, at) && Picks(items, e, bt)
    ensures at == [] <==> bt == []
  {
    if at != [] {
      assert at[0] in bt;
    }
    if bt != [] {
      assert bt[0] in at;
    }
  }

  lemma SameEnds(at: seq<nat>, bt: seq<nat>)
    requires at != [] && bt != [] && at[|at| - 1] == bt[|bt| - 1] && at[..|at| - 1] == bt[..|bt| - 1]
    ensures at == bt
  {
    assert at == at[..|at| - 1] + [at[|at| - 1]] && bt == bt[..|bt| - 1] + [bt[|bt| - 1]];
  }

  lemma {:induction false} SamePositions(items: seq<Json>, d: seq<Json>, e: seq<Json>, at: seq<nat>, bt: seq<nat>)
    requires Picks(items, d, at) && Picks(items, e, bt)
    ensures at == bt
    decreases |at|
  {
    BothEmpty(items, d, e, at, bt);
    if at != [] {
      var m, n := |at| - 1, |bt| - 1;
      LastIsLeast(items, d, e, at, bt);
      var rest := items[..at[m]];
      InitPicks(items, d, at);
      InitPicks(items, e, bt);
      SamePositions(rest, d[..m], e[..n], at[..m], bt[..n]);
      SameEnds(at, bt);
    }
  }

  lemma LastIsLeast(items: seq<Json>, d: seq<Json>, e: seq<Json>, at: seq<nat>, bt: seq<nat>)
    requires Picks(items, d, at) && Picks(items, e, bt) && at != [] && bt != []
    ensures at[|at| - 1] == bt[|bt| - 1]
  {
    assert at[|at| - 1] in bt && bt[|bt| - 1] in at;
  }

  lemma InitPicks(items: seq<Json>, d: seq<Json>, at: seq<nat>)
    requires Picks(items, d, at) && at != []
    ensures Picks(items[..at[|at| - 1]], d[..|at| - 1], at[..|at| - 1])
  {
    var m := |at| - 1;
    forall k | 0 <= k < at[m] && items[k].Object? ensures k in at[..m] {
      var i :| 0 <= i < |at| && at[i] == k;
      assert at[..m][i] == k;
    }
  }

  /** There is one way to be so: the filtered list is determined by the reply. */
  lemma ObjectsUnique(items: seq<Json>, d: seq<Json>, e: seq<Json>)
    requires AreObjectsOf(items, d) && AreObjectsOf(items, e)
    ensures d == e
  {
    var at :| Picks(items, d, at);
    var bt :| Picks(items, e, bt);
    SamePositions(items, d, e, at, bt);
  }

  lemma FamilyUnique(members: map<string, seq<Json>>, family: string, d: seq<Json>, e: seq<Json>)
    requires IsFamily(members, family, d) && IsFamily(members, family, e)
    ensures d == e
  {
    if family in members {
      ObjectsUnique(members[family], d, e);
    }
  }

  lemma FilteredUnique(q: Query, raw: Json, d: seq<Json>, e: seq<Json>)
    requires Filtered(q, raw, d) && Filtered(q, raw, e)
    ensures d == e
  {
    if raw.List? {
      ObjectsUnique(raw.items, d, e);
    } else if raw.Object? && q.Devices? {
      var m := raw.members;
      var a1, b1, c1, d1, e1, f1 :| AreParts(m, d, a1, b1, c1, d1, e1, f1);
      var a2, b2, c2, d2, e2, f2 :| AreParts(m, e, a2, b2, c2, d2, e2, f2);
      FamilyUnique(m, "doorbots", a1, a2);
      FamilyUnique(m, "authorized_doorbots", b1, b2);
      FamilyUnique(m, "stickup_cams", c1, c2);
      FamilyUnique(m, "chimes", d1, d2);
      FamilyUnique(m, "base_stations", e1, e2);
      FamilyUnique(m, "other", f1, f2);
    }
  }

  lemma PicksOneMore(items: seq<Json>, item: Json, data: seq<Json>, at: seq<nat>)
    requires Picks(items, data, at)
    ensures item.Object? ==> Picks(items + [item], data + [item], at + [|items|])
    ensures !item.Object? ==> Picks(items + [item], data, at)
  {
    var longer := items + [item];
    forall k | 0 <= k < |longer| && longer[k].Object?
      ensures k in at || (k == |items| && item.Object?)
    {
      assert k < |items| ==> items[k].Object?;
    }
    assert |items| in at + [|items|];
  }

  /** The comprehension over one list. */
  method ObjectsOf(items: seq<Json>) returns (data: seq<Json>)
    ensures AreObjectsOf(items, data)
  {
    data := [];
    ghost var at: seq<nat> := [];
    for i := 0 to |items|
      invariant Picks(items[..i], data, at)
    {
      PicksOneMore(items[..i], items[i], data, at);
      assert items[..i + 1] == items[..i] + [items[i]];
      if items[i].Object? {
        data, at := data + [items[i]], at + [i];
      }
    }
    assert items[..|items|] == items;
    assert Picks(items, data, at);
  }

  /** The families read so far, and what is flattened of them. */
  ghost predicate Parts(members: map<string, seq<Json>>, families: seq<string>, parts: seq<seq<Json>>) {
    |parts| <= |families| && forall i | 0 <= i < |parts| :: IsFamily(members, families[i], parts[i])
  }

  function Flat(parts: seq<seq<Json>>): seq<Json> {
    if parts == [] then [] else Flat(parts[..|parts| - 1]) + parts[|parts| - 1]
  }

  lemma FlatOfSix(parts: seq<seq<Json>>)
    requires |parts| == 6
    ensures Flat(parts) == parts[0] + parts[1] + parts[2] + parts[3] + parts[4] + parts[5]
  {
    var p5, p4, p3, p2, p1 := parts[..5], parts[..4], parts[..3], parts[..2], parts[..1];
    assert p5[..4] == p4 && p4[..3] == p3 && p3[..2] == p2 && p2[..1] == p1 && p1[..0] == [];
    assert Flat(p1) == Flat([]) + parts[0] && Flat([]) + parts[0] == parts[0];
    assert Flat(p2) == Flat(p1) + parts[1] && Flat(p3) == Flat(p2) + parts[2];
    assert Flat(p4) == Flat(p3) + parts[3] && Flat(p5) == Flat(p4) + parts[4];
  }

  lemma PartsAreDevices(members: map<string, seq<Json>>, parts: seq<seq<Json>>)
    requires Parts(members, FAMILIES, parts) && |parts| == 6
    ensures AreDevices(members, Flat(parts))
  {
    FlatOfSix(parts);
    assert FAMILIES == ["doorbots", "authorized_doorbots", "stickup_cams", "chimes", "base_stations", "other"];
    assert AreParts(members, Flat(parts), parts[0], parts[1], parts[2], parts[3], parts[4], parts[5]);
  }

  lemma OnePartMore(members: map<string, seq<Json>>, families: seq<string>, parts: seq<seq<Json>>, part: seq<Json>)
    requires Parts(members, families, parts) && |parts| < |families| && IsFamily(members, families[|parts|], part)
    ensures Parts(members, families, parts + [part])
  {
  }

  lemma OneFlatMore(parts: seq<seq<Json>>, part: seq<Json>)
    ensures Flat(parts + [part]) == Flat(parts) + part
  {
    assert (parts + [part])[..|parts|] == parts;
  }

  /** The loops of get_devices over the decoded envelope. */
  method Flatten(members: map<string, seq<Json>>) returns (data: seq<Json>)
    ensures AreDevices(members, data)
  {
    data := [];
    ghost var parts: seq<seq<Json>> := [];
    for i := 0 to |FAMILIES|
      invariant |parts| == i && Parts(members, FAMILIES, parts) && data == Flat(parts)
    {
      var family := [];
      if FAMILIES[i] in members {
        family := ObjectsOf(members[FAMILIES[i]]);
      }
      OnePartMore(members, FAMILIES, parts, family);
      OneFlatMore(parts, family);
      data, parts := data + family, parts + [family];
    }
    PartsAreDevices(members, parts);
  }

  /** What get_devices and get_history make of the decoded reply. */
  method FilterReply(q: Query, raw: Json) returns (data: seq<Json>)
    ensures Filtered(q, raw, data)
  {
    match raw
    case Object(_, members) =>
      if q.Devices? {
        data := Flatten(members);
      } else {
        data := [];
      }
    case List(items) => data := ObjectsOf(items);
    case Scalar => data := [];
  }

  // ---- the keys do not collide ------------------------------------------------------

  /** A suffix without ':' is found again behind the last ':'. */
  lemma {:induction false} SuffixUnique(a: string, x: string, b: string, y: string)
    requires a + ":" + x == b + ":" + y && ':' !in x && ':' !in y
    ensures a == b && x == y
  {
    var s := a + ":" + x;
    assert s[|a|] == ':' && s[|b|] == ':';
    assert forall k | |a| < k < |s| :: s[k] == x[k - |a| - 1] != ':';
    assert forall k | |b| < k < |s| :: s[k] == y[k - |b| - 1] != ':';
    assert |a| == |b|;
    assert a == s[..|a|] && b == s[..|b|];
    assert x == s[|a| + 1..] && y == s[|b| + 1..];
  }

  /** Even for device ids that contain ':'. */
  lemma KeyInjective(p: Query, q: Query)
    requires Key(p) == Key(q)
    ensures p == q
  {
    assert Key(p)[0] == if p.Devices? then 'd' else 'h';
    assert Key(q)[0] == if q.Devices? then 'd' else 'h';
    if p.History? {
      var a, b := "history:" + p.device, "history:" + q.device;
      SuffixUnique(a, Render(p.limit), b, Render(q.limit));
      assert a[8..] == p.device && b[8..] == q.device;
      RenderInjective(p.limit, q.limit);
    }
  }

  // ---- the cache --------------------------------------------------------------------

  /** The entry for a key stems from an answered request for the query of that key. */
  ghost predicate From(log: seq<Processed>, clock: real, key: string, entry: Entry, i: nat) {
    && i < |log|
    && Key(log[i].query) == key && log[i].at <= clock
    && Filtered(log[i].query, log[i].raw, entry.data) && entry.expiresAt == log[i].at + Ttl(log[i].query)
  }

  class Reader {
    var cache: map<string, Entry>
    var clock: real
    ghost var log: seq<Processed>        // every request answered so far
    ghost var source: map<string, nat>   // which of them an entry stems from

    ghost predicate Valid()
      reads this
    {
      forall key | key in cache :: key in source && From(log, clock, key, cache[key], source[key])
    }

    constructor (now: real)
      ensures Valid() && log == [] && clock == now
    {
      cache, clock, log, source := map[], now, [], map[];
    }

    /** _cache_get: an expired entry is dropped.  What it returns is the filtered reply
        of a request for the very same query, answered less than its lifetime ago. */
    method Lookup(q: Query, now: real) returns (data: Option<seq<Json>>)
      requires Valid() && clock <= now
      modifies this
      ensures Valid() && clock == now && log == old(log)
      ensures data.Some? ==> exists i ::
                && 0 <= i < |log| && log[i].query == q
                && now - (if q.Devices? then 30.0 else 10.0) < log[i].at <= now
                && Filtered(q, log[i].raw, data.value)
      ensures data.None? <==> Key(q) !in old(cache) || old(cache)[Key(q)].expiresAt <= now
      ensures data.Some? ==> data.value == old(cache)[Key(q)].data
      ensures cache == if data.None? then old(cache) - {Key(q)} else old(cache)
    {
      var key := Key(q);
      clock := now;
      if key !in cache {
        assert cache - {key} == cache;
        return None;
      }
      if now >= cache[key].expiresAt {
        cache := cache - {key};
        return None;
      }
      ghost var i := source[key];
      KeyInjective(log[i].query, q);
      data := Some(cache[key].data);
    }

    /** What follows the request that a miss has sent: filter, store, return. */
    method Answered(q: Query, raw: Json, now: real) returns (data: seq<Json>)
      requires Valid() && clock <= now
      modifies this
      ensures Valid() && clock == now && log == old(log) + [Processed(q, now, raw)]
      ensures Filtered(q, raw, data)
      ensures cache == old(cache)[Key(q) := Entry(data, now + if q.Devices? then 30.0 else 10.0)]
    {
      clock := now;
      data := FilterReply(q, raw);
      cache := cache[Key(q) := Entry(data, now + Ttl(q))];
      source := source[Key(q) := |log|];
      log := log + [Processed(q, now, raw)];
    }
  }

  /** What other readers do meanwhile, in any order and number. */
  datatype Other = Looks(q: Query, after: real) | Gets(q: Query, raw: Json, after: real)

  method OthersRun(reader: Reader, others: seq<Other>)
    requires reader.Valid()
    modifies reader
    ensures reader.Valid() && old(reader.clock) <= reader.clock && old(reader.log) <= reader.log
  {
    for i := 0 to |others|
      invariant reader.Valid() && old(reader.clock) <= reader.clock && old(reader.log) <= reader.log
    {
      var now := if others[i].after > 0.0 then reader.clock + others[i].after else reader.clock;
      match others[i]
      case Looks(q, _) => var hit := reader.Lookup(q, now);
      case Gets(q, raw, _) => var got := reader.Answered(q, raw, now);
    }
  }

  /** get_devices and get_history, with other reads running while the request is out.  A
      read whose entry has not expired returns it and sends nothing.  Any other one returns
      the filtered reply to its own request and stores it for 30 or 10 s.  So in any case the
      result is the filtered reply of a request for the same query that was answered less
      than its lifetime before the read returns. */
  method Read(reader: Reader, q: Query, now: real, raw: Json, others: seq<Other>, wait: real) returns (data: seq<Json>)
    requires reader.Valid() && reader.clock <= now && wait >= 0.0
    modifies reader
    ensures reader.Valid() && old(reader.log) <= reader.log
    ensures Key(q) in old(reader.cache) && now < old(reader.cache)[Key(q)].expiresAt ==>
              reader.log == old(reader.log) && data == old(reader.cache)[Key(q)].data
    ensures !(Key(q) in old(reader.cache) && now < old(reader.cache)[Key(q)].expiresAt) ==>
              && |old(reader.log)| < |reader.log|
              && reader.log[|reader.log| - 1] == Processed(q, reader.clock, raw) && Filtered(q, raw, data)
              && Key(q) in reader.cache
              && reader.cache[Key(q)] == Entry(data, reader.clock + if q.Devices? then 30.0 else 10.0)
    ensures exists i :: 0 <= i < |reader.log| && reader.log[i].query == q
                        && reader.clock - (if q.Devices? then 30.0 else 10.0) < reader.log[i].at <= reader.clock
                        && Filtered(q, reader.log[i].raw, data)
  {
    var cached := reader.Lookup(q, now);
    if cached.Some? {
      return cached.value;
    }
    OthersRun(reader, others);
    data := reader.Answered(q, raw, reader.clock + wait);
    assert reader.log[|reader.log| - 1].query == q;
  }
}
