/** The Garage reader's bucket cache: targeted reads absorbed at any moment, membership
    diffs and full re-reads merged over them, and what each refresh says of itself. */
module StateReader {
  import opened Prelude

  /** A bucket record; `at` is when its read returned, on a clock that only rises. */
  datatype Bucket = Bucket(id: string, at: nat, data: int)

  // ---- Insertion-ordered dicts of buckets -------------------------------------

  type Dict = seq<Bucket>

  predicate Distinct(d: Dict) { forall i, j :: 0 <= i < j < |d| ==> d[i].id != d[j].id }

  function Ids(d: Dict): set<string> { set i | 0 <= i < |d| :: d[i].id }

  function Find(d: Dict, id: string): (k: nat)
    ensures k <= |d| && (k < |d| ==> d[k].id == id) && forall j :: 0 <= j < k ==> d[j].id != id
    ensures k < |d| <==> id in Ids(d)
  {
    if d == [] then 0
    else if d[0].id == id then
      assert d[0].id in Ids(d);
      0
    else
      assert forall x :: x in Ids(d) ==> x == d[0].id || x in Ids(d[1..]) by { IdsSplit(d); }
      assert forall x :: x in Ids(d[1..]) ==> x in Ids(d) by { IdsSplit(d); }
      1 + Find(d[1..], id)
  }

  lemma IdsSplit(d: Dict)
    requires d != []
    ensures Ids(d) == {d[0].id} + Ids(d[1..])
  {
    assert d[0].id in Ids(d);
    assert forall i :: 0 < i < |d| ==> d[i] == d[1..][i - 1];
  }

  function At(d: Dict, id: string): Bucket
    requires id in Ids(d)
  {
    d[Find(d, id)]
  }

  /** A dict assignment: a known id keeps its place. */
  function Upsert(d: Dict, b: Bucket): Dict {
    var k := Find(d, b.id);
    if k == |d| then d + [b] else d[k := b]
  }

  function Union(d: Dict, bs: seq<Bucket>): Dict
    decreases |bs|
  {
    if bs == [] then d else Union(Upsert(d, bs[0]), bs[1..])
  }

  function Kept(d: Dict, keep: set<string>): Dict {
    if d == [] then [] else (if d[0].id in keep then [d[0]] else []) + Kept(d[1..], keep)
  }

  function Named(bs: seq<Bucket>): seq<Bucket> {
    if bs == [] then [] else (if bs[0].id != "" then [bs[0]] else []) + Named(bs[1..])
  }

  lemma UpsertFacts(d: Dict, b: Bucket)
    requires Distinct(d)
    ensures var u := Upsert(d, b);
            && Distinct(u) && Ids(u) == Ids(d) + {b.id}
            && At(u, b.id) == b
            && (forall id :: id in Ids(d) && id != b.id ==> id in Ids(u) && At(u, id) == At(d, id))
  {
    var u, k := Upsert(d, b), Find(d, b.id);
    assert u[k] == b;
    assert forall i :: 0 <= i < |d| && i != k ==> u[i] == d[i];
    assert forall i :: 0 <= i < |d| ==> u[i].id == d[i].id;
    assert b.id in Ids(u) by { assert u[k].id == b.id; }
    forall x | x in Ids(d) ensures x in Ids(u) { assert u[Find(d, x)].id == x; }
    AtIndex(u, k);
    forall id | id in Ids(d) && id != b.id ensures At(u, id) == At(d, id) { AtIndex(u, Find(d, id)); }
  }

  lemma AtIndex(d: Dict, k: nat)
    requires Distinct(d) && k < |d|
    ensures d[k].id in Ids(d) && At(d, d[k].id) == d[k]
  {
  }

  /** A union takes the later dict's record, or one of its records, for every id it has. */
  lemma {:induction false} UnionFacts(d: Dict, bs: seq<Bucket>)
    requires Distinct(d)
    ensures var u := Union(d, bs);
            && Distinct(u) && Ids(u) == Ids(d) + Ids(bs)
            && (forall id :: id in Ids(bs) ==> At(u, id) in bs && At(u, id).id == id)
            && (forall id :: id in Ids(d) && id !in Ids(bs) ==> At(u, id) == At(d, id))
    decreases |bs|
  {
    if bs == [] {
      assert Ids(bs) == {};
    } else {
      var d1 := Upsert(d, bs[0]);
      UpsertFacts(d, bs[0]);
      UnionFacts(d1, bs[1..]);
      IdsSplit(bs);
      var u := Union(d, bs);
      forall id | id in Ids(bs) ensures At(u, id) in bs && At(u, id).id == id {
        if id in Ids(bs[1..]) { assert At(u, id) in bs[1..]; } else { assert At(u, id) == At(d1, id) == bs[0]; }
      }
    }
  }

  lemma AtOfDistinct(d: Dict, b: Bucket)
    requires Distinct(d) && b in d
    ensures b.id in Ids(d) && At(d, b.id) == b
  {
    var i :| 0 <= i < |d| && d[i] == b;
    assert d[i].id in Ids(d);
  }

  lemma {:induction false} KeptFacts(d: Dict, keep: set<string>)
    requires Distinct(d)
    ensures var f := Kept(d, keep);
            && Distinct(f) && Ids(f) == Ids(d) * keep
            && (forall b :: b in f ==> b in d)
            && (forall id :: id in Ids(f) ==> At(f, id) == At(d, id))
  {
    if d == [] {
      assert Ids(d) == {};
    } else {
      KeptFacts(d[1..], keep);
      IdsSplit(d);
      var f, rest := Kept(d, keep), Kept(d[1..], keep);
      assert forall i :: 0 < i < |d| ==> d[i] == d[1..][i - 1];
      assert d[0].id !in Ids(d[1..]);
      if d[0].id in keep {
        assert f == [d[0]] + rest && f[1..] == rest;
        IdsSplit(f);
      } else {
        assert f == rest;
      }
      forall id | id in Ids(f) ensures At(f, id) == At(d, id) {
        var b := At(f, id);
        assert b in f;
        AtOfDistinct(d, b);
      }
    }
  }

  // ---- One refresh ------------------------------------------------------------

  /** The cache after a list, and how many ids it dropped. */
  function Merge(prior: Dict, ids: seq<string>, buckets: seq<Bucket>, absorbed: Dict, every: bool): (Dict, nat) {
    var base := if every then [] else prior;
    var keep := (set i | i in ids) + Ids(absorbed);
    (Kept(Union(Union(base, Named(buckets)), absorbed), keep), |Kept(prior, Ids(prior) - keep)|)
  }

  function Listed(ids: seq<string>): set<string> { set i | i in ids }

  /** Exactly which ids are cached after a refresh, and whose record each one has. */
  lemma MergeKeys(prior: Dict, ids: seq<string>, buckets: seq<Bucket>, absorbed: Dict, every: bool)
    requires Distinct(prior) && Distinct(absorbed)
    ensures var (cache, gone) := Merge(prior, ids, buckets, absorbed, every);
            var kept := if every then {} else Ids(prior);
            && Distinct(cache)
            && Ids(cache) == Listed(ids) * (kept + Ids(Named(buckets))) + Ids(absorbed)
            && (forall id :: id in Ids(absorbed) ==> At(cache, id) == At(absorbed, id))
            && (forall id :: id in Ids(cache) && id !in Ids(absorbed) && id in Ids(Named(buckets)) ==>
                  At(cache, id) in Named(buckets))
            && (forall id :: id in Ids(cache) && id !in Ids(absorbed) && id !in Ids(Named(buckets)) ==>
                  id in Ids(prior) && At(cache, id) == At(prior, id))
  {
    var base := if every then [] else prior;
    assert every ==> Ids(base) == {};
    var read := Union(base, Named(buckets));
    UnionFacts(base, Named(buckets));
    UnionFacts(read, absorbed);
    KeptFacts(Union(read, absorbed), Listed(ids) + Ids(absorbed));
    forall id | id in Ids(absorbed) ensures At(Union(read, absorbed), id) == At(absorbed, id) {
      AtOfDistinct(absorbed, At(Union(read, absorbed), id));
    }
  }

  lemma {:induction false} KeptCount(d: Dict, keep: set<string>)
    requires Distinct(d)
    ensures |Kept(d, keep)| == |Ids(d) * keep|
  {
    KeptFacts(d, keep);
    CountIds(Kept(d, keep));
  }

  lemma {:induction false} CountIds(d: Dict)
    requires Distinct(d)
    ensures |Ids(d)| == |d|
  {
    if d == [] {
      assert Ids(d) == {};
    } else {
      IdsSplit(d);
      assert d[0].id !in Ids(d[1..]);
      CountIds(d[1..]);
    }
  }

  lemma SubsetCount(a: set<string>, b: set<string>)
    requires a <= b
    ensures |a| <= |b| && (|a| == |b| <==> a == b)
  {
    assert b == a + (b - a);
  }

  /** The drop count is the number of prior ids neither listed nor absorbed. It equals the
      number that left the cache exactly when no listed id's own read went missing: a
      full re-read drops those without counting them. */
  lemma DropCount(prior: Dict, ids: seq<string>, buckets: seq<Bucket>, absorbed: Dict, every: bool)
    requires Distinct(prior) && Distinct(absorbed)
    ensures var (cache, gone) := Merge(prior, ids, buckets, absorbed, every);
            && gone == |Ids(prior) - Listed(ids) - Ids(absorbed)|
            && gone <= |Ids(prior) - Ids(cache)|
            && (gone == |Ids(prior) - Ids(cache)| <==>
                !every || Ids(prior) * Listed(ids) <= Ids(Named(buckets)) + Ids(absorbed))
  {
    MergeKeys(prior, ids, buckets, absorbed, every);
    var cache := Merge(prior, ids, buckets, absorbed, every).0;
    var uncounted := Ids(prior) - Listed(ids) - Ids(absorbed);
    KeptCount(prior, Ids(prior) - (Listed(ids) + Ids(absorbed)));
    assert Ids(prior) * (Ids(prior) - (Listed(ids) + Ids(absorbed))) == uncounted;
    LeftBy(Ids(prior), Ids(cache), Listed(ids), Ids(Named(buckets)), Ids(absorbed), every);
    SubsetCount(uncounted, Ids(prior) - Ids(cache));
  }

  /** The set algebra behind `DropCount`. */
  lemma LeftBy(prior: set<string>, cache: set<string>, listed: set<string>, got: set<string>,
      absorbed: set<string>, every: bool)
    requires cache == listed * ((if every then {} else prior) + got) + absorbed
    ensures prior - listed - absorbed <= prior - cache
    ensures prior - listed - absorbed == prior - cache <==> !every || prior * listed <= got + absorbed
  {
    if !every {
      assert prior - listed - absorbed == prior - cache;
    } else if prior - listed - absorbed == prior - cache {
      forall x | x in prior * listed ensures x in got + absorbed {
        assert x !in prior - listed - absorbed;
        assert x in cache;
      }
    } else if prior * listed <= got + absorbed {
      forall x | x in prior - cache ensures x in prior - listed - absorbed {
        assert x in listed ==> x in prior * listed;
      }
      assert false;
    }
  }

  /** A bucket answered 404 while a sweep was in flight is back in the cache exactly when
      the sweep listed it and had already read it. */
  lemma GoneReturnsIff(prior: Dict, ids: seq<string>, buckets: seq<Bucket>, absorbed: Dict, every: bool, id: string)
    requires Distinct(prior) && Distinct(absorbed) && id !in Ids(prior) && id !in Ids(absorbed)
    ensures id in Ids(Merge(prior, ids, buckets, absorbed, every).0) <==> id in ids && id in Ids(Named(buckets))
  {
    MergeKeys(prior, ids, buckets, absorbed, every);
  }

  // ---- Order ------------------------------------------------------------------

  function Order(d: Dict): seq<string> { seq(|d|, i requires 0 <= i < |d| => d[i].id) }

  function Among(ids: seq<string>, keep: set<string>): seq<string> {
    if ids == [] then [] else (if ids[0] in keep then [ids[0]] else []) + Among(ids[1..], keep)
  }

  lemma {:induction false} UnionExtendsOrder(d: Dict, bs: seq<Bucket>)
    ensures Order(d) <= Order(Union(d, bs))
    decreases |bs|
  {
    if bs != [] {
      assert Order(d) <= Order(Upsert(d, bs[0]));
      UnionExtendsOrder(Upsert(d, bs[0]), bs[1..]);
    }
  }

  lemma {:induction false} OrderOfKept(d: Dict, keep: set<string>)
    ensures Order(Kept(d, keep)) == Among(Order(d), keep)
  {
    if d != [] {
      OrderOfKept(d[1..], keep);
      assert Order(d)[1..] == Order(d[1..]);
      assert Order([d[0]] + Kept(d[1..], keep)) == [d[0].id] + Order(Kept(d[1..], keep));
    }
  }

  lemma {:induction false} AmongPrefix(short: seq<string>, long: seq<string>, keep: set<string>)
    requires short <= long
    ensures Among(short, keep) <= Among(long, keep)
  {
    if short != [] {
      AmongPrefix(short[1..], long[1..], keep);
    }
  }

  /** Through a membership diff the surviving ids keep their relative order, ahead of
      every new one. */
  lemma KnownIdsKeepPlace(prior: Dict, ids: seq<string>, buckets: seq<Bucket>, absorbed: Dict)
    ensures Among(Order(prior), Listed(ids) + Ids(absorbed)) <= Order(Merge(prior, ids, buckets, absorbed, false).0)
  {
    var read := Union(prior, Named(buckets));
    UnionExtendsOrder(prior, Named(buckets));
    UnionExtendsOrder(read, absorbed);
    var keep := (set i | i in ids) + Ids(absorbed);
    assert keep == Listed(ids) + Ids(absorbed);
    OrderOfKept(Union(read, absorbed), keep);
    AmongPrefix(Order(prior), Order(Union(read, absorbed)), keep);
  }

  // ---- The pushed state's own upsert -----------------------------------------

  function Cut(d: Dict, k: nat): Dict
    requires k < |d|
  {
    d[..k] + d[k + 1..]
  }

  /** Each known record gives way to the incoming one of its id, which is used up;
      whatever is left is new and goes last. */
  function Overlay(d: Dict, incoming: Dict): Dict
    decreases |d|
  {
    if d == [] then incoming
    else
      var k := Find(incoming, d[0].id);
      if k == |incoming| then [d[0]] + Overlay(d[1..], incoming)
      else [incoming[k]] + Overlay(d[1..], Cut(incoming, k))
  }

  lemma FindIs(d: Dict, k: nat, id: string)
    requires Distinct(d) && k < |d| && d[k].id == id
    ensures Find(d, id) == k
  {
    assert d[k].id in Ids(d);
  }

  lemma FindNone(d: Dict, id: string)
    requires forall i :: 0 <= i < |d| ==> d[i].id != id
    ensures Find(d, id) == |d|
  {
  }

  lemma CutDistinct(d: Dict, k: nat)
    requires Distinct(d) && k < |d|
    ensures Distinct(Cut(d, k)) && forall i :: 0 <= i < |d| - 1 ==> Cut(d, k)[i].id != d[k].id
  {
    assert forall i :: 0 <= i < |d| - 1 ==> Cut(d, k)[i] == d[if i < k then i else i + 1];
  }

  /** Cutting out one entry leaves an upsert of another id where it was. */
  lemma CutUpsert(d: Dict, k: nat, b: Bucket)
    requires Distinct(d) && k < |d|
    ensures var up := Upsert(d, b);
            k < |up| && up[k].id == d[k].id
            && Cut(up, k) == if b.id == d[k].id then Cut(d, k) else Upsert(Cut(d, k), b)
  {
    var j := Find(d, b.id);
    if b.id == d[k].id {
      FindIs(d, k, b.id);
      CutSame(d, k, b);
    } else if j < |d| {
      CutFinds(d, k, j);
      CutOther(d, k, j, b);
    } else {
      CutMisses(d, k, b.id);
      assert Cut(d + [b], k) == Cut(d, k) + [b];
    }
  }

  lemma CutSame(d: Dict, k: nat, b: Bucket)
    requires k < |d|
    ensures Cut(d[k := b], k) == Cut(d, k)
  {
  }

  lemma CutOther(d: Dict, k: nat, j: nat, b: Bucket)
    requires k < |d| && j < |d| && j != k
    ensures Cut(d[j := b], k) == Cut(d, k)[(if j < k then j else j - 1) := b]
  {
  }

  lemma CutMisses(d: Dict, k: nat, id: string)
    requires k < |d| && forall i :: 0 <= i < |d| ==> d[i].id != id
    ensures Find(Cut(d, k), id) == |d| - 1
  {
    assert forall i :: 0 <= i < |d| - 1 ==> Cut(d, k)[i] == d[if i < k then i else i + 1];
    FindNone(Cut(d, k), id);
  }

  lemma CutFinds(d: Dict, k: nat, j: nat)
    requires Distinct(d) && k < |d| && j < |d| && j != k
    ensures Find(Cut(d, k), d[j].id) == if j < k then j else j - 1
  {
    CutDistinct(d, k);
    FindIs(Cut(d, k), if j < k then j else j - 1, d[j].id);
  }

  lemma UpsertAfter(x: Bucket, rest: Dict, b: Bucket)
    ensures Upsert([x] + rest, b) == if x.id == b.id then [b] + rest else [x] + Upsert(rest, b)
  {
    assert ([x] + rest)[1..] == rest;
  }

  lemma {:induction false} OverlayUpsert(d: Dict, incoming: Dict, b: Bucket)
    requires Distinct(incoming)
    ensures Distinct(Upsert(incoming, b))
    ensures Overlay(d, Upsert(incoming, b)) == Upsert(Overlay(d, incoming), b)
    decreases |d|
  {
    UpsertFacts(incoming, b);
    if d != [] {
      var k := Find(incoming, d[0].id);
      if k == |incoming| {
        OverlayUpsert(d[1..], incoming, b);
        OverlayAbsent(d, incoming, b);
      } else {
        CutDistinct(incoming, k);
        OverlayUpsert(d[1..], Cut(incoming, k), b);
        OverlayPresent(d, incoming, k, b);
      }
    }
  }

  lemma OverlayMiss(d: Dict, incoming: Dict)
    requires d != [] && forall i :: 0 <= i < |incoming| ==> incoming[i].id != d[0].id
    ensures Overlay(d, incoming) == [d[0]] + Overlay(d[1..], incoming)
  {
    FindNone(incoming, d[0].id);
  }

  lemma OverlayHit(d: Dict, incoming: Dict, k: nat)
    requires Distinct(incoming) && d != [] && k < |incoming| && incoming[k].id == d[0].id
    ensures Overlay(d, incoming) == [incoming[k]] + Overlay(d[1..], Cut(incoming, k))
  {
    FindIs(incoming, k, d[0].id);
  }

  /** The head's id is not incoming. */
  lemma OverlayAbsent(d: Dict, incoming: Dict, b: Bucket)
    requires Distinct(incoming) && d != [] && Find(incoming, d[0].id) == |incoming|
    requires Overlay(d[1..], Upsert(incoming, b)) == Upsert(Overlay(d[1..], incoming), b)
    ensures Overlay(d, Upsert(incoming, b)) == Upsert(Overlay(d, incoming), b)
  {
    OverlayMiss(d, incoming);
    UpsertAfter(d[0], Overlay(d[1..], incoming), b);
    if b.id == d[0].id {
      OverlayNew(d, incoming, b);
    } else {
      UpsertMisses(incoming, b, d[0].id);
      OverlayMiss(d, Upsert(incoming, b));
    }
  }

  lemma UpsertMisses(d: Dict, b: Bucket, id: string)
    requires b.id != id && forall i :: 0 <= i < |d| ==> d[i].id != id
    ensures var u := Upsert(d, b); forall i :: 0 <= i < |u| ==> u[i].id != id
  {
  }

  lemma OverlayNew(d: Dict, incoming: Dict, b: Bucket)
    requires Distinct(incoming) && d != [] && b.id == d[0].id && Find(incoming, b.id) == |incoming|
    ensures Overlay(d, Upsert(incoming, b)) == [b] + Overlay(d[1..], incoming)
  {
    var up := incoming + [b];
    assert Distinct(up);
    OverlayHit(d, up, |incoming|);
    assert Cut(up, |incoming|) == incoming;
  }

  /** The head's id is incoming. */
  lemma OverlayPresent(d: Dict, incoming: Dict, k: nat, b: Bucket)
    requires Distinct(incoming) && d != [] && k < |incoming| && incoming[k].id == d[0].id
    requires Overlay(d[1..], Upsert(Cut(incoming, k), b)) == Upsert(Overlay(d[1..], Cut(incoming, k)), b)
    ensures Overlay(d, Upsert(incoming, b)) == Upsert(Overlay(d, incoming), b)
  {
    OverlayHit(d, incoming, k);
    UpsertAfter(incoming[k], Overlay(d[1..], Cut(incoming, k)), b);
    CutUpsert(incoming, k, b);
    UpsertFacts(incoming, b);
    OverlayHit(d, Upsert(incoming, b), k);
    if b.id == incoming[k].id {
      FindIs(incoming, k, b.id);
    } else {
      assert Upsert(incoming, b)[k] == incoming[k];
    }
  }

  lemma {:induction false} OverlayNothing(d: Dict)
    ensures Overlay(d, []) == d
  {
    if d != [] { OverlayNothing(d[1..]); }
  }

  /** The pushed state's upsert gives what the reader's cache update gives, in the same
      order, repeated records and repeated ids included. */
  lemma {:induction false} OverlayIsUnion(d: Dict, bs: seq<Bucket>)
    ensures Overlay(d, Union([], bs)) == Union(d, bs)
    decreases |bs|
  {
    if bs == [] {
      OverlayNothing(d);
    } else {
      var front, last := bs[..|bs| - 1], bs[|bs| - 1];
      OverlayIsUnion(d, front);
      UnionLast([], bs);
      UnionLast(d, bs);
      UnionFacts([], front);
      OverlayUpsert(d, Union([], front), last);
    }
  }

  lemma {:induction false} UnionLast(d: Dict, bs: seq<Bucket>)
    requires bs != []
    ensures Union(d, bs) == Upsert(Union(d, bs[..|bs| - 1]), bs[|bs| - 1])
    decreases |bs|
  {
    if |bs| > 1 {
      UnionLast(Upsert(d, bs[0]), bs[1..]);
      assert bs[1..][..|bs| - 2] == bs[..|bs| - 1][1..];
    }
  }

  /** One pop per known record, then the leftovers. */
  method WithItems(buckets: Dict, items: seq<Bucket>) returns (merged: Dict)
    ensures merged == Union(buckets, Named(items))
  {
    OverlayIsUnion(buckets, Named(items));
    var incoming := Union([], Named(items));
    if incoming == [] {
      OverlayNothing(buckets);
      return buckets;
    }
    merged := PopEach(buckets, incoming);
  }

  method PopEach(buckets: Dict, items: Dict) returns (merged: Dict)
    ensures merged == Overlay(buckets, items)
  {
    var incoming := items;
    merged := [];
    assert buckets[0..] == buckets;
    for i := 0 to |buckets|
      invariant merged + Overlay(buckets[i..], incoming) == Overlay(buckets, items)
    {
      assert buckets[i..][0] == buckets[i] && buckets[i..][1..] == buckets[i + 1..];
      ghost var was, rest := merged, Overlay(buckets[i + 1..], incoming);
      var k := Find(incoming, buckets[i].id);
      if k == |incoming| {
        merged := merged + [buckets[i]];
        assert was + ([buckets[i]] + rest) == merged + rest;
      } else {
        merged := merged + [incoming[k]];
        rest := Overlay(buckets[i + 1..], Cut(incoming, k));
        assert was + ([incoming[k]] + rest) == merged + rest;
        incoming := Cut(incoming, k);
      }
    }
    merged := merged + incoming;
  }

  // ---- The reader's fields ----------------------------------------------------

  const MAX_HINTED_READS: nat := 32

  /** `buckets` is None before the first refresh, `absorbed` while none is in flight. */
  datatype Cache = Cache(buckets: Option<Dict>, absorbed: Option<Dict>, pending: seq<string>, complete: bool)

  function Cached(c: Cache): Dict { if c.buckets.Some? then c.buckets.value else [] }

  function Absorbed(c: Cache): Dict { if c.absorbed.Some? then c.absorbed.value else [] }

  /** A full read is complete when every listed id came back. */
  predicate Complete(ids: seq<string>, cache: Dict) { Listed(ids) <= Ids(Named(cache)) }

  function Targets(c: Cache, ids: seq<string>, every: bool): seq<string> {
    if every then ids else Among(ids, Listed(ids) - Ids(Cached(c)))
  }

  function Land(c: Cache, ids: seq<string>, got: seq<Bucket>, every: bool): Cache {
    var cache := Merge(Cached(c), ids, got, Absorbed(c), every).0;
    Cache(Some(cache), None, if every then [] else c.pending, if every then Complete(ids, cache) else c.complete)
  }

  /** What a refresh says it read, in cache order. */
  function Fresh(c: Cache, ids: seq<string>, got: seq<Bucket>, every: bool): seq<string> {
    Among(Order(Merge(Cached(c), ids, got, Absorbed(c), every).0), Ids(got) + Ids(Absorbed(c)))
  }

  function Without(d: Dict, gone: seq<string>): Dict
    decreases |gone|
  {
    if gone == [] then d else Without(Kept(d, Ids(d) - {gone[0]}), gone[1..])
  }

  function Target(d: Dict, upserts: seq<Bucket>, gone: seq<string>): Dict {
    Without(Union(d, Named(upserts)), gone)
  }

  function Absorb(c: Cache, upserts: seq<Bucket>, gone: seq<string>): Cache {
    Cache(
      if c.buckets.Some? then Some(Target(c.buckets.value, upserts, gone)) else None,
      if c.absorbed.Some? then Some(Target(c.absorbed.value, upserts, gone)) else None,
      c.pending, c.complete)
  }

  function Hint(c: Cache, hinted: seq<string>): Cache {
    c.(pending := hinted + Among(c.pending, Listed(c.pending) - Listed(hinted)))
  }

  function DrainSize(c: Cache): nat {
    if |c.pending| < MAX_HINTED_READS then |c.pending| else MAX_HINTED_READS
  }

  lemma {:induction false} WithoutFacts(d: Dict, gone: seq<string>)
    requires Distinct(d)
    ensures var f := Without(d, gone);
            && Distinct(f) && Ids(f) == Ids(d) - Listed(gone)
            && (forall id :: id in Ids(f) ==> At(f, id) == At(d, id))
    decreases |gone|
  {
    if gone != [] {
      KeptFacts(d, Ids(d) - {gone[0]});
      WithoutFacts(Kept(d, Ids(d) - {gone[0]}), gone[1..]);
      assert Listed(gone) == {gone[0]} + Listed(gone[1..]);
    }
  }

  lemma {:induction false} NamedFacts(bs: seq<Bucket>)
    ensures forall b :: b in Named(bs) <==> b in bs && b.id != ""
  {
    if bs != [] {
      NamedFacts(bs[1..]);
      assert forall b :: b in bs <==> b == bs[0] || b in bs[1..];
    }
  }

  lemma {:induction false} NamedAll(bs: seq<Bucket>)
    requires "" !in Ids(bs)
    ensures Named(bs) == bs
  {
    if bs != [] {
      IdsSplit(bs);
      NamedAll(bs[1..]);
    }
  }

  lemma {:induction false} AmongFacts(ids: seq<string>, keep: set<string>)
    ensures Listed(Among(ids, keep)) == Listed(ids) * keep
  {
    if ids != [] {
      AmongFacts(ids[1..], keep);
      assert Listed(ids) == {ids[0]} + Listed(ids[1..]);
      var rest := Among(ids[1..], keep);
      if ids[0] in keep {
        assert Among(ids, keep) == [ids[0]] + rest;
        assert Listed([ids[0]] + rest) == {ids[0]} + Listed(rest);
      } else {
        assert Among(ids, keep) == rest;
      }
    }
  }

  lemma OrderFacts(d: Dict)
    ensures Listed(Order(d)) == Ids(d)
  {
    assert forall i :: 0 <= i < |d| ==> Order(d)[i] == d[i].id;
    assert forall x :: x in Ids(d) ==> x in Listed(Order(d));
  }

  /** A full re-read calls every cached bucket changed; a diff, exactly those it or a
      targeted read brought in. */
  lemma FreshIsWhatWasRead(c: Cache, ids: seq<string>, got: seq<Bucket>, every: bool)
    requires Distinct(Cached(c)) && Distinct(Absorbed(c))
    ensures var cache := Cached(Land(c, ids, got, every));
            && Listed(Fresh(c, ids, got, every)) == Ids(cache) * (Ids(got) + Ids(Absorbed(c)))
            && (every ==> Listed(Fresh(c, ids, got, every)) == Ids(cache))
  {
    MergeKeys(Cached(c), ids, got, Absorbed(c), every);
    NamedFacts(got);
    var cache := Cached(Land(c, ids, got, every));
    AmongFacts(Order(cache), Ids(got) + Ids(Absorbed(c)));
    OrderFacts(cache);
    assert Ids(Named(got)) <= Ids(got);
  }

  // ---- Every interleaving -----------------------------------------------------

  /** A refresh in flight: before its list returned, or reading its targets. `since` is
      the clock when it began, `got` what its reads brought so far. */
  datatype Sweep =
    | NoSweep
    | Listing(every: bool, since: nat)
    | Reading(every: bool, since: nat, ids: seq<string>, targets: seq<string>, got: seq<Bucket>)

  datatype Reader = Reader(clock: nat, cache: Cache, sweep: Sweep)

  datatype Step =
    | Tick                                                // time passes
    | Begin(all: bool)
    | ListReturns(listed: Option<seq<string>>)
    | SweepRead(asked: string, read: Option<Bucket>)      // the next target's read returns, or fails
    | Finish(raised: bool)                                // every target read, or the reads raised
    | TargetedRead(upserts: seq<Bucket>, gone: seq<string>)
    | TakeHint(hinted: seq<string>)
    | Drain(batch: seq<string>)                           // the pending ids a tick reads

  function Start(): Reader { Reader(0, Cache(None, None, [], true), NoSweep) }

  predicate Enabled(r: Reader, a: Step) {
    match a
    case Begin(_) => r.sweep.NoSweep?
    case ListReturns(_) => r.sweep.Listing?
    case SweepRead(id, b) =>
      r.sweep.Reading? && r.sweep.targets != [] && id == r.sweep.targets[0] && (b.Some? ==> b.value.at == r.clock)
    case Finish(raised) => r.sweep.Reading? && (raised || r.sweep.targets == [])
    case TargetedRead(upserts, _) => forall b :: b in upserts ==> b.at <= r.clock
    case Drain(batch) => batch == r.cache.pending[..DrainSize(r.cache)]
    case _ => true
  }

  function Brought(s: Sweep, raised: bool): seq<Bucket>
    requires s.Reading?
  {
    if raised then [] else s.got
  }

  function Next(r: Reader, a: Step): Reader
    requires Enabled(r, a)
  {
    var c, s := r.cache, r.sweep;
    match a
    case Tick => r.(clock := r.clock + 1)
    case Begin(every) => r.(cache := c.(absorbed := Some([])), sweep := Listing(every, r.clock))
    case ListReturns(None) => r.(cache := c.(absorbed := None), sweep := NoSweep)
    case ListReturns(Some(ids)) => r.(sweep := Reading(s.every, s.since, ids, Targets(c, ids, s.every), []))
    case SweepRead(_, b) =>
      var got := if b.Some? then s.got + [b.value] else s.got;
      r.(sweep := Reading(s.every, s.since, s.ids, s.targets[1..], got))
    case Finish(raised) => r.(cache := Land(c, s.ids, Brought(s, raised), s.every), sweep := NoSweep)
    case TargetedRead(upserts, gone) => r.(cache := Absorb(c, upserts, gone))
    case TakeHint(hinted) => r.(cache := Hint(c, hinted))
    case Drain(_) => r.(cache := c.(pending := c.pending[DrainSize(c)..]))
  }

  /** While a refresh is in flight: what it read is newer than its start, what the cache
      holds is older unless a targeted read put it there, and then it is absorbed too. */
  ghost predicate Inv(r: Reader) {
    var d, a, s := Cached(r.cache), Absorbed(r.cache), r.sweep;
    && Distinct(d) && Distinct(a) && "" !in Ids(d) && "" !in Ids(a)
    && (r.cache.absorbed.Some? <==> !s.NoSweep?)
    && (!s.NoSweep? ==> s.since <= r.clock)
    && (s.Reading? ==> forall b :: b in s.got ==> s.since <= b.at <= r.clock)
    && (forall id :: id in Ids(d) ==> At(d, id).at <= r.clock)
    && (!s.NoSweep? ==> forall id :: id in Ids(d) ==>
          if id in Ids(a) then At(d, id) == At(a, id) else At(d, id).at <= s.since)
    && (forall id :: id in Ids(a) ==> At(a, id).at <= r.clock)
  }

  lemma FinishKeeps(r: Reader, raised: bool)
    requires Inv(r) && Enabled(r, Finish(raised))
    ensures Inv(Next(r, Finish(raised)))
  {
    var s := r.sweep;
    LandFacts(r.cache, s.ids, Brought(s, raised), s.every, r.clock);
    assert Absorbed(Next(r, Finish(raised)).cache) == [] && Ids([]) == {};
  }

  predicate Dated(d: Dict, clock: nat) { forall id :: id in Ids(d) ==> At(d, id).at <= clock }

  lemma LandFacts(c: Cache, ids: seq<string>, got: seq<Bucket>, every: bool, clock: nat)
    requires Distinct(Cached(c)) && Distinct(Absorbed(c)) && "" !in Ids(Cached(c)) && "" !in Ids(Absorbed(c))
    requires Dated(Cached(c), clock) && Dated(Absorbed(c), clock) && forall b :: b in got ==> b.at <= clock
    ensures var d := Cached(Land(c, ids, got, every));
            Distinct(d) && "" !in Ids(d) && Dated(d, clock)
  {
    var d, n := Cached(Land(c, ids, got, every)), Named(got);
    MergeKeys(Cached(c), ids, got, Absorbed(c), every);
    NamedFacts(got);
    assert "" !in Ids(n);
    forall id | id in Ids(d) ensures At(d, id).at <= clock {
      if id in Ids(Absorbed(c)) {
        assert At(d, id) == At(Absorbed(c), id);
      } else if id in Ids(n) {
        assert At(d, id) in n;
      } else {
        assert At(d, id) == At(Cached(c), id);
      }
    }
  }

  lemma TargetFacts(d: Dict, upserts: seq<Bucket>, gone: seq<string>)
    requires Distinct(d)
    ensures var u, n := Target(d, upserts, gone), Named(upserts);
            && Distinct(u)
            && Ids(u) == Ids(d) + Ids(n) - Listed(gone)
            && Ids(Union([], n)) == Ids(n)
            && (forall id :: id in Ids(u) && id in Ids(n) ==> At(u, id) == At(Union([], n), id) && At(u, id) in upserts)
            && (forall id :: id in Ids(u) && id !in Ids(n) ==> id in Ids(d) && At(u, id) == At(d, id))
  {
    var n := Named(upserts);
    UnionFacts(d, n);
    UnionFacts([], n);
    WithoutFacts(Union(d, n), gone);
    UnionSame(d, [], n);
    NamedFacts(upserts);
  }

  /** What a union writes does not depend on what it writes over. */
  lemma {:induction false} UnionSame(d: Dict, e: Dict, bs: seq<Bucket>)
    requires Distinct(d) && Distinct(e)
    ensures Ids(bs) <= Ids(Union(d, bs)) && Ids(bs) <= Ids(Union(e, bs))
    ensures forall id :: id in Ids(bs) ==> At(Union(d, bs), id) == At(Union(e, bs), id)
    decreases |bs|
  {
    UnionFacts(d, bs);
    UnionFacts(e, bs);
    if bs != [] {
      UpsertFacts(d, bs[0]);
      UpsertFacts(e, bs[0]);
      UnionSame(Upsert(d, bs[0]), Upsert(e, bs[0]), bs[1..]);
      UnionFacts(Upsert(d, bs[0]), bs[1..]);
      UnionFacts(Upsert(e, bs[0]), bs[1..]);
      IdsSplit(bs);
    }
  }

  lemma TargetedReadKeeps(r: Reader, upserts: seq<Bucket>, gone: seq<string>)
    requires Inv(r) && Enabled(r, TargetedRead(upserts, gone))
    ensures Inv(Next(r, TargetedRead(upserts, gone)))
  {
    TargetFacts(Cached(r.cache), upserts, gone);
    TargetFacts(Absorbed(r.cache), upserts, gone);
    NamedFacts(upserts);
  }

  lemma StepKeeps(r: Reader, a: Step)
    requires Inv(r) && Enabled(r, a)
    ensures Inv(Next(r, a))
  {
    match a
    case Finish(raised) => FinishKeeps(r, raised);
    case TargetedRead(upserts, gone) => TargetedReadKeeps(r, upserts, gone);
    case _ =>
  }

  predicate IsRun(r: Reader, steps: seq<Step>)
    decreases |steps|
  {
    steps == [] || (Enabled(r, steps[0]) && IsRun(Next(r, steps[0]), steps[1..]))
  }

  function After(r: Reader, steps: seq<Step>): Reader
    requires IsRun(r, steps)
    decreases |steps|
  {
    if steps == [] then r else After(Next(r, steps[0]), steps[1..])
  }

  lemma {:induction false} RunKeeps(r: Reader, steps: seq<Step>)
    requires Inv(r) && IsRun(r, steps)
    ensures Inv(After(r, steps))
    decreases |steps|
  {
    if steps != [] {
      StepKeeps(r, steps[0]);
      RunKeeps(Next(r, steps[0]), steps[1..]);
    }
  }

  /** However targeted reads interleave with a refresh, landing it replaces no record by an
      older one, keeps exactly the ids it should, and a full one says it is complete
      exactly when every listed id is cached. */
  lemma RefreshNeverReverts(steps: seq<Step>, raised: bool)
    requires IsRun(Start(), steps) && Enabled(After(Start(), steps), Finish(raised))
    ensures var r := After(Start(), steps);
            var c, s, c' := r.cache, r.sweep, Next(r, Finish(raised)).cache;
            && (forall id :: id in Ids(Cached(c)) && id in Ids(Cached(c')) ==>
                  At(Cached(c), id).at <= At(Cached(c'), id).at)
            && Ids(Cached(c')) ==
               Listed(s.ids) * ((if s.every then {} else Ids(Cached(c))) + Ids(Named(Brought(s, raised))))
               + Ids(Absorbed(c))
            && (s.every ==> (c'.complete <==> forall id :: id in s.ids ==> id in Ids(Cached(c'))) && c'.pending == [])
  {
    assert Ids([]) == {};
    RunKeeps(Start(), steps);
    var r := After(Start(), steps);
    var s := r.sweep;
    MergeKeys(Cached(r.cache), s.ids, Brought(s, raised), Absorbed(r.cache), s.every);
    NamedFacts(Brought(s, raised));
    FinishKeeps(r, raised);
    NamedAll(Cached(Next(r, Finish(raised)).cache));
  }

  /** The ids a refresh asked for, in order, and the buckets it was answered. */
  function Asked(steps: seq<Step>): seq<string> {
    if steps == [] then [] else (if steps[0].SweepRead? then [steps[0].asked] else []) + Asked(steps[1..])
  }

  function Answered(steps: seq<Step>): seq<Bucket> {
    if steps == [] then []
    else (if steps[0].SweepRead? && steps[0].read.Some? then [steps[0].read.value] else []) + Answered(steps[1..])
  }

  /** What the list named and the cache did not have, in list order. */
  function Lacking(ids: seq<string>, cached: set<string>): seq<string> {
    if ids == [] then [] else (if ids[0] in cached then [] else [ids[0]]) + Lacking(ids[1..], cached)
  }

  /** One refresh's reads and whatever happens beside them. */
  predicate Sweeping(steps: seq<Step>) {
    forall i :: 0 <= i < |steps| ==> !steps[i].Begin? && !steps[i].ListReturns? && !steps[i].Finish?
  }

  lemma SweepStep(r: Reader, a: Step)
    requires r.sweep.Reading? && Enabled(r, a) && !a.Begin? && !a.ListReturns? && !a.Finish?
    ensures var s, s' := r.sweep, Next(r, a).sweep;
            && s'.Reading? && s'.every == s.every && s'.ids == s.ids
            && s.targets == (if a.SweepRead? then [a.asked] else []) + s'.targets
            && s'.got == s.got + (if a.SweepRead? && a.read.Some? then [a.read.value] else [])
  {
    if a.SweepRead? {
      assert r.sweep.targets == [r.sweep.targets[0]] + r.sweep.targets[1..];
    }
  }

  lemma {:induction false} SweepGoesOn(r: Reader, steps: seq<Step>)
    requires r.sweep.Reading? && IsRun(r, steps) && Sweeping(steps)
    ensures var s, s' := r.sweep, After(r, steps).sweep;
            && s'.Reading? && s'.every == s.every && s'.ids == s.ids
            && s.targets == Asked(steps) + s'.targets && s'.got == s.got + Answered(steps)
    decreases |steps|
  {
    if steps == [] {
      assert [] + r.sweep.targets == r.sweep.targets && r.sweep.got + [] == r.sweep.got;
    } else {
      SweepStep(r, steps[0]);
      assert Sweeping(steps[1..]) by { assert forall i :: 0 <= i < |steps| - 1 ==> steps[1..][i] == steps[i + 1]; }
      SweepGoesOn(Next(r, steps[0]), steps[1..]);
      var s', a := After(r, steps).sweep, steps[0];
      Regroup(if a.SweepRead? then [a.asked] else [], Asked(steps[1..]), s'.targets);
      Regroup(r.sweep.got, if a.SweepRead? && a.read.Some? then [a.read.value] else [], Answered(steps[1..]));
    }
  }

  lemma Regroup<T>(a: seq<T>, b: seq<T>, c: seq<T>)
    ensures a + (b + c) == a + b + c
  {
  }

  lemma {:induction false} AmongLacks(ids: seq<string>, keep: set<string>, cached: set<string>)
    requires keep + cached >= Listed(ids) && keep !! cached
    ensures Among(ids, keep) == Lacking(ids, cached)
  {
    if ids != [] {
      assert ids[0] in Listed(ids) && Listed(ids[1..]) <= Listed(ids);
      AmongLacks(ids[1..], keep, cached);
    }
  }

  /** In any run, a refresh whose reads are over asked for every listed id if it is a full
      one, and otherwise for exactly the listed ids the cache lacked when the list came
      back, in list order; and what it lands is what it was answered. */
  lemma RefreshReadsWhatItShould(steps: seq<Step>, ids: seq<string>, during: seq<Step>)
    requires IsRun(Start(), steps) && Enabled(After(Start(), steps), ListReturns(Some(ids)))
    requires var r1 := Next(After(Start(), steps), ListReturns(Some(ids)));
             IsRun(r1, during) && Sweeping(during) && Enabled(After(r1, during), Finish(false))
    ensures var r := After(Start(), steps);
            && Asked(during) == (if r.sweep.every then ids else Lacking(ids, Ids(Cached(r.cache))))
            && Brought(After(Next(r, ListReturns(Some(ids))), during).sweep, false) == Answered(during)
  {
    var r := After(Start(), steps);
    SweepGoesOn(Next(r, ListReturns(Some(ids))), during);
    AmongLacks(ids, Listed(ids) - Ids(Cached(r.cache)), Ids(Cached(r.cache)));
    assert Asked(during) + [] == Asked(during) && [] + Answered(during) == Answered(during);
  }

  /** No step of a run is a full re-read landing, which clears the hints. */
  predicate NoFullReread(r: Reader, steps: seq<Step>)
    requires IsRun(r, steps)
    decreases |steps|
  {
    steps == [] || (!(steps[0].Finish? && r.sweep.every) && NoFullReread(Next(r, steps[0]), steps[1..]))
  }

  predicate Drained(steps: seq<Step>, id: string) {
    exists i :: 0 <= i < |steps| && steps[i].Drain? && id in steps[i].batch
  }

  lemma {:induction false} StaysPending(r: Reader, steps: seq<Step>, id: string)
    requires IsRun(r, steps) && NoFullReread(r, steps) && id in r.cache.pending
    ensures id in After(r, steps).cache.pending || Drained(steps, id)
    decreases |steps|
  {
    if steps != [] {
      var next := Next(r, steps[0]);
      StepPending(r, steps[0], id);
      if id in next.cache.pending {
        StaysPending(next, steps[1..], id);
        if Drained(steps[1..], id) {
          var i :| 0 <= i < |steps| - 1 && steps[1..][i].Drain? && id in steps[1..][i].batch;
          assert steps[i + 1].Drain?;
        }
      }
    }
  }

  lemma StepPending(r: Reader, a: Step, id: string)
    requires Enabled(r, a) && !(a.Finish? && r.sweep.every) && id in r.cache.pending
    ensures id in Next(r, a).cache.pending || (a.Drain? && id in a.batch)
  {
    var p := r.cache.pending;
    match a
    case Drain(batch) => assert p == p[..DrainSize(r.cache)] + p[DrainSize(r.cache)..];
    case TakeHint(hinted) =>
      AmongFacts(p, Listed(p) - Listed(hinted));
      assert id in hinted || id in Listed(Among(p, Listed(p) - Listed(hinted)));
    case _ =>
  }

  /** A hinted id is read by a later tick or still pending, unless a full re-read landed
      since, however hints, reads and refreshes interleave; and a tick reads at most so
      many. */
  lemma HintIsNotLost(r: Reader, hinted: seq<string>, steps: seq<Step>, id: string)
    requires id in hinted
    requires var r1 := Next(r, TakeHint(hinted)); IsRun(r1, steps) && NoFullReread(r1, steps)
    ensures id in After(Next(r, TakeHint(hinted)), steps).cache.pending || Drained(steps, id)
    ensures forall i :: 0 <= i < |steps| && steps[i].Drain? ==> |steps[i].batch| <= MAX_HINTED_READS
  {
    var r1 := Next(r, TakeHint(hinted));
    assert id in r1.cache.pending;
    StaysPending(r1, steps, id);
    DrainsBounded(r1, steps);
  }

  /** A tick takes the first pending ids, as many as it may, and leaves the others in order. */
  lemma DrainTakesTheFirst(steps: seq<Step>, batch: seq<string>)
    requires IsRun(Start(), steps) && Enabled(After(Start(), steps), Drain(batch))
    ensures var r := After(Start(), steps);
            && batch + Next(r, Drain(batch)).cache.pending == r.cache.pending
            && |batch| <= MAX_HINTED_READS
            && (Next(r, Drain(batch)).cache.pending == [] || |batch| == MAX_HINTED_READS)
  {
    var p, n := After(Start(), steps).cache.pending, DrainSize(After(Start(), steps).cache);
    assert p == p[..n] + p[n..];
  }

  lemma {:induction false} DrainsBounded(r: Reader, steps: seq<Step>)
    requires IsRun(r, steps)
    ensures forall i :: 0 <= i < |steps| && steps[i].Drain? ==> |steps[i].batch| <= MAX_HINTED_READS
    decreases |steps|
  {
    if steps != [] {
      DrainsBounded(Next(r, steps[0]), steps[1..]);
      assert forall i :: 0 < i < |steps| ==> steps[i] == steps[1..][i - 1];
    }
  }

  /** A targeted read that returned before a refresh read the same bucket, and lands after
      that refresh, puts the older record back. */
  lemma LateTargetedReadReverts(id: string) returns (steps: seq<Step>, late: Step)
    requires id != ""
    ensures IsRun(Start(), steps) && Enabled(After(Start(), steps), late) && late.TargetedRead?
    ensures var r := After(Start(), steps);
            var r' := Next(r, late);
            id in Ids(Cached(r.cache)) && id in Ids(Cached(r'.cache))
            && At(Cached(r'.cache), id).at < At(Cached(r.cache), id).at
  {
    var stale, young := Bucket(id, 0, 0), Bucket(id, 1, 0);
    late := TargetedRead([stale], []);
    var r: Reader;
    steps, r := Do([], Start(), Begin(true));
    steps, r := Do(steps, r, ListReturns(Some([id])));
    steps, r := Do(steps, r, Tick);
    steps, r := Do(steps, r, SweepRead(id, Some(young)));
    assert r.sweep.targets == [] && r.sweep.got == [young];
    LandsAlone(id, young);
    steps, r := Do(steps, r, Finish(false));
    assert Cached(r.cache) == [young];
    PutsBack(id, stale, young);
    assert [stale][0].id == id && [young][0].id == id;
  }

  lemma PutsBack(id: string, stale: Bucket, young: Bucket)
    requires id != "" && stale.id == young.id == id
    ensures Target([young], [stale], []) == [stale]
  {
    assert Named([stale]) == [stale];
    assert Find([young], id) == 0;
    assert Union([young], [stale]) == [stale];
  }

  lemma LandsAlone(id: string, young: Bucket)
    requires id != "" && young.id == id
    ensures Land(Cache(None, Some([]), [], true), [id], [young], true) == Cache(Some([young]), None, [], true)
  {
    assert Named([young]) == [young];
    assert Union([], [young]) == [young];
    assert [id][0] == id && id in Listed([id]);
    assert Kept([young], (set i | i in [id]) + Ids([])) == [young];
    assert [young][0].id in Ids([young]);
    assert Complete([id], [young]);
  }

  predicate Reaches(steps: seq<Step>, r: Reader) { IsRun(Start(), steps) && After(Start(), steps) == r }

  lemma {:induction false} RunThen(r0: Reader, steps: seq<Step>, a: Step)
    requires IsRun(r0, steps) && Enabled(After(r0, steps), a)
    ensures IsRun(r0, steps + [a]) && After(r0, steps + [a]) == Next(After(r0, steps), a)
    decreases |steps|
  {
    if steps == [] {
      assert [a][1..] == [];
    } else {
      assert (steps + [a])[1..] == steps[1..] + [a];
      RunThen(Next(r0, steps[0]), steps[1..], a);
    }
  }

  lemma Do(steps: seq<Step>, r: Reader, a: Step) returns (steps': seq<Step>, r': Reader)
    requires Reaches(steps, r) && Enabled(r, a)
    ensures Reaches(steps', r') && r' == Next(r, a)
  {
    RunThen(Start(), steps, a);
    steps', r' := steps + [a], Next(r, a);
  }

  // ---- When a record goes back in time ----------------------------------------

  /** The records a step lays into the cache. */
  function Landed(r: Reader, a: Step): Dict
    requires Enabled(r, a)
  {
    match a
    case Finish(raised) => Merge([], r.sweep.ids, Brought(r.sweep, raised), Absorbed(r.cache), true).0
    case TargetedRead(upserts, gone) => if r.cache.buckets.Some? then Target([], upserts, gone) else []
    case _ => []
  }

  /** A reader and its history: for each cached id, when the newest of the reads that have
      landed for it since it entered the cache returned. */
  datatype World = World(r: Reader, newest: map<string, nat>)

  function Max(a: nat, b: nat): nat { if a < b then b else a }

  function LandedAt(landed: Dict, id: string): nat { if id in Ids(landed) then At(landed, id).at else 0 }

  function Advance(w: World, a: Step): World
    requires Enabled(w.r, a)
  {
    var r', landed := Next(w.r, a), Landed(w.r, a);
    World(r', map id | id in Ids(Cached(r'.cache)) ::
      Max(if id in w.newest then w.newest[id] else 0, LandedAt(landed, id)))
  }

  /** Some cached id's record gives way to an older one. */
  predicate Reverts(r: Reader, a: Step)
    requires Enabled(r, a)
  {
    var d, d' := Cached(r.cache), Cached(Next(r, a).cache);
    exists id :: id in Ids(d) && id in Ids(d') && At(d', id).at < At(d, id).at
  }

  /** A targeted read lands a record after a read of the same id that returned later. */
  predicate Late(w: World, a: Step)
    requires Enabled(w.r, a)
  {
    a.TargetedRead? &&
    exists id :: id in w.newest && id in Ids(Landed(w.r, a)) && At(Landed(w.r, a), id).at < w.newest[id]
  }

  /** Nothing has been reverted: each cached record is the newest that landed. */
  ghost predicate Monotone(w: World) {
    && Inv(w.r) && w.newest.Keys == Ids(Cached(w.r.cache))
    && forall id :: id in w.newest ==> w.newest[id] == At(Cached(w.r.cache), id).at
  }

  /** `u` is `d` with the records of `t` laid over it, and perhaps some others dropped. */
  ghost predicate LaidOver(d: Dict, t: Dict, u: Dict) {
    && Distinct(u) && Ids(t) <= Ids(u) && Ids(u) <= Ids(d) + Ids(t)
    && (forall id :: id in Ids(t) ==> At(u, id) == At(t, id))
    && (forall id :: id in Ids(u) && id !in Ids(t) ==> At(u, id) == At(d, id))
  }

  lemma TargetLaid(d: Dict, upserts: seq<Bucket>, gone: seq<string>)
    requires Distinct(d)
    ensures LaidOver(d, Target([], upserts, gone), Target(d, upserts, gone))
  {
    TargetFacts(d, upserts, gone);
    TargetFacts([], upserts, gone);
    assert Ids([]) == {};
  }

  lemma MergeLaid(d: Dict, ids: seq<string>, got: seq<Bucket>, absorbed: Dict, every: bool)
    requires Distinct(d) && Distinct(absorbed)
    ensures LaidOver(d, Merge([], ids, got, absorbed, true).0, Merge(d, ids, got, absorbed, every).0)
  {
    var n := Named(got);
    var base := if every then [] else d;
    MergeKeys(d, ids, got, absorbed, every);
    MergeKeys([], ids, got, absorbed, true);
    assert Ids([]) == {};
    forall id | id in Ids(n) && id !in Ids(absorbed) && id in ids
      ensures At(Merge(d, ids, got, absorbed, every).0, id) == At(Merge([], ids, got, absorbed, true).0, id)
    {
      FromRead(base, ids, n, absorbed, id);
      FromRead([], ids, n, absorbed, id);
      UnionSame(base, [], n);
    }
  }

  /** A swept id no targeted read brought has the sweep's record. */
  lemma FromRead(base: Dict, ids: seq<string>, n: seq<Bucket>, absorbed: Dict, id: string)
    requires Distinct(base) && Distinct(absorbed) && id in Ids(n) && id !in Ids(absorbed) && id in ids
    ensures id in Ids(Union(base, n))
    ensures var cache := Kept(Union(Union(base, n), absorbed), (set i | i in ids) + Ids(absorbed));
            id in Ids(cache) && At(cache, id) == At(Union(base, n), id)
  {
    UnionFacts(base, n);
    UnionFacts(Union(base, n), absorbed);
    KeptFacts(Union(Union(base, n), absorbed), (set i | i in ids) + Ids(absorbed));
  }

  /** Laying records over a cache that has the newest of each reverts one exactly when one
      laid is older than the newest landed for its id; if none is, it has the newest again. */
  lemma LayingReverts(d: Dict, t: Dict, u: Dict, newest: map<string, nat>)
    requires Distinct(d) && LaidOver(d, t, u)
    requires newest.Keys == Ids(d) && forall id :: id in newest ==> newest[id] == At(d, id).at
    ensures (exists id :: id in Ids(d) && id in Ids(u) && At(u, id).at < At(d, id).at)
            <==> exists id :: id in newest && id in Ids(t) && At(t, id).at < newest[id]
    ensures (forall id :: id in newest && id in Ids(t) ==> At(t, id).at >= newest[id]) ==>
              forall id :: id in Ids(u) ==> Max(if id in newest then newest[id] else 0, LandedAt(t, id)) == At(u, id).at
  {
    if id :| id in newest && id in Ids(t) && At(t, id).at < newest[id] {
      assert At(u, id) == At(t, id) && id in Ids(d);
    }
    if id :| id in Ids(d) && id in Ids(u) && At(u, id).at < At(d, id).at {
      assert id in Ids(t) && id in newest;
    }
  }

  lemma TargetedReverts(w: World, upserts: seq<Bucket>, gone: seq<string>)
    requires Monotone(w) && Enabled(w.r, TargetedRead(upserts, gone))
    ensures Reverts(w.r, TargetedRead(upserts, gone)) <==> Late(w, TargetedRead(upserts, gone))
    ensures !Late(w, TargetedRead(upserts, gone)) ==> Monotone(Advance(w, TargetedRead(upserts, gone)))
  {
    var a, d := TargetedRead(upserts, gone), Cached(w.r.cache);
    TargetedReadKeeps(w.r, upserts, gone);
    assert Ids([]) == {};
    if w.r.cache.buckets.Some? {
      var t := Target([], upserts, gone);
      TargetLaid(d, upserts, gone);
      LayingReverts(d, t, Cached(Next(w.r, a).cache), w.newest);
    }
  }

  lemma FinishReverts(w: World, raised: bool)
    requires Monotone(w) && Enabled(w.r, Finish(raised))
    ensures !Reverts(w.r, Finish(raised)) && Monotone(Advance(w, Finish(raised)))
  {
    FinishKeeps(w.r, raised);
    FinishLaid(w.r, raised);
    FinishNotOlder(w.r, raised);
    LayingReverts(Cached(w.r.cache), Landed(w.r, Finish(raised)), Cached(Next(w.r, Finish(raised)).cache), w.newest);
  }

  lemma FinishLaid(r: Reader, raised: bool)
    requires Inv(r) && Enabled(r, Finish(raised))
    ensures LaidOver(Cached(r.cache), Landed(r, Finish(raised)), Cached(Next(r, Finish(raised)).cache))
  {
    MergeLaid(Cached(r.cache), r.sweep.ids, Brought(r.sweep, raised), Absorbed(r.cache), r.sweep.every);
  }

  lemma FinishNotOlder(r: Reader, raised: bool)
    requires Inv(r) && Enabled(r, Finish(raised))
    ensures var t := Landed(r, Finish(raised));
            forall id :: id in Ids(Cached(r.cache)) && id in Ids(t) ==> At(Cached(r.cache), id).at <= At(t, id).at
  {
    var got := Brought(r.sweep, raised);
    MergeKeys([], r.sweep.ids, got, Absorbed(r.cache), true);
    NamedFacts(got);
    assert Ids([]) == {};
  }

  lemma StepReverts(w: World, a: Step)
    requires Monotone(w) && Enabled(w.r, a)
    ensures Reverts(w.r, a) <==> Late(w, a)
    ensures !Late(w, a) ==> Monotone(Advance(w, a))
  {
    match a
    case Finish(raised) => FinishReverts(w, raised);
    case TargetedRead(upserts, gone) => TargetedReverts(w, upserts, gone);
    case _ =>
      StepKeeps(w.r, a);
      assert Cached(Next(w.r, a).cache) == Cached(w.r.cache) && Ids([]) == {};
  }

  predicate NeverReverts(r: Reader, steps: seq<Step>)
    requires IsRun(r, steps)
    decreases |steps|
  {
    steps == [] || (!Reverts(r, steps[0]) && NeverReverts(Next(r, steps[0]), steps[1..]))
  }

  predicate NoneLate(w: World, steps: seq<Step>)
    requires IsRun(w.r, steps)
    decreases |steps|
  {
    steps == [] || (!Late(w, steps[0]) && NoneLate(Advance(w, steps[0]), steps[1..]))
  }

  /** No step of a run replaces a record by an older one exactly when no targeted read of
      the run lands after a read of the same id that returned later. */
  lemma NeverRevertsIff(steps: seq<Step>)
    requires IsRun(Start(), steps)
    ensures NeverReverts(Start(), steps) <==> NoneLate(World(Start(), map[]), steps)
  {
    assert Ids([]) == {};
    RevertsIff(World(Start(), map[]), steps);
  }

  lemma {:induction false} RevertsIff(w: World, steps: seq<Step>)
    requires Monotone(w) && IsRun(w.r, steps)
    ensures NeverReverts(w.r, steps) <==> NoneLate(w, steps)
    decreases |steps|
  {
    if steps != [] {
      StepReverts(w, steps[0]);
      if !Late(w, steps[0]) { RevertsIff(Advance(w, steps[0]), steps[1..]); }
    }
  }

  /** Every targeted read lands at the clock it returned. */
  predicate Prompt(r: Reader, steps: seq<Step>)
    requires IsRun(r, steps)
    decreases |steps|
  {
    steps == [] ||
    ((steps[0].TargetedRead? ==> forall b :: b in steps[0].upserts ==> b.at == r.clock)
     && Prompt(Next(r, steps[0]), steps[1..]))
  }

  /** When targeted reads land at once, nothing is ever replaced by an older record, sweeps
      in flight or not. */
  lemma PromptNeverReverts(steps: seq<Step>)
    requires IsRun(Start(), steps) && Prompt(Start(), steps)
    ensures NeverReverts(Start(), steps)
  {
    assert Ids([]) == {};
    PromptNoneLate(World(Start(), map[]), steps);
    NeverRevertsIff(steps);
  }

  lemma {:induction false} PromptNoneLate(w: World, steps: seq<Step>)
    requires Monotone(w) && IsRun(w.r, steps) && Prompt(w.r, steps)
    ensures NoneLate(w, steps)
    decreases |steps|
  {
    if steps != [] {
      PromptNotLate(w, steps[0]);
      StepReverts(w, steps[0]);
      PromptNoneLate(Advance(w, steps[0]), steps[1..]);
    }
  }

  lemma PromptNotLate(w: World, a: Step)
    requires Monotone(w) && Enabled(w.r, a)
    requires a.TargetedRead? ==> forall b :: b in a.upserts ==> b.at == w.r.clock
    ensures !Late(w, a)
  {
    if a.TargetedRead? {
      assert Ids([]) == {};
      TargetFacts([], a.upserts, a.gone);
    }
  }

  // ---- The reader -------------------------------------------------------------

  class GarageStateReader {
    var buckets: Option<Dict>
    var absorbed: Option<Dict>
    var pending: seq<string>
    var complete: bool

    function Abs(): Cache
      reads this
    {
      Cache(buckets, absorbed, pending, complete)
    }

    constructor ()
      ensures Abs() == Start().cache
    {
      buckets, absorbed, pending, complete := None, None, [], true;
    }

    /** Exactly the targeted reads that land from here on are laid over the refresh. */
    method BeginRefresh()
      modifies this`absorbed
      ensures Abs() == old(Abs()).(absorbed := Some([]))
      ensures forall upserts, gone :: Absorb(Abs(), upserts, gone).absorbed == Some(Target([], upserts, gone))
    {
      absorbed := Some([]);
    }

    method FinishRefresh(ids: Option<seq<string>>, got: seq<Bucket>, every: bool)
      returns (read: Option<seq<string>>, dropped: nat)
      modifies this
      ensures match ids
              case None => Abs() == old(Abs()).(absorbed := None) && read == None && dropped == 0
              case Some(listed) =>
                && Abs() == Land(old(Abs()), listed, got, every)
                && read == Some(Fresh(old(Abs()), listed, got, every))
                && dropped == Merge(Cached(old(Abs())), listed, got, Absorbed(old(Abs())), every).1
    {
      var over := if absorbed.Some? then absorbed.value else [];
      absorbed := None;
      if ids == None {
        return None, 0;
      }
      var prior := if buckets.Some? then buckets.value else [];
      var (cache, gone) := Merge(prior, ids.value, got, over, every);
      buckets, dropped := Some(cache), gone;
      if every {
        pending, complete := [], Complete(ids.value, cache);
      }
      read := Some(Among(Order(cache), Ids(got) + Ids(over)));
    }

    /** Upserts what was read and pops what answered 404, in the cache and in what a
        refresh in flight will lay over its result. */
    method ReadBuckets(upserts: seq<Bucket>, gone: seq<string>) returns (dropped: nat)
      requires buckets.Some? ==> Distinct(buckets.value)
      modifies this`buckets, this`absorbed
      ensures Abs() == Absorb(old(Abs()), upserts, gone)
      ensures dropped == if old(buckets).Some?
                         then |(Ids(old(buckets).value) + Ids(Named(upserts))) * Listed(gone)| else 0
    {
      dropped := 0;
      if buckets.Some? {
        UnionFacts(buckets.value, Named(upserts));
        var left, popped := PopGone(Union(buckets.value, Named(upserts)), gone);
        buckets, dropped := Some(left), popped;
      }
      if absorbed.Some? {
        absorbed := Some(Without(Union(absorbed.value, Named(upserts)), gone));
      }
    }

    /** The hinted ids lead; no id already pending is lost, and none is listed twice. */
    method TakeHint(hinted: seq<string>)
      modifies this`pending
      ensures Abs() == Hint(old(Abs()), hinted)
      ensures hinted <= pending && Listed(pending) == Listed(hinted) + old(Listed(pending))
      ensures NoRepeats(hinted) && old(NoRepeats(pending)) ==> NoRepeats(pending)
    {
      var kept := Among(pending, Listed(pending) - Listed(hinted));
      AmongFacts(pending, Listed(pending) - Listed(hinted));
      ListedBoth(hinted, kept);
      if NoRepeats(hinted) && NoRepeats(pending) {
        AmongNoRepeats(pending, Listed(pending) - Listed(hinted));
        BothNoRepeats(hinted, kept);
      }
      pending := hinted + kept;
    }

    method Drain() returns (batch: seq<string>)
      modifies this`pending
      ensures batch + pending == old(pending)
      ensures |batch| <= MAX_HINTED_READS && (pending != [] ==> |batch| == MAX_HINTED_READS)
      ensures Abs() == old(Abs()).(pending := old(pending)[DrainSize(old(Abs()))..])
    {
      var n := if |pending| < MAX_HINTED_READS then |pending| else MAX_HINTED_READS;
      batch, pending := pending[..n], pending[n..];
    }
  }

  lemma WithoutNext(d: Dict, gone: seq<string>, i: nat)
    requires i < |gone|
    ensures Without(d, gone[i..]) == Without(Kept(d, Ids(d) - {gone[i]}), gone[i + 1..])
  {
    assert gone[i..][0] == gone[i] && gone[i..][1..] == gone[i + 1..];
  }

  lemma ListedNext(gone: seq<string>, i: nat)
    requires i < |gone|
    ensures Listed(gone[..i + 1]) == Listed(gone[..i]) + {gone[i]}
  {
    assert gone[..i + 1] == gone[..i] + [gone[i]];
    ListedLast(gone[..i], gone[i]);
  }

  /** Pops each id once, counting those that were there. */
  method PopGone(d: Dict, gone: seq<string>) returns (left: Dict, popped: nat)
    requires Distinct(d)
    ensures left == Without(d, gone)
    ensures popped == |Ids(d) * Listed(gone)|
  {
    left, popped := d, 0;
    assert gone[0..] == gone;
    for i := 0 to |gone|
      invariant Distinct(left) && Ids(left) == Ids(d) - Listed(gone[..i])
      invariant Without(left, gone[i..]) == Without(d, gone)
      invariant popped == |Ids(d) * Listed(gone[..i])|
    {
      WithoutNext(left, gone, i);
      ListedNext(gone, i);
      PopCount(Ids(d), Listed(gone[..i]), gone[i]);
      KeptFacts(left, Ids(left) - {gone[i]});
      if Find(left, gone[i]) < |left| {
        popped := popped + 1;
      }
      left := Kept(left, Ids(left) - {gone[i]});
    }
    assert gone[..|gone|] == gone;
  }

  lemma PopCount(all: set<string>, done: set<string>, id: string)
    ensures |all * (done + {id})| == |all * done| + if id in all - done then 1 else 0
  {
    if id in all - done {
      assert all * (done + {id}) == all * done + {id};
    } else {
      assert all * (done + {id}) == all * done;
    }
  }

  predicate NoRepeats(ids: seq<string>) { forall i, j :: 0 <= i < j < |ids| ==> ids[i] != ids[j] }

  lemma ListedBoth(a: seq<string>, b: seq<string>)
    ensures Listed(a + b) == Listed(a) + Listed(b)
  {
    assert forall x :: x in a + b <==> x in a || x in b;
  }

  lemma {:induction false} AmongNoRepeats(ids: seq<string>, keep: set<string>)
    requires NoRepeats(ids)
    ensures NoRepeats(Among(ids, keep))
  {
    if ids != [] {
      AmongNoRepeats(ids[1..], keep);
      AmongFacts(ids[1..], keep);
      var rest := Among(ids[1..], keep);
      assert ids[0] !in ids[1..];
      assert ids[0] !in rest by { assert forall x :: x in rest ==> x in Listed(rest) && x in ids[1..]; }
    }
  }

  lemma BothNoRepeats(a: seq<string>, b: seq<string>)
    requires NoRepeats(a) && NoRepeats(b) && Listed(a) !! Listed(b)
    ensures NoRepeats(a + b)
  {
    forall i, j | 0 <= i < j < |a + b| ensures (a + b)[i] != (a + b)[j] {
      if i < |a| <= j { assert a[i] in Listed(a) && b[j - |a|] in Listed(b); }
    }
  }

  lemma ListedLast(ids: seq<string>, id: string)
    ensures Listed(ids + [id]) == Listed(ids) + {id}
  {
    assert (ids + [id])[|ids|] == id;
    assert forall x :: x in ids ==> x in ids + [id];
  }
}
