/**
 * The map view of the voucher list: which vouchers are geocoded and in what
 * batches, how the coordinate cache and the plotted list grow, how the marker
 * records on the map follow the plotted list, and the bottom sheet that is
 * dragged and snapped to a rest position.
 *
 * The map SDK is outside the model. A geocode answer is a function from an
 * address to coordinates (None when the service is missing, fails or finds
 * nothing), and a marker object on the map is a numbered handle.
 */
module VoucherMap {
  import opened Wrappers
  import opened VoucherApi

  /** A voucher with the coordinates it is plotted at. */
  datatype MarkerData = MarkerData(voucher: VoucherItem, lat: real, lng: real)

  /** A marker object on the map, with the voucher it stands for. */
  datatype MarkerRecord = MarkerRecord(voucher: VoucherItem, handle: nat)

  /** The geocoding service's answer for an address: (lat, lng) or nothing. */
  type Geocoder = string -> Option<(real, real)>

  const BatchSize: nat := 5
  const DisplayLimit: nat := 10
  const ExpandedOffset: real := 0.0
  const MiddleOffset: real := 300.0
  const CollapsedOffset: real := 400.0

  // ---------------------------------------------------------------------------
  // Which vouchers are plotted
  // ---------------------------------------------------------------------------

  /** A voucher is plotted only when it has an address and matches the sport filter. */
  predicate Considered(v: VoucherItem, sports: string) {
    v.addr1 != "" && (sports != "" ==> v.sports == sports)
  }

  /** The considered vouchers whose address is already cached, with the cached coordinates. */
  function Hits(vs: seq<VoucherItem>, sports: string, cache: map<string, (real, real)>): (r: seq<MarkerData>)
    ensures |r| <= |vs|
    ensures forall m :: m in r ==> m.voucher.addr1 in cache && cache[m.voucher.addr1] == (m.lat, m.lng)
  {
    if vs == [] then []
    else
      var v := vs[|vs| - 1];
      Hits(vs[..|vs| - 1], sports, cache)
        + (if Considered(v, sports) && v.addr1 in cache
           then [MarkerData(v, cache[v.addr1].0, cache[v.addr1].1)] else [])
  }

  /** The considered vouchers whose address still has to be geocoded. */
  function Misses(vs: seq<VoucherItem>, sports: string, cache: map<string, (real, real)>): (r: seq<VoucherItem>)
    ensures |r| <= |vs|
    ensures forall v :: v in r ==> Considered(v, sports) && v.addr1 !in cache
  {
    if vs == [] then []
    else
      var v := vs[|vs| - 1];
      Misses(vs[..|vs| - 1], sports, cache)
        + (if Considered(v, sports) && v.addr1 !in cache then [v] else [])
  }

  /** The first pass over the vouchers: cached results and the work list, both in list order. */
  method Partition(vouchers: seq<VoucherItem>, sports: string, cache: map<string, (real, real)>)
    returns (results: seq<MarkerData>, toProcess: seq<VoucherItem>)
    ensures results == Hits(vouchers, sports, cache)
    ensures toProcess == Misses(vouchers, sports, cache)
  {
    results := [];
    toProcess := [];
    for i := 0 to |vouchers|
      invariant results == Hits(vouchers[..i], sports, cache)
      invariant toProcess == Misses(vouchers[..i], sports, cache)
    {
      var v := vouchers[i];
      assert vouchers[..i + 1][..i] == vouchers[..i];
      if v.addr1 == "" {
      } else if sports != "" && v.sports != sports {
      } else if v.addr1 in cache {
        var c := cache[v.addr1];
        results := results + [MarkerData(v, c.0, c.1)];
      } else {
        toProcess := toProcess + [v];
      }
    }
    assert vouchers[..|vouchers|] == vouchers;
  }

  /** The work list holds exactly the considered vouchers with an uncached address. */
  lemma {:induction false} MissesMeaning(vs: seq<VoucherItem>, sports: string, cache: map<string, (real, real)>)
    ensures forall v :: v in Misses(vs, sports, cache) <==> v in vs && Considered(v, sports) && v.addr1 !in cache
  {
    if vs != [] {
      MissesMeaning(vs[..|vs| - 1], sports, cache);
      assert vs == vs[..|vs| - 1] + [vs[|vs| - 1]];
    }
  }

  /** The cached results are exactly the considered vouchers with a cached address, at those coordinates. */
  lemma {:induction false} HitsMeaning(vs: seq<VoucherItem>, sports: string, cache: map<string, (real, real)>)
    ensures forall m :: m in Hits(vs, sports, cache) <==>
      m.voucher in vs && Considered(m.voucher, sports) && m.voucher.addr1 in cache
      && cache[m.voucher.addr1] == (m.lat, m.lng)
  {
    if vs != [] {
      HitsMeaning(vs[..|vs| - 1], sports, cache);
      assert vs == vs[..|vs| - 1] + [vs[|vs| - 1]];
    }
  }

  // ---------------------------------------------------------------------------
  // Batches of geocoding work
  // ---------------------------------------------------------------------------

  /** The work list cut into consecutive slices of at most `BatchSize`. */
  function Batches<T>(xs: seq<T>): (r: seq<seq<T>>)
    ensures |r| == (|xs| + BatchSize - 1) / BatchSize
    decreases |xs|
  {
    if xs == [] then []
    else if |xs| <= BatchSize then [xs]
    else [xs[..BatchSize]] + Batches(xs[BatchSize..])
  }

  function Concat<T>(bs: seq<seq<T>>): seq<T>
  {
    if bs == [] then [] else bs[0] + Concat(bs[1..])
  }

  /** The batches cover the work list in order; each holds 1 to 5 items, all but the last exactly 5. */
  lemma {:induction false} BatchesTile<T>(xs: seq<T>)
    ensures Concat(Batches(xs)) == xs
    ensures forall k :: 0 <= k < |Batches(xs)| ==> 1 <= |Batches(xs)[k]| <= BatchSize
    ensures forall k :: 0 <= k < |Batches(xs)| - 1 ==> |Batches(xs)[k]| == BatchSize
    decreases |xs|
  {
    if |xs| > BatchSize {
      var rest := Batches(xs[BatchSize..]);
      BatchesTile(xs[BatchSize..]);
      assert Batches(xs) == [xs[..BatchSize]] + rest;
      assert Batches(xs)[1..] == rest;
      assert xs[..BatchSize] + xs[BatchSize..] == xs;
      forall k | 1 <= k < |Batches(xs)|
        ensures Batches(xs)[k] == rest[k - 1]
      {
      }
    }
  }

  /** `xs` from index `i` on, or nothing once `i` has run past the end. */
  function Rest<T>(xs: seq<T>, i: nat): seq<T>
  {
    if i <= |xs| then xs[i..] else []
  }

  /** One step of the batch loop: the batch at `i` is `slice(i, i + 5)`, then the loop goes on at `i + 5`. */
  lemma BatchesStep<T>(xs: seq<T>, i: nat)
    requires i < |xs|
    ensures Batches(xs[i..]) == [Slice(xs, i, i + BatchSize)] + Batches(Rest(xs, i + BatchSize))
  {
    var tail := xs[i..];
    if |tail| > BatchSize {
      assert tail[..BatchSize] == xs[i..i + BatchSize];
      assert tail[BatchSize..] == xs[i + BatchSize..];
    } else {
      assert Rest(xs, i + BatchSize) == [];
      assert tail == xs[i..|xs|];
    }
  }

  /** What one batch brings back: the vouchers whose address was found, in batch order. */
  function Found(b: seq<VoucherItem>, g: Geocoder): (r: seq<MarkerData>)
    ensures |r| <= |b|
    ensures forall m :: m in r ==> g(m.voucher.addr1) == Some((m.lat, m.lng))
  {
    if b == [] then []
    else
      var v := b[|b| - 1];
      Found(b[..|b| - 1], g)
        + (match g(v.addr1)
           case Some(c) => [MarkerData(v, c.0, c.1)]
           case None => [])
  }

  /** The cache after the batch's answers are written into it. */
  function CacheWrite(cache: map<string, (real, real)>, b: seq<VoucherItem>, g: Geocoder): (r: map<string, (real, real)>)
    ensures cache.Keys <= r.Keys
  {
    if b == [] then cache
    else
      var v := b[|b| - 1];
      var before := CacheWrite(cache, b[..|b| - 1], g);
      match g(v.addr1)
      case Some(c) => before[v.addr1 := c]
      case None => before
  }

  /** A batch result is a voucher of the batch at the coordinates the service answered. */
  lemma {:induction false} FoundMeaning(b: seq<VoucherItem>, g: Geocoder)
    ensures forall m :: m in Found(b, g) <==> m.voucher in b && g(m.voucher.addr1) == Some((m.lat, m.lng))
  {
    if b != [] {
      FoundMeaning(b[..|b| - 1], g);
      assert b == b[..|b| - 1] + [b[|b| - 1]];
    }
  }

  /** The ids of the vouchers in `xs` whose address the service answers. */
  function Located(xs: seq<VoucherItem>, g: Geocoder): set<int>
  {
    set v | v in xs && g(v.addr1).Some? :: v.id
  }

  /** The addresses in `xs` that the service answers. */
  function Answered(xs: seq<VoucherItem>, g: Geocoder): set<string>
  {
    set v | v in xs && g(v.addr1).Some? :: v.addr1
  }

  /**
   * `r` is `cache` with an entry written for every answered address of `xs`,
   * and nothing else changed.
   */
  ghost predicate CacheAfter(cache: map<string, (real, real)>, xs: seq<VoucherItem>, g: Geocoder,
                             r: map<string, (real, real)>)
  {
    && (forall a :: a in r <==> a in cache || a in Answered(xs, g))
    && (forall a :: a in r && a in Answered(xs, g) ==> Some(r[a]) == g(a))
    && (forall a :: a in r && a !in Answered(xs, g) ==> a in cache && r[a] == cache[a])
  }

  /** The cache is written only for addresses the service answered, with the answer. */
  lemma {:induction false} CacheWriteMeaning(cache: map<string, (real, real)>, b: seq<VoucherItem>, g: Geocoder)
    ensures CacheAfter(cache, b, g, CacheWrite(cache, b, g))
  {
    if b == [] {
      assert Answered([], g) == {};
    } else {
      var init := b[..|b| - 1];
      CacheWriteMeaning(cache, init, g);
      assert b == init + [b[|b| - 1]];
      CacheAfterSnoc(cache, init, b[|b| - 1], g, CacheWrite(cache, init, g));
    }
  }

  /** Writing one more voucher's answer extends what the cache holds by that answer. */
  lemma CacheAfterSnoc(cache: map<string, (real, real)>, init: seq<VoucherItem>, v: VoucherItem, g: Geocoder,
                       before: map<string, (real, real)>)
    requires CacheAfter(cache, init, g, before)
    ensures CacheAfter(cache, init + [v], g,
      match g(v.addr1) case Some(c) => before[v.addr1 := c] case None => before)
  {
    assert forall w :: w in init + [v] <==> w in init || w == v;
    assert Answered(init + [v], g) == Answered(init, g) + (if g(v.addr1).Some? then {v.addr1} else {});
  }

  lemma CacheAfterCompose(c0: map<string, (real, real)>, a: seq<VoucherItem>, c1: map<string, (real, real)>,
                          b: seq<VoucherItem>, c2: map<string, (real, real)>, g: Geocoder)
    requires CacheAfter(c0, a, g, c1) && CacheAfter(c1, b, g, c2)
    ensures CacheAfter(c0, a + b, g, c2)
  {
    assert forall v :: v in a + b <==> v in a || v in b;
    assert Answered(a + b, g) == Answered(a, g) + Answered(b, g);
  }

  /** The voucher ids in a plotted list. */
  function Ids(ms: seq<MarkerData>): set<int>
  {
    set m | m in ms :: m.voucher.id
  }

  /** The batch results whose voucher id is not plotted yet. */
  function NewItems(prev: seq<MarkerData>, items: seq<MarkerData>): (r: seq<MarkerData>)
    ensures forall m :: m in r <==> m in items && m.voucher.id !in Ids(prev)
  {
    if items == [] then []
    else (if items[0].voucher.id in Ids(prev) then [] else [items[0]]) + NewItems(prev, items[1..])
  }

  /** The plotted list after a batch: the previous list, then the new items. */
  function Merge(prev: seq<MarkerData>, items: seq<MarkerData>): (r: seq<MarkerData>)
    ensures prev <= r
    ensures forall m :: m in r ==> m in prev || m in items
  {
    prev + NewItems(prev, items)
  }

  /** A merge plots the union of the ids. */
  lemma MergeIds(prev: seq<MarkerData>, items: seq<MarkerData>)
    ensures Ids(Merge(prev, items)) == Ids(prev) + Ids(items)
  {
    var r := Merge(prev, items);
    forall id | id in Ids(items)
      ensures id in Ids(r)
    {
      var m :| m in items && m.voucher.id == id;
      if id !in Ids(prev) {
        assert m in NewItems(prev, items);
      }
    }
  }

  /** Merging the same batch results twice adds nothing the second time. */
  lemma MergeIdempotent(prev: seq<MarkerData>, items: seq<MarkerData>)
    ensures Merge(Merge(prev, items), items) == Merge(prev, items)
  {
    var once := Merge(prev, items);
    MergeIds(prev, items);
    var again := NewItems(once, items);
    forall m | m in items
      ensures m.voucher.id in Ids(once)
    {
      assert m.voucher.id in Ids(items);
    }
    NothingNew(once, items);
    assert once + again == once;
  }

  /** Batch results whose ids are all plotted add nothing. */
  lemma {:induction false} NothingNew(prev: seq<MarkerData>, items: seq<MarkerData>)
    requires forall m :: m in items ==> m.voucher.id in Ids(prev)
    ensures NewItems(prev, items) == []
  {
    if items != [] {
      assert items[0] in items;
      NothingNew(prev, items[1..]);
    }
  }

  /** The whole batch loop: every batch is geocoded, merged into the plotted list and written to the cache. */
  function Run(plotted: seq<MarkerData>, cache: map<string, (real, real)>, bs: seq<seq<VoucherItem>>, g: Geocoder)
    : (r: (seq<MarkerData>, map<string, (real, real)>))
    ensures cache.Keys <= r.1.Keys
    decreases |bs|
  {
    if bs == [] then (plotted, cache)
    else Run(Merge(plotted, Found(bs[0], g)), CacheWrite(cache, bs[0], g), bs[1..], g)
  }

  /** The list plotted before the loop stays at the front, in order. */
  lemma {:induction false} RunKeepsPrefix(plotted: seq<MarkerData>, cache: map<string, (real, real)>,
                                          bs: seq<seq<VoucherItem>>, g: Geocoder)
    ensures plotted <= Run(plotted, cache, bs, g).0
    decreases |bs|
  {
    if bs != [] {
      RunKeepsPrefix(Merge(plotted, Found(bs[0], g)), CacheWrite(cache, bs[0], g), bs[1..], g);
    }
  }

  lemma LocatedOfFound(b: seq<VoucherItem>, g: Geocoder)
    ensures Ids(Found(b, g)) == Located(b, g)
  {
    FoundMeaning(b, g);
    forall id | id in Located(b, g)
      ensures id in Ids(Found(b, g))
    {
      var v :| v in b && g(v.addr1).Some? && v.id == id;
      var c := g(v.addr1).value;
      assert MarkerData(v, c.0, c.1) in Found(b, g);
    }
  }

  /** The loop adds the located ids of the work list to the plot, and their answers to the cache. */
  lemma RunMeaning(plotted: seq<MarkerData>, cache: map<string, (real, real)>,
                   bs: seq<seq<VoucherItem>>, g: Geocoder)
    ensures Ids(Run(plotted, cache, bs, g).0) == Ids(plotted) + Located(Concat(bs), g)
    ensures CacheAfter(cache, Concat(bs), g, Run(plotted, cache, bs, g).1)
  {
    RunIds(plotted, cache, bs, g);
    RunCache(plotted, cache, bs, g);
  }

  lemma {:induction false} RunIds(plotted: seq<MarkerData>, cache: map<string, (real, real)>,
                                  bs: seq<seq<VoucherItem>>, g: Geocoder)
    ensures Ids(Run(plotted, cache, bs, g).0) == Ids(plotted) + Located(Concat(bs), g)
    decreases |bs|
  {
    if bs == [] {
      assert Located([], g) == {};
    } else {
      RunIds(Merge(plotted, Found(bs[0], g)), CacheWrite(cache, bs[0], g), bs[1..], g);
      MergeIds(plotted, Found(bs[0], g));
      LocatedOfFound(bs[0], g);
      var all := bs[0] + Concat(bs[1..]);
      assert forall v :: v in all <==> v in bs[0] || v in Concat(bs[1..]);
      assert Located(all, g) == Located(bs[0], g) + Located(Concat(bs[1..]), g);
    }
  }

  lemma {:induction false} RunCache(plotted: seq<MarkerData>, cache: map<string, (real, real)>,
                                    bs: seq<seq<VoucherItem>>, g: Geocoder)
    ensures CacheAfter(cache, Concat(bs), g, Run(plotted, cache, bs, g).1)
    decreases |bs|
  {
    if bs == [] {
      assert Answered([], g) == {};
    } else {
      var c1 := CacheWrite(cache, bs[0], g);
      RunCache(Merge(plotted, Found(bs[0], g)), c1, bs[1..], g);
      CacheWriteMeaning(cache, bs[0], g);
      CacheAfterCompose(cache, bs[0], c1, Concat(bs[1..]), Run(plotted, cache, bs, g).1, g);
    }
  }

  /**
   * After the geocoding pass, a voucher id is plotted exactly when some
   * listed voucher with that id passes the filters and its address was
   * cached or is answered by the service.
   */
  lemma PlottedIds(vouchers: seq<VoucherItem>, sports: string, cache: map<string, (real, real)>, g: Geocoder)
    ensures var plotted := Run(Hits(vouchers, sports, cache), cache, Batches(Misses(vouchers, sports, cache)), g).0;
      forall id :: id in Ids(plotted) <==>
        exists v :: v in vouchers && v.id == id && Considered(v, sports) && (v.addr1 in cache || g(v.addr1).Some?)
  {
    var hits := Hits(vouchers, sports, cache);
    var misses := Misses(vouchers, sports, cache);
    RunIds(hits, cache, Batches(misses), g);
    BatchesTile(misses);
    PlottedIdsFromParts(vouchers, sports, cache, g);
  }

  /** The ids of the cached results and of the answered work list are the ids the pass should plot. */
  lemma PlottedIdsFromParts(vouchers: seq<VoucherItem>, sports: string, cache: map<string, (real, real)>, g: Geocoder)
    ensures forall id :: id in Ids(Hits(vouchers, sports, cache)) + Located(Misses(vouchers, sports, cache), g) <==>
      exists v :: v in vouchers && v.id == id && Considered(v, sports) && (v.addr1 in cache || g(v.addr1).Some?)
  {
    var hits := Hits(vouchers, sports, cache);
    var misses := Misses(vouchers, sports, cache);
    HitsMeaning(vouchers, sports, cache);
    MissesMeaning(vouchers, sports, cache);
    forall id | exists v :: v in vouchers && v.id == id && Considered(v, sports) && (v.addr1 in cache || g(v.addr1).Some?)
      ensures id in Ids(hits) + Located(misses, g)
    {
      var v :| v in vouchers && v.id == id && Considered(v, sports) && (v.addr1 in cache || g(v.addr1).Some?);
      if v.addr1 in cache {
        var c := cache[v.addr1];
        assert MarkerData(v, c.0, c.1) in hits;
      } else {
        assert v in misses;
      }
    }
  }

  /** After the geocoding pass the cache has gained exactly the answered addresses of the work list. */
  lemma CacheAfterPass(vouchers: seq<VoucherItem>, sports: string, cache: map<string, (real, real)>, g: Geocoder)
    ensures var misses := Misses(vouchers, sports, cache);
      CacheAfter(cache, misses, g, Run(Hits(vouchers, sports, cache), cache, Batches(misses), g).1)
  {
    var misses := Misses(vouchers, sports, cache);
    RunMeaning(Hits(vouchers, sports, cache), cache, Batches(misses), g);
    BatchesTile(misses);
  }

  /** `coordinateCache`: address to coordinates, kept across geocoding passes. */
  class CoordinateCache {
    var entries: map<string, (real, real)>

    constructor()
      ensures entries == map[]
    {
      entries := map[];
    }

    /**
     * Geocodes one batch: every answered address is written to the cache,
     * and the answered vouchers come back in batch order.
     */
    method GeocodeBatch(batch: seq<VoucherItem>, g: Geocoder) returns (valid: seq<MarkerData>)
      modifies this
      ensures valid == Found(batch, g)
      ensures entries == CacheWrite(old(entries), batch, g)
    {
      valid := [];
      for k := 0 to |batch|
        invariant valid == Found(batch[..k], g)
        invariant entries == CacheWrite(old(entries), batch[..k], g)
      {
        var v := batch[k];
        assert batch[..k + 1][..k] == batch[..k];
        match g(v.addr1)
        case Some(c) =>
          entries := entries[v.addr1 := c];
          valid := valid + [MarkerData(v, c.0, c.1)];
        case None =>
      }
      assert batch[..|batch|] == batch;
    }
  }

  /** The plotted list and its loading flag, fed by the geocoding pass. */
  class Plotting {
    var markerData: seq<MarkerData>
    var isGeocodingLoading: bool
    const cache: CoordinateCache

    constructor()
      ensures markerData == [] && !isGeocodingLoading
      ensures fresh(cache) && cache.entries == map[]
    {
      markerData := [];
      isGeocodingLoading := false;
      cache := new CoordinateCache();
    }

    /**
     * The geocoding effect for a new voucher list or sport. With no vouchers
     * or no map SDK the plot is cleared. Otherwise the cached results are
     * plotted first and the work list is geocoded batch by batch, each batch
     * merged into the plot and written to the cache.
     */
    method Geocode(vouchers: seq<VoucherItem>, sports: string, mapsReady: bool, g: Geocoder)
      modifies this, cache
      ensures !isGeocodingLoading
      ensures |vouchers| > 0 && mapsReady ==>
        (markerData, cache.entries)
          == Run(Hits(vouchers, sports, old(cache.entries)), old(cache.entries),
                 Batches(Misses(vouchers, sports, old(cache.entries))), g)
      ensures !(|vouchers| > 0 && mapsReady) ==> markerData == [] && cache.entries == old(cache.entries)
    {
      if |vouchers| > 0 && mapsReady {
        markerData := [];
        isGeocodingLoading := true;
        var results, toProcess := Partition(vouchers, sports, cache.entries);
        if |results| > 0 {
          markerData := results;
        }
        ghost var final := Run(markerData, cache.entries, Batches(toProcess), g);
        assert toProcess[0..] == toProcess;
        var i := 0;
        while i < |toProcess|
          invariant Run(markerData, cache.entries, Batches(Rest(toProcess, i)), g) == final
        {
          var batch := Slice(toProcess, i, i + BatchSize);
          BatchesStep(toProcess, i);
          var valid := cache.GeocodeBatch(batch, g);
          markerData := Merge(markerData, valid);
          i := i + BatchSize;
        }
        isGeocodingLoading := false;
      } else {
        markerData := [];
        isGeocodingLoading := false;
      }
    }
  }

  /** The list under the map: the first ten of the (distance-sorted) plot. */
  function DisplayList(sorted: seq<MarkerData>): (r: seq<MarkerData>)
    ensures r <= sorted
    ensures |r| == if |sorted| < DisplayLimit then |sorted| else DisplayLimit
  {
    Slice(sorted, 0, DisplayLimit)
  }

  // ---------------------------------------------------------------------------
  // Marker diff
  // ---------------------------------------------------------------------------

  function RecordIds(rs: seq<MarkerRecord>): set<int>
  {
    set r | r in rs :: r.voucher.id
  }

  /** The markers whose voucher is still plotted, in their order. */
  function Kept(rs: seq<MarkerRecord>, ids: set<int>): (r: seq<MarkerRecord>)
    ensures forall x :: x in r <==> x in rs && x.voucher.id in ids
  {
    if rs == [] then []
    else
      var x := rs[|rs| - 1];
      Kept(rs[..|rs| - 1], ids) + (if x.voucher.id in ids then [x] else [])
  }

  /** The markers whose voucher is no longer plotted, in their order. */
  function Dropped(rs: seq<MarkerRecord>, ids: set<int>): (r: seq<MarkerRecord>)
    ensures forall x :: x in r <==> x in rs && x.voucher.id !in ids
  {
    if rs == [] then []
    else
      var x := rs[|rs| - 1];
      Dropped(rs[..|rs| - 1], ids) + (if x.voucher.id !in ids then [x] else [])
  }

  /** The plotted items with no marker yet. */
  function ToAdd(data: seq<MarkerData>, existing: set<int>): (r: seq<MarkerData>)
    ensures forall m :: m in r <==> m in data && m.voucher.id !in existing
  {
    if data == [] then []
    else (if data[0].voucher.id in existing then [] else [data[0]]) + ToAdd(data[1..], existing)
  }

  /** New marker objects for `items`, numbered from `h`. */
  function NewRecords(items: seq<MarkerData>, h: nat): seq<MarkerRecord>
  {
    seq(|items|, k requires 0 <= k < |items| => MarkerRecord(items[k].voucher, h + k))
  }

  /** After the diff, the markers stand for exactly the plotted voucher ids. */
  lemma SyncedIds(rs: seq<MarkerRecord>, data: seq<MarkerData>, h: nat)
    ensures var kept := Kept(rs, Ids(data));
      RecordIds(kept + NewRecords(ToAdd(data, RecordIds(kept)), h)) == Ids(data)
  {
    var kept := Kept(rs, Ids(data));
    var toAdd := ToAdd(data, RecordIds(kept));
    var added := NewRecords(toAdd, h);
    var all := kept + added;
    forall id | id in RecordIds(all)
      ensures id in Ids(data)
    {
      var x :| x in all && x.voucher.id == id;
      if x in kept {
      } else {
        var k :| 0 <= k < |added| && added[k] == x;
        assert toAdd[k] in data;
      }
    }
    forall id | id in Ids(data)
      ensures id in RecordIds(all)
    {
      var m :| m in data && m.voucher.id == id;
      if id !in RecordIds(kept) {
        assert m in toAdd;
        var k :| 0 <= k < |toAdd| && toAdd[k] == m;
        assert added[k] in all;
      }
    }
  }

  /** The removal loop: each marker is kept or removed by whether its voucher is still plotted. */
  method SplitMarkers(rs: seq<MarkerRecord>, visibleIds: set<int>)
    returns (kept: seq<MarkerRecord>, removed: seq<MarkerRecord>)
    ensures kept == Kept(rs, visibleIds) && removed == Dropped(rs, visibleIds)
  {
    kept, removed := [], [];
    for i := 0 to |rs|
      invariant kept == Kept(rs[..i], visibleIds)
      invariant removed == Dropped(rs[..i], visibleIds)
    {
      var m := rs[i];
      assert rs[..i + 1][..i] == rs[..i];
      if m.voucher.id !in visibleIds {
        removed := removed + [m];
      } else {
        kept := kept + [m];
      }
    }
    assert rs[..|rs|] == rs;
  }

  /** The adding loop: one new marker per item, handed out in turn from `h0`. */
  method AddMarkers(kept: seq<MarkerRecord>, toAdd: seq<MarkerData>, h0: nat)
    returns (next: seq<MarkerRecord>, h: nat)
    ensures next == kept + NewRecords(toAdd, h0) && h == h0 + |toAdd|
  {
    next, h := kept, h0;
    for j := 0 to |toAdd|
      invariant next == kept + NewRecords(toAdd[..j], h0)
      invariant h == h0 + j
    {
      assert NewRecords(toAdd[..j + 1], h0) == NewRecords(toAdd[..j], h0) + [MarkerRecord(toAdd[j].voucher, h0 + j)];
      next := next + [MarkerRecord(toAdd[j].voucher, h)];
      h := h + 1;
    }
    assert toAdd[..|toAdd|] == toAdd;
  }

  /** New markers take the handles from `h` on, and no others. */
  lemma NewRecordsHandles(items: seq<MarkerData>, h: nat)
    ensures forall r :: r in NewRecords(items, h) ==> h <= r.handle < h + |items|
  {
  }

  /** `markersRef`: the marker objects on the map and the next handle to give out. */
  class MarkerLayer {
    var records: seq<MarkerRecord>
    var nextHandle: nat

    /** Every marker object was handed out before `nextHandle`. */
    ghost predicate Valid()
      reads this
    {
      forall r :: r in records ==> r.handle < nextHandle
    }

    constructor()
      ensures Valid() && records == [] && nextHandle == 0
    {
      records := [];
      nextHandle := 0;
    }

    /**
     * The marker effect. With no map or nothing plotted it does nothing.
     * Otherwise markers of unplotted vouchers are removed, the rest are kept
     * in order, and a new marker is appended for each plotted item whose id
     * has none.
     */
    method Sync(data: seq<MarkerData>, mapReady: bool) returns (removed: seq<MarkerRecord>)
      requires Valid()
      modifies this
      ensures Valid()
      ensures !mapReady || data == [] ==>
        records == old(records) && nextHandle == old(nextHandle) && removed == []
      ensures mapReady && data != [] ==>
        var kept := Kept(old(records), Ids(data));
        var toAdd := ToAdd(data, RecordIds(kept));
        && records == kept + NewRecords(toAdd, old(nextHandle))
        && removed == Dropped(old(records), Ids(data))
        && nextHandle == old(nextHandle) + |toAdd|
      ensures forall r :: r in records ==> r in old(records) || old(nextHandle) <= r.handle
    {
      removed := [];
      if !mapReady || |data| == 0 {
        return;
      }
      var visibleIds := Ids(data);
      var next;
      next, removed := SplitMarkers(records, visibleIds);
      var toAdd := ToAdd(data, RecordIds(next));
      NewRecordsHandles(toAdd, nextHandle);
      records, nextHandle := AddMarkers(next, toAdd, nextHandle);
    }

    /** Unmount: every marker is taken off the map. */
    method Unmount() returns (removed: seq<MarkerRecord>)
      requires Valid()
      modifies this
      ensures Valid()
      ensures removed == old(records) && records == [] && nextHandle == old(nextHandle)
    {
      removed := records;
      records := [];
    }
  }

  // ---------------------------------------------------------------------------
  // Bottom sheet
  // ---------------------------------------------------------------------------

  /** A dragged offset, kept between fully expanded and collapsed. */
  function Clamp(x: real): (r: real)
    ensures ExpandedOffset <= r <= CollapsedOffset
    ensures ExpandedOffset <= x <= CollapsedOffset ==> r == x
    ensures x < ExpandedOffset ==> r == ExpandedOffset
    ensures x > CollapsedOffset ==> r == CollapsedOffset
  {
    if CollapsedOffset < (if ExpandedOffset < x then x else ExpandedOffset) then CollapsedOffset
    else if ExpandedOffset < x then x else ExpandedOffset
  }

  /** The rest position a released sheet settles at. */
  function Snap(x: real): (r: real)
    ensures r == ExpandedOffset || r == MiddleOffset || r == CollapsedOffset
    ensures x < 150.0 ==> r == ExpandedOffset
    ensures 150.0 <= x < 375.0 ==> r == MiddleOffset
    ensures x >= 375.0 ==> r == CollapsedOffset
  {
    if x < 150.0 then ExpandedOffset
    else if x < 375.0 then MiddleOffset
    else CollapsedOffset
  }

  /** A sheet at rest stays where it is when released again. */
  lemma SnapIdempotent(x: real)
    ensures Snap(Snap(x)) == Snap(x)
  {
  }

  /** Sheet offset, drag state and the selected voucher. */
  class BottomSheet {
    var offset: real
    var dragStartY: Option<real>
    var startOffset: real
    var isDragging: bool
    var selectedVoucherId: Option<int>

    /** The sheet is never dragged past its end positions. */
    ghost predicate Valid()
      reads this
    {
      ExpandedOffset <= offset <= CollapsedOffset
    }

    constructor()
      ensures Valid() && offset == MiddleOffset && dragStartY == None && !isDragging
      ensures selectedVoucherId == None
    {
      offset := MiddleOffset;
      dragStartY := None;
      startOffset := 0.0;
      isDragging := false;
      selectedVoucherId := None;
    }

    method DragStart(clientY: real)
      requires Valid()
      modifies this
      ensures Valid()
      ensures dragStartY == Some(clientY) && startOffset == old(offset) && isDragging
      ensures offset == old(offset) && selectedVoucherId == old(selectedVoucherId)
    {
      dragStartY := Some(clientY);
      startOffset := offset;
      isDragging := true;
    }

    /** While dragging, the offset follows the touch or cursor, clamped to the sheet's range. */
    method DragMove(clientY: real)
      requires Valid()
      modifies this
      ensures Valid()
      ensures old(dragStartY).None? ==> offset == old(offset)
      ensures old(dragStartY).Some? ==> offset == Clamp(old(startOffset) + (clientY - old(dragStartY).value))
      ensures dragStartY == old(dragStartY) && startOffset == old(startOffset)
      ensures isDragging == old(isDragging) && selectedVoucherId == old(selectedVoucherId)
    {
      if dragStartY.None? {
        return;
      }
      var delta := clientY - dragStartY.value;
      offset := Clamp(startOffset + delta);
    }

    /** On release the sheet snaps to the nearest rest position by the 150/375 thresholds. */
    method DragEnd()
      requires Valid()
      modifies this
      ensures Valid()
      ensures offset == Snap(old(offset)) && dragStartY == None && !isDragging
      ensures startOffset == old(startOffset) && selectedVoucherId == old(selectedVoucherId)
    {
      isDragging := false;
      dragStartY := None;
      offset := Snap(offset);
    }

    /** Clicking a marker selects its voucher and brings the sheet to the middle. */
    method MarkerClicked(id: int)
      requires Valid()
      modifies this
      ensures Valid()
      ensures selectedVoucherId == Some(id) && offset == MiddleOffset
      ensures dragStartY == old(dragStartY) && startOffset == old(startOffset) && isDragging == old(isDragging)
    {
      selectedVoucherId := Some(id);
      offset := MiddleOffset;
    }
  }
}
