/**
 * The memo in front of forecast images and radar animations: Python's
 * `functools.lru_cache` with its default capacity of 128 entries, and the
 * periodic wipe of both caches.
 */
module ImageCache {
  import opened Wrappers

  /** `lru_cache`'s default `maxsize`. */
  const MaxSize: nat := 128

  /** Stored (arguments, result) pairs, least recently used first. */
  type Entries<K, V> = seq<(K, V)>

  ghost predicate DistinctKeys<K, V>(es: Entries<K, V>)
  {
    forall i, j :: 0 <= i < |es| && 0 <= j < |es| && es[i].0 == es[j].0 ==> i == j
  }

  /** The cache's standing invariant: one entry per argument tuple, at most `MaxSize` of them. */
  ghost predicate WellFormed<K, V>(es: Entries<K, V>)
  {
    DistinctKeys(es) && |es| <= MaxSize
  }

  /** Where the arguments are stored, if they are. */
  function IndexOf<K(==), V>(es: Entries<K, V>, k: K): (r: Option<nat>)
    ensures r.Some? ==> r.value < |es| && es[r.value].0 == k
    ensures r.None? <==> forall i :: 0 <= i < |es| ==> es[i].0 != k
  {
    if es == [] then None
    else if es[|es| - 1].0 == k then Some(|es| - 1)
    else IndexOf(es[..|es| - 1], k)
  }

  /** The cache after one call, the value the call returns, and whether the stored value was used. */
  datatype Step<K, V> = Step(entries: Entries<K, V>, value: V, hit: bool)

  /**
   * One call of the memoised function with arguments `k`; `computed` is
   * what the wrapped function returns for them. A hit returns the stored
   * value and makes its entry the most recent; a miss calls the function,
   * drops the least recent entry when the cache is full and stores the
   * result as the most recent.
   */
  function Access<K(==), V>(es: Entries<K, V>, k: K, computed: V): Step<K, V>
  {
    match IndexOf(es, k)
    case Some(i) => Step(es[..i] + es[i + 1..] + [es[i]], es[i].1, true)
    case None => Step((if |es| >= MaxSize then es[1..] else es) + [(k, computed)], computed, false)
  }

  /** Removing one entry keeps the others' keys distinct. */
  lemma DistinctWithout<K, V>(es: Entries<K, V>, i: nat)
    requires DistinctKeys(es) && i < |es|
    ensures DistinctKeys(es[..i] + es[i + 1..])
    ensures forall j :: 0 <= j < i ==> (es[..i] + es[i + 1..])[j] == es[j]
    ensures forall j :: i < j < |es| ==> (es[..i] + es[i + 1..])[j - 1] == es[j]
  {
  }

  /**
   * A call keeps the cache well formed, leaves its arguments as the most
   * recent entry, and hits exactly when they were stored.
   */
  lemma AccessWellFormed<K, V>(es: Entries<K, V>, k: K, computed: V)
    requires WellFormed(es)
    ensures var st := Access(es, k, computed);
            && WellFormed(st.entries)
            && st.entries[|st.entries| - 1] == (k, st.value)
            && (st.hit <==> exists i :: 0 <= i < |es| && es[i].0 == k)
  {
    var st := Access(es, k, computed);
    match IndexOf(es, k)
    case Some(i) =>
      DistinctWithout(es, i);
      var rest := es[..i] + es[i + 1..];
      assert st.entries == rest + [es[i]];
      forall a | 0 <= a < |rest|
        ensures rest[a].0 != k
      {
        if a < i {
          assert rest[a] == es[a];
        } else {
          assert rest[a] == es[a + 1];
          assert es[a + 1].0 != k;
        }
      }
    case None =>
  }

  /** A stored value is returned as is, and the function is not called. */
  lemma HitReturnsStored<K, V>(es: Entries<K, V>, i: nat, computed: V)
    requires DistinctKeys(es) && i < |es|
    ensures var st := Access(es, es[i].0, computed);
            st.hit && st.value == es[i].1 && |st.entries| == |es|
  {
    var k := es[i].0;
    var j := IndexOf(es, k).value;
    assert j == i;
  }

  /**
   * Calling again with the same arguments returns what the first call
   * returned without calling the function, whatever it would compute now.
   */
  lemma RepeatHits<K, V>(es: Entries<K, V>, k: K, c1: V, c2: V)
    requires WellFormed(es)
    ensures var first := Access(es, k, c1);
            var second := Access(first.entries, k, c2);
            second.hit && second.value == first.value && second.entries == first.entries
  {
    var first := Access(es, k, c1);
    AccessWellFormed(es, k, c1);
    var n := |first.entries|;
    HitReturnsStored(first.entries, n - 1, c2);
    assert first.entries[..n - 1] + first.entries[n..] + [first.entries[n - 1]] == first.entries;
  }

  /**
   * A miss on a full cache evicts exactly the least recently used entry:
   * its arguments are no longer stored, every other entry stays, and the
   * size stays at the capacity.
   */
  lemma MissEvictsLeastRecent<K, V>(es: Entries<K, V>, k: K, computed: V)
    requires WellFormed(es) && |es| == MaxSize
    requires forall i :: 0 <= i < |es| ==> es[i].0 != k
    ensures var st := Access(es, k, computed);
            && !st.hit && st.value == computed
            && |st.entries| == MaxSize
            && (forall j :: 0 <= j < |st.entries| ==> st.entries[j].0 != es[0].0)
            && (forall i :: 1 <= i < |es| ==> es[i] in st.entries)
  {
    var st := Access(es, k, computed);
    assert st.entries == es[1..] + [(k, computed)];
    forall i | 1 <= i < |es|
      ensures es[i] in st.entries
    {
      assert st.entries[i - 1] == es[i];
    }
  }

  /** The cache after a run of calls, each given with its arguments and what the function would return. */
  function AccessAll<K(==), V>(es: Entries<K, V>, calls: seq<(K, V)>): Entries<K, V>
    decreases |calls|
  {
    if calls == [] then es
    else AccessAll(Access(es, calls[0].0, calls[0].1).entries, calls[1..])
  }

  /**
   * One call with other arguments moves an entry back by at most one
   * place in recency, and does not evict it unless it was the least recent
   * of a full cache.
   */
  lemma OtherCallKeepsEntry<K, V>(es: Entries<K, V>, i: nat, k: K, computed: V)
    requires WellFormed(es) && i < |es| && es[i].0 != k
    requires |es| == MaxSize ==> i > 0
    ensures var es' := Access(es, k, computed).entries;
            exists i' :: 0 <= i' < |es'| && es'[i'] == es[i] && |es'| - i' <= |es| - i + 1
  {
    var es' := Access(es, k, computed).entries;
    match IndexOf(es, k)
    case Some(j) =>
      DistinctWithout(es, j);
      if i < j {
        assert es'[i] == es[i];
      } else {
        assert es'[i - 1] == es[i];
      }
    case None =>
      if |es| >= MaxSize {
        assert es'[i - 1] == es[i];
      } else {
        assert es'[i] == es[i];
      }
  }

  /**
   * The least-recently-used guarantee: an entry `r` places from the most
   * recent end survives any `MaxSize - 1 - r` calls with other arguments.
   */
  lemma {:induction false} SurvivesOtherCalls<K, V>(es: Entries<K, V>, i: nat, calls: seq<(K, V)>)
    requires WellFormed(es) && i < |es|
    requires (|es| - 1 - i) + |calls| < MaxSize
    requires forall c :: c in calls ==> c.0 != es[i].0
    ensures es[i] in AccessAll(es, calls)
    decreases |calls|
  {
    if calls != [] {
      var es' := Access(es, calls[0].0, calls[0].1).entries;
      AccessWellFormed(es, calls[0].0, calls[0].1);
      OtherCallKeepsEntry(es, i, calls[0].0, calls[0].1);
      var i' :| 0 <= i' < |es'| && es'[i'] == es[i] && |es'| - i' <= |es| - i + 1;
      SurvivesOtherCalls(es', i', calls[1..]);
    }
  }

  /** Right after a call, its result survives the next 127 calls with other arguments. */
  lemma RecentResultSurvives<K, V>(es: Entries<K, V>, k: K, computed: V, calls: seq<(K, V)>)
    requires WellFormed(es)
    requires |calls| < MaxSize
    requires forall c :: c in calls ==> c.0 != k
    ensures var st := Access(es, k, computed);
            (k, st.value) in AccessAll(st.entries, calls)
  {
    var st := Access(es, k, computed);
    AccessWellFormed(es, k, computed);
    SurvivesOtherCalls(st.entries, |st.entries| - 1, calls);
  }

  /** A function memoised by `lru_cache`: its stored calls, least recently used first. */
  class LruCache<K(==), V> {
    var entries: Entries<K, V>

    ghost predicate Valid()
      reads this
    {
      WellFormed(entries)
    }

    constructor ()
      ensures Valid() && entries == []
    {
      entries := [];
    }

    /**
     * A call with arguments `k`; `computed` is what the wrapped function
     * would return. `called` says whether it was called.
     */
    method Call(k: K, computed: V) returns (v: V, called: bool)
      requires Valid()
      modifies this
      ensures Valid()
      ensures var st := Access(old(entries), k, computed);
              entries == st.entries && v == st.value && called == !st.hit
    {
      AccessWellFormed(entries, k, computed);
      var st := Access(entries, k, computed);
      entries := st.entries;
      v := st.value;
      called := !st.hit;
    }

    /** `cache_clear()`. */
    method Clear()
      modifies this
      ensures Valid() && entries == []
    {
      entries := [];
    }
  }

  /** What `fetchAndPlot` reports besides the plot itself. */
  datatype Plot = Plot(duration: real, currentTemp: real, currentStr: string, station: string, stationDistance: real)

  /** The image host's answer to an image upload. */
  datatype UploadedImage = UploadedImage(id: string, link: string, thumb: string, width: nat, height: nat)

  /** `getImage`'s result: the upload's id, links and size with the plot's weather data. */
  datatype ImageResult = ImageResult(
    imageId: string, imageLink: string, thumbLink: string, width: nat, height: nat,
    duration: real, currentTemp: real, currentStr: string, station: string, stationDistance: real)

  /** The number of forecast days `getImage` asks for. */
  function ForecastDays(tenDays: bool): real
  {
    if tenDays then 10.0 else 1.5
  }

  /**
   * The body of `getImage`: plot the forecast (`plot`, None when there is
   * no station nearby), upload it (`upload`) and merge both answers.
   */
  function ImageFor(lat: real, lon: real, tenDays: bool,
                    plot: (real, real, real) -> Option<Plot>, upload: Plot -> UploadedImage): (r: Option<ImageResult>)
    ensures r.None? <==> plot(lat, lon, ForecastDays(tenDays)).None?
    ensures r.Some? ==>
              var p := plot(lat, lon, ForecastDays(tenDays)).value;
              var u := upload(p);
              && (r.value.imageId, r.value.imageLink, r.value.thumbLink) == (u.id, u.link, u.thumb)
              && (r.value.width, r.value.height) == (u.width, u.height)
              && r.value.station == p.station && r.value.duration == p.duration
              && r.value.currentTemp == p.currentTemp && r.value.currentStr == p.currentStr
              && r.value.stationDistance == p.stationDistance
  {
    match plot(lat, lon, ForecastDays(tenDays))
    case None => None
    case Some(p) =>
      var u := upload(p);
      Some(ImageResult(u.id, u.link, u.thumb, u.width, u.height,
                       p.duration, p.currentTemp, p.currentStr, p.station, p.stationDistance))
  }

  /** The memoised forecast images and radar animations. */
  class ImageCaches {
    const images: LruCache<(real, real, bool), Option<ImageResult>>
    const radars: LruCache<(real, real), (string, string)>

    ghost predicate Valid()
      reads this, images, radars
    {
      images.Valid() && radars.Valid()
    }

    constructor ()
      ensures Valid() && fresh(images) && fresh(radars)
      ensures images.entries == [] && radars.entries == []
    {
      images := new LruCache();
      radars := new LruCache();
    }

    /**
     * `getImage(lat, lon, tenDays)`: the stored result for these arguments,
     * or a freshly computed one, including a None "no station" result.
     */
    method GetImage(lat: real, lon: real, tenDays: bool,
                    plot: (real, real, real) -> Option<Plot>, upload: Plot -> UploadedImage)
      returns (r: Option<ImageResult>, called: bool)
      requires Valid()
      modifies images
      ensures Valid() && radars.entries == old(radars.entries)
      ensures var st := Access(old(images.entries), (lat, lon, tenDays), ImageFor(lat, lon, tenDays, plot, upload));
              images.entries == st.entries && r == st.value && called == !st.hit
    {
      r, called := images.Call((lat, lon, tenDays), ImageFor(lat, lon, tenDays, plot, upload));
    }

    /** `getRadarAnimation(lat, lon)`: the stored (id, link) pair, or a fresh render and upload. */
    method GetRadarAnimation(lat: real, lon: real, render: (real, real) -> (string, string))
      returns (r: (string, string), called: bool)
      requires Valid()
      modifies radars
      ensures Valid() && images.entries == old(images.entries)
      ensures var st := Access(old(radars.entries), (lat, lon), render(lat, lon));
              radars.entries == st.entries && r == st.value && called == !st.hit
    {
      r, called := radars.Call((lat, lon), render(lat, lon));
    }

    /** `clearImageCache`: both memos are emptied, so the next calls recompute. */
    method ClearImageCache()
      requires Valid()
      modifies images, radars
      ensures Valid() && images.entries == [] && radars.entries == []
    {
      images.Clear();
      radars.Clear();
    }
  }

  /** On an emptied cache every call is a miss. */
  lemma ClearedMisses<K, V>(k: K, computed: V)
    ensures var st := Access([], k, computed);
            !st.hit && st.value == computed && st.entries == [(k, computed)]
  {
  }
}
