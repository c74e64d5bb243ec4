/** The data providers behind a molecule or calculation on the client: the
    bounded first-in first-out cache of orbital volumes, orbital loading on a
    cache miss, the fetch-once cjson and vibrations of a calculation, the
    default vibrations, and the provider URLs. */
module DataProviders {
  import opened Wrappers
  import opened Text
  import opened Store

  // ---------------------------------------------------------------------------
  // The volume cache

  /** `MAX_CACHED`. */
  const MaxCached: nat := 5

  /** The ordered dictionary of cached volumes: entries in insertion order. */
  datatype Cache<K, V> = Cache(entries: seq<(K, V)>)

  /** A dictionary holds each key once. */
  ghost predicate DistinctKeys<K, V>(c: Cache<K, V>) {
    forall i, j :: 0 <= i < j < |c.entries| ==> c.entries[i].0 != c.entries[j].0
  }

  /** The cache invariant: distinct keys, at most `MAX_CACHED` of them. */
  ghost predicate Valid<K, V>(c: Cache<K, V>) {
    DistinctKeys(c) && |c.entries| <= MaxCached
  }

  /** The entry test for one key. */
  function KeyIs<K(==), V>(k: K): ((K, V)) -> bool {
    (e: (K, V)) => e.0 == k
  }

  /** `_get_cached_volume`: the cube stored under the key, if any. Reading
      never reorders the cache. */
  function Get<K(==), V>(c: Cache<K, V>, k: K): (r: Option<V>)
    ensures r.None? <==> forall i :: 0 <= i < |c.entries| ==> c.entries[i].0 != k
    ensures DistinctKeys(c) ==> forall i :: 0 <= i < |c.entries| && c.entries[i].0 == k ==>
              r == Some(c.entries[i].1)
  {
    match FirstMatch(c.entries, KeyIs(k))
    case None => None
    case Some(i) => Some(c.entries[i].1)
  }

  /** Assignment to a key of an ordered dictionary: a present key keeps its
      place and takes the new value, a new key goes at the end. */
  function Put<K(==), V>(entries: seq<(K, V)>, k: K, v: V): (r: seq<(K, V)>)
    ensures (exists i :: 0 <= i < |entries| && entries[i].0 == k) ==> |r| == |entries|
    ensures (forall i :: 0 <= i < |entries| ==> entries[i].0 != k) ==> r == entries + [(k, v)]
    ensures forall i :: 0 <= i < |entries| && entries[i].0 != k ==> r[i] == entries[i]
    ensures forall i :: 0 <= i < |entries| && entries[i].0 == k ==> r[i] == (k, v)
  {
    if FirstMatch(entries, KeyIs(k)).Some?
    then seq(|entries|, i requires 0 <= i < |entries| => if entries[i].0 == k then (k, v) else entries[i])
    else entries + [(k, v)]
  }

  /** The entries that survive the eviction step of a set. */
  function Kept<K, V>(c: Cache<K, V>): (r: seq<(K, V)>)
    ensures |c.entries| >= MaxCached ==> r == c.entries[1..]
    ensures |c.entries| < MaxCached ==> r == c.entries
  {
    if |c.entries| >= MaxCached then c.entries[1..] else c.entries
  }

  /** `_set_cached_volume`: when the cache already holds `MAX_CACHED` entries
      the oldest one is deleted first, even when the key being set is already
      present; then the key is assigned. */
  function Set<K(==), V>(c: Cache<K, V>, k: K, v: V): Cache<K, V> {
    Cache(Put(Kept(c), k, v))
  }

  /** The kept entries are the cache's own, shifted past the evicted one. */
  lemma KeptShift<K, V>(c: Cache<K, V>)
    ensures |Kept(c)| == |c.entries| - (if |c.entries| >= MaxCached then 1 else 0)
    ensures forall i :: 0 <= i < |Kept(c)| ==>
              Kept(c)[i] == c.entries[i + (if |c.entries| >= MaxCached then 1 else 0)]
  {
  }

  /** After assigning `k`, another key sits exactly where it sat before. */
  lemma PutOther<K, V>(entries: seq<(K, V)>, k: K, v: V, other: K)
    requires other != k
    ensures |entries| <= |Put(entries, k, v)|
    ensures forall j :: 0 <= j < |Put(entries, k, v)| ==>
              (Put(entries, k, v)[j].0 == other <==> j < |entries| && entries[j].0 == other)
  {
    if FirstMatch(entries, KeyIs(k)).Some? {
      assert |Put(entries, k, v)| == |entries|;
    } else {
      assert Put(entries, k, v) == entries + [(k, v)];
    }
  }

  /** Setting keeps the cache valid: keys stay distinct and never exceed the
      bound. */
  lemma SetKeepsValid<K, V>(c: Cache<K, V>, k: K, v: V)
    requires Valid(c)
    ensures Valid(Set(c, k, v))
  {
    var kept := Kept(c);
    KeptShift(c);
    assert forall i, j :: 0 <= i < j < |kept| ==> kept[i].0 != kept[j].0;
    PutKeepsDistinct(kept, k, v);
  }

  lemma PutKeepsDistinct<K, V>(entries: seq<(K, V)>, k: K, v: V)
    requires forall i, j :: 0 <= i < j < |entries| ==> entries[i].0 != entries[j].0
    ensures DistinctKeys(Cache(Put(entries, k, v)))
    ensures |Put(entries, k, v)| <= |entries| + 1
  {
    var r := Put(entries, k, v);
    if FirstMatch(entries, KeyIs(k)).Some? {
      assert forall i :: 0 <= i < |r| ==> r[i].0 == entries[i].0;
    } else {
      assert r == entries + [(k, v)];
      forall i, j | 0 <= i < j < |r|
        ensures r[i].0 != r[j].0
      {
        if j == |entries| {
          assert !KeyIs(k)(entries[i]);
        }
      }
    }
  }

  /** The value just set is the one read back. */
  lemma GetAfterSet<K, V>(c: Cache<K, V>, k: K, v: V)
    requires Valid(c)
    ensures Get(Set(c, k, v), k) == Some(v)
  {
    SetKeepsValid(c, k, v);
    var kept := Kept(c);
    var r := Set(c, k, v);
    match FirstMatch(kept, KeyIs(k))
    case Some(i) =>
      assert r.entries[i] == (k, v);
    case None =>
      assert r.entries == kept + [(k, v)];
      assert r.entries[|kept|] == (k, v);
  }

  /** Only the key set and, when the cache was full, the oldest key change:
      every other key reads as before. */
  lemma SetChangesOnly<K, V>(c: Cache<K, V>, k: K, v: V, other: K)
    requires Valid(c) && other != k
    requires !(|c.entries| >= MaxCached && c.entries[0].0 == other)
    ensures Get(Set(c, k, v), other) == Get(c, other)
  {
    SetKeepsValid(c, k, v);
    KeptShift(c);
    PutOther(Kept(c), k, v, other);
    match FirstMatch(c.entries, KeyIs(other))
    case Some(i) =>
      SetKeepsOther(c, k, v, other, i);
    case None =>
      SetAddsNoOther(c, k, v, other);
  }

  lemma SetKeepsOther<K, V>(c: Cache<K, V>, k: K, v: V, other: K, i: nat)
    requires DistinctKeys(c) && DistinctKeys(Set(c, k, v)) && other != k
    requires i < |c.entries| && c.entries[i].0 == other
    requires !(|c.entries| >= MaxCached && i == 0)
    ensures Get(Set(c, k, v), other) == Some(c.entries[i].1) == Get(c, other)
  {
    var j := SetEntryAt(c, k, v, i);
    GetAt(Set(c, k, v), j);
    GetAt(c, i);
  }

  /** An entry of another key survives a set, one place earlier when the
      oldest entry was evicted. */
  lemma SetEntryAt<K, V>(c: Cache<K, V>, k: K, v: V, i: nat) returns (j: nat)
    requires i < |c.entries| && c.entries[i].0 != k
    requires !(|c.entries| >= MaxCached && i == 0)
    ensures j < |Set(c, k, v).entries| && Set(c, k, v).entries[j] == c.entries[i]
  {
    var kept := Kept(c);
    if |c.entries| >= MaxCached {
      j := i - 1;
      assert kept[j] == c.entries[i];
    } else {
      j := i;
    }
    PutKeepsEntry(kept, k, v, j);
  }

  lemma PutKeepsEntry<K, V>(entries: seq<(K, V)>, k: K, v: V, j: nat)
    requires j < |entries| && entries[j].0 != k
    ensures j < |Put(entries, k, v)| && Put(entries, k, v)[j] == entries[j]
  {
  }

  lemma SetAddsNoOther<K, V>(c: Cache<K, V>, k: K, v: V, other: K)
    requires other != k
    requires forall j :: 0 <= j < |c.entries| ==> c.entries[j].0 != other
    requires forall j :: 0 <= j < |Kept(c)| ==>
               Kept(c)[j] == c.entries[j + (if |c.entries| >= MaxCached then 1 else 0)]
    requires forall j :: 0 <= j < |Put(Kept(c), k, v)| ==>
               (Put(Kept(c), k, v)[j].0 == other <==> j < |Kept(c)| && Kept(c)[j].0 == other)
    ensures Get(Set(c, k, v), other).None? && Get(c, other).None?
  {
    var r := Set(c, k, v);
    var off := if |c.entries| >= MaxCached then 1 else 0;
    forall j | 0 <= j < |r.entries|
      ensures r.entries[j].0 != other
    {
      if j < |Kept(c)| {
        assert Kept(c)[j] == c.entries[j + off];
      }
    }
  }

  /** In a dictionary the entry at the key's place is the one read. */
  lemma GetAt<K, V>(c: Cache<K, V>, i: nat)
    requires DistinctKeys(c) && i < |c.entries|
    ensures Get(c, c.entries[i].0) == Some(c.entries[i].1)
  {
  }

  /** A full cache drops its oldest entry on every set of another key, even
      one that only updates an entry already present. */
  lemma FullCacheEvictsOldest<K, V>(c: Cache<K, V>, k: K, v: V)
    requires Valid(c) && |c.entries| == MaxCached && c.entries[0].0 != k
    ensures Get(Set(c, k, v), c.entries[0].0).None?
  {
    var kept := Kept(c);
    assert forall i :: 0 <= i < |kept| ==> kept[i] == c.entries[i + 1];
    var r := Set(c, k, v);
    forall j | 0 <= j < |r.entries|
      ensures r.entries[j].0 != c.entries[0].0
    {
      if j < |kept| {
        assert kept[j].0 != c.entries[0].0;
      }
    }
  }

  // ---------------------------------------------------------------------------
  // Orbital loading

  /** A lookup that finds no usable cube: nothing stored, or `None` stored. */
  predicate Miss(cached: Option<Json>) {
    cached.None? || cached.value == JNull
  }

  /** `load_orbital`: on a miss the cube is computed (or fetched) and cached;
      on a hit the cached cube is used. Either way it becomes `cjson['cube']`.
      `compute` gives the cube of an orbital. The result is the new cache, the
      new document and whether the cube was computed. */
  function LoadOrbital<K(==)>(cache: Cache<K, Json>, cjson: map<string, Json>, mo: K, compute: K -> Json)
    : (r: (Cache<K, Json>, map<string, Json>, bool))
    ensures r.2 <==> Miss(Get(cache, mo))
    ensures !r.2 ==> r.0 == cache && "cube" in r.1 && Get(cache, mo) == Some(r.1["cube"])
    ensures r.2 ==> r.0 == Set(cache, mo, compute(mo)) && "cube" in r.1 && r.1["cube"] == compute(mo)
    ensures r.1.Keys == cjson.Keys + {"cube"}
    ensures forall key :: key in cjson && key != "cube" ==> r.1[key] == cjson[key]
  {
    var cached := Get(cache, mo);
    if Miss(cached) then (Set(cache, mo, compute(mo)), cjson["cube" := compute(mo)], true)
    else (cache, cjson["cube" := cached.value], false)
  }

  /** Loading the same orbital twice computes it at most once: the second load
      hits the cache unless the computed cube was `None`. */
  lemma LoadOrbitalTwiceComputesOnce<K>(cache: Cache<K, Json>, cjson: map<string, Json>, mo: K,
                                      compute: K -> Json)
    requires Valid(cache)
    ensures var first := LoadOrbital(cache, cjson, mo, compute);
            var second := LoadOrbital(first.0, first.1, mo, compute);
            (second.2 <==> first.1["cube"] == JNull) && (!second.2 ==> second.0 == first.0 && second.1 == first.1)
  {
    var first := LoadOrbital(cache, cjson, mo, compute);
    if first.2 {
      GetAfterSet(cache, mo, compute(mo));
    }
  }

  // ---------------------------------------------------------------------------
  // Fetch-once properties

  /** A property read from the store on first use and kept while it is not
      `None`: the value and the new cached state, and whether the store was
      asked. */
  function FetchOnce(cached: Json, fetched: Json): (r: (Json, Json, bool))
    ensures r.2 <==> cached == JNull
    ensures r.0 == (if cached == JNull then fetched else cached)
    ensures r.1 == r.0
  {
    if cached == JNull then (fetched, fetched, true) else (cached, cached, false)
  }

  /** A second read does not go to the store, unless the store answered null. */
  lemma FetchedAtMostOnce(cached: Json, fetched: Json, refetched: Json)
    ensures var first := FetchOnce(cached, fetched);
            var second := FetchOnce(first.1, refetched);
            second.2 <==> first.0 == JNull
  {
  }

  // ---------------------------------------------------------------------------
  // Vibrations and URLs

  /** `CjsonProvider.vibrations`: the document's own entry, or empty modes,
      intensities and frequencies. */
  function CjsonVibrations(cjson: map<string, Json>): (r: Json)
    ensures "vibrations" in cjson ==> r == cjson["vibrations"]
    ensures "vibrations" !in cjson ==> r.JObj? && r.fields.Keys == {"modes", "intensities", "frequencies"}
                                       && forall k :: k in r.fields ==> r.fields[k] == JArr([])
  {
    if "vibrations" in cjson then cjson["vibrations"]
    else JObj(map["modes" := JArr([]), "intensities" := JArr([]), "frequencies" := JArr([])])
  }

  /** The kinds of provider. */
  datatype ProviderKind = CjsonKind | AvogadroKind | MoleculeKind(moleculeId: string)
                        | CalculationKind(calculationId: string)

  /** `url`: none for a bare cjson or an Avogadro molecule; otherwise the
      application URL without trailing slashes, then the molecule or
      calculation path. */
  function ProviderUrl(kind: ProviderKind, appUrl: string): (r: Option<string>)
    ensures r.None? <==> kind.CjsonKind? || kind.AvogadroKind?
    ensures kind.MoleculeKind? ==> r == Some(RStripSlash(appUrl) + "/molecules/" + kind.moleculeId)
    ensures kind.CalculationKind? ==> r == Some(RStripSlash(appUrl) + "/calculations/" + kind.calculationId)
  {
    match kind
    case CjsonKind => None
    case AvogadroKind => None
    case MoleculeKind(id) => Some(RStripSlash(appUrl) + "/molecules/" + id)
    case CalculationKind(id) => Some(RStripSlash(appUrl) + "/calculations/" + id)
  }

  /** Trailing slashes on the application URL make no difference. */
  lemma ProviderUrlIgnoresTrailingSlash(kind: ProviderKind, appUrl: string)
    ensures ProviderUrl(kind, appUrl + "/") == ProviderUrl(kind, appUrl)
  {
    assert (appUrl + "/")[..|appUrl + "/"| - 1] == appUrl;
  }
}
