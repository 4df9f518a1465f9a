/** The process-wide image cache of `generateImageWithCache`: a JavaScript `Map` from a
    composite key to the generated image and the time it was stored. A `Map` iterates in
    insertion order and the eviction sorts its entries stably by timestamp, so the cache
    is kept as the sequence of its entries in insertion order, with distinct keys. */
module ImageCache {
  import opened Wrappers
  import opened Strings
  import VertexAI

  /** Twenty-four hours in milliseconds. */
  const CACHE_TTL: int := 1000 * 60 * 60 * 24
  /** The size above which the oldest entry is evicted. */
  const MAX_ENTRIES: nat := 100

  datatype Entry = Entry(data: string, timestamp: int)
  datatype Slot = Slot(key: string, entry: Entry)

  /** `${seed || ''}`: the seed's numeral when it is truthy, otherwise nothing. */
  function SeedText(seed: Option<int>): (t: string)
    ensures t == "" <==> VertexAI.RequestSeed(seed).None?
  {
    if seed.Some? && seed.value != 0 then IntToString(seed.value) else ""
  }

  /** The cache key: prompt, style and seed joined by `_`. */
  function CacheKey(prompt: string, style: string, seed: Option<int>): (k: string)
    ensures StartsWith(k, prompt + "_" + style + "_")
  {
    prompt + "_" + style + "_" + SeedText(seed)
  }

  /** For one prompt and style, two calls share a key exactly when they send the same seed
      to the generator; in particular a zero seed and no seed share a key. */
  lemma CacheKeySeed(prompt: string, style: string, a: Option<int>, b: Option<int>)
    ensures CacheKey(prompt, style, a) == CacheKey(prompt, style, b)
        <==> VertexAI.RequestSeed(a) == VertexAI.RequestSeed(b)
  {
    var head := prompt + "_" + style + "_";
    if CacheKey(prompt, style, a) == CacheKey(prompt, style, b) {
      assert SeedText(a) == CacheKey(prompt, style, a)[|head|..];
      assert SeedText(b) == CacheKey(prompt, style, b)[|head|..];
      if VertexAI.RequestSeed(a).Some? && VertexAI.RequestSeed(b).Some? {
        IntToStringInjective(a.value, b.value);
      }
    }
  }

  predicate DistinctKeys(slots: seq<Slot>) {
    forall i, j :: 0 <= i < j < |slots| ==> slots[i].key != slots[j].key
  }

  /** `imageCache.get(key)` */
  function Lookup(slots: seq<Slot>, key: string): (r: Option<Entry>)
    ensures r.None? <==> forall i :: 0 <= i < |slots| ==> slots[i].key != key
    ensures r.Some? ==> exists i :: 0 <= i < |slots| && slots[i] == Slot(key, r.value)
    decreases |slots|
  {
    if |slots| == 0 then None
    else if slots[0].key == key then Some(slots[0].entry)
    else
      var r := Lookup(slots[1..], key);
      assert r.Some? ==> exists i :: 0 <= i < |slots[1..]| && slots[1..][i] == Slot(key, r.value);
      r
  }

  lemma LookupAt(slots: seq<Slot>, i: nat)
    requires DistinctKeys(slots) && i < |slots|
    ensures Lookup(slots, slots[i].key) == Some(slots[i].entry)
  {
  }

  /** An entry is served while it is younger than the time-to-live. */
  predicate IsFresh(e: Entry, now: int) {
    now - e.timestamp < CACHE_TTL
  }

  /** `imageCache.set(key, e)`: an existing key keeps its position, a new key goes last. */
  function Put(slots: seq<Slot>, key: string, e: Entry): (r: seq<Slot>)
    ensures |r| == if Lookup(slots, key).Some? then |slots| else |slots| + 1
    decreases |slots|
  {
    if |slots| == 0 then [Slot(key, e)]
    else if slots[0].key == key then [Slot(key, e)] + slots[1..]
    else [slots[0]] + Put(slots[1..], key, e)
  }

  lemma {:induction false} PutLookup(slots: seq<Slot>, key: string, e: Entry, k: string)
    ensures Lookup(Put(slots, key, e), k) == if k == key then Some(e) else Lookup(slots, k)
    decreases |slots|
  {
    if |slots| > 0 && slots[0].key != key {
      PutLookup(slots[1..], key, e, k);
      assert Put(slots, key, e)[1..] == Put(slots[1..], key, e);
    }
  }

  /** A new key is appended: everything before it keeps its place. */
  lemma {:induction false} PutNewKey(slots: seq<Slot>, key: string, e: Entry)
    requires Lookup(slots, key).None?
    ensures Put(slots, key, e) == slots + [Slot(key, e)]
    decreases |slots|
  {
    if |slots| > 0 {
      PutNewKey(slots[1..], key, e);
      assert slots == [slots[0]] + slots[1..];
    }
  }

  /** A present key is overwritten where it stands. */
  lemma {:induction false} PutExistingKey(slots: seq<Slot>, key: string, e: Entry, i: nat)
    requires DistinctKeys(slots) && i < |slots| && slots[i].key == key
    ensures Put(slots, key, e) == slots[i := Slot(key, e)]
    decreases |slots|
  {
    if i > 0 {
      PutExistingKey(slots[1..], key, e, i - 1);
      assert slots[i := Slot(key, e)] == [slots[0]] + slots[1..][i - 1 := Slot(key, e)];
    }
  }

  lemma PutDistinct(slots: seq<Slot>, key: string, e: Entry)
    requires DistinctKeys(slots)
    ensures DistinctKeys(Put(slots, key, e))
  {
    var r := Put(slots, key, e);
    if Lookup(slots, key).None? {
      PutNewKey(slots, key, e);
    } else {
      var i :| 0 <= i < |slots| && slots[i].key == key;
      PutExistingKey(slots, key, e, i);
    }
  }

  /** Index `i` is the entry a stable ascending sort by timestamp puts first: its timestamp
      is the smallest, and every entry before it is strictly newer. */
  predicate SortsFirst(slots: seq<Slot>, i: nat) {
    && i < |slots|
    && (forall j :: 0 <= j < |slots| ==> slots[i].entry.timestamp <= slots[j].entry.timestamp)
    && (forall j :: 0 <= j < i ==> slots[j].entry.timestamp > slots[i].entry.timestamp)
  }

  /** `entries.sort((a, b) => a.timestamp - b.timestamp)[0]`, as an index. */
  function OldestIndex(slots: seq<Slot>): (i: nat)
    requires |slots| > 0
    ensures SortsFirst(slots, i)
    ensures forall j :: SortsFirst(slots, j) ==> j == i
    decreases |slots|
  {
    if |slots| == 1 then 0
    else
      var j := 1 + OldestIndex(slots[1..]);
      if slots[0].entry.timestamp <= slots[j].entry.timestamp then 0 else j
  }

  function RemoveAt(slots: seq<Slot>, i: nat): (r: seq<Slot>)
    requires i < |slots|
    ensures |r| == |slots| - 1
  {
    slots[..i] + slots[i + 1..]
  }

  lemma RemoveAtIndex(slots: seq<Slot>, i: nat)
    requires i < |slots|
    ensures forall j :: 0 <= j < |RemoveAt(slots, i)| ==>
      RemoveAt(slots, i)[j] == slots[if j < i then j else j + 1]
  {
  }

  lemma RemoveAtDistinct(slots: seq<Slot>, i: nat)
    requires DistinctKeys(slots) && i < |slots|
    ensures DistinctKeys(RemoveAt(slots, i))
  {
    RemoveAtIndex(slots, i);
  }

  lemma RemoveAtLookup(slots: seq<Slot>, i: nat, k: string)
    requires DistinctKeys(slots) && i < |slots|
    ensures DistinctKeys(RemoveAt(slots, i))
    ensures Lookup(RemoveAt(slots, i), k) == if k == slots[i].key then None else Lookup(slots, k)
  {
    var r := RemoveAt(slots, i);
    RemoveAtDistinct(slots, i);
    RemoveAtIndex(slots, i);
    if k == slots[i].key {
      forall j | 0 <= j < |r|
        ensures r[j].key != k
      {
        assert r[j] == slots[if j < i then j else j + 1];
      }
    } else if Lookup(slots, k).Some? {
      var j :| 0 <= j < |slots| && slots[j].key == k;
      var jr := if j < i then j else j - 1;
      assert r[jr] == slots[j];
      LookupAt(slots, j);
      LookupAt(r, jr);
    } else {
      forall j | 0 <= j < |r|
        ensures r[j].key != k
      {
        assert r[j] == slots[if j < i then j else j + 1];
      }
    }
  }

  /** What a successful generation leaves in the cache: the new entry is written, then
      the oldest entry is evicted when that makes more than `MAX_ENTRIES`. */
  function Store(slots: seq<Slot>, key: string, e: Entry): (r: seq<Slot>)
    ensures |Put(slots, key, e)| <= MAX_ENTRIES ==> r == Put(slots, key, e)
    ensures |r| <= |slots| + 1
  {
    var p := Put(slots, key, e);
    if |p| > MAX_ENTRIES then RemoveAt(p, OldestIndex(p)) else p
  }

  /** A cache within the bound stays within it, and keys stay distinct. */
  lemma StoreKeepsBound(slots: seq<Slot>, key: string, e: Entry)
    requires DistinctKeys(slots) && |slots| <= MAX_ENTRIES
    ensures DistinctKeys(Store(slots, key, e)) && |Store(slots, key, e)| <= MAX_ENTRIES
  {
    var p := Put(slots, key, e);
    PutDistinct(slots, key, e);
    if |p| > MAX_ENTRIES {
      RemoveAtLookup(p, OldestIndex(p), key);
    }
  }

  /** Eviction removes exactly one entry, one with the smallest timestamp, and every other
      key keeps the entry the write left it with. */
  lemma StoreEvictsOldest(slots: seq<Slot>, key: string, e: Entry)
    requires DistinctKeys(slots)
    requires |Put(slots, key, e)| > MAX_ENTRIES
    ensures var p := Put(slots, key, e);
      exists i: nat :: SortsFirst(p, i) &&
        |Store(slots, key, e)| == |p| - 1 &&
        Lookup(Store(slots, key, e), p[i].key).None? &&
        forall k :: k != p[i].key ==> Lookup(Store(slots, key, e), k) == Lookup(p, k)
  {
    var p := Put(slots, key, e);
    var i := OldestIndex(p);
    PutDistinct(slots, key, e);
    forall k {
      RemoveAtLookup(p, i, k);
    }
  }

  /** An entry stored with a timestamp no older than any already present survives the
      eviction and is what the next lookup of its key finds. */
  lemma StoreKeepsNewest(slots: seq<Slot>, key: string, e: Entry)
    requires DistinctKeys(slots) && |slots| <= MAX_ENTRIES
    requires forall j :: 0 <= j < |slots| ==> slots[j].entry.timestamp <= e.timestamp
    ensures Lookup(Store(slots, key, e), key) == Some(e)
  {
    var p := Put(slots, key, e);
    PutDistinct(slots, key, e);
    PutLookup(slots, key, e, key);
    if |p| > MAX_ENTRIES {
      assert Lookup(slots, key).None?;
      PutNewKey(slots, key, e);
      NewestNotOldest(slots, Slot(key, e));
      var i := OldestIndex(p);
      assert p[i].key != key by { assert p[i] == slots[i]; }
      RemoveAtLookup(p, i, key);
    }
  }

  /** A slot appended after an entry no newer than it is not what the sort puts first. */
  lemma NewestNotOldest(slots: seq<Slot>, last: Slot)
    requires |slots| > 0 && slots[0].entry.timestamp <= last.entry.timestamp
    ensures OldestIndex(slots + [last]) < |slots|
  {
    var q := slots + [last];
    assert q[0] == slots[0];
    assert !SortsFirst(q, |slots|);
  }

  /** `new VertexAIService()` followed by `generateImage`: the work done on a miss. */
  function Generate(env: VertexAI.Env, prompt: string, style: string, seed: Option<int>,
                    vendor: VertexAI.Request -> VertexAI.VendorReply): Result<string, string>
  {
    match VertexAI.NewService(env.credentials)
    case Err(m) => Err(m)
    case Ok(hasCredentials) => VertexAI.GenerateImage(env, hasCredentials, prompt, style, seed, vendor)
  }

  class Cache {
    /** The entries in insertion order. */
    var slots: seq<Slot>

    ghost predicate Valid()
      reads this
    {
      DistinctKeys(slots) && |slots| <= MAX_ENTRIES
    }

    constructor()
      ensures Valid() && slots == []
    {
      slots := [];
    }

    /** `generateImageWithCache`. `lookupNow` and `storeNow` are the two readings of the
        clock; `vendor` answers the request the generator sends on a miss. `generated`
        says whether the generator ran. */
    method GenerateWithCache(env: VertexAI.Env, prompt: string, style: string, seed: Option<int>,
                             lookupNow: int, storeNow: int,
                             vendor: VertexAI.Request -> VertexAI.VendorReply)
      returns (r: Result<string, string>, generated: bool)
      requires Valid()
      modifies this
      ensures Valid()
      ensures var key := CacheKey(prompt, style, seed);
        var hit := Lookup(old(slots), key);
        if hit.Some? && IsFresh(hit.value, lookupNow) then
          r == Ok(hit.value.data) && !generated && slots == old(slots)
        else
          && generated
          && r == Generate(env, prompt, style, seed, vendor)
          && slots == (if r.Ok? then Store(old(slots), key, Entry(r.value, storeNow)) else old(slots))
    {
      var key := CacheKey(prompt, style, seed);
      var cached := Lookup(slots, key);
      if cached.Some? && lookupNow - cached.value.timestamp < CACHE_TTL {
        return Ok(cached.value.data), false;
      }
      generated := true;
      r := Generate(env, prompt, style, seed, vendor);
      if r.Err? {
        return;
      }
      StoreKeepsBound(slots, key, Entry(r.value, storeNow));
      slots := Put(slots, key, Entry(r.value, storeNow));
      if |slots| > MAX_ENTRIES {
        var oldest := OldestIndex(slots);
        slots := slots[..oldest] + slots[oldest + 1..];
      }
    }
  }
}
