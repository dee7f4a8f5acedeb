/** The cache of encoded reference audio: an ordered dictionary whose last key is the one used last. Looking up and
    storing are each done under the lock; what runs in between is not. */
module PromptCache {

  datatype Option<T> = None | Some(value: T)

  datatype Entry<V> = Entry(key: string, value: V)

  type Dict<V> = seq<Entry<V>>

  function Keys<V>(d: Dict<V>): seq<string> {
    seq(|d|, i requires 0 <= i < |d| => d[i].key)
  }

  function Get<V>(d: Dict<V>, key: string): Option<V> {
    if d == [] then None else if d[0].key == key then Some(d[0].value) else Get(d[1..], key)
  }

  /** The dictionary without a key. */
  function Without<V>(d: Dict<V>, key: string): Dict<V> {
    if d == [] then [] else (if d[0].key == key then [] else [d[0]]) + Without(d[1..], key)
  }

  /** The last `n` entries. */
  function Newest<T>(s: seq<T>, n: nat): seq<T> {
    if |s| <= n then s else s[|s| - n..]
  }

  /** A cache hit makes the key the newest. */
  function LookedUp<V>(d: Dict<V>, key: string): Dict<V> {
    var found := Get(d, key);
    if found.Some? then Without(d, key) + [Entry(key, found.value)] else d
  }

  /** Storing makes the key the newest and drops the oldest that are too many. */
  function Stored<V>(d: Dict<V>, key: string, value: V, maxItems: int): Dict<V> {
    if maxItems <= 0 then d else Newest(Without(d, key) + [Entry(key, value)], maxItems)
  }

  class Cache<V> {
    var entries: Dict<V>

    constructor ()
      ensures entries == []
    {
      entries := [];
    }

    /** The first critical section. */
    method Lookup(key: string) returns (found: Option<V>)
      modifies this
      ensures found == Get(old(entries), key) && entries == LookedUp(old(entries), key)
    {
      found := Get(entries, key);
      if found.Some? {
        entries := Without(entries, key) + [Entry(key, found.value)];
      }
    }

    /** The second critical section. */
    method Store(key: string, value: V, maxItems: int)
      modifies this
      ensures entries == Stored(old(entries), key, value, maxItems)
    {
      if maxItems > 0 {
        entries := Without(entries, key) + [Entry(key, value)];
        ghost var all := entries;
        while |entries| > maxItems
          invariant |entries| <= |all| && entries == all[|all| - |entries|..]
          invariant |entries| == |all| || |entries| >= maxItems
          decreases |entries|
        {
          entries := entries[1..];
        }
      }
    }

    /** A call that no other interferes with. */
    method Resolve(key: string, maxItems: int, runtime: string -> V) returns (codes: V)
      modifies this
      ensures codes == (if Get(old(entries), key).Some? then Get(old(entries), key).value else runtime(key))
      ensures entries == if Get(old(entries), key).Some? then LookedUp(old(entries), key)
                         else Stored(old(entries), key, runtime(key), maxItems)
    {
      var cached := Lookup(key);
      if cached.Some? { return cached.value; }
      codes := runtime(key);
      Store(key, codes, maxItems);
    }
  }

  // ---------- runs ----------

  /** One critical section of some call. A call that misses is a `Find` that changes nothing and, any number of other
      sections later, a `Put` of what the runtime gave for its key. */
  datatype Section = Find(key: string) | Put(key: string)

  function After<V>(sections: seq<Section>, maxItems: int, runtime: string -> V): Dict<V> {
    if sections == [] then []
    else
      var before := After(sections[..|sections| - 1], maxItems, runtime);
      match sections[|sections| - 1]
      case Find(key) => LookedUp(before, key)
      case Put(key) => Stored(before, key, runtime(key), maxItems)
  }

  /** The keys in the order in which they were used: a hit uses its key, and so does a put. */
  function Uses<V>(sections: seq<Section>, maxItems: int, runtime: string -> V): seq<string> {
    if sections == [] then []
    else
      var earlier := sections[..|sections| - 1];
      var section := sections[|sections| - 1];
      var uses := Uses(earlier, maxItems, runtime);
      if section.Put? || Get(After(earlier, maxItems, runtime), section.key).Some? then uses + [section.key] else uses
  }

  function WithoutKey(keys: seq<string>, key: string): seq<string> {
    if keys == [] then [] else (if keys[0] == key then [] else [keys[0]]) + WithoutKey(keys[1..], key)
  }

  /** Each key once, in the order of its last use. */
  function ByLastUse(uses: seq<string>): seq<string> {
    if uses == [] then []
    else
      var last := uses[|uses| - 1];
      WithoutKey(ByLastUse(uses[..|uses| - 1]), last) + [last]
  }

  predicate Distinct(keys: seq<string>) {
    forall i, j :: 0 <= i < j < |keys| ==> keys[i] != keys[j]
  }

  // ---------- about sequences of keys ----------

  lemma {:induction false} WithoutKeyHasNone(keys: seq<string>, key: string)
    ensures key !in WithoutKey(keys, key)
    ensures forall k :: k in WithoutKey(keys, key) ==> k in keys
    ensures key !in keys ==> WithoutKey(keys, key) == keys
  {
    if keys != [] { WithoutKeyHasNone(keys[1..], key); }
  }

  lemma {:induction false} WithoutKeyStaysDistinct(keys: seq<string>, key: string)
    requires Distinct(keys)
    ensures Distinct(WithoutKey(keys, key))
    ensures |WithoutKey(keys, key)| == |keys| - (if key in keys then 1 else 0)
  {
    if keys != [] {
      assert Distinct(keys[1..]);
      WithoutKeyStaysDistinct(keys[1..], key);
      WithoutKeyHasNone(keys[1..], key);
      assert keys[0] !in keys[1..];
      var rest := WithoutKey(keys[1..], key);
      if keys[0] != key {
        assert keys[0] !in rest;
        var all := [keys[0]] + rest;
        assert forall i :: 0 < i < |all| ==> all[i] == rest[i - 1];
      }
    }
  }

  lemma {:induction false} WithoutKeyConcat(a: seq<string>, b: seq<string>, key: string)
    ensures WithoutKey(a + b, key) == WithoutKey(a, key) + WithoutKey(b, key)
  {
    if a == [] {
      assert a + b == b;
    } else {
      assert (a + b)[1..] == a[1..] + b;
      WithoutKeyConcat(a[1..], b, key);
    }
  }

  lemma {:induction false} ByLastUseIsDistinct(uses: seq<string>)
    ensures Distinct(ByLastUse(uses)) && forall k :: k in ByLastUse(uses) <==> k in uses
  {
    if uses != [] {
      var earlier, last := uses[..|uses| - 1], uses[|uses| - 1];
      ByLastUseIsDistinct(earlier);
      var d := ByLastUse(earlier);
      WithoutKeyStaysDistinct(d, last);
      WithoutKeyHasNone(d, last);
      assert uses == earlier + [last];
      forall k | k in uses ensures k in ByLastUse(uses) {
        if k != last { StaysIn(d, last, k); }
      }
    }
  }

  lemma {:induction false} StaysIn(keys: seq<string>, key: string, k: string)
    requires k in keys && k != key
    ensures k in WithoutKey(keys, key)
  {
    if keys[0] != k { StaysIn(keys[1..], key, k); }
  }

  lemma NewestOfTail<T>(a: seq<T>, b: seq<T>, n: nat)
    requires |b| >= n
    ensures Newest(a + b, n) == Newest(b, n)
  {
  }

  /** Renewing a key among the newest `n` and cutting again is the same as renewing it among all and cutting once. */
  lemma RenewingCommutesWithCutting(keys: seq<string>, key: string, n: nat)
    requires Distinct(keys) && n > 0
    ensures Newest(WithoutKey(keys, key) + [key], n) == Newest(WithoutKey(Newest(keys, n), key) + [key], n)
  {
    if |keys| > n {
      var cut := |keys| - n;
      var a, b := keys[..cut], keys[cut..];
      assert a + b == keys && Newest(keys, n) == b;
      WithoutKeyConcat(a, b, key);
      assert Distinct(b);
      WithoutKeyStaysDistinct(b, key);
      var c := WithoutKey(b, key) + [key];
      assert WithoutKey(a, key) + WithoutKey(b, key) + [key] == WithoutKey(a, key) + c;
      NewestOfTail(WithoutKey(a, key), c, n);
    }
  }

  // ---------- about the dictionary ----------

  lemma {:induction false} KeysWithout<V>(d: Dict<V>, key: string)
    ensures Keys(Without(d, key)) == WithoutKey(Keys(d), key)
  {
    if d != [] {
      KeysWithout(d[1..], key);
      assert Keys(d) == [d[0].key] + Keys(d[1..]);
      if d[0].key != key { assert Keys([d[0]] + Without(d[1..], key)) == [d[0].key] + Keys(Without(d[1..], key)); }
    }
  }

  lemma {:induction false} GetFindsKeys<V>(d: Dict<V>, key: string)
    ensures Get(d, key).Some? <==> key in Keys(d)
    ensures Get(d, key).Some? ==> Entry(key, Get(d, key).value) in d
  {
    if d != [] {
      GetFindsKeys(d[1..], key);
      assert Keys(d) == [d[0].key] + Keys(d[1..]);
    }
  }

  /** Every value is the one the runtime gives for its key. */
  ghost predicate Genuine<V>(d: Dict<V>, runtime: string -> V) {
    forall e :: e in d ==> e.value == runtime(e.key)
  }

  lemma {:induction false} WithoutIsPart<V>(d: Dict<V>, key: string)
    ensures forall e :: e in Without(d, key) ==> e in d
  {
    if d != [] { WithoutIsPart(d[1..], key); }
  }

  lemma RenewedKeys<V>(d: Dict<V>, key: string, value: V)
    ensures Keys(Without(d, key) + [Entry(key, value)]) == WithoutKey(Keys(d), key) + [key]
  {
    KeysWithout(d, key);
    var w := Without(d, key);
    assert Keys(w + [Entry(key, value)]) == Keys(w) + [key];
  }

  lemma NewestKeys<V>(d: Dict<V>, n: nat)
    ensures Keys(Newest(d, n)) == Newest(Keys(d), n)
  {
  }

  ghost predicate HoldsNewest<V>(d: Dict<V>, uses: seq<string>, maxItems: nat) {
    Keys(d) == Newest(ByLastUse(uses), maxItems)
  }

  lemma HitKeepsNewest<V>(d: Dict<V>, uses: seq<string>, maxItems: nat, key: string)
    requires maxItems > 0 && HoldsNewest(d, uses, maxItems) && Get(d, key).Some?
    ensures HoldsNewest(LookedUp(d, key), uses + [key], maxItems)
  {
    var all := ByLastUse(uses);
    ByLastUseIsDistinct(uses);
    GetFindsKeys(d, key);
    RenewedKeys(d, key, Get(d, key).value);
    RenewingCommutesWithCutting(all, key, maxItems);
    assert (uses + [key])[..|uses|] == uses;
    assert Distinct(Newest(all, maxItems));
    WithoutKeyStaysDistinct(Newest(all, maxItems), key);
  }

  lemma PutKeepsNewest<V>(d: Dict<V>, uses: seq<string>, maxItems: nat, key: string, value: V)
    requires maxItems > 0 && HoldsNewest(d, uses, maxItems)
    ensures HoldsNewest(Stored(d, key, value, maxItems), uses + [key], maxItems)
  {
    var all := ByLastUse(uses);
    ByLastUseIsDistinct(uses);
    RenewedKeys(d, key, value);
    NewestKeys(Without(d, key) + [Entry(key, value)], maxItems);
    RenewingCommutesWithCutting(all, key, maxItems);
    assert (uses + [key])[..|uses|] == uses;
  }

  /** However the critical sections of concurrent calls interleave: the cache holds exactly the most recently used
      keys, oldest first, never more than the limit. */
  lemma {:induction false} CacheHoldsTheMostRecentKeys<V>(sections: seq<Section>, maxItems: nat, runtime: string -> V)
    requires maxItems > 0
    ensures var d, uses := After(sections, maxItems, runtime), Uses(sections, maxItems, runtime);
            Keys(d) == Newest(ByLastUse(uses), maxItems) && |d| <= maxItems
  {
    if sections != [] {
      var earlier, section := sections[..|sections| - 1], sections[|sections| - 1];
      CacheHoldsTheMostRecentKeys(earlier, maxItems, runtime);
      var d, uses := After(earlier, maxItems, runtime), Uses(earlier, maxItems, runtime);
      if section.Put? {
        PutKeepsNewest(d, uses, maxItems, section.key, runtime(section.key));
      } else if Get(d, section.key).Some? {
        HitKeepsNewest(d, uses, maxItems, section.key);
      }
    }
    assert |Keys(After(sections, maxItems, runtime))| == |After(sections, maxItems, runtime)|;
  }

  /** Whatever is found in the cache is what the runtime would have returned. */
  lemma {:induction false} HitsAreGenuine<V>(sections: seq<Section>, maxItems: int, runtime: string -> V)
    ensures Genuine(After(sections, maxItems, runtime), runtime)
    ensures forall key :: Get(After(sections, maxItems, runtime), key).Some? ==>
              Get(After(sections, maxItems, runtime), key).value == runtime(key)
  {
    if sections != [] {
      var earlier, section := sections[..|sections| - 1], sections[|sections| - 1];
      HitsAreGenuine(earlier, maxItems, runtime);
      var d := After(earlier, maxItems, runtime);
      WithoutIsPart(d, section.key);
      GetFindsKeys(d, section.key);
    }
    var d := After(sections, maxItems, runtime);
    forall key | Get(d, key).Some? ensures Get(d, key).value == runtime(key) {
      GetFindsKeys(d, key);
    }
  }

  /** A limit of zero or less switches the cache off: nothing is ever stored. */
  lemma {:induction false} NoLimitNoCache<V>(sections: seq<Section>, maxItems: int, runtime: string -> V)
    requires maxItems <= 0
    ensures After(sections, maxItems, runtime) == []
  {
    if sections != [] { NoLimitNoCache(sections[..|sections| - 1], maxItems, runtime); }
  }
}
