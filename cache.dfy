/**
 * The worker's in-memory image cache (worker/internal/cache.go): a map from the URL
 * fingerprint to the raw payload, updated in place by `Set` and `Remove`.
 */
module WorkerCache {
  import opened Common

  const EmptyKeyError := "key cannot be empty"
  const NotFoundPrefix := "key not found: "

  /** The cache's contents: URL fingerprint to payload. */
  type Entries = map<string, seq<byte>>

  /** The prefix the handlers test for to recognise a cache miss. */
  const MissMarker := "key not found:"

  /** The check every keyed operation makes first: the empty key is refused. */
  function KeyCheck(key: string): Option<string>
  {
    if key == "" then Some(EmptyKeyError) else None
  }

  /** What `Get(key)` returns when the map is `m`. */
  function Lookup(m: Entries, key: string): Result<seq<byte>>
  {
    if KeyCheck(key).Some? then Err(KeyCheck(key).value)
    else if key in m then Ok(m[key])
    else Err(NotFoundPrefix + key)
  }

  class Cache {
    var m: Entries

    /** `NewCache`: an empty map. */
    constructor ()
      ensures m == map[]
    {
      m := map[];
    }

    /** Stores `value` under a non-empty `key`, overwriting any earlier value. */
    method Set(key: string, value: seq<byte>) returns (err: Option<string>)
      modifies this
      ensures err == KeyCheck(key)
      ensures m == if err.None? then old(m)[key := value] else old(m)
    {
      err := KeyCheck(key);
      if err.Some? {
        return;
      }
      m := m[key := value];
    }

    method Get(key: string) returns (r: Result<seq<byte>>)
      ensures r == Lookup(m, key)
    {
      if key == "" {
        return Err(EmptyKeyError);
      }
      if key in m {
        return Ok(m[key]);
      }
      return Err(NotFoundPrefix + key);
    }

    /** Deletes a non-empty `key`; deleting an absent key is not an error. */
    method Remove(key: string) returns (err: Option<string>)
      modifies this
      ensures err == KeyCheck(key)
      ensures m == if err.None? then old(m) - {key} else old(m)
    {
      err := KeyCheck(key);
      if err.Some? {
        return;
      }
      m := m - {key};
    }

    method Count() returns (n: nat)
      ensures n == |m.Keys|
    {
      n := |m|;
    }
  }

  /** After storing `v` under `k`, `Get(k)` gives exactly `v` and every other key reads as before. */
  lemma GetAfterSet(m: Entries, k: string, v: seq<byte>, other: string)
    requires k != ""
    ensures Lookup(m[k := v], k) == Ok(v)
    ensures other != k ==> Lookup(m[k := v], other) == Lookup(m, other)
  {
  }

  /** After removing `k`, `Get(k)` misses and every other key reads as before. */
  lemma GetAfterRemove(m: Entries, k: string, other: string)
    requires k != ""
    ensures Lookup(m - {k}, k) == Err(NotFoundPrefix + k)
    ensures other != k ==> Lookup(m - {k}, other) == Lookup(m, other)
  {
  }

  /** `Set` of a new key adds one entry; of an existing key, none. */
  lemma CountAfterSet(m: Entries, k: string, v: seq<byte>)
    ensures |(m[k := v]).Keys| == |m.Keys| + (if k in m then 0 else 1)
  {
    if k in m {
      assert (m[k := v]).Keys == m.Keys;
    } else {
      assert (m[k := v]).Keys == m.Keys + {k};
    }
  }

  /** `Remove` of a present key takes one entry away; of an absent key, none. */
  lemma CountAfterRemove(m: Entries, k: string)
    ensures |(m - {k}).Keys| == |m.Keys| - (if k in m then 1 else 0)
  {
    if k in m {
      assert (m - {k}).Keys == m.Keys - {k};
    } else {
      assert (m - {k}).Keys == m.Keys;
    }
  }

  /**
   * The handlers tell a miss from other cache errors by the `"key not found:"` prefix of the
   * message: the prefix is there exactly when the key is non-empty and absent, so the
   * empty-key error is never taken for a miss.
   */
  lemma MissIffMarker(m: Entries, key: string)
    requires Lookup(m, key).Err?
    ensures HasPrefix(Lookup(m, key).msg, MissMarker) <==> key != "" && key !in m
  {
    if key == "" {
      assert EmptyKeyError[4] != MissMarker[4];
    } else {
      assert (NotFoundPrefix + key)[..|MissMarker|] == MissMarker;
    }
  }
}
