/** The best-effort Redis cache (src/services/cache.js). Redis is a map from key
    to stored string, reduced to what matters here: a parseable product snapshot
    or bytes that do not parse. `up` says whether the server can be reached;
    while it is false every command fails, and the failure is swallowed. The
    client lifecycle, TTL expiry and JSON encoding are not part of this model. */
module CacheService {
  import opened Wrappers
  import opened Models

  /** Prefix of every product key. */
  const KeyPrefix: string := "product:"

  /** `getCacheKey`: the prefix followed by the id, so the id can be read back. */
  function CacheKey(id: string): (key: string)
    ensures |key| == |KeyPrefix| + |id|
    ensures key[..|KeyPrefix|] == KeyPrefix && key[|KeyPrefix|..] == id
  {
    KeyPrefix + id
  }

  /** Distinct ids never share a key. */
  lemma CacheKeyInjective(a: string, b: string)
    ensures CacheKey(a) == CacheKey(b) <==> a == b
  {
  }

  /** A stored value: the JSON of a product written with a TTL, or a string that
      does not parse (the empty string among them). */
  datatype Entry = Snapshot(product: Product, ttlSeconds: int) | Corrupt(raw: string)

  /** What GET on a reachable server returns for an id: the parsed snapshot, or
      nothing for a missing, empty or unparseable value. */
  function Lookup(entries: map<string, Entry>, id: string): Option<Product> {
    var key := CacheKey(id);
    if key in entries && entries[key].Snapshot? then Some(entries[key].product) else None
  }

  /** A reachable read deletes a non-empty value that does not parse; an empty
      one is returned as a miss before parsing and stays. */
  function Purge(entries: map<string, Entry>, id: string): map<string, Entry> {
    var key := CacheKey(id);
    if key in entries && entries[key].Corrupt? && entries[key].raw != "" then entries - {key} else entries
  }

  /** Result of `getProductFromCache`; an unreachable server reads as a miss. */
  function ReadHit(entries: map<string, Entry>, up: bool, id: string): Option<Product> {
    if up then Lookup(entries, id) else None
  }

  /** Key space after `getProductFromCache`. */
  function AfterRead(entries: map<string, Entry>, up: bool, id: string): map<string, Entry> {
    if up then Purge(entries, id) else entries
  }

  /** SETEX accepts only a positive expiry; any other is answered with an error. */
  predicate ValidExpiry(ttl: int) { ttl > 0 }

  /** Key space after `setProductInCache(p, ttl)`: SETEX under p's key, or nothing
      when the server is unreachable or rejects the expiry. */
  function AfterSet(entries: map<string, Entry>, up: bool, p: Product, ttl: int): map<string, Entry> {
    if up && ValidExpiry(ttl) then entries[CacheKey(p.id) := Snapshot(p, ttl)] else entries
  }

  /** Key space after `invalidateProductCache(id)`: DEL of id's key, or nothing. */
  function AfterInvalidate(entries: map<string, Entry>, up: bool, id: string): map<string, Entry> {
    if up then entries - {CacheKey(id)} else entries
  }

  /** Reading a key that holds nothing yields a miss and changes nothing. */
  lemma ReadMissing(entries: map<string, Entry>, up: bool, id: string)
    requires CacheKey(id) !in entries
    ensures ReadHit(entries, up, id) == None && AfterRead(entries, up, id) == entries
  {
  }

  /** Reading a corrupt value yields a miss; a non-empty one is deleted and no
      other key changes. */
  lemma ReadCorrupt(entries: map<string, Entry>, id: string)
    requires CacheKey(id) in entries && entries[CacheKey(id)].Corrupt?
    ensures ReadHit(entries, true, id) == None
    ensures entries[CacheKey(id)].raw != "" ==> CacheKey(id) !in AfterRead(entries, true, id)
    ensures forall k :: k != CacheKey(id) ==>
              (k in AfterRead(entries, true, id) <==> k in entries) &&
              (k in entries ==> AfterRead(entries, true, id)[k] == entries[k])
  {
  }

  /** An unreachable server reads as a miss and nothing changes; writes and
      deletes against it are swallowed and change nothing either. */
  lemma UnreachableIsNoOp(entries: map<string, Entry>, id: string, p: Product, ttl: int)
    ensures ReadHit(entries, false, id) == None && AfterRead(entries, false, id) == entries
    ensures AfterSet(entries, false, p, ttl) == entries
    ensures AfterInvalidate(entries, false, id) == entries
  {
  }

  /** Round trip: after a set with a positive expiry, reading p's id yields p,
      and only p's key changed. A set with any other expiry is rejected and
      changes nothing. */
  lemma SetThenRead(entries: map<string, Entry>, p: Product, ttl: int)
    ensures ValidExpiry(ttl) ==> ReadHit(AfterSet(entries, true, p, ttl), true, p.id) == Some(p)
    ensures ValidExpiry(ttl) ==> AfterRead(AfterSet(entries, true, p, ttl), true, p.id) == AfterSet(entries, true, p, ttl)
    ensures !ValidExpiry(ttl) ==> AfterSet(entries, true, p, ttl) == entries
    ensures forall k :: k != CacheKey(p.id) ==>
              (k in AfterSet(entries, true, p, ttl) <==> k in entries) &&
              (k in entries ==> AfterSet(entries, true, p, ttl)[k] == entries[k])
  {
  }

  /** After a successful invalidation the id reads as a miss, and every other key
      is as before. */
  lemma InvalidateRemoves(entries: map<string, Entry>, id: string)
    ensures CacheKey(id) !in AfterInvalidate(entries, true, id)
    ensures ReadHit(AfterInvalidate(entries, true, id), true, id) == None
    ensures forall k :: k != CacheKey(id) ==>
              (k in AfterInvalidate(entries, true, id) <==> k in entries) &&
              (k in entries ==> AfterInvalidate(entries, true, id)[k] == entries[k])
  {
  }

  /** The Redis key space as the service sees it. */
  class Cache {
    var entries: map<string, Entry>
    var up: bool

    /** An empty key space behind a server that is, or is not, reachable. */
    constructor (reachable: bool)
      ensures entries == map[] && up == reachable
    {
      entries := map[];
      up := reachable;
    }

    /** `getProductFromCache`: never fails; misses, unparseable values and an
        unreachable server all read as None. */
    method Get(id: string) returns (r: Option<Product>)
      modifies this
      ensures up == old(up)
      ensures r == ReadHit(old(entries), up, id)
      ensures entries == AfterRead(old(entries), up, id)
    {
      if !up {
        return None;
      }
      var key := CacheKey(id);
      if key !in entries {
        return None;
      }
      match entries[key] {
        case Corrupt(raw) =>
          if raw != "" {
            entries := entries - {key};
          }
          return None;
        case Snapshot(p, _) =>
          return Some(p);
      }
    }

    /** `setProductInCache`: SETEX under the product's key; a failure, including
        the rejection of an expiry that is not positive, is swallowed. */
    method Set(p: Product, ttlSeconds: int)
      modifies this
      ensures up == old(up)
      ensures entries == AfterSet(old(entries), up, p, ttlSeconds)
    {
      if up && ValidExpiry(ttlSeconds) {
        entries := entries[CacheKey(p.id) := Snapshot(p, ttlSeconds)];
      }
    }

    /** `invalidateProductCache`: DEL of the id's key; a failure is swallowed. */
    method Invalidate(id: string)
      modifies this
      ensures up == old(up)
      ensures entries == AfterInvalidate(old(entries), up, id)
    {
      if up {
        entries := entries - {CacheKey(id)};
      }
    }
  }
}
