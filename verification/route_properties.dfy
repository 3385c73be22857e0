/** Properties of the cache-aside protocol, stated over the handler
    specifications of module Routes. */
module RouteProperties {
  import opened Wrappers
  import opened Models
  import opened Db
  import opened CacheService
  import opened Routes
  import Config

  /** Every row is stored under its id and satisfies the schema constraints. */
  predicate Consistent(rows: map<string, Product>) {
    KeyedById(rows) && forall k :: k in rows ==> ValidRecord(rows[k])
  }

  /** Every snapshot in the cache sits under its product's key and equals the
      current row of that product. */
  predicate Coherent(w: World) {
    forall k :: k in w.entries && w.entries[k].Snapshot? ==>
      && k == CacheKey(w.entries[k].product.id)
      && w.entries[k].product.id in w.rows
      && w.rows[w.entries[k].product.id] == w.entries[k].product
  }

  /** `m` holds a subset of the entries of `n`, each unchanged. */
  predicate SubMap(m: map<string, Entry>, n: map<string, Entry>) {
    forall k :: k in m ==> k in n && m[k] == n[k]
  }

  // ---------------------------------------------------------------- POST

  /** An invalid payload is answered with 400 and changes neither store nor cache. */
  lemma PostRejectsInvalid(w: World, body: Body, newId: string)
    requires !ValidCreate(body)
    ensures PostSpec(w, body, newId) == Step(Reply(400, Message(InvalidPayload)), w)
  {
  }

  /** A valid payload under a fresh id is answered with 201 and the record
      `{ id, ...payload }`, which is stored; the id has no cache entry afterwards
      and every other key is as before. */
  lemma PostCreates(w: World, body: Body, newId: string)
    requires ValidCreate(body) && newId !in w.rows
    ensures var s := PostSpec(w, body, newId);
      && s.reply.status == 201
      && s.reply.content.Record?
      && var p := s.reply.content.product;
      && p.id == newId
      && Body(Some(p.name), Some(p.description), Some(p.price), Some(p.stockQuantity)) == body
      && s.world.rows == w.rows[newId := p]
      && (w.up ==> CacheKey(newId) !in s.world.entries)
      && (forall k :: k != CacheKey(newId) && k in w.entries ==> k in s.world.entries && s.world.entries[k] == w.entries[k])
  {
  }

  /** An id already present makes the INSERT fail: 500, nothing changes. */
  lemma PostDuplicateFails(w: World, body: Body, newId: string)
    requires ValidCreate(body) && newId in w.rows
    ensures PostSpec(w, body, newId) == Step(Reply(500, Message(InternalError)), w)
  {
  }

  // ---------------------------------------------------------------- GET

  /** A cache hit answers 200 with the cached record and leaves everything as it
      was, whatever the store holds: the store is not consulted. */
  lemma GetHitBypassesStore(w1: World, w2: World, id: string, ttl: int)
    requires w1.entries == w2.entries && w1.up == w2.up
    requires ReadHit(w1.entries, w1.up, id).Some?
    ensures GetSpec(w1, id, ttl).reply == GetSpec(w2, id, ttl).reply
    ensures GetSpec(w1, id, ttl).reply == Reply(200, Record(ReadHit(w1.entries, w1.up, id).value))
    ensures GetSpec(w1, id, ttl).world == w1 && GetSpec(w2, id, ttl).world == w2
  {
  }

  /** No negative caching: GET answers 404 exactly when the cache misses and the
      store has no such id, and then the cache gains nothing (it can only lose a
      corrupt value); a reachable cache holds no snapshot for the id. */
  lemma NoNegativeCaching(w: World, id: string, ttl: int)
    ensures var s := GetSpec(w, id, ttl);
      && (s.reply.status == 404 <==> ReadHit(w.entries, w.up, id).None? && id !in w.rows)
      && (s.reply.status == 404 ==>
            s.world.rows == w.rows && SubMap(s.world.entries, w.entries)
            && (w.up ==> Lookup(s.world.entries, id).None?))
  {
  }

  /** A miss on a present id answers 200 with the stored record. With a positive
      TTL the cache then holds exactly that record under the id's key; any other
      TTL is rejected by the server and the id still misses. */
  lemma GetMissFills(w: World, id: string, ttl: int)
    requires KeyedById(w.rows) && w.up && Lookup(w.entries, id).None? && id in w.rows
    ensures var s := GetSpec(w, id, ttl);
      && s.reply == Reply(200, Record(w.rows[id]))
      && s.world.rows == w.rows
      && (ValidExpiry(ttl) ==>
            && s.world.entries[CacheKey(id)] == Snapshot(w.rows[id], ttl)
            && Lookup(s.world.entries, id) == Some(w.rows[id]))
      && (!ValidExpiry(ttl) ==> Lookup(s.world.entries, id).None?)
  {
  }

  /** GET is idempotent: repeating it gives the same reply and the same state. */
  lemma GetIdempotent(w: World, id: string, ttl: int)
    ensures var s := GetSpec(w, id, ttl);
      GetSpec(s.world, id, ttl) == s
  {
  }

  /** Once a GET succeeds against a reachable cache, the next GET of the id is a
      hit: it returns the identical record from the cache, without the store.
      A miss filled with a TTL the server rejects leaves no hit behind. */
  lemma SecondReadIsHit(w: World, id: string, ttl: int)
    requires KeyedById(w.rows) && w.up
    ensures var s := GetSpec(w, id, ttl);
      s.reply.status == 200 && (Lookup(w.entries, id).Some? || ValidExpiry(ttl)) ==>
        && ReadHit(s.world.entries, true, id) == Some(s.reply.content.product)
        && GetSpec(s.world, id, ttl).reply == s.reply
  {
  }

  // ---------------------------------------------------------------- PUT

  /** An invalid body, or one with no field, is answered with 400 and changes
      nothing; an unknown id is answered with 404 and touches neither store nor
      cache. */
  lemma PutRejects(w: World, id: string, body: Body)
    ensures !ValidUpdate(body) ==> PutSpec(w, id, body) == Step(Reply(400, Message(InvalidPayload)), w)
    ensures ValidUpdate(body) && NoFields(body) ==> PutSpec(w, id, body) == Step(Reply(400, Message(FieldRequired)), w)
    ensures ValidUpdate(body) && !NoFields(body) && id !in w.rows ==> PutSpec(w, id, body) == Step(Reply(404, Message(NotFound)), w)
  {
  }

  /** A successful PUT writes exactly the supplied fields and answers 200 with the
      new record, whether or not the cache is reachable. With a reachable cache
      it leaves no cache entry for the id, and the next GET returns the new
      record from the store. */
  lemma PutInvalidates(w: World, id: string, body: Body, ttl: int)
    requires KeyedById(w.rows) && ValidUpdate(body) && !NoFields(body) && id in w.rows
    ensures var s := PutSpec(w, id, body);
      var p := Patched(w.rows[id], body);
      && s.reply == Reply(200, Record(p))
      && s.world.rows == w.rows[id := p]
      && p.id == id
      && (body.name.None? ==> p.name == w.rows[id].name)
      && (body.description.None? ==> p.description == w.rows[id].description)
      && (body.price.None? ==> p.price == w.rows[id].price)
      && (body.stockQuantity.None? ==> p.stockQuantity == w.rows[id].stockQuantity)
      && (w.up ==>
            && CacheKey(id) !in s.world.entries
            && GetSpec(s.world, id, ttl).reply == Reply(200, Record(p)))
  {
  }

  // ---------------------------------------------------------------- DELETE

  /** DELETE answers 204 exactly when the id was present, and afterwards the id is
      gone from the store, whether or not the cache is reachable. A reachable
      cache then holds nothing for a deleted id, and a GET answers 404. An absent
      id leaves store and cache untouched. */
  lemma DeleteInvalidates(w: World, id: string, ttl: int)
    ensures var s := DeleteSpec(w, id);
      && (s.reply.status == 204 <==> id in w.rows)
      && id !in s.world.rows
      && (w.up && id in w.rows ==> CacheKey(id) !in s.world.entries && GetSpec(s.world, id, ttl).reply.status == 404)
      && (id !in w.rows ==> s.world == w)
  {
  }

  /** Deleting twice: the second call answers 404 and changes nothing. */
  lemma DeleteTwice(w: World, id: string)
    ensures var s1 := DeleteSpec(w, id);
      var s2 := DeleteSpec(s1.world, id);
      s2.reply == Reply(404, Message(NotFound)) && s2.world == s1.world
  {
  }

  // ---------------------------------------------------------------- outage

  /** With the cache unreachable, POST answers and writes the store as it would
      with a reachable, empty cache. */
  lemma PostIgnoresOutage(rows: map<string, Product>, entries: map<string, Entry>, body: Body, newId: string)
    ensures PostSpec(World(rows, entries, false), body, newId).reply == PostSpec(World(rows, map[], true), body, newId).reply
    ensures PostSpec(World(rows, entries, false), body, newId).world.rows == PostSpec(World(rows, map[], true), body, newId).world.rows
  {
  }

  /** With the cache unreachable, GET answers from the store alone, as it would
      with a reachable, empty cache. */
  lemma GetIgnoresOutage(rows: map<string, Product>, entries: map<string, Entry>, id: string, ttl: int)
    ensures GetSpec(World(rows, entries, false), id, ttl).reply == GetSpec(World(rows, map[], true), id, ttl).reply
    ensures GetSpec(World(rows, entries, false), id, ttl).world == World(rows, entries, false)
  {
  }

  /** With the cache unreachable, PUT answers and writes the store as it would
      with a reachable, empty cache. */
  lemma PutIgnoresOutage(rows: map<string, Product>, entries: map<string, Entry>, id: string, body: Body)
    ensures PutSpec(World(rows, entries, false), id, body).reply == PutSpec(World(rows, map[], true), id, body).reply
    ensures PutSpec(World(rows, entries, false), id, body).world.rows == PutSpec(World(rows, map[], true), id, body).world.rows
  {
  }

  /** With the cache unreachable, DELETE answers and writes the store as it would
      with a reachable, empty cache. */
  lemma DeleteIgnoresOutage(rows: map<string, Product>, entries: map<string, Entry>, id: string)
    ensures DeleteSpec(World(rows, entries, false), id).reply == DeleteSpec(World(rows, map[], true), id).reply
    ensures DeleteSpec(World(rows, entries, false), id).world.rows == DeleteSpec(World(rows, map[], true), id).world.rows
  {
  }

  // ---------------------------------------------------------------- invariants

  /** Every handler keeps the table keyed by id and its records valid. */
  lemma HandlersKeepConsistency(w: World, body: Body, id: string, ttl: int)
    requires Consistent(w.rows)
    ensures Consistent(PostSpec(w, body, id).world.rows)
    ensures Consistent(GetSpec(w, id, ttl).world.rows)
    ensures Consistent(PutSpec(w, id, body).world.rows)
    ensures Consistent(DeleteSpec(w, id).world.rows)
  {
  }

  /** A coherent cache is invisible: GET answers what the store holds. */
  lemma CoherentReadsAgree(w: World, id: string, ttl: int)
    requires Coherent(w)
    ensures GetSpec(w, id, ttl).reply ==
      if id in w.rows then Reply(200, Record(w.rows[id])) else Reply(404, Message(NotFound))
  {
  }

  /** GET keeps the cache coherent. */
  lemma GetKeepsCoherence(w: World, id: string, ttl: int)
    requires KeyedById(w.rows) && Coherent(w)
    ensures Coherent(GetSpec(w, id, ttl).world)
  {
  }

  /** POST keeps the cache coherent, even when the cache is unreachable: a fresh
      id has no snapshot to go stale. */
  lemma PostKeepsCoherence(w: World, body: Body, newId: string)
    requires Coherent(w)
    ensures Coherent(PostSpec(w, body, newId).world)
  {
  }

  /** PUT keeps the cache coherent when its invalidation reaches the cache, or when
      there is no snapshot for the id to begin with. */
  lemma PutKeepsCoherence(w: World, id: string, body: Body)
    requires Coherent(w)
    requires w.up || Lookup(w.entries, id).None?
    ensures Coherent(PutSpec(w, id, body).world)
  {
  }

  /** DELETE keeps the cache coherent under the same condition as PUT. */
  lemma DeleteKeepsCoherence(w: World, id: string)
    requires Coherent(w)
    requires w.up || Lookup(w.entries, id).None?
    ensures Coherent(DeleteSpec(w, id).world)
  {
  }

  // ---------------------------------------------------------------- limits

  /** An invalidation lost to an outage leaves the old snapshot: once the cache is
      reachable again, GET serves the record as it was before the PUT. */
  lemma MissedInvalidationServesStale(w: World, id: string, body: Body, ttl: int)
    requires !w.up && id in w.rows && ValidUpdate(body) && !NoFields(body)
    requires CacheKey(id) in w.entries && w.entries[CacheKey(id)].Snapshot?
    requires w.entries[CacheKey(id)].product == w.rows[id]
    requires Patched(w.rows[id], body) != w.rows[id]
    ensures var s := PutSpec(w, id, body);
      && s.reply == Reply(200, Record(Patched(w.rows[id], body)))
      && GetSpec(s.world.(up := true), id, ttl).reply == Reply(200, Record(w.rows[id]))
      && GetSpec(s.world.(up := true), id, ttl).reply != Reply(200, Record(s.world.rows[id]))
  {
  }

  /** DELETE of an id the store no longer has leaves a stale snapshot in place, and
      GET keeps serving it. */
  lemma NotFoundDeleteKeepsStaleEntry(w: World, id: string, p: Product, t: int, ttl: int)
    requires w.up && id !in w.rows
    requires CacheKey(id) in w.entries && w.entries[CacheKey(id)] == Snapshot(p, t)
    ensures DeleteSpec(w, id) == Step(Reply(404, Message(NotFound)), w)
    ensures GetSpec(w, id, ttl).reply == Reply(200, Record(p))
  {
  }

  // ---------------------------------------------------------------- scenario

  /** The integration scenario: create, read (miss then fill), read (hit),
      partial update, read the new price, delete, read 404, delete again 404. */
  lemma Scenario(w: World, id: string, create: Body, update: Body, ttl: int)
    requires KeyedById(w.rows) && w.up && id !in w.rows && ValidCreate(create)
    requires ValidUpdate(update) && !NoFields(update)
    ensures var p := WithId(id, PayloadOf(create));
      var s1 := PostSpec(w, create, id);
      var s2 := GetSpec(s1.world, id, ttl);
      var s3 := GetSpec(s2.world, id, ttl);
      var s4 := PutSpec(s3.world, id, update);
      var s5 := GetSpec(s4.world, id, ttl);
      var s6 := DeleteSpec(s5.world, id);
      var s7 := GetSpec(s6.world, id, ttl);
      var s8 := DeleteSpec(s7.world, id);
      && s1.reply == Reply(201, Record(p)) && CacheKey(id) !in s1.world.entries
      && s2.reply == Reply(200, Record(p))
      && (ValidExpiry(ttl) ==> Lookup(s2.world.entries, id) == Some(p))
      && (!ValidExpiry(ttl) ==> CacheKey(id) !in s2.world.entries)
      && s3.reply == Reply(200, Record(p)) && s3.world == s2.world
      && s4.reply == Reply(200, Record(Patched(p, update))) && CacheKey(id) !in s4.world.entries
      && s5.reply == Reply(200, Record(Patched(p, update))) && (ValidExpiry(ttl) ==> Lookup(s5.world.entries, id) == Some(Patched(p, update)))
      && s6.reply == Reply(204, NoContent) && CacheKey(id) !in s6.world.entries
      && s7.reply == Reply(404, Message(NotFound))
      && s8.reply == Reply(404, Message(NotFound))
  {
  }

  /** The integration test's sequence, replayed through the handler methods with a
      reachable cache and the default TTL: only their contracts are used.
      `replies` holds the replies of the create, read, update, read, delete and
      read steps; `cached` says whether the id's key holds a value after each of
      the first five. */
  method CacheMissHitAndInvalidation(id: string) returns (replies: seq<Reply>, cached: seq<bool>)
    ensures |replies| == 6
    ensures replies[0] == Reply(201, Record(Product(id, "Test Product", "Test Description", 1999, 10)))
    ensures replies[1] == Reply(200, Record(Product(id, "Test Product", "Test Description", 1999, 10)))
    ensures replies[2] == Reply(200, Record(Product(id, "Test Product", "Test Description", 2999, 8)))
    ensures replies[3] == Reply(200, Record(Product(id, "Test Product", "Test Description", 2999, 8)))
    ensures replies[4] == Reply(204, NoContent)
    ensures replies[5] == Reply(404, Message(NotFound))
    ensures cached == [false, true, false, true, false]
  {
    var ttl := Config.DefaultCacheTtlSeconds;
    var store := new Store();
    var cache := new Cache(true);
    var reply := PostProduct(store, cache, Body(Some("Test Product"), Some("Test Description"), Some(1999), Some(10)), id);
    replies, cached := [reply], [CacheKey(id) in cache.entries];

    reply := GetProduct(store, cache, id, ttl);
    replies, cached := replies + [reply], cached + [CacheKey(id) in cache.entries];

    reply := PutProduct(store, cache, id, Body(None, None, Some(2999), Some(8)));
    replies, cached := replies + [reply], cached + [CacheKey(id) in cache.entries];

    reply := GetProduct(store, cache, id, ttl);
    replies, cached := replies + [reply], cached + [CacheKey(id) in cache.entries];

    reply := DeleteProduct(store, cache, id);
    replies, cached := replies + [reply], cached + [CacheKey(id) in cache.entries];

    reply := GetProduct(store, cache, id, ttl);
    replies := replies + [reply];
  }
}
