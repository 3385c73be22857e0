/** The `/products` handlers (src/routes/products.js) with Express stripped away:
    each handler is a method over the store and the cache that returns a status
    and a body, and is proved against a pure function of the prior state. */
module Routes {
  import opened Wrappers
  import opened Models
  import opened Db
  import opened CacheService

  /** What a handler sends back. */
  datatype Content = Record(product: Product) | Message(text: string) | NoContent
  datatype Reply = Reply(status: int, content: Content)

  const InvalidPayload: string := "Invalid payload"
  const FieldRequired: string := "At least one field must be provided"
  const NotFound: string := "Product not found"
  /** Sent by the error middleware for any error a handler throws. */
  const InternalError: string := "Internal server error"

  /** The state a handler sees: the table, the cache key space, and whether
      the cache server is reachable. */
  datatype World = World(rows: map<string, Product>, entries: map<string, Entry>, up: bool)

  /** A reply together with the state it leaves behind. */
  datatype Step = Step(reply: Reply, world: World)

  /** POST /products: validate, insert, then invalidate the new id's key. */
  function PostSpec(w: World, body: Body, newId: string): Step {
    if !ValidCreate(body) then Step(Reply(400, Message(InvalidPayload)), w)
    else if newId in w.rows then Step(Reply(500, Message(InternalError)), w)
    else
      var p := WithId(newId, PayloadOf(body));
      Step(Reply(201, Record(p)), World(w.rows[newId := p], AfterInvalidate(w.entries, w.up, newId), w.up))
  }

  /** GET /products/:id: a cache hit is answered directly; on a miss the store is
      asked, a found record is written to the cache, and not-found is not cached. */
  function GetSpec(w: World, id: string, ttl: int): Step {
    var cached := ReadHit(w.entries, w.up, id);
    var entries := AfterRead(w.entries, w.up, id);
    if cached.Some? then Step(Reply(200, Record(cached.value)), w.(entries := entries))
    else if id !in w.rows then Step(Reply(404, Message(NotFound)), w.(entries := entries))
    else Step(Reply(200, Record(w.rows[id])), w.(entries := AfterSet(entries, w.up, w.rows[id], ttl)))
  }

  /** PUT /products/:id: validate, require a field, update the store, then
      invalidate; an unknown id leaves the cache alone. */
  function PutSpec(w: World, id: string, body: Body): Step {
    if !ValidUpdate(body) then Step(Reply(400, Message(InvalidPayload)), w)
    else if NoFields(body) then Step(Reply(400, Message(FieldRequired)), w)
    else if id !in w.rows then Step(Reply(404, Message(NotFound)), w)
    else
      var p := Patched(w.rows[id], body);
      Step(Reply(200, Record(p)), World(w.rows[id := p], AfterInvalidate(w.entries, w.up, id), w.up))
  }

  /** DELETE /products/:id: delete from the store, and invalidate only when a row
      was removed. */
  function DeleteSpec(w: World, id: string): Step {
    if id !in w.rows then Step(Reply(404, Message(NotFound)), w)
    else Step(Reply(204, NoContent), World(w.rows - {id}, AfterInvalidate(w.entries, w.up, id), w.up))
  }

  /** The state held by a store and a cache object. */
  function WorldOf(store: Store, cache: Cache): World
    reads store, cache
  {
    World(store.rows, cache.entries, cache.up)
  }

  /** POST /products. `newId` is the uuid `createProduct` draws; an insert the
      table rejects surfaces as a thrown error, answered with 500. */
  method PostProduct(store: Store, cache: Cache, body: Body, newId: string) returns (reply: Reply)
    requires store.Valid()
    modifies store, cache
    ensures store.Valid()
    ensures Step(reply, WorldOf(store, cache)) == PostSpec(old(WorldOf(store, cache)), body, newId)
  {
    if !ValidCreate(body) {
      return Reply(400, Message(InvalidPayload));
    }
    var created := store.Create(newId, PayloadOf(body));
    if created.Failure? {
      return Reply(500, Message(InternalError));
    }
    var product := created.value;
    cache.Invalidate(product.id);
    return Reply(201, Record(product));
  }

  /** GET /products/:id with the configured TTL. It never writes the store. */
  method GetProduct(store: Store, cache: Cache, id: string, ttl: int) returns (reply: Reply)
    modifies cache
    ensures Step(reply, WorldOf(store, cache)) == GetSpec(old(WorldOf(store, cache)), id, ttl)
  {
    var cached := cache.Get(id);
    if cached.Some? {
      return Reply(200, Record(cached.value));
    }
    var product := store.Get(id);
    if product.None? {
      return Reply(404, Message(NotFound));
    }
    cache.Set(product.value, ttl);
    return Reply(200, Record(product.value));
  }

  /** PUT /products/:id. */
  method PutProduct(store: Store, cache: Cache, id: string, body: Body) returns (reply: Reply)
    requires store.Valid()
    modifies store, cache
    ensures store.Valid()
    ensures Step(reply, WorldOf(store, cache)) == PutSpec(old(WorldOf(store, cache)), id, body)
  {
    if !ValidUpdate(body) {
      return Reply(400, Message(InvalidPayload));
    }
    if NoFields(body) {
      return Reply(400, Message(FieldRequired));
    }
    var product := store.Update(id, body);
    if product.None? {
      return Reply(404, Message(NotFound));
    }
    cache.Invalidate(id);
    return Reply(200, Record(product.value));
  }

  /** DELETE /products/:id. */
  method DeleteProduct(store: Store, cache: Cache, id: string) returns (reply: Reply)
    requires store.Valid()
    modifies store, cache
    ensures store.Valid()
    ensures Step(reply, WorldOf(store, cache)) == DeleteSpec(old(WorldOf(store, cache)), id)
  {
    var deleted := store.Delete(id);
    if !deleted {
      return Reply(404, Message(NotFound));
    }
    cache.Invalidate(id);
    return Reply(204, NoContent);
  }
}
