# Product API cache-aside model

A Dafny model of a small product CRUD service. The service keeps its
products in a SQLite table, which is authoritative. In front of the table
sits a best-effort Redis cache for reads by id. The protocol is cache-aside:

- a read asks the cache first;
- on a miss it reads the table and, when the product exists, writes it to the
  cache;
- every successful create, update or delete writes the table first and then
  deletes the product's cache key;
- a cache failure of any kind reads as a miss or is swallowed.

The model has these parts:

- `Config` (`config.dfy`): `parseBool` and the default settings.
- `Models` (`models.dfy`): the product record and the create and update
  schemas, stated as predicates.
- `Db` (`db.dfy`): `getDbPath`, the loop that builds the SET clause of an
  update, and a `Store` class that holds the table as a map from id to row.
- `CacheService` (`cache.dfy`): the key scheme, and a `Cache` class that holds
  the Redis key space as a map and a flag saying whether the server is
  reachable.
- `Routes` (`routes.dfy`): the four `/products` handlers, each a method over a
  `Store` and a `Cache` that returns a status and a body. Each method is
  proved equal to a pure step function (`PostSpec`, `GetSpec`, `PutSpec`,
  `DeleteSpec`) of the prior state.
- `RouteProperties` (`route_properties.dfy`): the protocol's properties, proved
  about those step functions. They cover no negative caching, a write
  leaving no cache entry, a hit bypassing the store, cache outages not
  changing any outcome, and a reachable cache staying coherent with the
  table. The module ends with a client method, `CacheMissHitAndInvalidation`.
  It replays the sequence of the integration test (tests/api.test.js:53-102)
  through the handler methods, using only their contracts, and returns the
  replies and whether the product's key was cached after each step.

Inputs the model takes as parameters:

- the id a new product gets (a uuid in the service);
- the TTL handed to the cache;
- whether the cache server is reachable;
- the raw environment variables.

## Model

| member | source | states |
|---|---|---|
| `Config.ParseBool` | src/config.js:5-10 | `parseBool(value, default)`: the default for an unset variable, otherwise whether the lower-cased value is one of the four truthy words. |
| `Config.ParseBoolUnset` | src/config.js:5-8 | An unset variable yields the default. |
| `Config.ParseBoolDefined` | src/config.js:9 | A set variable is true exactly when it spells one of "1", "true", "yes", "on" with capitals ignored, and the default then plays no part. |
| `Config.ParseBoolCaseInsensitive` | src/config.js:9 | A value and its lower-cased form give the same answer. |
| `Config.ToLowerIdempotent` | src/config.js:9 | Lower-casing twice is lower-casing once. |
| `Config.ToLower` | src/config.js:9 | The model's ASCII lowering keeps the length and lowers each character on its own. |
| `Config.ParseBoolExamples` | src/config.js:9 | "TRUE", "On", "Yes" and "1" give true; "false", "0" and "" give false, whatever the default. |
| `Config.SeedData` | src/config.js:17 | SEED_DATA: `parseBool` of the raw variable with default true. |
| `Config.DatabaseUrl` | src/config.js:16 | DATABASE_URL: the raw variable, or the default sqlite URL when it is unset or empty. |
| `Config.ConfigDefaults` | src/config.js:15-17 | SEED_DATA defaults to true and "false" turns it off. DATABASE_URL defaults to `sqlite:///./data/products.db`, also when empty. The TTL default is 3600. |
| `Config.DatabaseUrlNonEmpty` | src/config.js:16 | DATABASE_URL is never empty, so the empty-URL fallbacks of `getDbPath` (src/services/db.js:11, 21) never fire for a configured URL. |
| `Models.ValidCreate` | src/models/product.js:3-8 | The create schema: all four fields present, name and description non-empty, price positive, stock a non-negative integer. |
| `Models.ValidUpdate` | src/models/product.js:10-15 | The update schema: every field optional, and each present one within the same constraint as on create. |
| `Models.PayloadOf` | src/models/product.js:3-8 | A body accepted by the create schema carries all four fields, and the payload holds exactly them. |
| `Db.GetDbPath` | src/services/db.js:10-22 | `getDbPath`: strips the longest matching sqlite prefix (four slashes keep a leading `/`), maps the empty URL to `./data/products.db`, and returns any other URL unchanged. |
| `Db.GetDbPathAbsolute` | src/services/db.js:12-14 | `sqlite:////` + p gives `/` + p. |
| `Db.GetDbPathRelative` | src/services/db.js:12-17 | `sqlite:///` + p gives p, also when p starts with a slash and the four-slash branch fires. |
| `Db.GetDbPathBare` | src/services/db.js:12-20 | `sqlite://` + p gives p, except that a leading slash of p is consumed by a longer prefix, which is checked first. |
| `Db.GetDbPathPlain` | src/services/db.js:21 | A URL with no sqlite prefix is returned unchanged; the empty one becomes `./data/products.db`. |
| `Db.DefaultDatabasePath` | src/services/db.js:15-17 | The default DATABASE_URL maps to `./data/products.db`. |
| `Db.SetClause` | src/services/db.js:143-152 | The loop lists exactly the supplied columns among name, description, price and stock_quantity, in that order, each paired with its supplied value. |
| `Db.AssignAt` | src/services/db.js:158-162 | The UPDATE sets each listed column to its supplied value, keeps every other column, and keeps the id. |
| `Db.Assign` | src/services/db.js:158-162 | The UPDATE statement: the listed columns are set to their values, one after another, on the matched row. |
| `Db.AssignIsPatch` | src/services/db.js:147-162 | The UPDATE built from the loop's lists equals the reference partial update `Patched`. |
| `Db.PatchedKeepsValidity` | src/services/db.js:142-168 | A partial update that passes the update schema keeps a valid row valid and keeps its id. |
| `Db.Samples` | src/services/db.js:85-107 | The three seed products carry the given ids and satisfy the schema constraints. |
| `Db.SampleTable` | src/services/db.js:109-120 | After n inserts the table holds exactly the first n sample ids, each row under its own id. |
| `Db.Store.constructor` | src/services/db.js:63-73 | A fresh database file starts with an empty table. |
| `Db.Store.Insert` | src/services/db.js:125-128 | An INSERT adds the row under its id; an id already present is rejected and the table is unchanged. |
| `Db.Store.Create` | src/services/db.js:123-133 | `createProduct` stores `{id, ...payload}` under a fresh id, returns it, and changes no other row; a taken id fails. |
| `Db.Store.Get` | src/services/db.js:135-140 | `getProduct` returns the stored row for a present id and nothing for an absent one. |
| `Db.Store.Update` | src/services/db.js:142-169 | No supplied field, or an absent id, returns nothing and leaves the table unchanged. Otherwise exactly the supplied fields change, the id and the omitted fields keep their values, and the new row is returned. |
| `Db.Store.Delete` | src/services/db.js:171-174 | The result is true iff the id was present; afterwards it is absent and nothing else changed. |
| `Db.Store.SeedIfEmpty` | src/services/db.js:75-121 | With seeding off or a non-empty table, nothing changes. Otherwise exactly the three samples are inserted; a duplicate id makes an insert fail, and the samples inserted before it stay (one when the first two ids clash, two otherwise). |
| `CacheService.CacheKey` | src/services/cache.js:7-9 | The key is `product:` followed by the id, so the id can be read back from it. |
| `CacheService.CacheKeyInjective` | src/services/cache.js:7-9 | Two ids share a key only if they are equal. |
| `CacheService.ReadHit` | src/services/cache.js:32-50 | What `getProductFromCache` returns: the snapshot under the id's key on a reachable server, nothing for a missing, empty or unparseable value or an unreachable server. |
| `CacheService.AfterRead` | src/services/cache.js:40-44 | The key space after a read: a reachable server loses a non-empty unparseable value under the id's key; nothing else changes. |
| `CacheService.AfterSet` | src/services/cache.js:52-63 | The key space after `setProductInCache`: the snapshot under the product's key when the server is reachable and the expiry positive; otherwise unchanged. |
| `CacheService.AfterInvalidate` | src/services/cache.js:65-72 | The key space after `invalidateProductCache`: the id's key removed when the server is reachable; otherwise unchanged. |
| `CacheService.ReadMissing` | src/services/cache.js:36-39 | Reading a key with no value yields a miss and changes nothing. |
| `CacheService.ReadCorrupt` | src/services/cache.js:37-45 | Reading an unparseable value yields a miss; a non-empty one is deleted, and no other key changes. |
| `CacheService.UnreachableIsNoOp` | src/services/cache.js:46-49 | An unreachable server reads as a miss, and failed sets and deletes are swallowed without changing anything. |
| `CacheService.SetThenRead` | src/services/cache.js:52-62 | After a set with a positive expiry, reading the product's id yields the product; a set with any other expiry is rejected and changes nothing; no other key ever changes. |
| `CacheService.InvalidateRemoves` | src/services/cache.js:65-68 | After a successful invalidation the id's key is gone and every other key is as before. |
| `CacheService.Cache.constructor` | src/services/cache.js:11-30 | A new key space is empty, behind a server that is or is not reachable. |
| `CacheService.Cache.Get` | src/services/cache.js:32-50 | `getProductFromCache` never fails: it returns the parsed snapshot or nothing, and purges a corrupt value only when the server is reachable. |
| `CacheService.Cache.Set` | src/services/cache.js:52-63 | `setProductInCache` writes the snapshot under the product's key when the server is reachable and the expiry positive, and otherwise changes nothing. |
| `CacheService.Cache.Invalidate` | src/services/cache.js:65-72 | `invalidateProductCache` deletes the id's key when reachable, and otherwise changes nothing. |
| `Routes.PostSpec` | src/routes/products.js:16-29 | POST: 400 for an invalid body, 500 for an id the INSERT rejects, otherwise 201 with the new row stored and the new id's key invalidated. |
| `Routes.GetSpec` | src/routes/products.js:31-48 | GET: a cache hit answers 200 from the cache; on a miss a stored row answers 200 and is written to the cache, an absent one answers 404 and nothing is cached. |
| `Routes.PutSpec` | src/routes/products.js:50-70 | PUT: 400 for an invalid body or one with no field, 404 for an absent id, otherwise 200 with the patched row stored and the id's key invalidated. |
| `Routes.DeleteSpec` | src/routes/products.js:72-83 | DELETE: 404 for an absent id with nothing touched, otherwise 204 with the row removed and the id's key invalidated. |
| `Routes.PostProduct` | src/routes/products.js:16-29 | The POST handler's reply and the new table and cache are those of `PostSpec`; the store stays keyed by id. |
| `Routes.GetProduct` | src/routes/products.js:31-48 | The GET handler's reply and the new cache are those of `GetSpec`; it never writes the table. |
| `Routes.PutProduct` | src/routes/products.js:50-70 | The PUT handler's reply and the new table and cache are those of `PutSpec`. |
| `Routes.DeleteProduct` | src/routes/products.js:72-83 | The DELETE handler's reply and the new table and cache are those of `DeleteSpec`. |
| `RouteProperties.PostRejectsInvalid` | src/routes/products.js:19-22 | An invalid payload gives 400 and changes neither store nor cache. |
| `RouteProperties.PostCreates` | src/routes/products.js:24-27 | A valid payload gives 201 with `{id, ...payload}`, which is stored. A reachable cache holds no entry for the new id, and no other key changed. |
| `RouteProperties.PostDuplicateFails` | src/app.js:16-23 | An insert the table rejects gives 500 and changes nothing. |
| `RouteProperties.GetHitBypassesStore` | src/routes/products.js:35-38 | A cache hit gives 200 with the cached record, changes nothing, and gives the same reply whatever the table holds. |
| `RouteProperties.NoNegativeCaching` | src/routes/products.js:40-43 | GET gives 404 iff the cache misses and the id is not stored. After a 404 the cache gained nothing, and a reachable one holds no snapshot for the id. |
| `RouteProperties.GetMissFills` | src/routes/products.js:40-46 | With a reachable cache, a miss on a stored id gives 200 with the stored row. With a positive TTL the cache then holds that row under the id's key; with any other the id still misses. |
| `RouteProperties.GetIdempotent` | src/routes/products.js:31-48 | Repeating a GET gives the same reply and the same state. |
| `RouteProperties.SecondReadIsHit` | src/routes/products.js:35-46 | After a successful GET against a reachable cache that was a hit or filled with a positive TTL, the next GET of the id is a cache hit with the identical reply. |
| `RouteProperties.PutRejects` | src/routes/products.js:53-65 | An invalid body or one with no field gives 400. An absent id gives 404. None of these touches the store or the cache. |
| `RouteProperties.PutInvalidates` | src/routes/products.js:62-68 | A successful PUT changes only the supplied fields and gives 200 with the new row, whether or not the cache is reachable. With a reachable cache it leaves no cache entry for the id, and the next GET returns the new row. |
| `RouteProperties.DeleteInvalidates` | src/routes/products.js:75-81 | DELETE gives 204 iff the id was stored, and the id is then absent, whether or not the cache is reachable. With a reachable cache a deleted id has no cache entry and GET gives 404. An absent id touches nothing. |
| `RouteProperties.DeleteTwice` | src/services/db.js:171-174 | A second DELETE of the same id gives 404 and changes nothing. |
| `RouteProperties.PostIgnoresOutage` | src/services/cache.js:69-71 | With the cache unreachable, POST gives the same reply and table as with a reachable, empty cache. |
| `RouteProperties.GetIgnoresOutage` | src/services/cache.js:46-49 | With the cache unreachable, GET gives the same reply as with a reachable, empty cache, and changes nothing. |
| `RouteProperties.PutIgnoresOutage` | src/services/cache.js:69-71 | With the cache unreachable, PUT gives the same reply and table as with a reachable, empty cache. |
| `RouteProperties.DeleteIgnoresOutage` | src/services/cache.js:69-71 | With the cache unreachable, DELETE gives the same reply and table as with a reachable, empty cache. |
| `RouteProperties.HandlersKeepConsistency` | src/models/product.js:3-15 | Every handler keeps each row under its own id and keeps every row within the schema constraints. |
| `RouteProperties.CoherentReadsAgree` | src/routes/products.js:35-46 | When every snapshot equals its current row, GET answers exactly what the table holds. |
| `RouteProperties.GetKeepsCoherence` | src/routes/products.js:40-46 | A GET keeps every snapshot equal to its current row. |
| `RouteProperties.PostKeepsCoherence` | src/routes/products.js:24-25 | A POST keeps every snapshot equal to its current row, even with the cache unreachable. |
| `RouteProperties.PutKeepsCoherence` | src/routes/products.js:62-67 | A PUT keeps every snapshot equal to its current row when its invalidation reaches the cache. |
| `RouteProperties.DeleteKeepsCoherence` | src/routes/products.js:75-80 | A DELETE keeps every snapshot equal to its current row when its invalidation reaches the cache. |
| `RouteProperties.MissedInvalidationServesStale` | src/services/cache.js:65-71 | An invalidation lost to an outage leaves the old snapshot. Once the cache is back, GET serves the pre-update row, which differs from the table's. |
| `RouteProperties.NotFoundDeleteKeepsStaleEntry` | src/routes/products.js:75-78 | DELETE of an id the table lacks gives 404 and leaves a stale snapshot, which GET keeps serving. |
| `RouteProperties.Scenario` | tests/api.test.js:53-102 | With a reachable cache: create (201, no cache entry). Read (200, filled when the TTL is positive), read again (same reply and state). Update (200, entry gone). Read (new values, filled again when the TTL is positive). Delete (204, entry gone). Read (404), delete again (404). |
| `RouteProperties.CacheMissHitAndInvalidation` | tests/api.test.js:53-102 | Through the handler methods, with the default TTL: the replies are 201, 200, 200 with price and stock updated, 200 with the new values, 204 and 404, and the id's key is absent, present, absent, present, absent after the first five steps. |

## Left out

- The sqlite3 driver, its Promise wrappers, the lazy connection, directory creation and the CREATE TABLE statement (src/services/db.js:24-73). They are I/O; the table is a map. A database file that already holds rows is modelled by the store's state, not by the constructor, which stands for a fresh file.
- Store I/O failures other than a rejected INSERT. A failing disk or connection is not part of the state.
- The Redis client lifecycle and its error events (src/services/cache.js:11-30). They are reduced to the reachable flag. A partial failure, such as a GET that succeeds and a DEL that fails, is not modelled; a reachable server runs every command, except that it rejects a SETEX whose expiry is not positive.
- TTL expiry. The TTL is recorded on the snapshot but no clock runs. The staleness windows shown by `RouteProperties.MissedInvalidationServesStale` and `RouteProperties.NotFoundDeleteKeepsStaleEntry` end at expiry in the service and last forever here.
- JSON encoding. A stored value is either a snapshot that parses back to the same product or a string that does not parse.
- Concurrency between requests, including a read that refills the cache between a write and its invalidation. Each handler runs to completion on its own.
- uuid generation. The new id is a parameter. A collision with a stored id is modelled as the rejected INSERT; a collision among the three seed ids is modelled as the seed failing.
- The zod schemas are stated as predicates over a typed body. Bodies with wrong JSON types and unknown keys that zod strips are not modelled. Validation error details are left out of the 400 reply.
- `price` is a JavaScript number and is modelled as an integer (a count of cents, such as 2499 for 24.99). Float rounding is not modelled.
- `Config.ToLower`: lowers ASCII capitals only. No other Unicode character lower-cases into one of the accepted words, so `parseBool` gives the same answers.
- `Number(...)` parsing of API_PORT, REDIS_PORT and CACHE_TTL_SECONDS (src/config.js:12-15), and the Redis host and port settings. The TTL is a parameter of GET and an integer: a fractional or NaN CACHE_TTL_SECONDS, which Redis also rejects, is not modelled.
- The Express app, the health route, the error middleware beyond the 500 reply, and process start-up (src/app.js, src/index.js).
