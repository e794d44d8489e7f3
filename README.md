# Property listing API: response cache, invalidation and query processing

A Dafny model of the response cache of a property-listing backend (Express
with Redis and MongoDB), and of the controller code around it:

- `middleware/cache.js`: the read-through cache. The key of a request is
  `cache:` followed by its original URL. A truthy stored value is parsed and
  answered without running the route handler. On a miss, `res.send` is
  wrapped so that a 200 body is written back with `SETEX key expiry body`.
  A fault of the store or of `JSON.parse` falls through to the handler.
- `controllers/propertyController.js`:
  - `invalidateCache(patterns)` deletes the keys matching the glob
    `cache:${patterns}*`. The template literal turns the array into its
    comma-joined text, so all patterns become one prefix.
  - `updateProperty` checks validation (400), existence (404) and ownership
    (403), in that order. It then invalidates the cache, assigns the body
    and saves.
  - `createProperty` and `deleteProperty` never touch the cache.
  - `advancedFilter` turns the query string into a filter, a sort, a
    projection, a page, a skip and a limit.

The files:

| file | contents |
|---|---|
| `wrappers.dfy` | `Option` and `Result` |
| `store.dfy` | the key/value store: a state with per-key expiry and a clock, its pure operations, and a `Store` class whose methods log the commands they issue |
| `cache.dfy` | the key scheme, `ServeSpec` (one request as a function of the store state), its lemmas, and the `Reply`/`CacheMiddleware` classes proved against `ServeSpec` |
| `js_strings.dfy` | `Array.prototype.join` and `String.prototype.split` with a one-character separator |
| `invalidation.dfy` | `invalidateCache` as written, what its prefix misses, and the corrected per-prefix invalidation |
| `property_handlers.dfy` | the create, update and delete handlers |
| `advanced_filter.dfy` | the parameter processing of `advancedFilter`, with the operator rewrite and `parseInt` |

The store is pure state plus a command log (`Store.issued`). Nothing in the
model performs I/O. `JSON.parse` of a cached value and `JSON.stringify` of
the query are function parameters of the members that use them.

Points of the code the model keeps as written:

- `invalidateCache` receives an array, and the comma join puts all its
  patterns into one prefix (see Findings).
- Only `updateProperty` invalidates, and it does so before the save: a
  failing save still leaves the cache invalidated. `createProperty` and
  `deleteProperty` leave cached reads in place.
- `PropertyHandlers.UpdateProperty` models the invalidation as written. The
  corrected invalidation (`Invalidation.InvalidateEach`) stands beside it.
- The routes cache with an expiry of 600 seconds
  (`routes/propertyRoutes.js:11,13`); the middleware's own default is 3600
  seconds.

## Model

| member | source | states |
|---|---|---|
| KeyValueStore.WrittenThenRead | middleware/cache.js:14 | a SETEX with a positive TTL on a reachable store is read back unchanged until the TTL has run out, and reads as nil from then on |
| KeyValueStore.WrittenKeepsOtherKeys | middleware/cache.js:14 | a SETEX changes no other key |
| KeyValueStore.Store.Get | middleware/cache.js:7 | GET answers the live value, nil for a missing or expired key, or a fault when the store is unreachable; it changes nothing and logs one GET |
| KeyValueStore.Store.SetEx | middleware/cache.js:14 | SETEX stores the value with an expiry of now + ttl, stores nothing when ttl ≤ 0 or the store is down, and logs one SETEX |
| KeyValueStore.Store.KeysWithPrefix | controllers/propertyController.js:97 | KEYS `prefix*` answers exactly the live keys starting with the prefix (None when the store is down), changes nothing, and logs the glob |
| KeyValueStore.Store.Del | controllers/propertyController.js:99 | DEL removes exactly the given keys when the store is reachable, and reports whether it was |
| Cache.CacheKey | middleware/cache.js:5 | the key of a request is `cache:` followed by its original URL, verbatim |
| Cache.CacheKeyInjective | middleware/cache.js:5 | two requests share a cache key if and only if their original URLs are equal |
| Cache.ServeSpec | middleware/cache.js:4-23 | one request as a function of the store state: without the handler the answer is a 200 and the store is untouched; with it, the handler's response is returned; a write-back happens exactly when the read was neither a fault nor truthy and the handler answered 200 |
| Cache.HitAnswersFromStore | middleware/cache.js:7-10 | on a hit the client gets status 200 and the parsed stored value; the handler does not run and the store is not written |
| Cache.HandlerRunsIffNotHit | middleware/cache.js:8-21 | the handler runs exactly when the request is not a hit, and then its response reaches the client unchanged |
| Cache.EmptyValueIsMiss | middleware/cache.js:8 | a nil or empty stored value is a miss; it is written back exactly when the handler answers 200 |
| Cache.OnlySuccessIsStored | middleware/cache.js:12-15 | only a 200 response is written back, under the request's key, with the configured expiry and the exact body sent; no other key, the clock and the connection are untouched |
| Cache.MissWithSuccessStores | middleware/cache.js:11-18 | a miss on a reachable store followed by a 200 response leaves the body readable under the request's key |
| Cache.StoreFaultFallsThrough | middleware/cache.js:19-22 | a store fault on the read runs the handler, returns its response, and writes nothing |
| Cache.ParseFaultFallsThrough | middleware/cache.js:9-21 | a stored value that does not parse runs the handler and writes nothing |
| Cache.SecondRequestHits | middleware/cache.js:5-18 | after a successful miss, the same URL requested before the expiry is answered with the first body, and the handler does not run |
| Cache.ExpiredEntryMisses | middleware/cache.js:14 | once the expiry has run out, the same URL runs the handler again |
| Cache.FailureIsNotServedLater | middleware/cache.js:13-15 | a non-200 response is never served from the store to the next request |
| Cache.Reply.Send | middleware/cache.js:12-17 | the wrapped `send` delivers the body, and writes it back with SETEX only when the status is 200 |
| Cache.CacheMiddleware.constructor | middleware/cache.js:3 | `cacheMiddleware(expiry)` binds the expiry, 3600 by default, and the store client |
| Cache.CacheMiddleware.RunHandler | middleware/cache.js:18 | `next()`: the handler sets its status and sends its body through the current `send` |
| Cache.CacheMiddleware.Serve | middleware/cache.js:4-23 | one request: the status, the delivered body, the handler runs, the new store state and the exact GET/SETEX commands are those of `ServeSpec`; the write-back `send` is installed exactly on a miss that is not a fault |
| Invalidation.InvalidationPrefix | controllers/propertyController.js:97 | the prefix of the KEYS glob is `cache:` followed by the comma-joined patterns; a single pattern gives the ordinary cache key of that pattern |
| Invalidation.Invalidated | controllers/propertyController.js:97-100 | the store after invalidation: only removals, of live keys with the prefix; clock and connection unchanged; a store that is down is left as it was |
| Invalidation.InvalidatedClearsPrefix | controllers/propertyController.js:97-100 | after invalidation no key with the prefix can be read, every other key reads as before, and the clock and connection are unchanged |
| Invalidation.InvalidatedAddsNothing | controllers/propertyController.js:97-100 | invalidation never makes a key readable |
| Invalidation.InvalidationForcesMiss | controllers/propertyController.js:95-104 | after invalidation, a request whose key has the prefix runs the handler |
| Invalidation.InvalidateCache | controllers/propertyController.js:95-104 | `invalidateCache` leaves the store in the invalidated state; it issues KEYS with the comma-joined glob, then DEL of exactly the matched keys when there are any; a store fault is swallowed |
| Invalidation.UpdatePrefixIsCommaJoined | controllers/propertyController.js:169-172 | the update's two patterns become the single prefix `cache:/properties/<id>,/properties` |
| Invalidation.UpdatePrefixMissesMountedReads | index.js:16 | no cached read under the `/api/` mount matches the update's prefix |
| Invalidation.UpdatePrefixMissesUnmountedRead | controllers/propertyController.js:169-172 | the prefix does not match even the unmounted key `cache:/properties/<id>` |
| Invalidation.StaleReadSurvivesUpdate | controllers/propertyController.js:169-172 | a cached read of `/api/properties/<id>` that was a hit before the update's invalidation is still a hit afterwards, with the same response |
| Invalidation.InvalidatedEachClears | controllers/propertyController.js:169-172 | invalidating by several prefixes one at a time leaves no key matching any of them readable |
| Invalidation.InvalidatedEachKeepsMissing | controllers/propertyController.js:169-172 | a key that cannot be read stays so through any number of invalidations |
| Invalidation.InvalidateEach | controllers/propertyController.js:169-172 | the corrected invalidation loops KEYS/DEL over each prefix and reaches `InvalidatedEach` |
| Invalidation.IntendedInvalidationClearsReads | controllers/propertyController.js:169-172 | with the corrected prefixes, every cached read under `/api/properties` is a miss after an update |
| PropertyHandlers.CreateProperty | controllers/propertyController.js:115-129 | invalid body → 400; failing save → 400; otherwise 201 with the body and the caller as owner; no cache access |
| PropertyHandlers.UpdateProperty | controllers/propertyController.js:153-181 | the checks in order: validation 400, lookup error 400, missing 404, no owner 400, not the owner 403. When all pass: the cache is invalidated before the save, with the KEYS and DEL commands of `invalidateCache`, the body is assigned onto the document, and the reply is 200 with the document or 400 on a failing save. A rejected update leaves store, command log and document unchanged |
| PropertyHandlers.DeleteProperty | controllers/propertyController.js:184-196 | lookup error 500, missing 404, no owner 500, not the owner 403, then 200 or 500 from the removal; no cache access |
| JsStrings.Join | controllers/propertyController.js:97 | `parts.join(sep)`, also what the template literal does to an array with a comma; the result starts with the first part |
| JsStrings.Split | controllers/propertyController.js:223 | `s.split(sep)` for a one-character separator: the pieces between separators, at least one |
| JsStrings.JoinSplit | controllers/propertyController.js:223 | joining a split with the same separator gives the text back |
| JsStrings.SplitPartsLackSeparator | controllers/propertyController.js:223 | no piece of a split contains the separator |
| JsStrings.SplitCount | controllers/propertyController.js:223 | a split has one piece more than the text has separators |
| JsStrings.SplitJoinReplaces | controllers/propertyController.js:239 | `split(',').join(' ')` replaces every comma by a space and keeps every other character |
| AdvancedFilter.RemoveControlKeys | controllers/propertyController.js:201-203 | the copy of the query without `page`, `sort`, `limit`, `fields` and `search`, with every other value unchanged |
| AdvancedFilter.RewriteOperators | controllers/propertyController.js:207 | the global replace of the whole words `gte`, `gt`, `lte` and `lt`: each maximal word run equal to an operator gets a `$` in front; the text never gets shorter |
| AdvancedFilter.NoBareOperatorAtStart | controllers/propertyController.js:207 | the rewritten text never starts with an operator word lacking its `$` |
| AdvancedFilter.EveryOperatorMarked | controllers/propertyController.js:207 | at every position of the rewritten text where a whole operator word starts, a `$` stands right in front of it |
| AdvancedFilter.RestoreRewrite | controllers/propertyController.js:207 | the operator rewrite only inserts `$` signs: dropping them restores the serialised filter |
| AdvancedFilter.RewriteLength | controllers/propertyController.js:207 | the rewrite adds exactly one character per whole-word `gte`, `gt`, `lte` or `lt` |
| AdvancedFilter.RewriteWithoutOperators | controllers/propertyController.js:207 | text without operator words is left as it is |
| AdvancedFilter.OrderSpec | controllers/propertyController.js:238-251 | a truthy string parameter gives its text with commas turned into spaces; a falsy one gives the default; an array or object throws a `split` error naming the parameter |
| AdvancedFilter.ParseInt | controllers/propertyController.js:254-255 | `parseInt(text, 10)`: leading white space, an optional sign and the longest run of digits; NaN exactly when no digit follows the white space and sign |
| AdvancedFilter.ToJsString | controllers/propertyController.js:254-255 | `String(value)` as `parseInt` applies it: a string is itself, an empty array is `""`, a one-element array prints as its element, arrays join with commas, objects print as `[object Object]` |
| AdvancedFilter.ParseIntReadsDecimal | controllers/propertyController.js:254-255 | `parseInt` reads back a signed decimal number after leading white space and before any text that does not start with a digit |
| AdvancedFilter.DecimalValueOfText | controllers/propertyController.js:254-255 | the decimal digits of a number have that number as their value |
| AdvancedFilter.IntParam | controllers/propertyController.js:254-255 | `parseInt(x, 10)`, or the default when that is falsy: absent, NaN and 0 give the default, any other parse gives the parsed number |
| AdvancedFilter.CeilDiv | controllers/propertyController.js:269 | `Math.ceil(total / limit)` is the least page count covering `total`, for either sign of the limit |
| AdvancedFilter.Summary | controllers/propertyController.js:264-271 | the reply summary carries the result count, total and page, and enough pages to cover the total |
| AdvancedFilter.AddListClauses | controllers/propertyController.js:221-225 | a truthy `amenities` or `tags` gets an `$all` clause of its comma-split text; earlier clauses are kept; an array or object value throws and names the parameter |
| AdvancedFilter.BuildFilter | controllers/propertyController.js:200-232 | the filter: the rewritten serialised query without control keys, plus exactly the `$or`, `$all` and `availableFrom` clauses of the truthy parameters; throws exactly when a list parameter is not a string |
| AdvancedFilter.AdvancedFilter | controllers/propertyController.js:198-258 | fails (400) exactly when `amenities`, `tags`, `sort` or `fields` is an array or object; otherwise the filter, sort, projection, page, limit and skip = (page − 1) × limit follow the steps above |

## Left out

- I/O: the connection to Redis, logging and the Express request cycle are
  left out. Store faults are a boolean of the store state, and the clock is
  advanced explicitly.
- The order of asynchronous effects is left out. The write-back `SETEX` is
  not awaited in the source; the model applies it before `send` returns.
  Races between concurrent requests are not modelled.
- Glob metacharacters (`*`, `?`, `[`) inside a KEYS pattern are treated as
  literal text. The prefix is matched as plain characters.
- KeyValueStore.Store.KeysWithPrefix: KEYS of a store that is down answers
  None. The source's partial failures (a KEYS that succeeds, then a DEL that
  throws) become a single fault state.
- `JSON.parse` of a cached value, and the re-serialisation by `res.json`,
  are the function parameter `parse`. `JSON.stringify` of the query is the
  parameter `stringify`. The filter's base is kept as the text
  `JSON.parse` would receive.
- The Mongoose query is not executed: the `$regex` matching, the `Date`
  conversion, the database's handling of a negative skip and the
  `countDocuments` total are left out. `Summary` takes the total and the
  result count as inputs.
- `getAllProperties` and `getPropertyById` are the handler's response
  behind the cache (`Cache.Response`), not separate members.
- The validation chain of express-validator is a boolean `valid`. The save,
  lookup and removal are boolean or `FindResult` parameters. A thrown
  error's message is not modelled.
- Ownership is the `createdBy` field compared as a string. A document
  without one throws, and answers 400 (update) or 500 (delete).
- `parseInt` on a result beyond 2^53 loses precision in JavaScript but is
  exact here. `Math.ceil` on floating point is integer ceiling division,
  and a limit of 0 cannot occur because `|| 100` replaces it.
- The parameter `parse` decides both whether a stored value parses and
  what `res.json` sends back for it; the two are not separated.
- `handleValidationErrors`'s list of messages is `ValidationErrors`,
  without its contents.

## Findings

| source | as written | input that shows it | evidently intended | confidence | as-written member | corrected member |
|---|---|---|---|---|---|---|
| controllers/propertyController.js:97 and :169-172 | `invalidateCache` interpolates the array of patterns into one glob, `cache:/properties/<id>,/properties*`; the cached reads live under `cache:/api/properties...` | id `42`: the update deletes by the prefix `cache:/properties/42,/properties`, but the cached read of `/api/properties/42` has the key `cache:/api/properties/42`; it survives and is served stale | delete by each prefix separately, with the mount path: `cache:/api/properties/42` and `cache:/api/properties` | high, not executed | Invalidation.StaleReadSurvivesUpdate | Invalidation.IntendedInvalidationClearsReads |
