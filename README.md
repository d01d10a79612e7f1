# cacheMW — a verified model of the weather relay's response cache

The relay (`index.js`) forwards weather lookups to upstream APIs and puts a
response cache in front of its `/weather` route. The cache is the middleware
`cacheMW(duration)` (index.js:45-65) over one process-wide node-cache store,
`nCache` (index.js:7-8). This project models that middleware and the store,
and proves what they do:

- **Key deriver** (`CacheKey`). `req.originalUrl.split('&id')[0]` is cut at
  the first raw occurrence of the text `&id`, including inside `&idx=`. The
  result is prefixed with `"__express__"`. The expression is
  `"__express__" + oUrl || rUrl`, and `+` binds tighter than `||`. The left
  operand is therefore never empty, and `req.url` never reaches the key. The
  model writes the `||` out (`JsValues.Or`) and proves the fallback dead.
- **Cache store** (`NodeCache`). A class `Store` holds a
  `map<string, Entry>` and an explicit clock `now` in seconds. An entry set at
  `now` with TTL `ttl` is returned while `now' < now + ttl`. A TTL of 0 never
  expires, which is node-cache's convention. `get` deletes an expired entry it
  reads. Pure functions (`Lookup`, `Put`, `Evicted`) specify the methods.
- **Hit and miss** (`CacheMiddleware`). A class `Response` holds the `send`
  slot, the saved `sendResponse`, whether the headers have gone out, and the
  bodies delivered to the client. `Handle` is the middleware. On a truthy
  stored value it sends that value and returns without calling `next()`.
  Otherwise it saves `res.send`, installs the caching wrapper and calls
  `next()`. The downstream handler is abstract: it is the sequence of bodies
  it passes to `res.send` (`RunHandler`). Express's own send delivers only
  once; a later call throws, which ends the handler. The wrapped `send` is a
  separate method, so sends of different requests can be interleaved over
  one store, with the clock moving between them.
- **The `/weather` route** (`WeatherRoute`). The route mounts `cacheMW(600)`.
  Its handler sends either the weather payload or `"Unauthorized."`, and both
  go through the wrapper.

`Serve` is a pure function for one request served without interruption: the
middleware at time `now`, then the handler's sends `wait` seconds later.
`ServeRequest` runs the objects and is proved equal to it. Most lemmas are
stated over `Serve`.

Three details of the code shape the model:

- The `req.url` fallback at index.js:49 is unreachable, so `req.url` never
  affects the key (`Key`, `KeyIgnoresUrl`).
- The wrapper at index.js:57-61 has no guard. Every `send` writes the entry
  before forwarding, even a second `send` whose forward then throws
  (`Response.Send`, `RunOnFreshResponse`).
- The `"Unauthorized."` reply at index.js:100 is cached like any other body
  (`UnauthorizedIsCached`).

## Model

| member | source | states |
|---|---|---|
| CacheKey.FirstMarker | index.js:47 | the result is the index of the first "&id" at or after `from`, or the length when there is none: no "&id" starts before it |
| CacheKey.BeforeMarker | index.js:47 | `split('&id')[0]` is a prefix of the URL, holds no "&id", and ends at the end of the URL or where an "&id" starts |
| CacheKey.BeforeMarkerUnique | index.js:47 | converse of the above: any prefix with those three properties is `split('&id')[0]`, so the contract determines the result |
| CacheKey.NoMarkerWholeUrl | index.js:47 | a URL without "&id" is used whole |
| CacheKey.AfterMarkerIgnored | index.js:47 | for a marker-free `h`, `split('&id')[0]` of `h + "&id" + tail` is `h` whatever the tail |
| CacheKey.Key | index.js:47-49 | the key equals "__express__" followed by the original URL cut at the first "&id"; the `||` fallback never applies |
| CacheKey.KeyIgnoresUrl | index.js:48-49 | the key is the same whatever `req.url` is |
| CacheKey.SameKeyIff | index.js:47-49 | two requests share a key if and only if their original URLs agree up to the first "&id" |
| CacheKey.TrailingIdShareKey | index.js:47-49 | URLs that differ only after an "&id" collide |
| CacheKey.ParisIdsCollide | index.js:47-49 | "/weather?q=Paris&id=1" and "/weather?q=Paris&id=2" get the same key |
| CacheKey.IdxPrefixAlsoCut | index.js:47 | the split is on raw text: "/weather?q=Paris&idx=7" gets the key of "/weather?q=Paris" |
| CacheKey.ParisRomeDiffer | index.js:47-49 | "/weather?q=Paris" and "/weather?q=Rome" get different keys |
| NodeCache.PutThenLookup | index.js:50-59 | `set(key, v, ttl)` then `get(key)` at a later time returns `v` before the TTL runs out and nothing from then on; TTL 0 never runs out |
| NodeCache.PutLeavesOtherKeys | index.js:59 | `set` under one key does not change what `get` returns for any other key |
| NodeCache.PutOverwrites | index.js:59 | a second `set` under the same key replaces the first entirely |
| NodeCache.EvictionInvisible | index.js:50 | deleting an expired entry on `get` changes nothing that a later `get` returns |
| NodeCache.ExpiredStaysExpired | index.js:50 | once `get` returns nothing for a key, it keeps returning nothing until the key is set again |
| NodeCache.Store.constructor | index.js:8 | `new NodeCache()` starts empty |
| NodeCache.Store.Get | index.js:50 | returns the live value under the key, evicts only an expired entry, and leaves every lookup at the current time unchanged |
| NodeCache.Store.Set | index.js:59 | the store becomes the old store with the key mapped to the value and its expiry; the key now reads back the value and other keys read as before |
| JsValues.Truthy | index.js:51 | a body passes `if (cachedBody)` exactly when it is none of "", 0, false, null and undefined |
| JsValues.Or | index.js:49 | `a || b` on strings yields one of its operands, the first when it is non-empty, and is non-empty exactly when one operand is |
| CacheMiddleware.Decide | index.js:50-51 | a request is answered from the store if and only if `get` returns a truthy value, and then with that value |
| CacheMiddleware.Response.constructor | index.js:46 | a response starts with Express's own send, no saved send, headers not sent and nothing delivered |
| CacheMiddleware.Response.SendOriginal | index.js:53-60 | Express's own send, called at index.js:53 and through `res.sendResponse` at index.js:60, delivers its body the first time and throws once the headers are out |
| CacheMiddleware.Response.Send | index.js:53-61 | `res.send(body)`: through the wrapper it first puts `body` under the key with the TTL, on every call, and then forwards the same body; the client gets it only if no send went before, else the call throws; through the original send the store is untouched |
| CacheMiddleware.Response.RunHandler | index.js:62 | a downstream handler that sends `bodies` until a send throws leaves exactly the store, delivered bodies, header state and throw that `Run` gives |
| CacheMiddleware.Handle | index.js:46-64 | hit: the cached body is sent once (the send throws instead when the headers are already out), `next` is not called, `res.send` is not replaced and the store is unchanged; miss: nothing is sent, `res.send` is saved and replaced by the wrapper for this key and TTL, `next` is called, and the store only loses an expired entry |
| CacheMiddleware.ServeRequest | index.js:46-62 | a request run through the middleware and, after `wait` seconds, its handler ends in the store, delivered bodies, `next` count and throw that `Serve` gives |
| CacheMiddleware.RunOnFreshResponse | index.js:57-62 | on a fresh response the first body reaches the client; a second send is still written to the store and then throws; the entry ends with the last body sent and nothing else changes |
| CacheMiddleware.ServeHit | index.js:50-54 | on a truthy hit the outcome is exactly one delivery of the cached body, no `next` call and the store unchanged |
| CacheMiddleware.ServeMiss | index.js:55-62 | on a miss `next` runs once, the client gets the handler's first body unchanged, the last body sent is stored with TTL `duration` from the time of the send, a second send throws, and every other key's entry is unchanged |
| CacheMiddleware.FalsyIsMiss | index.js:51 | a stored falsy value such as "" is a miss: the handler runs again and its body replaces it |
| WeatherRoute.WeatherHandler | index.js:88-100 | when the upstream calls succeed the `/weather` handler sends exactly once: exactly the serialized weather when `verify` matches, exactly "Unauthorized." otherwise, truthy whenever the payload is |
| WeatherRoute.RepeatWithinTtlIsHit | index.js:87 | a miss followed, within 600 seconds of its reply, by a request with the same URL up to "&id" is a hit that returns the stored body without running the second handler |
| WeatherRoute.ParisTwice | index.js:87-99 | on an empty store "/weather?q=Paris&id=1" runs the handler once and "/weather?q=Paris&id=2" within ten minutes is answered from the cache |
| WeatherRoute.ExpiredIsFetchedAgain | index.js:87 | 600 seconds after the stored reply the same key misses, the handler runs again and its stored body overwrites the entry |
| WeatherRoute.InterleavedMissesLastWins | index.js:50-62 | two requests for one key whose middleware both run before either handler sends both miss, and the store ends with the body of the handler that sent last |
| WeatherRoute.InterleavedMisses | index.js:50-62 | the same interleaving on the store and response objects: both responses deliver their own bodies and the key reads back the last body sent |
| WeatherRoute.UnauthorizedIsCached | index.js:87-100 | on a miss the "Unauthorized." reply is stored under the request's key and is returned for exactly 600 seconds from the reply |
| WeatherRoute.HitIgnoresVerify | index.js:87-100 | within ten minutes a request sharing the key gets the cached body whether or not its own `verify` matches: cached weather reaches an unauthorized caller and a cached "Unauthorized." reaches an authorized one |

## Left out

- Logging (`timeConsole`, the log file stream and date formatting, index.js:18-28) is I/O and locale-dependent formatting. Its calls at index.js:52 and 58 are dropped.
- `getGeoData` and the body of the `/weather` handler (index.js:74-99) fetch from upstream APIs and parse their JSON. The handler is the list of bodies it sends, with the `verify` comparison as a boolean.
- WeatherRoute.WeatherHandler: the path where an upstream call fails is not part of it. There `geoResult[0].lat` (index.js:78) or `weather.current.weather[0].main` (index.js:98) throws, the async handler rejects before any `send`, and nothing is delivered or cached; that outcome is the empty list of bodies, which `Run` and `ServeMiss` cover.
- Express plumbing is not modelled: body parsers, CORS headers, the 404/500 handlers, `app.listen` and the HTTP server (index.js:31-40, 105-128), and the routes in src/index.js.
- Express's own `res.send` is modelled only as "the first call delivers, every later call throws". Status codes, header values and content types are left out. `res.json` at index.js:99 serializes its object and calls `res.send` once, so the wrapper runs once and stores the JSON text; the model's `weather` body stands for that text. `res.send(object)` re-enters `res.send` with a serialized string, and through the wrapper that writes the entry a second time; the route never calls it, and it is not modelled.
- Serve: no time passes between the handler's sends; all of them happen `wait` seconds after the middleware ran. The object model (`Store.Tick` between `Response.Send` calls) allows any times.
- Response.SendOriginal: a second send always throws. Express skips setting headers for some bodies (an `undefined` body, for one); those cases are not modelled.
- node-cache internals are left out: cloning of stored values, the periodic expiry sweep, statistics, `maxKeys` and events. Expiry uses an integer clock in seconds. An entry is live while `now < expiry`. node-cache compares milliseconds, and its exact boundary at the expiry instant is not modelled.
- Bodies are JavaScript values with integer numbers. NaN and fractional numbers, and therefore their truthiness, are not modelled.
- Concurrency is modelled only as sequential interleavings of middleware runs and sends over one store. Suspension points inside the handler are not modelled further.
- Handle requires that `res.send` is still Express's own send, so `cacheMW` is mounted at most once in a request's chain. Mounting it twice would make the second wrapper save the first in `res.sendResponse` and call itself without end; that case is not modelled.
- The TTL `duration` is a natural number of seconds. Negative or fractional TTLs are not modelled.
