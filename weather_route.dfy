/** The one route that mounts the middleware (index.js:87-101):
    `cacheMW(60 * 10)` in front of a handler that answers either the weather
    (through `res.json`, which serializes it and calls `res.send` once) or
    "Unauthorized.". */
module WeatherRoute {
  import opened JsValues
  import opened CacheKey
  import opened NodeCache
  import opened CacheMiddleware

  /** Ten minutes, in seconds. */
  const WeatherTtl: nat := 60 * 10

  const Unauthorized: Body := Text("Unauthorized.")

  /** The bodies the `/weather` handler sends: `weather` stands for the JSON
      text `res.json` makes of the geo and weather payload, sent when the
      `verify` query parameter matches; otherwise "Unauthorized.". Either way
      the handler sends exactly once, through the intercepted `res.send`, and
      what it sends is truthy whenever the payload is. */
  function WeatherHandler(verified: bool, weather: Body): (bodies: seq<Body>)
    ensures |bodies| == 1
    ensures verified ==> bodies == [weather]
    ensures !verified ==> bodies == [Unauthorized]
    ensures Truthy(weather) ==> Truthy(bodies[0])
  {
    if verified then [weather] else [Unauthorized]
  }

  /** A miss whose handler spent `wait` seconds before sending, followed
      within ten minutes of that send by a request whose original URL agrees
      up to "&id", is a hit: the second request gets the stored body and its
      handler does not run. */
  lemma {:induction false} RepeatWithinTtlIsHit(
    m: map<string, Entry>, t1: int, wait: nat, t2: int, r1: Request, r2: Request, b1: seq<Body>, b2: seq<Body>)
    requires Decide(m, t1, Key(r1.originalUrl, r1.url)) == Miss
    requires b1 != [] && Truthy(StoredBody(b1))
    requires BeforeMarker(r1.originalUrl) == BeforeMarker(r2.originalUrl)
    requires t1 + wait <= t2 < t1 + wait + WeatherTtl
    ensures var o1 := Serve(m, t1, wait, WeatherTtl, r1, b1);
      && o1.nextCalls == 1 && o1.delivered == [b1[0]]
      && Serve(o1.entries, t2, 0, WeatherTtl, r2, b2) == Outcome(o1.entries, [StoredBody(b1)], 0, false)
  {
    var key := Key(r1.originalUrl, r1.url);
    ServeMiss(m, t1, wait, WeatherTtl, r1, b1);
    var o1 := Serve(m, t1, wait, WeatherTtl, r1, b1);
    SameKeyIff(r1.originalUrl, r1.url, r2.originalUrl, r2.url);
    PutThenLookup(m, t1 + wait, key, StoredBody(b1), WeatherTtl, t2);
    ServeHit(o1.entries, t2, 0, WeatherTtl, r2, b2, StoredBody(b1));
  }

  /** The scenario of a first call to "/weather?q=Paris&id=1" on an empty store
      and a second call to "/weather?q=Paris&id=2" within ten minutes of the
      first one's reply. */
  lemma ParisTwice(t1: int, wait: nat, t2: int, u1: string, u2: string, w: Body, b2: seq<Body>)
    requires Truthy(w)
    requires t1 + wait <= t2 < t1 + wait + WeatherTtl
    ensures var r1 := Request("/weather?q=Paris&id=1", u1);
      var r2 := Request("/weather?q=Paris&id=2", u2);
      var o1 := Serve(map[], t1, wait, WeatherTtl, r1, WeatherHandler(true, w));
      && o1.nextCalls == 1 && o1.delivered == [w]
      && Serve(o1.entries, t2, 0, WeatherTtl, r2, b2) == Outcome(o1.entries, [w], 0, false)
  {
    var r1 := Request("/weather?q=Paris&id=1", u1);
    var r2 := Request("/weather?q=Paris&id=2", u2);
    ParisIdsCollide(u1, u2);
    SameKeyIff(r1.originalUrl, u1, r2.originalUrl, u2);
    RepeatWithinTtlIsHit(map[], t1, wait, t2, r1, r2, [w], b2);
  }

  /** Once ten minutes have passed since the stored reply the handler runs
      again and its stored body overwrites the old entry. */
  lemma {:induction false} ExpiredIsFetchedAgain(
    m: map<string, Entry>, t1: int, wait1: nat, t2: int, wait2: nat,
    r1: Request, r2: Request, b1: seq<Body>, b2: seq<Body>)
    requires Decide(m, t1, Key(r1.originalUrl, r1.url)) == Miss
    requires b1 != [] && b2 != []
    requires BeforeMarker(r1.originalUrl) == BeforeMarker(r2.originalUrl)
    requires t2 >= t1 + wait1 + WeatherTtl
    ensures var o1 := Serve(m, t1, wait1, WeatherTtl, r1, b1);
      var o2 := Serve(o1.entries, t2, wait2, WeatherTtl, r2, b2);
      && o2.nextCalls == 1 && o2.delivered == [b2[0]]
      && o2.entries == Put(m, t2 + wait2, Key(r1.originalUrl, r1.url), StoredBody(b2), WeatherTtl)
  {
    var key := Key(r1.originalUrl, r1.url);
    ServeMiss(m, t1, wait1, WeatherTtl, r1, b1);
    var o1 := Serve(m, t1, wait1, WeatherTtl, r1, b1);
    SameKeyIff(r1.originalUrl, r1.url, r2.originalUrl, r2.url);
    PutThenLookup(m, t1 + wait1, key, StoredBody(b1), WeatherTtl, t2);
    ServeMiss(o1.entries, t2, wait2, WeatherTtl, r2, b2);
    PutOverwrites(m, t1 + wait1, t2 + wait2, key, StoredBody(b1), StoredBody(b2), WeatherTtl, WeatherTtl);
  }

  /** Two requests for one key whose middleware both run before either handler
      sends: both miss, both handlers run on their own fresh responses, and
      the store ends with the body of the handler that sent last. */
  lemma {:induction false} InterleavedMissesLastWins(
    m: map<string, Entry>, t: int, tA: int, tB: int, key: string, bodiesA: seq<Body>, bodiesB: seq<Body>)
    requires Decide(m, t, key) == Miss
    requires bodiesB != []
    ensures var m1 := Evicted(m, t, key);
      && Decide(m1, t, key) == Miss
      && var slot := CachingSend(key, WeatherTtl);
         var m2 := Evicted(m1, t, key);
         var final := Run(Run(m2, tA, slot, false, bodiesA).entries, tB, slot, false, bodiesB).entries;
         final == Put(m2, tB, key, StoredBody(bodiesB), WeatherTtl)
  {
    var m1 := Evicted(m, t, key);
    EvictionInvisible(m, t, key, key, t);
    var slot := CachingSend(key, WeatherTtl);
    var m2 := Evicted(m1, t, key);
    var afterA := Run(m2, tA, slot, false, bodiesA).entries;
    RunOnFreshResponse(afterA, tB, key, WeatherTtl, bodiesB);
    if bodiesA != [] {
      RunOnFreshResponse(m2, tA, key, WeatherTtl, bodiesA);
      PutOverwrites(m2, tA, tB, key, StoredBody(bodiesA), StoredBody(bodiesB), WeatherTtl, WeatherTtl);
    }
  }

  /** The interleaving above on the store and response objects: both
      middleware runs, then handler A's sends, the clock moving on, then
      handler B's sends. */
  method InterleavedMisses(store: Store, reqA: Request, reqB: Request, bodiesA: seq<Body>, dt: nat, bodiesB: seq<Body>)
    returns (resA: Response, resB: Response)
    requires Decide(store.entries, store.now, Key(reqA.originalUrl, reqA.url)) == Miss
    requires BeforeMarker(reqA.originalUrl) == BeforeMarker(reqB.originalUrl)
    requires bodiesA != [] && bodiesB != []
    modifies store
    ensures resA.delivered == [bodiesA[0]] && resB.delivered == [bodiesB[0]]
    ensures Lookup(store.entries, store.now, Key(reqA.originalUrl, reqA.url)) == Some(StoredBody(bodiesB))
  {
    var key := Key(reqA.originalUrl, reqA.url);
    SameKeyIff(reqA.originalUrl, reqA.url, reqB.originalUrl, reqB.url);
    resA := new Response();
    resB := new Response();
    var nextA, _ := Handle(WeatherTtl, store, reqA, resA);
    EvictionInvisible(old(store.entries), store.now, key, key, store.now);
    var nextB, _ := Handle(WeatherTtl, store, reqB, resB);
    assert nextA && nextB;
    label BeforeA:
    var _ := resA.RunHandler(store, bodiesA);
    RunOnFreshResponse(old@BeforeA(store.entries), store.now, key, WeatherTtl, bodiesA);
    store.Tick(dt);
    label BeforeB:
    var _ := resB.RunHandler(store, bodiesB);
    RunOnFreshResponse(old@BeforeB(store.entries), store.now, key, WeatherTtl, bodiesB);
  }

  /** An unauthorized reply passes through the wrapper too: on a miss,
      "Unauthorized." is stored under the request's key for ten minutes from
      the reply. */
  lemma UnauthorizedIsCached(m: map<string, Entry>, t1: int, wait: nat, later: int, req: Request, w: Body)
    requires Decide(m, t1, Key(req.originalUrl, req.url)) == Miss
    requires t1 + wait <= later
    ensures var o := Serve(m, t1, wait, WeatherTtl, req, WeatherHandler(false, w));
      Lookup(o.entries, later, Key(req.originalUrl, req.url))
        == if later < t1 + wait + WeatherTtl then Some(Unauthorized) else None
  {
    var key := Key(req.originalUrl, req.url);
    ServeMiss(m, t1, wait, WeatherTtl, req, WeatherHandler(false, w));
    PutThenLookup(m, t1 + wait, key, Unauthorized, WeatherTtl, later);
  }

  /** A hit does not look at `verify`: within ten minutes of a reply that was
      cached, a request sharing its key gets that reply whether or not it
      would itself be authorized, so a cached "Unauthorized." is served to an
      authorized caller and cached weather to an unauthorized one. */
  lemma {:induction false} HitIgnoresVerify(
    m: map<string, Entry>, t1: int, wait: nat, t2: int, r1: Request, r2: Request, v1: bool, v2: bool, w1: Body, w2: Body)
    requires Decide(m, t1, Key(r1.originalUrl, r1.url)) == Miss
    requires Truthy(w1)
    requires BeforeMarker(r1.originalUrl) == BeforeMarker(r2.originalUrl)
    requires t1 + wait <= t2 < t1 + wait + WeatherTtl
    ensures var o1 := Serve(m, t1, wait, WeatherTtl, r1, WeatherHandler(v1, w1));
      Serve(o1.entries, t2, 0, WeatherTtl, r2, WeatherHandler(v2, w2)).delivered
        == [if v1 then w1 else Unauthorized]
  {
    RepeatWithinTtlIsHit(m, t1, wait, t2, r1, r2, WeatherHandler(v1, w1), WeatherHandler(v2, w2));
  }
}
