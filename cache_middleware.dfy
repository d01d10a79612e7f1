/** The middleware returned by `cacheMW(duration)` (index.js:45-65): derive
    the key, answer from the store on a truthy hit, otherwise replace
    `res.send` by a wrapper that stores every body it is given and then
    hands it to Express's own send, and pass the request on with `next()`. */
module CacheMiddleware {
  import opened JsValues
  import opened CacheKey
  import opened NodeCache

  /** The two URL forms Express gives a request. */
  datatype Request = Request(originalUrl: string, url: string)

  /** What a response's `send` slot holds: Express's own send, or the
      wrapper installed at index.js:57 for one key and TTL. */
  datatype SendSlot = OriginalSend | CachingSend(key: string, duration: nat)

  /** The middleware's choice for one request. */
  datatype Decision = Hit(body: Body) | Miss

  /** Index.js:50-51: the request is answered from the store exactly when
      `get` returns a truthy value, and then with that value. */
  function Decide(m: map<string, Entry>, now: int, key: string): (d: Decision)
    ensures d.Hit? <==> Lookup(m, now, key).Some? && Truthy(Lookup(m, now, key).value)
    ensures d.Hit? ==> Lookup(m, now, key) == Some(d.body)
  {
    var cached := Lookup(m, now, key);
    if cached.Some? && Truthy(cached.value) then Hit(cached.value) else Miss
  }

  /** The store after one call of `res.send(body)` through `slot`. The
      wrapper writes before it forwards, so it writes even when the forward
      then throws. */
  function SendEffect(m: map<string, Entry>, now: int, slot: SendSlot, body: Body): map<string, Entry> {
    match slot
    case OriginalSend => m
    case CachingSend(key, duration) => Put(m, now, key, body, duration)
  }

  /** What a downstream handler's run leaves behind. */
  datatype HandlerRun = HandlerRun(entries: map<string, Entry>, delivered: seq<Body>, headersSent: bool, threw: bool)

  /** A handler that passes `bodies` to `res.send` in turn, on a response
      whose headers are already out when `sent` holds. Express's own send
      throws once the headers are out; the throw ends the handler, so no
      later body is sent. */
  function Run(m: map<string, Entry>, now: int, slot: SendSlot, sent: bool, bodies: seq<Body>): HandlerRun
    decreases |bodies|
  {
    if bodies == [] then HandlerRun(m, [], sent, false)
    else
      var m1 := SendEffect(m, now, slot, bodies[0]);
      if sent then HandlerRun(m1, [], true, true)
      else
        var rest := Run(m1, now, slot, true, bodies[1..]);
        HandlerRun(rest.entries, [bodies[0]] + rest.delivered, rest.headersSent, rest.threw)
  }

  /** The body a caching response's entry ends with after a handler sent
      `bodies` on a fresh response: the second send is the last to run. */
  function StoredBody(bodies: seq<Body>): Body
    requires bodies != []
  {
    if |bodies| == 1 then bodies[0] else bodies[1]
  }

  /** One Express response object, as far as the middleware touches it. */
  class Response {
    var send: SendSlot
    var sendResponse: Option<SendSlot>
    /** Whether Express has already written the headers (the first send does). */
    var headersSent: bool
    /** The bodies that reached the client. */
    var delivered: seq<Body>

    /** The wrapper is only ever installed after the original send was saved. */
    ghost predicate Valid()
      reads this
    {
      send.CachingSend? ==> sendResponse == Some(OriginalSend)
    }

    constructor ()
      ensures Valid()
      ensures send == OriginalSend && sendResponse == None && !headersSent && delivered == []
    {
      send := OriginalSend;
      sendResponse := None;
      headersSent := false;
      delivered := [];
    }

    /** Express's own send: the first call delivers the body and writes the
        headers; any later call throws because the headers are already out. */
    method SendOriginal(body: Body) returns (threw: bool)
      modifies this`delivered, this`headersSent
      ensures threw == old(headersSent) && headersSent
      ensures delivered == if threw then old(delivered) else old(delivered) + [body]
    {
      threw := headersSent;
      if !threw {
        delivered := delivered + [body];
        headersSent := true;
      }
    }

    /** `res.send(body)`. Through the wrapper (index.js:57-61) the body is
        first stored under the key with the TTL, then passed unchanged to the
        saved original send; the wrapper has no guard, so it writes on every
        call, even one whose forward throws. */
    method Send(store: Store, body: Body) returns (threw: bool)
      requires Valid()
      modifies this`delivered, this`headersSent, store`entries
      ensures threw == old(headersSent) && headersSent
      ensures delivered == if threw then old(delivered) else old(delivered) + [body]
      ensures store.entries == SendEffect(old(store.entries), store.now, send, body)
    {
      match send
      case OriginalSend =>
        threw := SendOriginal(body);
      case CachingSend(key, duration) =>
        store.Set(key, body, duration);
        assert sendResponse == Some(OriginalSend);
        threw := SendOriginal(body);
    }

    /** The downstream handler reached by `next()`, seen only through the
        bodies it passes to `res.send`, in order, until a send throws. */
    method RunHandler(store: Store, bodies: seq<Body>) returns (threw: bool)
      requires Valid()
      modifies this`delivered, this`headersSent, store`entries
      ensures var r := Run(old(store.entries), store.now, send, old(headersSent), bodies);
        && store.entries == r.entries && delivered == old(delivered) + r.delivered
        && headersSent == r.headersSent && threw == r.threw
    {
      ghost var r0 := Run(store.entries, store.now, send, headersSent, bodies);
      var i := 0;
      threw := false;
      while i < |bodies| && !threw
        invariant 0 <= i <= |bodies|
        invariant !threw ==>
          var r := Run(store.entries, store.now, send, headersSent, bodies[i..]);
          && r.entries == r0.entries && r.headersSent == r0.headersSent && r.threw == r0.threw
          && old(delivered) + r0.delivered == delivered + r.delivered
        invariant threw ==>
          && store.entries == r0.entries && delivered == old(delivered) + r0.delivered
          && headersSent == r0.headersSent && r0.threw
      {
        assert bodies[i..][0] == bodies[i] && bodies[i..][1..] == bodies[i + 1..];
        threw := Send(store, bodies[i]);
        i := i + 1;
      }
    }
  }

  /** The middleware `cacheMW(duration)` applied to one request. `calledNext`
      says whether it called `next()`; `threw` says whether the `res.send`
      of the hit branch threw because the headers were already out, an error
      Express then passes on as `next(err)`. */
  method Handle(duration: nat, store: Store, req: Request, res: Response) returns (calledNext: bool, threw: bool)
    requires res.Valid() && res.send == OriginalSend
    modifies store`entries, res
    ensures res.Valid()
    ensures var key := Key(req.originalUrl, req.url);
      match Decide(old(store.entries), store.now, key)
      case Hit(v) =>
        && !calledNext
        && threw == old(res.headersSent)
        && res.delivered == (if threw then old(res.delivered) else old(res.delivered) + [v])
        && res.headersSent
        && res.send == OriginalSend && res.sendResponse == old(res.sendResponse)
        && store.entries == old(store.entries)
      case Miss =>
        && calledNext && !threw
        && res.delivered == old(res.delivered) && res.headersSent == old(res.headersSent)
        && res.send == CachingSend(key, duration) && res.sendResponse == Some(OriginalSend)
        && store.entries == Evicted(old(store.entries), store.now, key)
  {
    var oUrl := BeforeMarker(req.originalUrl);
    var rUrl := BeforeMarker(req.url);
    var key := Or(Namespace + oUrl, rUrl);
    var cachedBody := store.Get(key);
    if cachedBody.Some? && Truthy(cachedBody.value) {
      threw := res.Send(store, cachedBody.value);
      calledNext := false;
    } else {
      res.sendResponse := Some(res.send);
      res.send := CachingSend(key, duration);
      calledNext := true;
      threw := false;
    }
  }

  /** What one request served without interruption produces. */
  datatype Outcome = Outcome(entries: map<string, Entry>, delivered: seq<Body>, nextCalls: nat, threw: bool)

  /** A request served start to finish with no other request in between: the
      middleware at time `now`, then on a miss the downstream handler, which
      spends `wait` seconds on its upstream calls and then sends `bodies`. */
  function Serve(m: map<string, Entry>, now: int, wait: nat, duration: nat, req: Request, bodies: seq<Body>): Outcome {
    var key := Key(req.originalUrl, req.url);
    match Decide(m, now, key)
    case Hit(v) => Outcome(m, [v], 0, false)
    case Miss =>
      var r := Run(Evicted(m, now, key), now + wait, CachingSend(key, duration), false, bodies);
      Outcome(r.entries, r.delivered, 1, r.threw)
  }

  /** A fresh response run through the middleware and, when it calls
      `next()`, through the downstream handler after `wait` seconds. */
  method ServeRequest(duration: nat, store: Store, req: Request, wait: nat, bodies: seq<Body>)
    returns (res: Response, nextCalls: nat, threw: bool)
    modifies store
    ensures fresh(res)
    ensures var o := Serve(old(store.entries), old(store.now), wait, duration, req, bodies);
      && res.delivered == o.delivered && store.entries == o.entries
      && nextCalls == o.nextCalls && threw == o.threw
      && store.now == old(store.now) + (if nextCalls == 1 then wait else 0)
  {
    res := new Response();
    var calledNext, _ := Handle(duration, store, req, res);
    if calledNext {
      store.Tick(wait);
      threw := res.RunHandler(store, bodies);
      nextCalls := 1;
    } else {
      threw := false;
      nextCalls := 0;
    }
  }

  /** A handler's sends through the wrapper on a fresh response: the first
      body reaches the client; a second send is still written to the store
      (the wrapper has no guard) and then throws, ending the handler; so the
      entry holds the second body if there is one, else the first, and no
      other key changes. */
  lemma {:induction false} RunOnFreshResponse(m: map<string, Entry>, now: int, key: string, duration: nat, bodies: seq<Body>)
    requires bodies != []
    ensures var r := Run(m, now, CachingSend(key, duration), false, bodies);
      && r.entries == Put(m, now, key, StoredBody(bodies), duration)
      && r.delivered == [bodies[0]]
      && r.headersSent
      && r.threw == (|bodies| > 1)
  {
    var slot := CachingSend(key, duration);
    var m1 := Put(m, now, key, bodies[0], duration);
    var tail := bodies[1..];
    if tail != [] {
      assert Run(m1, now, slot, true, tail) == HandlerRun(Put(m1, now, key, tail[0], duration), [], true, true);
      PutOverwrites(m, now, now, key, bodies[0], tail[0], duration, duration);
    }
  }

  /** Hit branch (index.js:51-54): the cached body is sent once, `next` is not
      called and the store is not written. */
  lemma ServeHit(m: map<string, Entry>, now: int, wait: nat, duration: nat, req: Request, bodies: seq<Body>, v: Body)
    requires Lookup(m, now, Key(req.originalUrl, req.url)) == Some(v) && Truthy(v)
    ensures Serve(m, now, wait, duration, req, bodies) == Outcome(m, [v], 0, false)
  {
  }

  /** Miss branch (index.js:55-62): `next` is called once; the client gets the
      handler's first body unchanged; the body of the last send that ran is
      stored under the key with TTL `duration`, counted from the send; a
      second send throws; and no other key's entry changes. */
  lemma ServeMiss(m: map<string, Entry>, now: int, wait: nat, duration: nat, req: Request, bodies: seq<Body>)
    requires Decide(m, now, Key(req.originalUrl, req.url)) == Miss
    ensures var o := Serve(m, now, wait, duration, req, bodies);
      var key := Key(req.originalUrl, req.url);
      && o.nextCalls == 1
      && o.threw == (|bodies| > 1)
      && (bodies != [] ==> o.delivered == [bodies[0]])
      && (bodies != [] ==> o.entries == Put(m, now + wait, key, StoredBody(bodies), duration))
      && (bodies == [] ==> o.delivered == [] && o.entries == Evicted(m, now, key))
      && (forall k :: k != key ==> (k in o.entries <==> k in m))
      && (forall k :: k != key && k in m ==> o.entries[k] == m[k])
  {
    var key := Key(req.originalUrl, req.url);
    var m' := Evicted(m, now, key);
    if bodies != [] {
      RunOnFreshResponse(m', now + wait, key, duration, bodies);
    }
  }

  /** A falsy stored value, such as an empty-string body, is a miss: the
      handler runs again and its body replaces the falsy one. */
  lemma FalsyIsMiss(m: map<string, Entry>, now: int, wait: nat, duration: nat, req: Request, bodies: seq<Body>)
    requires Lookup(m, now, Key(req.originalUrl, req.url)).Some?
    requires !Truthy(Lookup(m, now, Key(req.originalUrl, req.url)).value)
    requires bodies != []
    ensures Serve(m, now, wait, duration, req, bodies).nextCalls == 1
    ensures Lookup(Serve(m, now, wait, duration, req, bodies).entries, now + wait, Key(req.originalUrl, req.url))
         == Some(StoredBody(bodies))
  {
    ServeMiss(m, now, wait, duration, req, bodies);
  }
}
