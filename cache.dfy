/** The read-through response cache (middleware/cache.js). A request's cache
    key is `cache:` followed by its original URL. A truthy stored value is
    answered from the store without running the route handler; otherwise the
    handler runs with `res.send` replaced by a wrapper that writes the body
    back with the configured expiry when the status is 200. Any fault of the
    store or of JSON parsing falls through to the handler. */
module Cache {
  import opened Wrappers
  import opened KeyValueStore

  const KeyPrefix: string := "cache:"

  /** The expiry used when `cacheMiddleware()` is called without one. */
  const DefaultExpiry: int := 3600

  /** The key a request is cached under. */
  function CacheKey(originalUrl: string): (key: string)
    ensures |key| == |KeyPrefix| + |originalUrl|
    ensures key[..|KeyPrefix|] == KeyPrefix && key[|KeyPrefix|..] == originalUrl
  {
    KeyPrefix + originalUrl
  }

  /** The key holds the URL verbatim: equal URLs give equal keys and distinct
      URLs give distinct keys. */
  lemma CacheKeyInjective(u: string, v: string)
    ensures CacheKey(u) == CacheKey(v) <==> u == v
  {
    if CacheKey(u) == CacheKey(v) {
      assert u == CacheKey(u)[|KeyPrefix|..];
      assert v == CacheKey(v)[|KeyPrefix|..];
    }
  }

  /** What the route handler produces: the status it sets and the body it sends. */
  datatype Response = Response(status: int, body: string)

  /** `if (cachedData)`: a value is truthy unless it is nil or the empty string. */
  predicate Truthy(r: GetReply) {
    r.Value? && r.text != ""
  }

  /** One run of the middleware, as a function of the store's state.
      `parse` stands for `JSON.parse` followed by the re-serialisation in
      `res.json`: None when the stored text does not parse.
      `writeBack` records that the wrapped `send` issued a SETEX. */
  datatype Served = Served(response: Response, handlerRan: bool, writeBack: bool, after: StoreState)

  function ServeSpec(st: StoreState, originalUrl: string, expiry: int, handler: Response,
                     parse: string -> Option<string>): (s: Served)
    ensures !s.handlerRan ==> s.response.status == 200 && !s.writeBack && s.after == st
    ensures s.handlerRan ==> s.response == handler
    ensures s.writeBack <==> (&& handler.status == 200
                              && !Lookup(st, CacheKey(originalUrl)).Fault?
                              && !Truthy(Lookup(st, CacheKey(originalUrl))))
    ensures !s.writeBack ==> s.after == st
  {
    var key := CacheKey(originalUrl);
    var cached := Lookup(st, key);
    if Truthy(cached) && parse(cached.text).Some? then
      Served(Response(200, parse(cached.text).value), false, false, st)
    else if cached.Fault? || Truthy(cached) then
      // the store read or JSON.parse threw: next() without the write hook
      Served(handler, true, false, st)
    else
      var writeBack := handler.status == 200;
      Served(handler, true, writeBack,
             if writeBack then Written(st, key, expiry, handler.body) else st)
  }

  /** A hit: the stored value is present, non-empty and parses. */
  predicate IsHit(st: StoreState, originalUrl: string, parse: string -> Option<string>) {
    var cached := Lookup(st, CacheKey(originalUrl));
    Truthy(cached) && parse(cached.text).Some?
  }

  /** On a hit the client gets the parsed stored value with status 200, the
      handler does not run and the store is left alone. */
  lemma HitAnswersFromStore(st: StoreState, url: string, expiry: int, handler: Response,
                            parse: string -> Option<string>)
    requires IsHit(st, url, parse)
    ensures var s := ServeSpec(st, url, expiry, handler, parse);
            && s.response == Response(200, parse(Lookup(st, CacheKey(url)).text).value)
            && !s.handlerRan && !s.writeBack && s.after == st
  {
  }

  /** The handler runs exactly when the request is not a hit, and then its
      response reaches the client unchanged, cached or not. */
  lemma HandlerRunsIffNotHit(st: StoreState, url: string, expiry: int, handler: Response,
                             parse: string -> Option<string>)
    ensures var s := ServeSpec(st, url, expiry, handler, parse);
            && (s.handlerRan <==> !IsHit(st, url, parse))
            && (s.handlerRan ==> s.response == handler)
  {
  }

  /** Nil and the empty string are both misses. */
  lemma EmptyValueIsMiss(st: StoreState, url: string, expiry: int, handler: Response,
                         parse: string -> Option<string>)
    requires Lookup(st, CacheKey(url)) in {Nil, Value("")}
    ensures var s := ServeSpec(st, url, expiry, handler, parse);
            s.handlerRan && s.response == handler && (s.writeBack <==> handler.status == 200)
  {
  }

  /** Only a 200 response is written back, always under the request's key, with
      the configured expiry and exactly the body that was sent; no other key
      changes, and neither does the clock. */
  lemma OnlySuccessIsStored(st: StoreState, url: string, expiry: int, handler: Response,
                            parse: string -> Option<string>)
    ensures var s := ServeSpec(st, url, expiry, handler, parse);
            && (s.writeBack ==> handler.status == 200 && s.handlerRan)
            && (s.writeBack && st.up && expiry > 0 ==>
                  s.after.entries == st.entries[CacheKey(url) := Entry(handler.body, st.now + expiry)])
            && (!s.writeBack ==> s.after == st)
            && s.after.now == st.now && s.after.up == st.up
            && forall k :: k != CacheKey(url) ==> Lookup(s.after, k) == Lookup(st, k)
  {
  }

  /** A miss on a reachable store followed by a 200 response stores the body. */
  lemma MissWithSuccessStores(st: StoreState, url: string, expiry: int, handler: Response,
                              parse: string -> Option<string>)
    requires st.up && !Truthy(Lookup(st, CacheKey(url)))
    requires handler.status == 200 && expiry > 0
    ensures var s := ServeSpec(st, url, expiry, handler, parse);
            s.writeBack && Lookup(s.after, CacheKey(url)) == Value(handler.body)
  {
  }

  /** When the store read throws, the request still reaches the handler, whose
      response is returned, and nothing is written. */
  lemma StoreFaultFallsThrough(st: StoreState, url: string, expiry: int, handler: Response,
                               parse: string -> Option<string>)
    requires !st.up
    ensures ServeSpec(st, url, expiry, handler, parse) == Served(handler, true, false, st)
  {
  }

  /** When the stored text does not parse, the handler runs and nothing is written. */
  lemma ParseFaultFallsThrough(st: StoreState, url: string, expiry: int, handler: Response,
                               parse: string -> Option<string>)
    requires Truthy(Lookup(st, CacheKey(url))) && parse(Lookup(st, CacheKey(url)).text).None?
    ensures ServeSpec(st, url, expiry, handler, parse) == Served(handler, true, false, st)
  {
  }

  /** Two requests for the same URL: after a successful miss, a second request
      made before the expiry has run out is answered from the store, with the
      first handler's body, whatever the handler would answer now. */
  lemma SecondRequestHits(st: StoreState, url: string, expiry: int, first: Response,
                          second: Response, parse: string -> Option<string>, dt: nat)
    requires st.up && !Truthy(Lookup(st, CacheKey(url)))
    requires first.status == 200 && first.body != "" && parse(first.body) == Some(first.body)
    requires expiry > 0 && dt < expiry
    ensures var s1 := ServeSpec(st, url, expiry, first, parse);
            var s2 := ServeSpec(Advanced(s1.after, dt), url, expiry, second, parse);
            !s2.handlerRan && s2.response == Response(200, first.body)
  {
    var s1 := ServeSpec(st, url, expiry, first, parse);
    WrittenThenRead(st, CacheKey(url), expiry, first.body, dt);
    assert Lookup(Advanced(s1.after, dt), CacheKey(url)) == Value(first.body);
  }

  /** Once the expiry has run out, the same request runs the handler again. */
  lemma ExpiredEntryMisses(st: StoreState, url: string, expiry: int, first: Response,
                           second: Response, parse: string -> Option<string>, dt: nat)
    requires st.up && !Truthy(Lookup(st, CacheKey(url)))
    requires first.status == 200 && expiry > 0 && dt >= expiry
    ensures var s1 := ServeSpec(st, url, expiry, first, parse);
            var s2 := ServeSpec(Advanced(s1.after, dt), url, expiry, second, parse);
            s2.handlerRan && s2.response == second
  {
    var s1 := ServeSpec(st, url, expiry, first, parse);
    WrittenThenRead(st, CacheKey(url), expiry, first.body, dt);
    assert Lookup(Advanced(s1.after, dt), CacheKey(url)) == Nil;
  }

  /** A response with a status other than 200 is never served from the store
      to the next request for the same URL. */
  lemma FailureIsNotServedLater(st: StoreState, url: string, expiry: int, first: Response,
                                second: Response, parse: string -> Option<string>)
    requires !IsHit(st, url, parse) && first.status != 200
    ensures var s1 := ServeSpec(st, url, expiry, first, parse);
            var s2 := ServeSpec(s1.after, url, expiry, second, parse);
            s2.handlerRan && s2.response == second
  {
  }

  /** How `send` behaves on a response object: as Express's own, or replaced by
      the middleware's wrapper that writes a 200 body back under `key`. */
  datatype SendHook = Direct | WriteBack(key: string, ttl: int)

  /** The Express response object: its status code, the bodies delivered to
      the client, and the current `send`. */
  class Reply {
    const cache: Store
    var statusCode: int
    var delivered: seq<string>
    var hook: SendHook

    constructor (cache: Store)
      ensures this.cache == cache
      ensures statusCode == 200 && delivered == [] && hook == Direct
    {
      this.cache := cache;
      statusCode := 200;
      delivered := [];
      hook := Direct;
    }

    /** `res.status(code)`. */
    method Status(code: int)
      modifies this`statusCode
      ensures statusCode == code
    {
      statusCode := code;
    }

    /** `res.send(body)`, through whatever `send` currently is. */
    method Send(body: string)
      modifies this`delivered, cache
      ensures delivered == old(delivered) + [body]
      ensures hook.WriteBack? && statusCode == 200 ==>
                cache.State() == Written(old(cache.State()), hook.key, hook.ttl, body)
                && cache.issued == old(cache.issued) + [SetExCmd(hook.key, hook.ttl, body)]
      ensures !(hook.WriteBack? && statusCode == 200) ==>
                cache.State() == old(cache.State()) && cache.issued == old(cache.issued)
    {
      if hook.WriteBack? && statusCode == 200 {
        cache.SetEx(hook.key, hook.ttl, body);
      }
      delivered := delivered + [body];
    }
  }

  /** The middleware returned by `cacheMiddleware(expiry)`, bound to the
      application's store client. */
  class CacheMiddleware {
    const expiry: int
    const store: Store

    constructor (store: Store, expiry: int := DefaultExpiry)
      ensures this.store == store && this.expiry == expiry
    {
      this.store := store;
      this.expiry := expiry;
    }

    /** The route handler behind the middleware (`next()`): it sets its status
        and sends its body through the current `send`. */
    static method RunHandler(res: Reply, handler: Response)
      modifies res, res.cache
      ensures res.statusCode == handler.status && res.hook == old(res.hook)
      ensures res.delivered == old(res.delivered) + [handler.body]
      ensures res.hook.WriteBack? && handler.status == 200 ==>
                res.cache.State() == Written(old(res.cache.State()), res.hook.key, res.hook.ttl, handler.body)
                && res.cache.issued == old(res.cache.issued) + [SetExCmd(res.hook.key, res.hook.ttl, handler.body)]
      ensures !(res.hook.WriteBack? && handler.status == 200) ==>
                res.cache.State() == old(res.cache.State()) && res.cache.issued == old(res.cache.issued)
    {
      res.Status(handler.status);
      res.Send(handler.body);
    }

    /** One request through the middleware. `handlerCalls` counts the runs of
        the route handler. */
    method Serve(originalUrl: string, res: Reply, handler: Response, parse: string -> Option<string>)
      returns (handlerCalls: nat)
      requires res.cache == store
      requires res.statusCode == 200 && res.delivered == [] && res.hook == Direct
      modifies res, store
      ensures var s := ServeSpec(old(store.State()), originalUrl, expiry, handler, parse);
              && handlerCalls == (if s.handlerRan then 1 else 0)
              && res.statusCode == s.response.status
              && res.delivered == [s.response.body]
              && store.State() == s.after
              && store.issued == old(store.issued) + [GetCmd(CacheKey(originalUrl))]
                   + (if s.writeBack then [SetExCmd(CacheKey(originalUrl), expiry, handler.body)] else [])
      ensures var cached := Lookup(old(store.State()), CacheKey(originalUrl));
              res.hook == if cached.Fault? || Truthy(cached) then Direct else WriteBack(CacheKey(originalUrl), expiry)
    {
      handlerCalls := 0;
      var key := CacheKey(originalUrl);
      var cached := store.Get(key);
      if cached.Fault? {
        // the store read threw: log and fall through
        RunHandler(res, handler);
        handlerCalls := handlerCalls + 1;
        return;
      }
      if Truthy(cached) {
        var parsed := parse(cached.text);
        if parsed.None? {
          // JSON.parse threw: log and fall through
          RunHandler(res, handler);
          handlerCalls := handlerCalls + 1;
          return;
        }
        res.Send(parsed.value);
        return;
      }
      res.hook := WriteBack(key, expiry);
      RunHandler(res, handler);
      handlerCalls := handlerCalls + 1;
    }
  }
}
