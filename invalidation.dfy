/** `invalidateCache` (controllers/propertyController.js): deletes every key
    of the store that matches the glob `cache:${patterns}*`. The array of
    patterns is turned into text by the template literal, which joins its
    elements with commas, so the call deletes by ONE prefix made of all the
    patterns. Faults of the store are swallowed. */
module Invalidation {
  import opened Wrappers
  import opened KeyValueStore
  import opened JsStrings
  import opened Cache

  /** The prefix `cache:${patterns}` that the glob matches. */
  function InvalidationPrefix(patterns: seq<string>): (prefix: string)
    ensures |KeyPrefix| <= |prefix| && prefix[..|KeyPrefix|] == KeyPrefix
    ensures |patterns| == 1 ==> prefix == CacheKey(patterns[0])
  {
    KeyPrefix + Join(patterns, ",")
  }

  /** The store after `invalidateCache`: every live key with the prefix is
      gone; a store fault leaves everything as it was. */
  function Invalidated(st: StoreState, prefix: string): (after: StoreState)
    ensures after.now == st.now && after.up == st.up
    ensures after.entries.Keys <= st.entries.Keys
    ensures forall k :: k in after.entries ==> after.entries[k] == st.entries[k]
    ensures st.up ==> forall k :: k in after.entries ==> !(IsLive(st, k) && IsPrefix(prefix, k))
    ensures !st.up ==> after == st
  {
    if st.up then Deleted(st, MatchingKeys(st, prefix)) else st
  }

  /** No key with the prefix can be read afterwards, every other key reads as
      before, and the clock and the connection are untouched. */
  lemma InvalidatedClearsPrefix(st: StoreState, prefix: string)
    ensures var after := Invalidated(st, prefix);
            && after.now == st.now && after.up == st.up
            && (forall k :: IsPrefix(prefix, k) && st.up ==> Lookup(after, k) == Nil)
            && (forall k :: !IsPrefix(prefix, k) ==> Lookup(after, k) == Lookup(st, k))
  {
  }

  /** Invalidation never makes a key readable. */
  lemma InvalidatedAddsNothing(st: StoreState, prefix: string, k: string)
    requires Lookup(st, k) == Nil
    ensures Lookup(Invalidated(st, prefix), k) == Nil
  {
  }

  /** After invalidation, a request whose key has the prefix is a miss: the
      handler runs. */
  lemma InvalidationForcesMiss(st: StoreState, prefix: string, url: string, expiry: int,
                               handler: Response, parse: string -> Option<string>)
    requires IsPrefix(prefix, CacheKey(url))
    ensures ServeSpec(Invalidated(st, prefix), url, expiry, handler, parse).handlerRan
  {
    InvalidatedClearsPrefix(st, prefix);
  }

  /** `invalidateCache(patterns)`: KEYS, then DEL only when something matched;
      a store fault is logged and swallowed. */
  method InvalidateCache(store: Store, patterns: seq<string>)
    modifies store
    ensures var prefix := InvalidationPrefix(patterns);
            var matched := MatchingKeys(old(store.State()), prefix);
            && store.State() == Invalidated(old(store.State()), prefix)
            && store.issued == old(store.issued) + [KeysCmd(prefix + "*")]
                 + (if old(store.up) && matched != {} then [DelCmd(matched)] else [])
  {
    var prefix := InvalidationPrefix(patterns);
    var keys := store.KeysWithPrefix(prefix);
    if keys.Some? && |keys.value| > 0 {
      var _ := store.Del(keys.value);
    } else if keys.Some? {
      assert keys.value == {};
    }
  }

  /** The patterns `updateProperty` passes for the property `id`. */
  function UpdatePatterns(id: string): seq<string> {
    ["/properties/" + id, "/properties"]
  }

  /** They become the single prefix `cache:/properties/<id>,/properties`. */
  lemma UpdatePrefixIsCommaJoined(id: string)
    ensures InvalidationPrefix(UpdatePatterns(id)) == "cache:/properties/" + id + ",/properties"
  {
    var ps := UpdatePatterns(id);
    assert ps[1..] == ["/properties"];
    assert Join(ps, ",") == ("/properties/" + id) + "," + "/properties";
    assert KeyPrefix + ("/properties/" + id) + "," + "/properties"
        == "cache:/properties/" + id + ",/properties";
  }

  /** The router is mounted at `/api/properties`, so every cached read has a
      key starting with `cache:/api/`; none of them matches the update's
      prefix. */
  lemma UpdatePrefixMissesMountedReads(id: string, url: string)
    requires IsPrefix("/api/", url)
    ensures !IsPrefix(InvalidationPrefix(UpdatePatterns(id)), CacheKey(url))
  {
    UpdatePrefixIsCommaJoined(id);
    var p := InvalidationPrefix(UpdatePatterns(id));
    assert p[7] == 'p';
    assert CacheKey(url)[7] == url[1] == 'a';
  }

  /** Even without the mount path, the joined prefix is longer than the key of
      `/properties/<id>` and so does not match it. */
  lemma UpdatePrefixMissesUnmountedRead(id: string)
    ensures !IsPrefix(InvalidationPrefix(UpdatePatterns(id)), CacheKey("/properties/" + id))
  {
    UpdatePrefixIsCommaJoined(id);
  }

  /** Consequence: a read of `/api/properties/<id>` that was a hit before the
      update's invalidation is still a hit afterwards, answered with the same
      body and without running the handler. */
  lemma StaleReadSurvivesUpdate(st: StoreState, id: string, expiry: int, handler: Response,
                                parse: string -> Option<string>)
    requires IsHit(st, "/api/properties/" + id, parse)
    ensures var url := "/api/properties/" + id;
            var before := ServeSpec(st, url, expiry, handler, parse);
            var after := ServeSpec(Invalidated(st, InvalidationPrefix(UpdatePatterns(id))), url, expiry, handler, parse);
            !after.handlerRan && after.response == before.response
  {
    var url := "/api/properties/" + id;
    var prefix := InvalidationPrefix(UpdatePatterns(id));
    assert IsPrefix("/api/", url) by { assert url[..5] == "/api/"; }
    UpdatePrefixMissesMountedReads(id, url);
    InvalidatedClearsPrefix(st, prefix);
    assert Lookup(Invalidated(st, prefix), CacheKey(url)) == Lookup(st, CacheKey(url));
  }

  /** The evidently intended invalidation: each pattern deleted as a prefix of
      its own, with the router's mount path included. */
  function IntendedPrefixes(id: string): seq<string> {
    [CacheKey("/api/properties/" + id), CacheKey("/api/properties")]
  }

  /** The store after invalidating by each prefix in turn. */
  function InvalidatedEach(st: StoreState, prefixes: seq<string>): StoreState
    decreases |prefixes|
  {
    if prefixes == [] then st else InvalidatedEach(Invalidated(st, prefixes[0]), prefixes[1..])
  }

  /** Invalidating by several prefixes: no key matching any of them can be
      read afterwards. */
  lemma {:induction false} InvalidatedEachClears(st: StoreState, prefixes: seq<string>, k: string)
    requires exists p :: p in prefixes && IsPrefix(p, k)
    ensures Lookup(InvalidatedEach(st, prefixes), k) in {Nil, Fault}
    decreases |prefixes|
  {
    var next := Invalidated(st, prefixes[0]);
    if IsPrefix(prefixes[0], k) {
      InvalidatedClearsPrefix(st, prefixes[0]);
      InvalidatedEachKeepsMissing(next, prefixes[1..], k);
    } else {
      var p :| p in prefixes && IsPrefix(p, k);
      assert p in prefixes[1..];
      InvalidatedEachClears(next, prefixes[1..], k);
    }
  }

  /** A key that cannot be read stays so through any number of invalidations. */
  lemma {:induction false} InvalidatedEachKeepsMissing(st: StoreState, prefixes: seq<string>, k: string)
    requires Lookup(st, k) in {Nil, Fault}
    ensures Lookup(InvalidatedEach(st, prefixes), k) in {Nil, Fault}
    decreases |prefixes|
  {
    if prefixes != [] {
      InvalidatedEachKeepsMissing(Invalidated(st, prefixes[0]), prefixes[1..], k);
    }
  }

  /** The corrected invalidation: a loop over the prefixes, KEYS then DEL for each. */
  method InvalidateEach(store: Store, prefixes: seq<string>)
    modifies store
    ensures store.State() == InvalidatedEach(old(store.State()), prefixes)
  {
    var i := 0;
    while i < |prefixes|
      invariant 0 <= i <= |prefixes|
      invariant InvalidatedEach(old(store.State()), prefixes) == InvalidatedEach(store.State(), prefixes[i..])
    {
      ghost var before := store.State();
      var keys := store.KeysWithPrefix(prefixes[i]);
      if keys.Some? && |keys.value| > 0 {
        var _ := store.Del(keys.value);
      } else if keys.Some? {
        assert keys.value == {};
        assert before.entries - {} == before.entries;
      }
      assert store.State() == Invalidated(before, prefixes[i]);
      assert prefixes[i..][1..] == prefixes[i + 1..];
      i := i + 1;
    }
  }

  /** With the corrected invalidation, no cached read of the property or of
      any listing under `/api/properties` survives an update. */
  lemma IntendedInvalidationClearsReads(st: StoreState, id: string, url: string, expiry: int,
                                        handler: Response, parse: string -> Option<string>)
    requires IsPrefix("/api/properties", url)
    ensures ServeSpec(InvalidatedEach(st, IntendedPrefixes(id)), url, expiry, handler, parse).handlerRan
  {
    var ps := IntendedPrefixes(id);
    var key := CacheKey(url);
    assert IsPrefix(ps[1], key) by {
      assert key[..|ps[1]|] == KeyPrefix + url[..|"/api/properties"|];
    }
    assert ps[1] in ps;
    InvalidatedEachClears(st, ps, key);
  }
}
