/** The cache of backend-client handles (src/contexts/SupabaseContext.tsx):
    a map from a cache key derived from the bearer token to the client built
    for it and the time it was built, swept of expired entries on every
    lookup and emptied on logout. */
module SupabaseContext {
  import opened Wrappers
  import opened TokenHash

  /** Thirty minutes, in milliseconds. */
  const CACHE_TTL: int := 30 * 60 * 1000

  /** The key under which the client without a token is cached. */
  const ANONYMOUS: string := "anonymous"

  /** A client built by the external factory. The factory is modelled as a
      counter: every successful call issues the next id, so two handles are
      the same object exactly when their ids are equal. `bearer` is the token
      whose `Authorization` header the client sends, if any. */
  datatype Handle = Handle(id: nat, bearer: Option<Token>)

  /** A cache entry: the client and the time (in milliseconds) it was
      stored. */
  datatype Entry = Entry(client: Handle, timestamp: int)

  /** The factory threw; the error reaches the caller of getClient. */
  datatype FactoryError = FactoryError

  type Cache = map<string, Entry>

  /** JavaScript truthiness of an optional token: present and non-empty. */
  predicate Truthy(token: Option<Token>)
  {
    token.Some? && token.value != []
  }

  /** `token ? hashToken(token) : "anonymous"`. */
  function CacheKey(token: Option<Token>): (key: string)
    ensures key == ANONYMOUS <==> !Truthy(token)
    ensures Truthy(token) ==> ParseDecimal(key) == Some(HashValue(token.value))
  {
    if Truthy(token) then
      DecimalRoundTrip(HashValue(token.value));
      IntToDecimal(HashValue(token.value))
    else
      ANONYMOUS
  }

  /** Two different tokens, "Aa" and "BB", share one cache key. */
  lemma CacheKeyCollides()
    ensures CacheKey(Some([65, 97])) == CacheKey(Some([66, 66]))
  {
    HashCollides();
  }

  /** The sweep's test: older than the TTL. */
  predicate Expired(e: Entry, now: int)
  {
    now - e.timestamp > CACHE_TTL
  }

  /** The reuse test: younger than the TTL. An entry exactly CACHE_TTL old is
      neither expired nor reusable. */
  predicate Reusable(e: Entry, now: int)
  {
    now - e.timestamp < CACHE_TTL
  }

  /** The cache after `cleanupExpiredClients` at time `now`: the entries
      that are not expired, each unchanged. */
  function Sweep(cache: Cache, now: int): (r: Cache)
    ensures forall k :: k in r <==> k in cache && !Expired(cache[k], now)
    ensures forall k :: k in r ==> r[k] == cache[k] && !Expired(r[k], now)
  {
    map k | k in cache && !Expired(cache[k], now) :: cache[k]
  }

  /** A later sweep removes everything an earlier one would have: sweeping
      at `t1` and then at `t2 >= t1` is the same as sweeping once at `t2`. */
  lemma SweepLater(cache: Cache, t1: int, t2: int)
    requires t1 <= t2
    ensures Sweep(Sweep(cache, t1), t2) == Sweep(cache, t2)
  {
  }

  /** The state the cache operations change: the map and the number of
      handles the factory has issued. */
  datatype Step = Step(result: Result<Handle, FactoryError>, cache: Cache, issued: nat)

  /** `getClient(token)` at time `now`, when the factory would fail
      (`factoryFails`) or would issue handle number `issued`. */
  function GetClientStep(cache: Cache, issued: nat, token: Option<Token>, now: int, factoryFails: bool): (s: Step)
    ensures s.result.Ok? ==> CacheKey(token) in s.cache && s.cache[CacheKey(token)].client == s.result.value
    ensures forall k :: k != CacheKey(token) ==> (k in s.cache <==> k in cache && !Expired(cache[k], now))
    ensures forall k :: k in s.cache && k != CacheKey(token) ==> s.cache[k] == cache[k]
    ensures s.result.Err? ==> s.cache == Sweep(cache, now) && s.issued == issued
    ensures issued <= s.issued <= issued + 1
  {
    var swept := Sweep(cache, now);
    var key := CacheKey(token);
    if key in swept && Reusable(swept[key], now) then
      Step(Ok(swept[key].client), swept, issued)
    else if factoryFails then
      Step(Err(FactoryError), swept, issued)
    else
      var client := Handle(issued, if Truthy(token) then token else None);
      Step(Ok(client), swept[key := Entry(client, now)], issued + 1)
  }

  /** A live entry for the key is returned as it is, the factory is not
      called and nothing is inserted. */
  lemma GetClientReuses(cache: Cache, issued: nat, token: Option<Token>, now: int, factoryFails: bool)
    requires CacheKey(token) in cache && Reusable(cache[CacheKey(token)], now)
    ensures GetClientStep(cache, issued, token, now, factoryFails)
         == Step(Ok(cache[CacheKey(token)].client), Sweep(cache, now), issued)
  {
  }

  /** Without a live entry for the key, the factory is called: on success the
      new handle, bound to the token, is stored under the key with timestamp
      `now`, replacing any old entry; on failure nothing is stored. */
  lemma GetClientBuilds(cache: Cache, issued: nat, token: Option<Token>, now: int, factoryFails: bool)
    requires !(CacheKey(token) in cache && Reusable(cache[CacheKey(token)], now))
    ensures var s := GetClientStep(cache, issued, token, now, factoryFails);
      if factoryFails then s == Step(Err(FactoryError), Sweep(cache, now), issued)
      else
        && s.result == Ok(Handle(issued, if Truthy(token) then token else None))
        && s.cache == Sweep(cache, now)[CacheKey(token) := Entry(s.result.value, now)]
        && s.issued == issued + 1
  {
  }

  /** An entry exactly CACHE_TTL old survives the sweep but is not reused:
      the call goes to the factory. */
  lemma ExactTtlRebuilds(cache: Cache, issued: nat, token: Option<Token>, now: int)
    requires CacheKey(token) in cache && now - cache[CacheKey(token)].timestamp == CACHE_TTL
    ensures CacheKey(token) in Sweep(cache, now)
    ensures GetClientStep(cache, issued, token, now, false).result == Ok(Handle(issued, if Truthy(token) then token else None))
  {
  }

  /** Every entry of a swept cache, and every entry stored at `now`, is live
      at `now`, so a second sweep at the same time removes nothing. */
  lemma StepIsSwept(cache: Cache, issued: nat, token: Option<Token>, now: int, factoryFails: bool)
    ensures var s := GetClientStep(cache, issued, token, now, factoryFails);
      Sweep(s.cache, now) == s.cache
  {
  }

  /** Two calls with no clock advance, for the same token or any token of
      the same key: the second returns the first call's client, leaves the
      cache as it is and does not call the factory, so the factory runs at
      most once. Reuse is decided by the key, not the token. */
  lemma {:induction false} SameKeySharesClient(cache: Cache, issued: nat, t1: Option<Token>, t2: Option<Token>, now: int, fails1: bool, fails2: bool)
    requires CacheKey(t1) == CacheKey(t2)
    ensures var s1 := GetClientStep(cache, issued, t1, now, fails1);
      s1.result.Ok? ==> GetClientStep(s1.cache, s1.issued, t2, now, fails2) == s1
  {
  }

  /** Because keys collide, on an empty cache the client built for the token
      "Aa" is then handed out for the token "BB", still carrying the "Aa"
      bearer. */
  lemma CollidingTokensShareClient(issued: nat, now: int, fails: bool)
    ensures var s1 := GetClientStep(map[], issued, Some([65, 97]), now, false);
      && s1.result == Ok(Handle(issued, Some([65, 97])))
      && GetClientStep(s1.cache, s1.issued, Some([66, 66]), now, fails).result == s1.result
  {
    var aa: Option<Token>, bb: Option<Token> := Some([65, 97]), Some([66, 66]);
    CacheKeyCollides();
    SameKeySharesClient(map[], issued, aa, bb, now, false, fails);
  }

  /** After the cache is emptied, the next call for any token builds a new
      client. */
  lemma EmptyCacheBuilds(issued: nat, token: Option<Token>, now: int)
    ensures GetClientStep(map[], issued, token, now, false).result == Ok(Handle(issued, if Truthy(token) then token else None))
    ensures GetClientStep(map[], issued, token, now, false).issued == issued + 1
  {
  }

  /** The cache's invariant: every client was issued by the factory before,
      and is stored under the key of the token it carries. */
  ghost predicate WellFormed(cache: Cache, issued: nat)
  {
    forall k :: k in cache ==> cache[k].client.id < issued && CacheKey(cache[k].client.bearer) == k
  }

  /** getClient keeps the invariant, and a newly built client is a new
      object: it is none of the clients the cache held. */
  lemma GetClientStepWellFormed(cache: Cache, issued: nat, token: Option<Token>, now: int, factoryFails: bool)
    requires WellFormed(cache, issued)
    ensures var s := GetClientStep(cache, issued, token, now, factoryFails);
      && WellFormed(s.cache, s.issued)
      && (s.issued == issued + 1 ==> forall k :: k in cache ==> cache[k].client != s.result.value)
  {
  }

  /** A user id that JavaScript treats as truthy: present and non-empty. */
  predicate Present(userId: Option<string>)
  {
    userId.Some? && userId.value != ""
  }

  /** The logout edge: the remembered user id is truthy and the new one is
      not. */
  predicate LoggedOut(lastUserId: Option<string>, userId: Option<string>)
  {
    Present(lastUserId) && !Present(userId)
  }

  /** The provider's state: `clientCacheRef.current`, `lastUserIdRef.current`
      and the factory's counter. */
  class SupabaseProvider {
    var clientCache: Cache
    var lastUserId: Option<string>
    var issued: nat

    ghost predicate Valid()
      reads this
    {
      WellFormed(clientCache, issued) && (lastUserId.Some? ==> lastUserId.value != "")
    }

    constructor ()
      ensures Valid()
      ensures clientCache == map[] && lastUserId == None && issued == 0
    {
      clientCache := map[];
      lastUserId := None;
      issued := 0;
    }

    /** `cleanupExpiredClients`: over a snapshot of the entries, delete every
        one older than the TTL. */
    method CleanupExpiredClients(now: int)
      requires Valid()
      modifies this`clientCache
      ensures Valid()
      ensures clientCache == Sweep(old(clientCache), now)
    {
      ghost var before := clientCache;
      var keys := clientCache.Keys;
      while keys != {}
        invariant keys <= before.Keys
        invariant clientCache.Keys <= before.Keys
        invariant forall k :: k in clientCache ==> clientCache[k] == before[k]
        invariant forall k :: k in before ==> (k in clientCache <==> k in keys || !Expired(before[k], now))
        invariant WellFormed(clientCache, issued)
        decreases keys
      {
        var k :| k in keys;
        if now - clientCache[k].timestamp > CACHE_TTL {
          clientCache := clientCache - {k};
        }
        keys := keys - {k};
      }
      assert clientCache.Keys == Sweep(before, now).Keys;
    }

    /** `getClient(token)` at time `now`; `factoryFails` says whether the
        external factory would throw if it were called. */
    method GetClient(token: Option<Token>, now: int, factoryFails: bool) returns (client: Result<Handle, FactoryError>)
      requires Valid()
      modifies this`clientCache, this`issued
      ensures Valid()
      ensures Step(client, clientCache, issued) == GetClientStep(old(clientCache), old(issued), token, now, factoryFails)
    {
      GetClientStepWellFormed(clientCache, issued, token, now, factoryFails);
      CleanupExpiredClients(now);
      var cacheKey: string;
      if Truthy(token) {
        cacheKey := HashToken(token.value);
      } else {
        cacheKey := ANONYMOUS;
      }
      if cacheKey in clientCache && now - clientCache[cacheKey].timestamp < CACHE_TTL {
        return Ok(clientCache[cacheKey].client);
      }
      if factoryFails {
        return Err(FactoryError);
      }
      var built := Handle(issued, if Truthy(token) then token else None);
      issued := issued + 1;
      clientCache := clientCache[cacheKey := Entry(built, now)];
      client := Ok(built);
    }

    /** `clearCache`. */
    method ClearCache()
      requires Valid()
      modifies this`clientCache
      ensures Valid()
      ensures clientCache == map[]
    {
      clientCache := map[];
    }

    /** The effect that runs when the signed-in user id changes: empty the
        cache on the logout edge, then remember the id or null. */
    method ObserveUserId(userId: Option<string>)
      requires Valid()
      modifies this`clientCache, this`lastUserId
      ensures Valid()
      ensures LoggedOut(old(lastUserId), userId) ==> clientCache == map[]
      ensures !LoggedOut(old(lastUserId), userId) ==> clientCache == old(clientCache)
      ensures lastUserId == if Present(userId) then userId else None
    {
      if Present(lastUserId) && !Present(userId) {
        clientCache := map[];
      }
      lastUserId := if Present(userId) then userId else None;
    }
  }
}
