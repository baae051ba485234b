/** The caching repository in front of the credentials store: reads go
    through the cache, writes go to the store and forget the cached copy. */
module CredentialCache {
  import opened Php
  import opened PlatformTypes
  import opened PixelCredentials

  /** An application's credentials as the store and the cache hold them: a
      serialised copy, so later changes to one do not reach the other. */
  datatype Stored = Stored(appId: int, keys: seq<string>, credentials: map<string, Credentials>)

  const CachePrefix := "pixel_manager:credentials:"

  /** The cache key of an application's credentials. */
  function AppKey(appId: int): string {
    CachePrefix + "app:" + IntStr(appId)
  }

  /** Each application has its own cache key. */
  lemma AppKeyInjective(a: int, b: int)
    requires AppKey(a) == AppKey(b)
    ensures a == b
  {
    assert AppKey(a)[30..] == IntStr(a) && AppKey(b)[30..] == IntStr(b);
    IntStrInjective(a, b);
  }

  /** `getCredentialsFor` on a stored copy. */
  function CredentialsIn(s: Stored, p: PlatformType): (r: Option<Credentials>)
    ensures r.Some? <==> p.Value() in s.credentials
    ensures r.Some? ==> r.value == s.credentials[p.Value()]
  {
    if p.Value() in s.credentials then Some(s.credentials[p.Value()]) else None
  }

  function Get(store: map<int, Stored>, appId: int): Option<Stored> {
    if appId in store then Some(store[appId]) else None
  }

  class CachedCredentialsRepository {
    /** The inner repository's contents, by application id. */
    var store: map<int, Stored>
    /** The application cache; `remember` also stores a null result, and a
        stored null reads as a miss. */
    var cache: map<string, Option<Stored>>
    const ttl: int

    constructor (store: map<int, Stored>, cache: map<string, Option<Stored>>, ttl: int)
      ensures this.store == store && this.cache == cache && this.ttl == ttl
    {
      this.store := store;
      this.cache := cache;
      this.ttl := ttl;
    }

    /** Every cached copy is the store's current one. */
    ghost predicate Coherent()
      reads this
    {
      forall a :: AppKey(a) in cache && cache[AppKey(a)].Some? ==> Get(store, a) == cache[AppKey(a)]
    }

    predicate Hit(appId: int)
      reads this
    {
      AppKey(appId) in cache && cache[AppKey(appId)].Some?
    }

    /** `findByApplicationId`: the cached copy on a hit; otherwise the
        store's answer, which is then cached, null included. */
    method FindByApplicationId(appId: int) returns (r: Option<Stored>)
      modifies this
      ensures store == old(store)
      ensures old(Hit(appId)) ==> r == old(cache[AppKey(appId)]) && cache == old(cache)
      ensures !old(Hit(appId)) ==> r == Get(store, appId) && cache == old(cache)[AppKey(appId) := r]
      ensures old(Coherent()) ==> r == Get(store, appId) && Coherent()
    {
      var key := AppKey(appId);
      if key in cache && cache[key].Some? {
        r := cache[key];
      } else {
        r := Get(store, appId);
        cache := cache[key := r];
        forall a | AppKey(a) in cache && cache[AppKey(a)].Some?
          ensures old(Coherent()) ==> Get(store, a) == cache[AppKey(a)]
        {
          if AppKey(a) == key {
            AppKeyInjective(a, appId);
          }
        }
      }
    }

    /** `findPlatformCredentials`: the platform's entry of the (cached)
        application credentials, null when there are none. */
    method FindPlatformCredentials(appId: int, p: PlatformType) returns (r: Option<Credentials>)
      modifies this
      ensures store == old(store)
      ensures old(Coherent()) ==> Coherent()
      ensures old(Coherent()) ==> r == (if appId in store then CredentialsIn(store[appId], p) else None)
    {
      var found := FindByApplicationId(appId);
      r := if found.Some? then CredentialsIn(found.value, p) else None;
    }

    /** `save`: write through to the store, then forget the cached copy. */
    method Save(s: Stored)
      modifies this
      ensures store == old(store)[s.appId := s]
      ensures cache == old(cache) - {AppKey(s.appId)}
      ensures old(Coherent()) ==> Coherent()
    {
      store := store[s.appId := s];
      assert old(Coherent()) ==> CoherentExcept(s.appId);
      Forget(s.appId);
    }

    /** `delete`: remove from the store, then forget the cached copy. */
    method Delete(appId: int)
      modifies this
      ensures store == old(store) - {appId}
      ensures cache == old(cache) - {AppKey(appId)}
      ensures old(Coherent()) ==> Coherent()
    {
      store := store - {appId};
      assert old(Coherent()) ==> CoherentExcept(appId);
      Forget(appId);
    }

    /** `invalidateCache`: drops the application's cached copy, which is
        the only one that may be stale. */
    method Forget(appId: int)
      modifies this
      ensures store == old(store) && cache == old(cache) - {AppKey(appId)}
      ensures old(CoherentExcept(appId)) ==> Coherent()
    {
      cache := cache - {AppKey(appId)};
    }

    ghost predicate CoherentExcept(appId: int)
      reads this
    {
      forall a :: a != appId && AppKey(a) in cache && cache[AppKey(a)].Some? ==> Get(store, a) == cache[AppKey(a)]
    }
  }

  /** Once the cache holds nothing stale, reading an application twice
      gives the same answer as the store, and the second read is a hit
      unless the application is unknown. */
  method ReadTwice(repo: CachedCredentialsRepository, appId: int) returns (r1: Option<Stored>, r2: Option<Stored>)
    requires repo.Coherent()
    modifies repo
    ensures r1 == r2 == Get(repo.store, appId) && repo.store == old(repo.store)
    ensures r1.Some? ==> repo.Hit(appId)
  {
    r1 := repo.FindByApplicationId(appId);
    r2 := repo.FindByApplicationId(appId);
  }

  /** A save is seen by the next read, whatever was cached before. */
  method SaveThenRead(repo: CachedCredentialsRepository, s: Stored) returns (r: Option<Stored>)
    requires repo.Coherent()
    modifies repo
    ensures r == Some(s) && repo.Coherent()
  {
    repo.Save(s);
    r := repo.FindByApplicationId(s.appId);
  }
}
