/**
 * The offline service worker: named caches filled on install, pruned on
 * activate, and a network-first fetch handler that keeps good responses
 * and falls back to the caches when the network fails.
 */
module ServiceWorker {
  import opened Common

  const CacheName: string := "fitstream-v1"
  const RuntimeCache: string := "fitstream-runtime"
  const PrecacheUrls: seq<string> := ["/", "/comunidade", "/perfil", "/manifest.json", "/icon-192.png", "/icon-512.png"]

  /**
   * Request URLs are absolute, as `event.request.url` gives them. The
   * relative paths of the precache list and the `'/'` of the fallback are
   * resolved against the worker's origin (scheme and host, no trailing slash).
   */
  function Resolve(origin: string, path: string): (url: string)
    ensures StartsWith(url, origin) && url[|origin|..] == path
  {
    origin + path
  }

  /** The keys `cache.addAll(PRECACHE_URLS)` stores under. */
  function PrecacheKeys(origin: string): (r: seq<string>)
    ensures |r| == |PrecacheUrls| && r[0] == Resolve(origin, "/")
    ensures forall k :: 0 <= k < |r| ==> r[k] == Resolve(origin, PrecacheUrls[k])
  {
    seq(|PrecacheUrls|, k requires 0 <= k < |PrecacheUrls| => Resolve(origin, PrecacheUrls[k]))
  }

  datatype Response = Response(status: int, body: string)

  /** One named cache: the stored response per request URL. */
  datatype Cache = Cache(name: string, entries: map<string, Response>)

  /** What the fetch handler does: leave the request to the browser, or answer it (possibly with nothing). */
  datatype FetchResult = NotIntercepted | Respond(response: Option<Response>)

  predicate HasCache(caches: seq<Cache>, name: string)
  {
    exists k :: 0 <= k < |caches| && caches[k].name == name
  }

  /** Cache storage is keyed by name. */
  ghost predicate DistinctNames(caches: seq<Cache>)
  {
    forall i, j :: 0 <= i < j < |caches| ==> caches[i].name != caches[j].name
  }

  /** `caches.open(name)`: the cache with that name, created empty after the others when missing. */
  function Open(caches: seq<Cache>, name: string): (r: seq<Cache>)
    ensures HasCache(r, name)
    ensures HasCache(caches, name) ==> r == caches
    ensures !HasCache(caches, name) ==> r == caches + [Cache(name, map[])]
    ensures DistinctNames(caches) ==> DistinctNames(r)
  {
    if HasCache(caches, name) then caches
    else
      var r := caches + [Cache(name, map[])];
      assert r[|caches|].name == name;
      r
  }

  /** `cache.put(url, response)` on the cache with that name. */
  function Put(caches: seq<Cache>, name: string, url: string, response: Response): (r: seq<Cache>)
    ensures |r| == |caches|
    ensures forall k :: 0 <= k < |r| ==> r[k].name == caches[k].name
    ensures forall k :: 0 <= k < |r| ==>
      r[k].entries == if caches[k].name == name then caches[k].entries[url := response] else caches[k].entries
  {
    seq(|caches|, k requires 0 <= k < |caches| =>
      if caches[k].name == name then Cache(name, caches[k].entries[url := response]) else caches[k])
  }

  /** A response `addAll` accepts. */
  predicate IsOk(response: Response)
  {
    200 <= response.status <= 299
  }

  /** Every URL was fetched with an ok response; `network` holds the answers the network gave. */
  predicate AllFetched(network: map<string, Response>, urls: seq<string>)
  {
    forall u :: u in urls ==> u in network && IsOk(network[u])
  }

  /** The effect of a successful `cache.addAll(urls)`. */
  function PutAll(caches: seq<Cache>, name: string, urls: seq<string>, network: map<string, Response>): (r: seq<Cache>)
    requires forall u :: u in urls ==> u in network
    ensures |r| == |caches|
    ensures forall k :: 0 <= k < |r| ==> r[k].name == caches[k].name
    ensures forall k :: 0 <= k < |r| && caches[k].name != name ==> r[k] == caches[k]
    ensures forall k :: 0 <= k < |r| && caches[k].name == name ==>
      (forall u :: u in urls ==> u in r[k].entries && r[k].entries[u] == network[u])
    ensures forall k :: 0 <= k < |r| && caches[k].name == name ==>
      (forall u :: u in caches[k].entries && u !in urls ==> u in r[k].entries && r[k].entries[u] == caches[k].entries[u])
  {
    if urls == [] then caches
    else
      var init := urls[..|urls| - 1];
      var last := urls[|urls| - 1];
      assert urls == init + [last];
      var before := PutAll(caches, name, init, network);
      var r := Put(before, name, last, network[last]);
      forall k | 0 <= k < |r| && caches[k].name != name ensures r[k] == caches[k] {
        assert r[k] == Cache(before[k].name, before[k].entries);
      }
      r
  }

  /** `caches.match(url)`: the first cache, in creation order, that holds the URL. */
  function Match(caches: seq<Cache>, url: string): (r: Option<Response>)
    ensures r.None? <==> forall k :: 0 <= k < |caches| ==> url !in caches[k].entries
  {
    if caches == [] then None
    else if url in caches[0].entries then Some(caches[0].entries[url])
    else
      var rest := Match(caches[1..], url);
      assert forall k :: 1 <= k < |caches| ==> caches[k] == caches[1..][k - 1];
      rest
  }

  /** The answer is the entry of the first cache that holds the URL. */
  lemma {:induction false} MatchIsFirstHolder(caches: seq<Cache>, url: string, k: int)
    requires 0 <= k < |caches| && url in caches[k].entries
    requires forall j :: 0 <= j < k ==> url !in caches[j].entries
    ensures Match(caches, url) == Some(caches[k].entries[url])
  {
    if k > 0 {
      assert caches[1..][k - 1] == caches[k];
      forall j | 0 <= j < k - 1 ensures url !in caches[1..][j].entries {
        assert caches[1..][j] == caches[j + 1];
      }
      MatchIsFirstHolder(caches[1..], url, k - 1);
    }
  }

  /** The caches activation keeps. */
  predicate IsCurrent(c: Cache)
  {
    c.name == CacheName || c.name == RuntimeCache
  }

  /** Activation's filter: every cache with another name is deleted. */
  function Kept(caches: seq<Cache>): (r: seq<Cache>)
    ensures forall c :: c in r <==> c in caches && IsCurrent(c)
    ensures |r| <= |caches|
  {
    if caches == [] then []
    else (if IsCurrent(caches[0]) then [caches[0]] else []) + Kept(caches[1..])
  }

  /** The URLs the worker leaves alone: anything but GET, and API or hosting-provider addresses. */
  predicate Intercepts(verb: string, url: string)
  {
    verb == "GET" && !Contains(url, "/api/") && !Contains(url, "supabase") && !Contains(url, "vercel")
  }

  /** The worker's own pages are never intercepted when the origin's host names the hosting provider. */
  lemma ProviderHostInterceptsNothing(verb: string, origin: string, path: string)
    requires Contains(origin, "vercel")
    ensures !Intercepts(verb, Resolve(origin, path))
  {
    ContainsExtend(origin, "vercel", path);
  }

  /** The offline answer: the cached copy of the request, else the cached home page, else nothing. */
  function Fallback(caches: seq<Cache>, origin: string, url: string): (r: Option<Response>)
    ensures r.None? <==> Match(caches, url).None? && Match(caches, Resolve(origin, "/")).None?
    ensures Match(caches, url).Some? ==> r == Match(caches, url)
  {
    match Match(caches, url)
    case Some(cached) => Some(cached)
    case None => Match(caches, Resolve(origin, "/"))
  }

  /** After a complete install, the precache (at index `k`) holds every listed URL with the response fetched for it. */
  lemma InstallFillsPrecache(caches: seq<Cache>, origin: string, network: map<string, Response>) returns (k: int)
    requires AllFetched(network, PrecacheKeys(origin))
    ensures var r := PutAll(Open(caches, CacheName), CacheName, PrecacheKeys(origin), network);
      0 <= k < |r| && r[k].name == CacheName
      && forall u :: u in PrecacheKeys(origin) ==> u in r[k].entries && r[k].entries[u] == network[u]
  {
    var present := Open(caches, CacheName);
    k :| 0 <= k < |present| && present[k].name == CacheName;
  }

  /** A URL some cache holds always gets an answer from `caches.match`. */
  lemma MatchFindsHeld(caches: seq<Cache>, c: Cache, url: string)
    requires c in caches && url in c.entries
    ensures Match(caches, url).Some?
  {
    var k :| 0 <= k < |caches| && caches[k] == c;
  }

  /** Once installed and activated, the worker always has an offline answer: at worst the home page. */
  lemma OfflineAlwaysAnswers(caches: seq<Cache>, origin: string, network: map<string, Response>, url: string)
    requires AllFetched(network, PrecacheKeys(origin))
    ensures Fallback(Kept(PutAll(Open(caches, CacheName), CacheName, PrecacheKeys(origin), network)), origin, url).Some?
  {
    var installed := PutAll(Open(caches, CacheName), CacheName, PrecacheKeys(origin), network);
    var k := InstallFillsPrecache(caches, origin, network);
    var c := installed[k];
    assert Resolve(origin, "/") in c.entries by {
      assert Resolve(origin, "/") in PrecacheKeys(origin);
    }
    assert c in Kept(installed);
    MatchFindsHeld(Kept(installed), c, Resolve(origin, "/"));
  }

  /** A stored 200 response is what the worker answers offline when no older cache held that URL. */
  lemma StoredResponseServedOffline(caches: seq<Cache>, origin: string, url: string, response: Response)
    requires DistinctNames(caches)
    requires forall k :: 0 <= k < |caches| && caches[k].name != RuntimeCache ==> url !in caches[k].entries
    ensures Fallback(Put(Open(caches, RuntimeCache), RuntimeCache, url, response), origin, url) == Some(response)
  {
    var present := Open(caches, RuntimeCache);
    var r := Put(present, RuntimeCache, url, response);
    var k :| 0 <= k < |present| && present[k].name == RuntimeCache;
    forall j | 0 <= j < k ensures url !in r[j].entries {
      assert present[j].name != RuntimeCache;
      assert r[j].entries == present[j].entries;
      assert j < |caches| && present[j] == caches[j];
    }
    MatchIsFirstHolder(r, url, k);
  }

  /**
   * A cache created before the runtime cache that already held the URL keeps
   * answering offline with its own, older copy, whatever the network returned since.
   */
  lemma EarlierCopyShadowsFresh(caches: seq<Cache>, origin: string, url: string, response: Response, k: int)
    requires HasCache(caches, RuntimeCache)
    requires 0 <= k < |caches| && url in caches[k].entries
    requires forall j :: 0 <= j <= k ==> caches[j].name != RuntimeCache
    requires forall j :: 0 <= j < k ==> url !in caches[j].entries
    ensures Fallback(Put(Open(caches, RuntimeCache), RuntimeCache, url, response), origin, url) == Some(caches[k].entries[url])
  {
    var r := Put(caches, RuntimeCache, url, response);
    forall j | 0 <= j <= k ensures r[j].entries == caches[j].entries {
    }
    MatchIsFirstHolder(r, url, k);
  }

  class Worker {
    const origin: string
    var caches: seq<Cache>
    var skipWaitingCalled: bool
    var clientsClaimed: bool

    ghost predicate Valid()
      reads this
    {
      DistinctNames(caches)
    }

    /** A worker starting over whatever caches earlier versions left. */
    constructor (origin: string, existing: seq<Cache>)
      requires DistinctNames(existing)
      ensures Valid() && this.origin == origin && caches == existing && !skipWaitingCalled && !clientsClaimed
    {
      this.origin := origin;
      caches := existing;
      skipWaitingCalled := false;
      clientsClaimed := false;
    }

    /**
     * The install handler. `addAll` is all-or-nothing: one failed or non-ok
     * response rejects it, leaves the present cache as it was and skips `skipWaiting`.
     */
    method Install(network: map<string, Response>) returns (installed: bool)
      requires Valid()
      modifies this
      ensures Valid()
      ensures installed <==> AllFetched(network, PrecacheKeys(origin))
      ensures installed ==>
        caches == PutAll(Open(old(caches), CacheName), CacheName, PrecacheKeys(origin), network) && skipWaitingCalled
      ensures !installed ==> caches == Open(old(caches), CacheName) && skipWaitingCalled == old(skipWaitingCalled)
      ensures clientsClaimed == old(clientsClaimed)
    {
      caches := Open(caches, CacheName);
      if !AllFetched(network, PrecacheKeys(origin)) {
        return false;
      }
      caches := PutAll(caches, CacheName, PrecacheKeys(origin), network);
      skipWaitingCalled := true;
      return true;
    }

    /** The activate handler: delete every cache but the two current ones, then claim the clients. */
    method Activate()
      requires Valid()
      modifies this
      ensures Valid()
      ensures caches == Kept(old(caches)) && clientsClaimed
      ensures skipWaitingCalled == old(skipWaitingCalled)
    {
      KeptDistinct(caches);
      caches := Kept(caches);
      clientsClaimed := true;
    }

    /**
     * The fetch handler on the absolute request `url`. `network` is the network's
     * answer, or None when the fetch rejects. Only a 200 response is stored; any
     * response is returned.
     */
    method Fetch(verb: string, url: string, network: Option<Response>) returns (r: FetchResult)
      requires Valid()
      modifies this
      ensures Valid()
      ensures !Intercepts(verb, url) ==> r == NotIntercepted && caches == old(caches)
      ensures Intercepts(verb, url) && network.Some? ==>
        r == Respond(network)
        && caches == (if network.value.status == 200 then Put(Open(old(caches), RuntimeCache), RuntimeCache, url, network.value)
                      else Open(old(caches), RuntimeCache))
      ensures Intercepts(verb, url) && network.None? ==>
        caches == Open(old(caches), RuntimeCache) && r == Respond(Fallback(caches, origin, url))
      ensures skipWaitingCalled == old(skipWaitingCalled) && clientsClaimed == old(clientsClaimed)
    {
      if verb != "GET" {
        return NotIntercepted;
      }
      if Contains(url, "/api/") || Contains(url, "supabase") || Contains(url, "vercel") {
        return NotIntercepted;
      }
      caches := Open(caches, RuntimeCache);
      match network
      case Some(response) =>
        if response.status == 200 {
          caches := Put(caches, RuntimeCache, url, response);
        }
        return Respond(Some(response));
      case None =>
        var cached := Match(caches, url);
        if cached.Some? {
          return Respond(cached);
        }
        return Respond(Match(caches, Resolve(origin, "/")));
    }

    /** The message handler: only `{ type: 'SKIP_WAITING' }` has an effect. */
    method Message(messageType: Option<string>)
      modifies this
      ensures skipWaitingCalled == (old(skipWaitingCalled) || messageType == Some("SKIP_WAITING"))
      ensures caches == old(caches) && clientsClaimed == old(clientsClaimed)
    {
      if messageType == Some("SKIP_WAITING") {
        skipWaitingCalled := true;
      }
    }
  }

  lemma {:induction false} KeptDistinct(caches: seq<Cache>)
    requires DistinctNames(caches)
    ensures DistinctNames(Kept(caches))
  {
    if caches != [] {
      KeptDistinct(caches[1..]);
      var rest := Kept(caches[1..]);
      forall k | 0 <= k < |rest| ensures rest[k].name != caches[0].name {
        assert rest[k] in caches[1..];
        var j :| 0 <= j < |caches[1..]| && caches[1..][j] == rest[k];
        assert caches[j + 1] == rest[k];
      }
    }
  }
}
