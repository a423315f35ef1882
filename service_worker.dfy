/** The caching service worker: its configuration, the request classification, the two
    fetch strategies and the install / activate lifecycle, over the cache store of CacheStore.
    The network is an oracle `network: Request -> NetworkResult`. The out-parameter `fetched`
    says whether a strategy took its network branch; when it is false, the response and the
    new store are determined by the old store alone, whatever the network would answer. */
module ServiceWorker {
  import opened Fetch
  import opened CacheStore

  // ---------------------------------------------------------------------------------------
  // Configuration

  const Version: string := "1"
  /** The general (asset) partition. */
  const CacheName: string := "pwa-myMovie-" + Version
  /** The movie-detail partition. */
  const MovieDetailsCache: string := "pwa-movieDetails-" + Version
  /** The asset manifest stored at install time. */
  const ElementsToCache: seq<string> := ["/", "/index.html", "/css/style.css", "/js/main.js"]
  /** The partitions that survive activation. */
  const Whitelist: set<string> := {CacheName, MovieDetailsCache}
  /** Requests whose URL starts with this are movie-detail lookups. */
  const MovieDetailsUrl: string := "https://moviedb-server-m35e.onrender.com/api/id/"

  /** The two partitions of one version are distinct. */
  lemma PartitionNamesDistinct()
    ensures CacheName != MovieDetailsCache
  {
  }

  // ---------------------------------------------------------------------------------------
  // Classification

  datatype Route = MovieDetail | General

  /** `s.startsWith(prefix)`, character by character. */
  function StartsWith(s: string, prefix: string): (b: bool)
    ensures b ==> |prefix| <= |s|
    decreases prefix
  {
    |prefix| == 0 || (|s| > 0 && s[0] == prefix[0] && StartsWith(s[1..], prefix[1..]))
  }

  /** `startsWith` holds exactly when `prefix` is an initial segment of `s`. */
  lemma {:induction false} StartsWithIsPrefix(s: string, prefix: string)
    ensures StartsWith(s, prefix) <==> |prefix| <= |s| && s[..|prefix|] == prefix
    decreases prefix
  {
    if |prefix| > 0 && |s| > 0 {
      StartsWithIsPrefix(s[1..], prefix[1..]);
      if |prefix| <= |s| {
        assert s[..|prefix|] == [s[0]] + s[1..][..|prefix| - 1];
        assert prefix == [prefix[0]] + prefix[1..];
      }
    }
  }

  /** The route of a request. It is a function of the URL alone. */
  function Classify(url: string): (r: Route)
    ensures r == MovieDetail <==>
      |MovieDetailsUrl| <= |url| && url[..|MovieDetailsUrl|] == MovieDetailsUrl
  {
    StartsWithIsPrefix(url, MovieDetailsUrl);
    if StartsWith(url, MovieDetailsUrl) then MovieDetail else General
  }

  // ---------------------------------------------------------------------------------------
  // Responses

  /** The general strategy's check: a delivered response is rejected when its status is
      non-zero and not ok; an opaque response (status 0) passes. */
  function PassesValidation(r: Response): (b: bool)
    ensures b <==> r.status == 0 || 200 <= r.status <= 299
  {
    !(r.status > 0 && !r.Ok())
  }

  /** The synthetic fallback: status 404 with a null body. */
  function Response404(): (r: Response)
    ensures r.status == 404 && r.body == None
    ensures !r.Ok() && !PassesValidation(r)
  {
    Response(404, None)
  }

  // ---------------------------------------------------------------------------------------
  // Install: cache.addAll over the manifest

  /** `cache.addAll` accepts a fetched response only when it was delivered with an ok status.
      That is stricter than the general strategy's check, which also lets opaque responses in. */
  function AddAllAccepts(o: NetworkResult): (b: bool)
    ensures b ==> o.Delivered? && PassesValidation(o.response) && o.response.status != 0
  {
    o.Delivered? && o.response.Ok()
  }

  /** The entries `cache.addAll(paths)` would store, or None when it rejects, for paths
      without duplicates. Every entry is the accepted response fetched for its own request. */
  function FetchAll(paths: seq<string>, network: Request -> NetworkResult): (r: Option<Partition>)
    ensures r.Some? ==> forall k :: k in r.value ==>
      AddAllAccepts(network(k)) && r.value[k] == network(k).response
    decreases |paths|
  {
    if |paths| == 0 then Some(map[])
    else
      var req := GetRequest(paths[|paths| - 1]);
      match FetchAll(paths[..|paths| - 1], network)
      case None => None
      case Some(e) => if AddAllAccepts(network(req)) then Some(e[req := network(req).response]) else None
  }

  /** addAll is all-or-nothing: it succeeds exactly when every path's fetch is accepted. */
  lemma {:induction false} FetchAllSucceeds(paths: seq<string>, network: Request -> NetworkResult)
    ensures FetchAll(paths, network).Some? <==>
      forall i :: 0 <= i < |paths| ==> AddAllAccepts(network(GetRequest(paths[i])))
    decreases |paths|
  {
    if |paths| > 0 {
      var init := paths[..|paths| - 1];
      FetchAllSucceeds(init, network);
      assert forall i :: 0 <= i < |init| ==> init[i] == paths[i];
    }
  }

  /** On success addAll stores exactly one entry per path: the response fetched for it. */
  lemma {:induction false} FetchAllEntries(paths: seq<string>, network: Request -> NetworkResult, e: Partition)
    requires FetchAll(paths, network) == Some(e)
    ensures forall k :: k in e <==> k.verb == "GET" && k.url in paths
    ensures forall p :: p in paths ==>
      network(GetRequest(p)).Delivered? && e[GetRequest(p)] == network(GetRequest(p)).response
    decreases |paths|
  {
    if |paths| > 0 {
      var init := paths[..|paths| - 1];
      var e' := FetchAll(init, network).value;
      FetchAllEntries(init, network, e');
      assert paths == init + [paths[|paths| - 1]];
    }
  }

  /** A successful addAll into partition `name` makes every path answerable from it with the
      response fetched for it; into a new partition, those are its only entries. */
  lemma AddAllStoresEveryPath(s: Store, name: string, paths: seq<string>,
                              network: Request -> NetworkResult, e: Partition)
    requires FetchAll(paths, network) == Some(e)
    ensures forall p :: p in paths ==>
      network(GetRequest(p)).Delivered? &&
      Lookup(PutAll(s, name, e), name, GetRequest(p)) == Some(network(GetRequest(p)).response)
    ensures name !in s ==> forall k :: k in PutAll(s, name, e)[name] <==> k.verb == "GET" && k.url in paths
  {
    FetchAllEntries(paths, network, e);
  }

  // ---------------------------------------------------------------------------------------
  // Fetch strategies, specified on store values

  /** The movie-detail read-through strategy, scoped to MovieDetailsCache: a stored entry is
      returned as is without the network; otherwise the network response, whatever its status,
      is stored and returned; a network error gives the synthetic 404. The partition is opened
      (created if absent) before the lookup. */
  ghost predicate ReadThroughSpec(before: Store, after: Store, req: Request, outcome: NetworkResult,
                                  resp: Response, fetched: bool)
  {
    match Lookup(before, MovieDetailsCache, req)
    case Some(stored) => resp == stored && !fetched && after == before
    case None =>
      fetched &&
      match outcome
      case Delivered(r) => resp == r && after == Put(before, MovieDetailsCache, req, r)
      case NetworkError => resp == Response404() && after == Open(before, MovieDetailsCache)
  }

  /** The cache-first-and-save strategy: an entry in any partition is returned without the
      network; otherwise a delivered response that passes validation is stored in CacheName
      and returned; a network error or a rejected response gives the synthetic 404 and leaves
      the store as it was. */
  ghost predicate CacheFirstAndSaveSpec(before: Store, after: Store, req: Request, outcome: NetworkResult,
                                        resp: Response, fetched: bool)
  {
    if Cached(before, req) then StoredAnywhere(before, req, resp) && !fetched && after == before
    else
      fetched &&
      match outcome
      case Delivered(r) =>
        if PassesValidation(r) then resp == r && after == Put(before, CacheName, req, r)
        else resp == Response404() && after == before
      case NetworkError => resp == Response404() && after == before
  }

  /** Going from `before` to `after` at most adds the entry of `req`: every entry that was
      there stays, unchanged, and the entries of all other requests are untouched. */
  ghost predicate OnlyAddsEntryFor(before: Store, after: Store, req: Request)
  {
    && (forall n, k :: k != req ==> Lookup(after, n, k) == Lookup(before, n, k))
    && (forall n, k :: Lookup(before, n, k).Some? ==> Lookup(after, n, k) == Lookup(before, n, k))
  }

  /** Either strategy at most adds the entry of its own request. */
  lemma StepPreservesEntries(before: Store, after: Store, req: Request, outcome: NetworkResult,
                             resp: Response, fetched: bool)
    requires ReadThroughSpec(before, after, req, outcome, resp, fetched)
          || CacheFirstAndSaveSpec(before, after, req, outcome, resp, fetched)
    ensures OnlyAddsEntryFor(before, after, req)
  {
  }

  /** Once a movie-detail request has been answered from the cache or the network, every later
      dispatch of it is served from the cache with the same response and changes nothing. */
  lemma DetailRevisitServedFromCache(s0: Store, s1: Store, s2: Store, req: Request,
                                     o1: NetworkResult, o2: NetworkResult,
                                     r1: Response, r2: Response, f1: bool, f2: bool)
    requires ReadThroughSpec(s0, s1, req, o1, r1, f1)
    requires !(f1 && o1.NetworkError?)
    requires ReadThroughSpec(s1, s2, req, o2, r2, f2)
    ensures !f2 && r2 == r1 && s2 == s1
  {
  }

  /** A general request answered by the network with a valid response is, on its next
      dispatch, served from the cache with that same response and no network call. */
  lemma GeneralRevisitServedFromCache(s0: Store, s1: Store, s2: Store, req: Request,
                                      r: Response, o2: NetworkResult,
                                      r1: Response, r2: Response, f1: bool, f2: bool)
    requires CacheFirstAndSaveSpec(s0, s1, req, Delivered(r), r1, f1)
    requires f1 && PassesValidation(r)
    requires CacheFirstAndSaveSpec(s1, s2, req, o2, r2, f2)
    ensures !f2 && r2 == r1 && s2 == s1
  {
  }

  /** An uncached general request: a delivered error status (non-zero, not ok) gives the
      synthetic 404 and stores nothing anywhere. */
  lemma GeneralErrorStatusNotCached(s0: Store, s1: Store, req: Request, r: Response,
                                    resp: Response, fetched: bool)
    requires CacheFirstAndSaveSpec(s0, s1, req, Delivered(r), resp, fetched)
    requires !Cached(s0, req) && r.status > 0 && !r.Ok()
    ensures fetched && resp.status == 404 && resp.body == None
    ensures !Cached(s1, req)
  {
  }

  /** An entry in MovieDetailsCache survives every other event: installing (which opens and
      fills CacheName) and activating (which keeps the whitelist). Fetch events keep it by
      StepPreservesEntries. */
  lemma DetailEntrySurvivesLifecycle(s: Store, req: Request, r: Response)
    requires Lookup(s, MovieDetailsCache, req) == Some(r)
    ensures Lookup(Open(s, CacheName), MovieDetailsCache, req) == Some(r)
    ensures forall e :: Lookup(PutAll(s, CacheName, e), MovieDetailsCache, req) == Some(r)
    ensures Lookup(Retain(s, Whitelist), MovieDetailsCache, req) == Some(r)
  {
    PartitionNamesDistinct();
  }

  // ---------------------------------------------------------------------------------------
  // The worker

  class Worker {
    /** The browser's cache storage, durable across worker versions. */
    var caches: Store
    /** Set once the worker has claimed the open pages, which happens after all deletions. */
    ghost var clientsClaimed: bool

    /** A worker starting over whatever cache storage earlier versions left behind. */
    constructor (stored: Store)
      ensures caches == stored && !clientsClaimed
    {
      caches := stored;
      clientsClaimed := false;
    }

    /** The install event: open CacheName, then `cache.addAll(ElementsToCache)`. */
    method Install(network: Request -> NetworkResult) returns (installed: bool)
      modifies this`caches
      ensures installed <==> forall p :: p in ElementsToCache ==> AddAllAccepts(network(GetRequest(p)))
      ensures installed ==> (FetchAll(ElementsToCache, network).Some? &&
        caches == PutAll(old(caches), CacheName, FetchAll(ElementsToCache, network).value))
      ensures installed ==> forall p :: p in ElementsToCache ==>
        Lookup(caches, CacheName, GetRequest(p)) == Some(network(GetRequest(p)).response)
      ensures installed && CacheName !in old(caches) ==>
        forall k :: k in caches[CacheName] <==> k.verb == "GET" && k.url in ElementsToCache
      ensures !installed ==> caches == Open(old(caches), CacheName)
    {
      caches := Open(caches, CacheName);
      var manifest := ElementsToCache;
      var entries: Partition := map[];
      var ok := true;
      for i := 0 to |manifest|
        invariant ok ==> FetchAll(manifest[..i], network) == Some(entries)
        invariant !ok ==> FetchAll(manifest[..i], network) == None
      {
        var req := GetRequest(manifest[i]);
        var outcome := network(req);
        assert manifest[..i + 1][..i] == manifest[..i];
        if ok && AddAllAccepts(outcome) {
          entries := entries[req := outcome.response];
        } else {
          ok := false;
        }
      }
      assert manifest[..|manifest|] == manifest;
      FetchAllSucceeds(manifest, network);
      if ok {
        AddAllStoresEveryPath(old(caches), CacheName, manifest, network, entries);
        PutAllAfterOpen(old(caches), CacheName, entries);
        caches := PutAll(caches, CacheName, entries);
      }
      installed := ok;
    }

    /** The activate event: delete every partition not in the whitelist, then claim the clients. */
    method Activate()
      modifies this
      ensures caches == Retain(old(caches), Whitelist)
      ensures forall n :: n in caches ==> n == CacheName || n == MovieDetailsCache
      ensures forall n :: n in old(caches) && n in Whitelist ==> n in caches && caches[n] == old(caches)[n]
      ensures clientsClaimed
    {
      var cacheNames := caches.Keys;
      var pending := cacheNames;
      while pending != {}
        invariant pending <= cacheNames
        invariant forall n :: n in caches <==> n in cacheNames && (n in pending || n in Whitelist)
        invariant forall n :: n in caches ==> caches[n] == old(caches)[n]
        decreases pending
      {
        var name :| name in pending;
        if name !in Whitelist {
          caches := Delete(caches, name);
        }
        pending := pending - {name};
      }
      clientsClaimed := true;
    }

    /** `caches.match(req)`: the entry for `req` from some partition that holds one. */
    method CachesMatch(req: Request) returns (hit: Option<Response>)
      ensures hit.Some? <==> Cached(caches, req)
      ensures hit.Some? ==> StoredAnywhere(caches, req, hit.value)
    {
      if exists n :: n in caches && req in caches[n] {
        var n :| n in caches && req in caches[n];
        hit := Some(caches[n][req]);
      } else {
        hit := None;
      }
    }

    /** The movie-detail read-through strategy. */
    method MovieDetailReadThrough(req: Request, network: Request -> NetworkResult)
      returns (resp: Response, fetched: bool)
      modifies this`caches
      ensures ReadThroughSpec(old(caches), caches, req, network(req), resp, fetched)
      ensures OnlyAddsEntryFor(old(caches), caches, req)
    {
      caches := Open(caches, MovieDetailsCache);
      var hit := Lookup(caches, MovieDetailsCache, req);
      if hit.Some? {
        OpenExisting(old(caches), MovieDetailsCache);
        resp, fetched := hit.value, false;
        StepPreservesEntries(old(caches), caches, req, network(req), resp, fetched);
        return;
      }
      fetched := true;
      match network(req) {
        case Delivered(r) =>
          PutAfterOpen(old(caches), MovieDetailsCache, req, r);
          caches := Put(caches, MovieDetailsCache, req, r);
          resp := r;
        case NetworkError =>
          resp := Response404();
      }
      StepPreservesEntries(old(caches), caches, req, network(req), resp, fetched);
    }

    /** `cacheFirstAndSave`: the general strategy. */
    method CacheFirstAndSave(req: Request, network: Request -> NetworkResult)
      returns (resp: Response, fetched: bool)
      modifies this`caches
      ensures CacheFirstAndSaveSpec(old(caches), caches, req, network(req), resp, fetched)
      ensures OnlyAddsEntryFor(old(caches), caches, req)
    {
      var hit := CachesMatch(req);
      if hit.Some? {
        resp, fetched := hit.value, false;
        StepPreservesEntries(old(caches), caches, req, network(req), resp, fetched);
        return;
      }
      fetched := true;
      match network(req) {
        case Delivered(r) =>
          if PassesValidation(r) {
            caches := Open(caches, CacheName);
            PutAfterOpen(old(caches), CacheName, req, r);
            caches := Put(caches, CacheName, req, r);
            resp := r;
          } else {
            resp := Response404();
          }
        case NetworkError =>
          resp := Response404();
      }
      StepPreservesEntries(old(caches), caches, req, network(req), resp, fetched);
    }

    /** The fetch event: route by URL and answer with the chosen strategy's response. */
    method HandleFetch(req: Request, network: Request -> NetworkResult)
      returns (resp: Response, fetched: bool)
      modifies this`caches
      ensures if Classify(req.url) == MovieDetail
              then ReadThroughSpec(old(caches), caches, req, network(req), resp, fetched)
              else CacheFirstAndSaveSpec(old(caches), caches, req, network(req), resp, fetched)
      ensures fetched && network(req).NetworkError? ==> resp == Response404()
      ensures OnlyAddsEntryFor(old(caches), caches, req)
    {
      if Classify(req.url) == MovieDetail {
        resp, fetched := MovieDetailReadThrough(req, network);
      } else {
        resp, fetched := CacheFirstAndSave(req, network);
      }
    }
  }
}
