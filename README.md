# my-movies-app caching service worker, modelled in Dafny

This project models the service worker `sw.js` of the my-movies-app front end. The worker
keeps a versioned cache store: a map from partition name to a map from request to stored
response. Three events change that store:

- **install** opens the general partition `pwa-myMovie-1` and then adds every path of the
  fixed asset manifest to it. This uses `cache.addAll`, which is all-or-nothing.
- **activate** deletes every partition outside the whitelist `{pwa-myMovie-1, pwa-movieDetails-1}`
  and then claims the open pages.
- **fetch** routes each request by URL:
  - a URL under `https://moviedb-server-m35e.onrender.com/api/id/` goes to the movie-detail
    read-through strategy, scoped to `pwa-movieDetails-1`, which stores any delivered response;
  - every other request goes to `cacheFirstAndSave`. This strategy looks in all partitions,
    validates the fetched response (`status > 0 && !ok` is rejected) and stores valid
    responses in `pwa-myMovie-1`.
  - A network error, or a rejected response, becomes a synthetic 404 with a null body.

Files:

- `fetch.dfy` (module `Fetch`): requests (URL and HTTP method) and responses (status and
  body) as immutable values, so a `clone()` is a copy. Also the outcome of `fetch`: a
  delivered response or a network error. "Ok" means a status in 200..299, as the Fetch
  Standard defines an ok status.
- `cache_store.dfy` (module `CacheStore`): the store as a value, and the Cache API
  operations the worker uses: `caches.open`, `cache.put`, `cache.addAll`'s bulk store,
  `caches.delete`, lookups.
- `service_worker.dfy` (module `ServiceWorker`):
  - the configuration constants;
  - the classification;
  - the validation check and `response404`;
  - `FetchAll`, the specification of `cache.addAll`;
  - the two strategies, specified as relations between the store before and after
    (`ReadThroughSpec`, `CacheFirstAndSaveSpec`);
  - class `Worker`, whose field `caches` is the store. Its methods are the event handlers
    and are proved against those specifications.

The network is a parameter `network: Request -> NetworkResult`, an arbitrary oracle. Each
strategy returns `fetched`, which says whether it took its network branch. When `fetched` is
false, the contracts fix the response and the new store from the old store alone, so they do
not depend on what the network would answer. That is what "no network call" means here.

The model follows the code: `caches.open(name)` creates the partition when it is missing.
So a failed install, and a movie-detail request whose fetch fails, leave an (empty)
partition behind, and the store is
`Open(old store, name)` rather than literally unchanged. Every lookup still gives the same
answer as before; `Open`'s contract says so.

## Model

| member | source | states |
|---|---|---|
| ServiceWorker.PartitionNamesDistinct | sw.js:2-4 | the general and movie-detail partition names built from the version are different |
| ServiceWorker.StartsWith | sw.js:44 | `startsWith` compared character by character; it can hold only when the prefix is no longer than the URL (the full characterisation is `StartsWithIsPrefix`) |
| ServiceWorker.StartsWithIsPrefix | sw.js:44 | `startsWith` holds exactly when the prefix is an initial segment of the URL |
| ServiceWorker.Classify | sw.js:41-44 | a URL is routed to the movie-detail strategy exactly when it begins with the movie-detail API base; otherwise it is general; the route depends on the URL alone |
| ServiceWorker.PassesValidation | sw.js:83 | a fetched response passes the general strategy's check exactly when its status is 0 (opaque) or in 200..299 |
| ServiceWorker.Response404 | sw.js:106-108 | the fallback has status 404 and a null body, and it is neither ok nor valid |
| ServiceWorker.AddAllAccepts | sw.js:13 | `addAll` accepts a fetched response only when it was delivered with an ok status; this is stricter than the general strategy's check, since an opaque (status 0) response is refused |
| ServiceWorker.FetchAll | sw.js:13 | `addAll` of a path list, all or nothing: on success every entry is the accepted response fetched for its own request |
| ServiceWorker.FetchAllSucceeds | sw.js:13 | `addAll` of the manifest succeeds exactly when every path's fetch is delivered with an ok status |
| ServiceWorker.FetchAllEntries | sw.js:13 | a successful `addAll` yields exactly one GET entry per manifest path, holding the response fetched for that path |
| ServiceWorker.AddAllStoresEveryPath | sw.js:10-14 | after a successful `addAll` into a partition, every path is answered from it with its fetched response; a newly created partition holds only those entries |
| ServiceWorker.StepPreservesEntries | sw.js:44-68 | a fetch event, under either strategy, at most adds the entry of its own request: existing entries stay unchanged and entries of other requests are untouched |
| ServiceWorker.DetailRevisitServedFromCache | sw.js:46-57 | once a movie-detail request has been answered from the cache or from the network, the next dispatch returns the same response from the cache, with no network call and no store change |
| ServiceWorker.GeneralRevisitServedFromCache | sw.js:76-95 | a general request answered by the network with a valid response is served from the cache next time, with the same response, no network call and no store change |
| ServiceWorker.GeneralErrorStatusNotCached | sw.js:83-100 | an uncached general request whose response has a non-zero, non-ok status (such as 500) gets a 404 with a null body, and nothing is cached for it anywhere |
| ServiceWorker.DetailEntrySurvivesLifecycle | sw.js:10-31 | an entry in the movie-detail partition survives opening and filling the general partition at install, and survives activation; together with `StepPreservesEntries` it survives every event |
| CacheStore.Lookup | sw.js:47 | `cache.match` on one partition finds a response exactly when that partition holds the request, and the response is that entry; a hit there is also a store-wide hit |
| CacheStore.Open | sw.js:11 | opening creates the partition empty when it is absent, keeps every existing partition, and changes no lookup |
| CacheStore.Put | sw.js:90 | after a put, the request maps to the response in the named partition, and every other (partition, request) lookup is unchanged |
| CacheStore.PutAll | sw.js:13 | the bulk store answers every stored request with its entry in the named partition and changes no other lookup |
| CacheStore.Delete | sw.js:28 | deleting removes that partition with all its entries and keeps every other partition unchanged |
| CacheStore.Retain | sw.js:26-30 | exactly the partitions whose names are in the kept set survive, each with its contents unchanged |
| ServiceWorker.Worker.CachesMatch | sw.js:76 | a store-wide match finds a response exactly when some partition holds the request, and the response is that partition's entry |
| ServiceWorker.Worker.Install | sw.js:8-16 | install succeeds exactly when every manifest fetch is delivered ok. On success every manifest path is stored in the general partition with its fetched response, and all other partitions are unchanged. On failure only the opened, possibly empty, general partition appears |
| ServiceWorker.Worker.Activate | sw.js:19-37 | afterwards the store equals the old store restricted to the whitelist: only the two current partitions can remain, each unchanged. Clients are claimed after the deletions |
| ServiceWorker.Worker.MovieDetailReadThrough | sw.js:46-64 | a hit in the movie-detail partition is returned unchanged, with no network call and no store change. On a miss, a delivered response of any status is stored under the request in that partition and returned. A network error gives the 404, and the store is only opened |
| ServiceWorker.Worker.CacheFirstAndSave | sw.js:74-103 | a hit in any partition is returned with no network call and no store change. On a miss, a valid response is stored in the general partition and returned. An invalid response or a network error gives the 404 and leaves the store unchanged |
| ServiceWorker.Worker.HandleFetch | sw.js:40-70 | movie-detail URLs follow the read-through specification and all other URLs the cache-first-and-save one. A network error after a miss always yields the 404, and only the request's own entry can be added |

## Left out

- `js/main.js` is not part of this model. It is page glue: worker registration, form and
  history handling, calls to the movie API, and HTML rendering.
- `self.clients.claim()` has no state the model can see. It is recorded only as the ghost flag
  `clientsClaimed`, which `Activate` sets after the deletion loop.
- `console.log` is dropped.
- Asynchrony and interleaving are not modelled. Each handler's promise chain runs as
  sequential code. Concurrent requests racing on the store (last write wins, duplicate
  fetches) are not modelled.
- The movie-detail strategy does not wait for its `cache.put`. The model treats it as
  put-then-return.
- Cache API failures are not modelled; `cache.put` always succeeds. This covers quota errors
  and the `TypeError` that a non-GET request or a partial response raises. In the general
  strategy such a failure would end in the 404 catch.
- `cache.addAll` is modelled as rejecting a network error or a non-ok status. Its other
  rejections are not modelled: status 206, a `Vary: *` response, and a batch that names the
  same request twice. The fixed manifest has no duplicates. Its parallel fetches are modelled as a sequential
  loop; the result is the same, because the network oracle is a function.
- Cache matching details are abstracted: Vary headers, `ignoreSearch`, and which partition
  `caches.match` prefers when several hold the request. `CachesMatch` returns the entry from
  some partition that holds the request. Request keys are URL plus method; relative manifest
  paths are not resolved against an origin.
- Response headers, body streams and real `clone()` are not modelled. A response is an
  immutable status-and-body value.
- The real network and the remote movie API are not modelled. They are replaced by the
  `network` oracle parameter.
