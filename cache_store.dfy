/** The browser's cache storage (`caches`) as a value: a map from partition name to a map from
    request to stored response. Each function here is one Cache API operation the worker uses. */
module CacheStore {
  import opened Fetch

  type Partition = map<Request, Response>
  type Store = map<string, Partition>

  /** The partition called `name`, or an empty one when there is none yet. */
  function PartitionOf(s: Store, name: string): Partition
  {
    if name in s then s[name] else map[]
  }

  /** `cache.match(req)` on the partition called `name`. */
  function Lookup(s: Store, name: string, req: Request): (r: Option<Response>)
    ensures r.Some? <==> req in PartitionOf(s, name)
    ensures r.Some? ==> r.value == PartitionOf(s, name)[req] && StoredAnywhere(s, req, r.value)
  {
    if name in s && req in s[name] then Some(s[name][req]) else None
  }

  /** Some partition holds an entry for `req`: `caches.match(req)` resolves to a response. */
  ghost predicate Cached(s: Store, req: Request)
  {
    exists n :: n in s && req in s[n]
  }

  /** `resp` is the entry for `req` in some partition. */
  ghost predicate StoredAnywhere(s: Store, req: Request, resp: Response)
  {
    exists n :: n in s && req in s[n] && s[n][req] == resp
  }

  /** `caches.open(name)`: the partition is created empty if absent; nothing else changes. */
  function Open(s: Store, name: string): (r: Store)
    ensures r.Keys == s.Keys + {name}
    ensures name !in s ==> r[name] == map[]
    ensures forall n :: n in s ==> r[n] == s[n]
    ensures forall n, k :: Lookup(r, n, k) == Lookup(s, n, k)
  {
    s[name := PartitionOf(s, name)]
  }

  /** `cache.put(req, resp)` on the partition called `name` (opened first). */
  function Put(s: Store, name: string, req: Request, resp: Response): (r: Store)
    ensures r.Keys == s.Keys + {name}
    ensures Lookup(r, name, req) == Some(resp)
    ensures forall n, k :: (n != name || k != req) ==> Lookup(r, n, k) == Lookup(s, n, k)
  {
    s[name := PartitionOf(s, name)[req := resp]]
  }

  /** The entries of every request in `entries` stored at once in the partition `name`. */
  function PutAll(s: Store, name: string, entries: Partition): (r: Store)
    ensures r.Keys == s.Keys + {name}
    ensures forall k :: k in entries ==> Lookup(r, name, k) == Some(entries[k])
    ensures forall n, k :: (n != name || k !in entries) ==> Lookup(r, n, k) == Lookup(s, n, k)
  {
    s[name := PartitionOf(s, name) + entries]
  }

  /** `caches.delete(name)`: the partition and all its entries go. */
  function Delete(s: Store, name: string): (r: Store)
    ensures r.Keys == s.Keys - {name}
    ensures forall n :: n in r ==> r[n] == s[n]
    ensures forall k :: Lookup(r, name, k) == None
  {
    s - {name}
  }

  /** The store with every partition whose name is not in `keep` deleted. */
  function Retain(s: Store, keep: set<string>): (r: Store)
    ensures r.Keys == s.Keys * keep
    ensures forall n :: n in r ==> r[n] == s[n]
  {
    map n | n in s && n in keep :: s[n]
  }

  /** Opening an existing partition changes nothing. */
  lemma OpenExisting(s: Store, name: string)
    requires name in s
    ensures Open(s, name) == s
  {
  }

  /** Storing into a partition that was just opened is the same as storing directly. */
  lemma PutAfterOpen(s: Store, name: string, req: Request, resp: Response)
    ensures Put(Open(s, name), name, req, resp) == Put(s, name, req, resp)
  {
  }

  /** Storing entries into a partition that was just opened is the same as storing directly. */
  lemma PutAllAfterOpen(s: Store, name: string, entries: Partition)
    ensures PutAll(Open(s, name), name, entries) == PutAll(s, name, entries)
  {
  }
}
