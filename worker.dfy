/**
 * The service worker's state and event handlers. The Cache Storage of the
 * origin is the list of bucket names (creation order, as `caches.keys()`
 * yields them) with the buckets themselves; every `postMessage` the worker
 * makes is appended to a log; the clients it can reach are fixed. Each event
 * handler runs as one atomic step, and what the network does is an input.
 */
module ServiceWorker {
  import opened Wrappers
  import opened Seqs
  import opened Config
  import opened Http
  import opened Freshness
  import opened Revalidation
  import opened Routing
  import opened Storage
  import opened Notify

  /** Cache Storage and message log together, as one value. */
  datatype State = State(names: seq<string>, buckets: map<string, Bucket>, posted: seq<Posted>)

  class Worker {
    var names: seq<string>
    var buckets: map<string, Bucket>
    var posted: seq<Posted>
    const clients: seq<ClientId>

    /** Every bucket is listed once, and every listed name has a bucket. */
    ghost predicate Valid()
      reads this
    {
      NoDup(names) && forall n :: n in names <==> n in buckets
    }

    constructor (names0: seq<string>, buckets0: map<string, Bucket>, clients0: seq<ClientId>)
      requires NoDup(names0) && forall n :: n in names0 <==> n in buckets0
      ensures Valid()
      ensures names == names0 && buckets == buckets0 && posted == [] && clients == clients0
    {
      names, buckets, posted, clients := names0, buckets0, [], clients0;
    }

    /** The current state as a value. */
    ghost function Snapshot(): State
      reads this
    {
      State(names, buckets, posted)
    }

    /** Bucket names once `caches.open(name)` has created the bucket if it was missing. */
    ghost function NamesAfterOpen(name: string): seq<string>
      reads this
    {
      if name in buckets then names else names + [name]
    }

    /** Buckets once `caches.open(name)` has created the bucket if it was missing. */
    ghost function BucketsAfterOpen(name: string): map<string, Bucket>
      reads this
    {
      if name in buckets then buckets else buckets[name := map[]]
    }

    /** The entry the current bucket holds for `key`, if any. */
    ghost function CurrentEntry(key: string): Option<Response>
      reads this
    {
      if CACHE_NAME in buckets && key in buckets[CACHE_NAME] then Some(buckets[CACHE_NAME][key]) else None
    }

    /** The state updateIndexIfNewer leaves behind for `req` when the network does `outcome`. */
    ghost function Revalidated(req: Request, outcome: FetchOutcome): State
      reads this
    {
      var ready := BucketsAfterOpen(CACHE_NAME);
      var d := Revalidate(CurrentEntry(Key(req)), outcome);
      State(NamesAfterOpen(CACHE_NAME),
            if d.store then ready[CACHE_NAME := ready[CACHE_NAME][Key(req) := outcome.response]] else ready,
            posted + if d.notify then Broadcast(clients, UpdateMessage()) else [])
    }

    /** `caches.open(name)`: the bucket exists afterwards, appended to the name list if it is new. */
    method Open(name: string)
      requires Valid()
      modifies this`names, this`buckets
      ensures Valid()
      ensures names == old(NamesAfterOpen(name)) && buckets == old(BucketsAfterOpen(name))
    {
      if name !in buckets {
        names := names + [name];
        buckets := buckets[name := map[]];
      }
    }

    /** `caches.delete(name)`: the bucket and its name are gone; reports whether it existed. */
    method Delete(name: string) returns (existed: bool)
      requires Valid()
      modifies this`names, this`buckets
      ensures Valid()
      ensures existed == (name in old(buckets))
      ensures names == RemoveName(old(names), name) && buckets == old(buckets) - {name}
    {
      existed := name in buckets;
      names := RemoveName(names, name);
      buckets := buckets - {name};
    }

    /**
     * `cache.put(key, response)` on the bucket `name`: when the cache accepts the
     * response only that entry changes; when it refuses it nothing changes and
     * the put rejects (`ok` is false).
     */
    method Put(name: string, key: string, response: Response) returns (ok: bool)
      requires Valid() && name in buckets
      modifies this`buckets
      ensures Valid()
      ensures ok == PutAccepts(response)
      ensures buckets == if ok then old(buckets)[name := old(buckets)[name][key := response]] else old(buckets)
    {
      ok := PutAccepts(response);
      if ok {
        buckets := buckets[name := buckets[name][key := response]];
      }
    }

    /** notifyClients: one update message to each client, in order. */
    method NotifyClients()
      modifies this`posted
      ensures posted == old(posted) + Broadcast(clients, UpdateMessage())
    {
      var m := UpdateMessage();
      for i := 0 to |clients|
        invariant posted == old(posted) + Broadcast(clients[..i], m)
      {
        assert clients[..i + 1][..i] == clients[..i];
        posted := posted + [Posted(clients[i], m)];
      }
      assert clients[..|clients|] == clients;
    }

    /**
     * The install handler: open the current bucket, then addAll the five
     * assets, all or nothing. `outcomes[i]` is what fetching `ASSETS[i]` gives.
     */
    method Install(outcomes: seq<FetchOutcome>) returns (ok: bool)
      requires Valid() && |outcomes| == |ASSETS|
      modifies this`names, this`buckets
      ensures Valid()
      ensures ok <==> forall i :: 0 <= i < |outcomes| ==> AddAllAccepts(outcomes[i])
      ensures names == old(NamesAfterOpen(CACHE_NAME))
      ensures !ok ==> buckets == old(BucketsAfterOpen(CACHE_NAME))
      ensures ok ==> buckets == old(BucketsAfterOpen(CACHE_NAME))[CACHE_NAME := buckets[CACHE_NAME]]
      // on success the current bucket gains exactly the five assets, each with its fetched response
      ensures ok ==> forall k :: k in buckets[CACHE_NAME] <==> k in old(BucketsAfterOpen(CACHE_NAME))[CACHE_NAME] || k in ASSETS
      ensures ok ==> forall i :: 0 <= i < |ASSETS| ==> buckets[CACHE_NAME][ASSETS[i]] == outcomes[i].response
      ensures ok ==> forall k :: k in old(BucketsAfterOpen(CACHE_NAME))[CACHE_NAME] && k !in ASSETS ==>
                                  buckets[CACHE_NAME][k] == old(BucketsAfterOpen(CACHE_NAME))[CACHE_NAME][k]
    {
      Open(CACHE_NAME);
      ok := forall i :: 0 <= i < |outcomes| ==> AddAllAccepts(outcomes[i]);
      if ok {
        AssetsDistinct();
        buckets := buckets[CACHE_NAME := PutAll(buckets[CACHE_NAME], ASSETS, Responses(outcomes))];
      }
    }

    /** The activate handler: delete every bucket not named CACHE_NAME, leaving the current one as it was. */
    method Activate()
      requires Valid()
      modifies this`names, this`buckets
      ensures Valid()
      ensures forall n :: n in buckets <==> n in old(buckets) && n == CACHE_NAME
      ensures CACHE_NAME in buckets ==> buckets[CACHE_NAME] == old(buckets)[CACHE_NAME]
      // afterwards the storage-wide lookup only sees the current bucket
      ensures forall key :: FirstMatch(names, buckets, key) == CurrentEntry(key)
    {
      var cacheNames := names;
      var i := 0;
      while i < |cacheNames|
        invariant 0 <= i <= |cacheNames|
        invariant NoDup(cacheNames)
        invariant Valid()
        invariant forall n :: n in buckets <==> n in old(buckets) && (n == CACHE_NAME || n in cacheNames[i..])
        invariant forall n :: n in buckets ==> buckets[n] == old(buckets)[n]
      {
        NextName(cacheNames, i);
        if cacheNames[i] != CACHE_NAME {
          var _ := Delete(cacheNames[i]);
        }
        i := i + 1;
      }
      forall key
        ensures FirstMatch(names, buckets, key) == CurrentEntry(key)
      {
        MatchWithinOneBucket(names, buckets, CACHE_NAME, key);
      }
    }

    /** Stepping over `names[i]` during activation: it leaves the names still to visit, and does not come back. */
    static lemma NextName(names: seq<string>, i: nat)
      requires NoDup(names) && i < |names|
      ensures forall n :: n in names[i..] <==> n == names[i] || n in names[i + 1..]
      ensures names[i] !in names[i + 1..]
    {
    }

    /**
     * updateIndexIfNewer: open the current bucket, look the request up, fetch
     * it, and act on Revalidate's decision.
     */
    method UpdateIndexIfNewer(req: Request, outcome: FetchOutcome) returns (reply: Reply)
      requires Valid()
      modifies this
      ensures Valid()
      ensures reply == old(Revalidate(CurrentEntry(Key(req)), outcome)).reply
      ensures Snapshot() == old(Revalidated(req, outcome))
    {
      Open(CACHE_NAME);
      var key := Key(req);
      var cached := if key in buckets[CACHE_NAME] then Some(buckets[CACHE_NAME][key]) else None;
      if outcome.NetworkError? {
        reply := Respond(if cached.Some? then cached.value else OfflineResponse());
        return;
      }
      var network := outcome.response;
      if cached.Some? {
        if IsNewer(cached.value, network) {
          var ok := Put(CACHE_NAME, key, network);
          if !ok {
            reply := Rejected;
            return;
          }
          NotifyClients();
        }
      } else {
        var ok := Put(CACHE_NAME, key, network);
        if !ok {
          reply := Rejected;
          return;
        }
      }
      reply := Respond(network);
    }

    /**
     * The fetch handler: document requests are revalidated; every other request
     * is served from any bucket or else from the network, and changes nothing.
     */
    method HandleFetch(req: Request, outcome: FetchOutcome) returns (served: Served)
      requires Valid()
      modifies this
      ensures Valid()
      ensures IsRevalidated(req) ==>
                && served == Served(old(Revalidate(CurrentEntry(Key(req)), outcome)).reply, true)
                && Snapshot() == old(Revalidated(req, outcome))
      ensures !IsRevalidated(req) ==>
                && served == CacheOrFetch(old(FirstMatch(names, buckets, Key(req))), outcome)
                && Snapshot() == old(Snapshot())
    {
      if IsRevalidated(req) {
        var reply := UpdateIndexIfNewer(req, outcome);
        served := Served(reply, true);
      } else {
        served := CacheOrFetch(FirstMatch(names, buckets, Key(req)), outcome);
      }
    }
  }
}
