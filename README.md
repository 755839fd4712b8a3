# Cache revalidation of the clock app's service worker

This project models the service worker of a small offline-capable clock page
(`service-worker.js`). The worker keeps a versioned cache bucket of the page's
assets, deletes the buckets of older versions, and answers every intercepted
request. Requests for the page document are revalidated against the network.
All other requests are served from the cache or from the network.

What is modelled, in the worker's own terms:

- **Freshness test** (`Freshness`). `isNewer` compares two optional header
  strings under JavaScript truthiness, where null and `""` both count as
  missing. Both ETags present: they alone decide (section 8.8.3 of RFC 9110).
  Exactly one ETag present: never newer. No ETag on either side: the
  Last-Modified values decide, and only when both are present (section 8.8.2
  of RFC 9110). Values are compared as plain strings. There is no weak/strong
  ETag comparison and no date ordering. A reference definition states the same
  thing as "both responses offer the same kind of validator, with different
  values". Despite its name the test is symmetric: it detects a change, not an
  ordering.
- **Revalidation decision** (`Revalidation.Revalidate`). Given the cached entry
  and the network outcome, it decides what the page receives, whether to store
  the network copy, and whether to notify the clients. The cache refuses a
  partial (206) response and one whose `Vary` header lists `*`. The `put` that
  meets such a response is awaited outside the `try`, so the whole handler
  rejects and the page gets a network error.
- **Routing** (`Routing`). A request is revalidated when its URL ends in
  `/index.html` or its destination is `document`. Any other request is served
  from the first bucket holding it, or else fetched, and is never cached.
- **Cache Storage** (`Storage`). Bucket names are kept in creation order, which
  is the order of `caches.keys()`. The module defines the storage-wide lookup
  of `caches.match` and the batch insertion of `cache.addAll`.
- **Notification** (`Notify`). Each client gets one `UPDATE_AVAILABLE` message
  carrying `VERSION` and the text `"Updated to version " + VERSION`.
- **The worker** (`ServiceWorker.Worker`). A class holds the bucket names, the
  buckets, the log of posted messages and the fixed clients. Each event handler
  (install, activate, fetch) is one atomic method.

The network is an input. Each handler receives a `FetchOutcome`: either
`NetworkError` or `Fetched(response)`. Install receives one outcome per asset.

Two details of the code matter for the model:
- Revalidation and install both call `caches.open(CACHE_NAME)` first. That call
  creates the bucket when it is missing, even if the fetch then fails or
  `addAll` then rejects. So "nothing changes" holds for the cache entries and
  the message log. It does not hold for whether the current bucket exists.
- Non-document requests go through `caches.match`, which searches every
  bucket in creation order, not only the current one. After activation only the
  current bucket is left, and the two lookups agree (`Worker.Activate`).

## Model

| member | source | states |
|---|---|---|
| `Freshness.IsNewer` | service-worker.js:68-75 | two ETags decide alone (newer iff they differ); one-sided ETag is never newer; with no ETags, newer iff both Last-Modified values are present and differ |
| `Freshness.IsNewerIsValidatorChange` | service-worker.js:73-75 | `isNewer` holds exactly when both responses offer the same kind of validator (ETag preferred over Last-Modified) with different values |
| `Freshness.SameValidatorsNotNewer` | service-worker.js:73-75 | equal ETag and equal Last-Modified headers, absent ones included, are never newer |
| `Freshness.IsNewerSymmetric` | service-worker.js:73-75 | the test is symmetric in its two responses: it detects change, not age |
| `Freshness.NotNewerThanItself` | service-worker.js:73-75 | a response is never newer than itself |
| `Revalidation.Revalidate` | service-worker.js:46-88 | offline: the cached copy or a 503 "Offline" response, with no write and no notification; online: the network copy is returned unless a put is tried (cold cache, or `isNewer` holds) and the cache refuses the copy, in which case the handler rejects; the entry is written exactly when a put is tried and accepted; clients are notified exactly when an existing entry was replaced |
| `Revalidation.NotifyOnlyOnReplacement` | service-worker.js:63-81 | a notification happens only with a write of a fetched copy over an existing, older-judged entry |
| `Revalidation.StoredCopyIsServed` | service-worker.js:60-87 | whatever is stored is the fetched response, and the page receives that same response |
| `Revalidation.UnchangedCopyLeavesCache` | service-worker.js:63-81 | a fetched copy with the cached copy's validators is returned, not stored, and nobody is notified, whatever its status |
| `Revalidation.RevalidationSettles` | service-worker.js:63-87 | revalidating the same network copy a second time gives the same reply, writes nothing and notifies nobody |
| `Routing.RevalidatedExactly` | service-worker.js:33 | a request is revalidated iff its URL is some string followed by `/index.html` or its destination is `document` |
| `Routing.CacheOrFetch` | service-worker.js:38-42 | a hit is served as stored without using the network; a miss uses the network, and a network failure reaches the page as a rejection |
| `Storage.RemoveName` | service-worker.js:24 | deleting a bucket removes exactly its name from the name list and keeps the list free of repeats |
| `Storage.RemoveAbsentName` | service-worker.js:24 | deleting a name that is not listed leaves the name list exactly as it was |
| `Storage.RemoveNameAt` | service-worker.js:24 | deleting a listed name cuts it out where it stands, so the other names keep their creation order |
| `Storage.FirstHolder` | service-worker.js:39 | the position found is the first bucket, in creation order, that holds the key (or the end of the list) |
| `Storage.FirstMatch` | service-worker.js:39 | the storage-wide lookup misses iff no listed bucket holds the key, and otherwise returns the first holding bucket's entry |
| `Storage.MatchWithinOneBucket` | service-worker.js:39 | when every listed name is the same bucket, the storage-wide lookup is the lookup in that bucket |
| `Storage.PutAll` | service-worker.js:7-13 | the batch adds exactly the given keys; other entries are kept; with distinct keys each key maps to its own response |
| `Config.AssetsDistinct` | service-worker.js:7-13 | the install list names five distinct paths |
| `Notify.Broadcast` | service-worker.js:90-99 | one posted message per client, in client order, each carrying the given payload |
| `Notify.UpdateReachesEachClientOnce` | service-worker.js:92-98 | every broadcast entry is an `UPDATE_AVAILABLE` message with `VERSION` and text "Updated to version" + `VERSION`; with distinct clients each client is addressed exactly once |
| `ServiceWorker.Worker.Open` | service-worker.js:6 | opening creates the bucket when missing, appending its name; nothing else changes |
| `ServiceWorker.Worker.Delete` | service-worker.js:24 | deleting removes that bucket and its name only, and reports whether it existed |
| `ServiceWorker.Worker.Put` | service-worker.js:79-84 | a put of an accepted response (not 206, no `Vary: *`) replaces one entry of one bucket and nothing else; a refused one changes nothing and reports the rejection |
| `ServiceWorker.Worker.NotifyClients` | service-worker.js:90-100 | the message log grows by exactly the broadcast of the update message to the clients; buckets are untouched |
| `ServiceWorker.Worker.Install` | service-worker.js:4-16 | the current bucket exists afterwards; install succeeds iff every asset fetch gives a 2xx response other than 206 without `Vary: *`; on success the bucket gains exactly the five asset paths, each with its response, and keeps its other entries; on failure no entry changes |
| `ServiceWorker.Worker.Activate` | service-worker.js:18-30 | the bucket names afterwards are the old ones intersected with {`CACHE_NAME`}; the current bucket is kept unchanged; afterwards the storage-wide lookup equals the lookup in the current bucket |
| `ServiceWorker.Worker.UpdateIndexIfNewer` | service-worker.js:46-88 | replies as `Revalidate` decides (a rejection when the put is refused) and leaves exactly the state it decides: the current bucket opened, the entry written iff `store`, the update broadcast appended iff `notify` |
| `ServiceWorker.Worker.HandleFetch` | service-worker.js:32-44 | revalidated requests behave as `UpdateIndexIfNewer` and always use the network; other requests are answered by cache-or-fetch over the storage-wide lookup and change no bucket and no message |

## Left out

- Promise sequencing, `e.waitUntil`, `e.respondWith` and event registration: each handler is one atomic method.
- Real network fetching: every fetch outcome is an input to the handler.
- `cache.addAll`'s own fetching and its rejection of duplicate requests: the batch is all-or-nothing over the given outcomes, and an asset is accepted when it was fetched with a 2xx status other than 206 and its `Vary` header does not list `*`.
- The `Vary` header is reduced to one flag, whether it lists `*`. Parsing its field list and matching cached entries on the headers it names are not modelled.
- ServiceWorker.Worker.Put: does not model storage failures such as an exceeded quota (`QuotaExceededError`). The same holds for ServiceWorker.Worker.Install and ServiceWorker.Worker.UpdateIndexIfNewer. In the source such a failure rejects the put or the addAll, so install fails and the document request gets a network error. In the model an accepted response is always stored, because storage capacity is not part of the state.
- ServiceWorker.Worker.Put: does not model put's rejection of non-GET requests or of URLs whose scheme is not HTTP(S), because a request here has no method and its key is an opaque string.
- Install failure reaches the platform as a rejected promise, and the platform may retry: the model returns `ok == false` and does nothing further.
- `Response.clone()` and the rule that a body can be read only once: the clone is the same response value.
- Cache key matching (URL normalisation, query and fragment handling, `Vary`, method): the key is the request URL as an opaque string, and asset paths are stored as written, without resolution against the worker's scope.
- Response headers other than `etag` and `last-modified`, and the combining of repeated header values by `Headers.get`.
- Client discovery through `clients.matchAll({includeUncontrolled: true})`: the clients are a fixed sequence on the worker.
- `notifyClients` is not awaited by the fetch handler: the model posts the messages within the same step.
- Concurrent revalidations of the same key, and their last-writer-wins race: handlers never interleave in the model.
