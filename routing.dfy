/** The fetch handler's routing test and its cache-or-fetch fallback (service-worker.js:32-44). */
module Routing {
  import opened Wrappers
  import opened Http

  /** The URL suffix that marks the app's document. */
  const INDEX_SUFFIX: string := "/index.html"

  /** A request handled by revalidation rather than by cache-or-fetch. */
  predicate IsRevalidated(req: Request)
  {
    EndsWith(req.url, INDEX_SUFFIX) || req.destination == "document"
  }

  /** Routing reads the URL as "anything followed by /index.html", or the destination as a document. */
  lemma RevalidatedExactly(req: Request)
    ensures IsRevalidated(req) <==>
              (exists p: string :: p + INDEX_SUFFIX == req.url) || req.destination == "document"
  {
    if EndsWith(req.url, INDEX_SUFFIX) {
      var p := req.url[..|req.url| - |INDEX_SUFFIX|];
      assert p + INDEX_SUFFIX == req.url;
    }
    forall p: string | p + INDEX_SUFFIX == req.url
      ensures EndsWith(req.url, INDEX_SUFFIX)
    {
      assert req.url[|p|..] == INDEX_SUFFIX;
    }
  }

  /** The reply, and whether the network was asked at all. */
  datatype Served = Served(reply: Reply, usedNetwork: bool)

  /** `response || fetch(request)` over the result of the storage-wide lookup. */
  function CacheOrFetch(hit: Option<Response>, outcome: FetchOutcome): (s: Served)
    // a hit is served as stored, without a network request
    ensures hit.Some? ==> s == Served(Respond(hit.value), false)
    // a miss goes to the network; its failure reaches the page as a rejection
    ensures hit.None? ==> s.usedNetwork && (s.reply.Respond? <==> outcome.Fetched?)
    ensures hit.None? && outcome.Fetched? ==> s.reply.response == outcome.response
  {
    if hit.Some? then Served(Respond(hit.value), false)
    else match outcome
      case NetworkError => Served(Rejected, true)
      case Fetched(r) => Served(Respond(r), true)
  }
}
