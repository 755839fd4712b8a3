/**
 * The decision updateIndexIfNewer takes for one document request, given the
 * entry the current bucket holds for it (if any) and what the network did.
 */
module Revalidation {
  import opened Wrappers
  import opened Http
  import opened Freshness

  /**
   * `reply` is what the page receives; `store` means the network response is
   * put into the current bucket under the request's key; `notify` means every
   * client is sent an update message.
   */
  datatype Decision = Decision(reply: Reply, store: bool, notify: bool)

  /** The worker tries to put the network copy: on a cold cache, or when it is newer than the cached copy. */
  predicate TriesPut(cached: Option<Response>, outcome: FetchOutcome)
  {
    outcome.Fetched? && (cached.None? || IsNewer(cached.value, outcome.response))
  }

  function Revalidate(cached: Option<Response>, outcome: FetchOutcome): (d: Decision)
    // offline: serve the cached copy, or a 503 "Offline" response
    ensures outcome.NetworkError? ==>
              d.reply == Respond(if cached.Some? then cached.value else OfflineResponse())
    // online: the page gets the network copy, unless the cache refuses it and the whole handler rejects
    ensures outcome.Fetched? ==>
              && (d.reply.Rejected? <==> TriesPut(cached, outcome) && !PutAccepts(outcome.response))
              && (d.reply.Respond? ==> d.reply.response == outcome.response)
    // the entry is written exactly when a put is tried and accepted
    ensures d.store <==> TriesPut(cached, outcome) && PutAccepts(outcome.response)
    // clients hear of it exactly when an existing entry was replaced
    ensures d.notify <==> d.store && cached.Some?
  {
    match outcome
    case NetworkError =>
      Decision(Respond(if cached.Some? then cached.value else OfflineResponse()), false, false)
    case Fetched(network) =>
      if cached.Some? && !IsNewer(cached.value, network) then
        Decision(Respond(network), false, false)
      else if !PutAccepts(network) then
        Decision(Rejected, false, false)
      else
        Decision(Respond(network), true, cached.Some?)
  }

  /** A notification is only ever sent together with a cache write of a fetched copy over an existing, changed entry. */
  lemma NotifyOnlyOnReplacement(cached: Option<Response>, outcome: FetchOutcome)
    ensures Revalidate(cached, outcome).notify ==>
              && Revalidate(cached, outcome).store
              && cached.Some? && outcome.Fetched?
              && IsNewer(cached.value, outcome.response)
  {
  }

  /** Whatever is stored is exactly what is returned: the page and the cache see the same copy. */
  lemma StoredCopyIsServed(cached: Option<Response>, outcome: FetchOutcome)
    ensures Revalidate(cached, outcome).store ==>
              outcome.Fetched? && Revalidate(cached, outcome).reply == Respond(outcome.response)
  {
  }

  /** A network copy whose validators equal the cached ones is served and changes nothing. */
  lemma UnchangedCopyLeavesCache(cached: Response, network: Response)
    requires cached.etag == network.etag && cached.lastModified == network.lastModified
    ensures Revalidate(Some(cached), Fetched(network)) == Decision(Respond(network), false, false)
  {
  }

  /**
   * Revalidation settles: once a copy has been stored (or was refused, or was
   * already there), fetching that same copy again gives the same reply, writes
   * nothing and notifies no one.
   */
  lemma RevalidationSettles(cached: Option<Response>, network: Response)
    ensures var d := Revalidate(cached, Fetched(network));
            var next := if d.store then Some(network) else cached;
            Revalidate(next, Fetched(network)) == Decision(d.reply, false, false)
  {
  }
}
