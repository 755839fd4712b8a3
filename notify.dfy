/** The update notification and its broadcast to every client (service-worker.js:90-100). */
module Notify {
  import opened Seqs
  import opened Config

  /** A client window, by identity. */
  type ClientId = string

  /** The structured message posted to a client. */
  datatype Message = Message(kind: string, version: string, text: string)

  /** One `postMessage` call: who received what. */
  datatype Posted = Posted(client: ClientId, message: Message)

  /** The payload sent after the cache was refreshed. */
  function UpdateMessage(): Message
  {
    Message("UPDATE_AVAILABLE", VERSION, "Updated to version " + VERSION)
  }

  /** The messages posted by one pass over `clients`, in the order the clients are listed. */
  function Broadcast(clients: seq<ClientId>, m: Message): (log: seq<Posted>)
    ensures |log| == |clients|
    ensures forall i :: 0 <= i < |clients| ==> log[i] == Posted(clients[i], m)
  {
    if clients == [] then [] else Broadcast(clients[..|clients| - 1], m) + [Posted(clients[|clients| - 1], m)]
  }

  /**
   * Every posted update names the current version, and with distinct clients
   * each client is addressed by exactly one entry of the broadcast.
   */
  lemma UpdateReachesEachClientOnce(clients: seq<ClientId>, k: nat)
    requires NoDup(clients) && k < |clients|
    ensures var log := Broadcast(clients, UpdateMessage());
            && (forall e :: e in log ==> e.message.kind == "UPDATE_AVAILABLE" && e.message.version == VERSION
                                         && e.message.text == "Updated to version " + VERSION)
            && log[k].client == clients[k]
            && forall i :: 0 <= i < |log| && log[i].client == clients[k] ==> i == k
  {
  }
}
