/**
 * The outward actions of the executor, in the order it performs them: the
 * requests it sends, the messages it publishes and the points it writes.
 * Replies are inputs of the operations that perform these actions.
 */
module Effects {
  import opened PyJson
  import Vdns
  import Vcache
  import NbiNs
  import FaasAction
  import Utils

  /** A message published on the configuration topic: its key and its dictionary value. */
  datatype Message = Message(key: string, value: map<string, Json>)

  /**
   * `PublishSpectators` is the spectator-qualities document, sent unchanged and
   * without a key on the spectator configuration topic.
   */
  datatype Effect =
    | Ping(command: string)
    | ConfigureVcache(patch: Vcache.PatchRequest)
    | UpdateVdns(dns: Vdns.DnsRequest)
    | ScaleVnf(scale: NbiNs.ScaleRequest)
    | CallFaas(call: FaasAction.FaasRequest)
    | Publish(message: Message)
    | PublishSpectators(qualities: Json)
    | WriteEvent(event: Utils.EventRecord)
}
