/**
 * Requests to the service-specific serverless orchestrator of a network
 * service: spawn and terminate FaaS edge vCaches and vTranscoders.
 */
module FaasAction {
  import opened Wrappers
  import opened Exceptions
  import opened Text
  import opened PyJson
  import Vdns

  /** `Action.Operations`. */
  const SpawnVcache: string := "spawn_vcache"
  const TerminateVcache: string := "terminate_vcache"
  const SpawnTranscoder: string := "spawn_transcoder"
  const TerminateTranscoder: string := "terminate_transcoder"

  /** `Action.Vnfds`: the vTranscoder descriptors for GPU and CPU placement. */
  const VtranscoderGpu: string := "7a026afc-c3d6-4192-907d-fd70e361e8aa"
  const VtranscoderCpu: string := "66e4db31-4d04-45c8-b3ed-48a2149163f8"

  /** A JSON POST to the orchestrator; the payload is a dictionary with distinct keys. */
  datatype FaasRequest = FaasRequest(endpoint: string, payload: map<string, Json>)

  /** The member `key` of a request's payload. */
  function Member(r: FaasRequest, key: string): Option<Json> {
    if key in r.payload then Some(r.payload[key]) else None
  }

  /** `request.raise_for_status()` followed by `return status`. */
  function RaiseForStatus(status: int): (r: Result<int, Error>)
    ensures r.Err? <==> 400 <= status < 600
    ensures r.Err? ==> r.error == HttpError
    ensures r.Ok? ==> r.value == status
  {
    if 400 <= status < 600 then Err(HttpError) else Ok(status)
  }

  /** The hostname a FaaS edge vCache is spawned under. */
  function FaasFqdn(n: int): string {
    "cdn-uhd.cache-faas-" + IntToString(n) + ".5gmedia.lab"
  }

  /** Every request goes to the `handlerequest` resource of the bootstrap ingress. */
  function Endpoint(ingress: Json): string {
    PyStr(ingress) + "/handlerequest"
  }

  /** `spawn_edge_vcache_vnf`: the payload the orchestrator at `ingress` receives. */
  function SpawnEdgeVcacheRequest(ingress: Json, osmHost: string, eventUuid: string, nsName: Json,
                                  midCacheIpMgmtNet: Option<string>, n: int, vdnsIp: string, vdnsPort: string,
                                  vnfdName: string, vnfdIndex: string): FaasRequest
  {
    FaasRequest(Endpoint(ingress), map[
      "osm_ip" := JStr(osmHost),
      "event_uuid" := JStr(eventUuid),
      "osm_ns" := nsName,
      "operation" := JStr(SpawnVcache),
      "vnfd_name" := JStr(vnfdName),
      "vnfd_index" := JStr(vnfdIndex),
      "origin_ip" := OfOption(midCacheIpMgmtNet),
      "origin_port" := JStr("8080"),
      "fqdn" := JStr(FaasFqdn(n)),
      "vdns_ip" := JStr(vdnsIp),
      "vdns_port" := JStr(vdnsPort),
      "kafka_broker" := JStr("192.168.111.17:9092")])
  }

  /** `terminate_edge_vcache`. */
  function TerminateEdgeVcacheRequest(ingress: Json, osmHost: string, terminateEventUuid: string, spawnEventUuid: string,
                                      nsName: Json, n: int, vdnsIp: string, vdnsPort: string): FaasRequest
  {
    FaasRequest(Endpoint(ingress), map[
      "osm_ip" := JStr(osmHost),
      "event_uuid" := JStr(terminateEventUuid),
      "osm_ns" := nsName,
      "operation" := JStr(TerminateVcache),
      "fqdn" := JStr(FaasFqdn(n)),
      "vdns_ip" := JStr(vdnsIp),
      "vdns_port" := JStr(vdnsPort),
      "uuid" := JStr(spawnEventUuid)])
  }

  /** `spawn_transcoder3d_vnf`: the descriptor and node follow the `gpu` flag. */
  function SpawnTranscoder3dRequest(ingress: Json, osmHost: string, eventUuid: Json, nsName: Json, vnfdIndex: Json,
                                    playerId: Json, produceProfile: Json, gpu: bool, brokerIp: Json, brokerPort: Json)
    : FaasRequest
  {
    FaasRequest(Endpoint(ingress), map[
      "osm_ip" := JStr(osmHost),
      "event_uuid" := eventUuid,
      "osm_ns" := nsName,
      "operation" := JStr(SpawnTranscoder),
      "player_index" := playerId,
      "vnfd_name" := JStr(if gpu then VtranscoderGpu else VtranscoderCpu),
      "vnfd_index" := JStr(PyStr(vnfdIndex)),
      "gpu_node" := JStr(if gpu then "1" else "0"),
      "produce_profile" := JStr(PyStr(produceProfile)),
      "metrics_broker_ip" := brokerIp,
      "metrics_broker_port" := brokerPort])
  }

  /** `terminate_transcoder3d_vnf`. */
  function TerminateTranscoder3dRequest(ingress: Json, osmHost: string, spawnEventUuid: Json, terminateEventUuid: Json,
                                        nsName: Json): FaasRequest
  {
    FaasRequest(Endpoint(ingress), map[
      "osm_ip" := JStr(osmHost),
      "event_uuid" := JStr(PyStr(terminateEventUuid)),
      "osm_ns" := nsName,
      "operation" := JStr(TerminateTranscoder),
      "uuid" := JStr(PyStr(spawnEventUuid))])
  }

  /**
   * A spawned FaaS vCache announces exactly the hostname the vDNS clean-up
   * removes for the same number, and never a regular vCache's hostname.
   */
  lemma SpawnFqdnIsFaasVdnsEntry(ingress: Json, osmHost: string, eventUuid: string, nsName: Json, mid: Option<string>,
                                 n: int, vdnsIp: string, vdnsPort: string, vnfdName: string, vnfdIndex: string, m: int)
    ensures Member(SpawnEdgeVcacheRequest(ingress, osmHost, eventUuid, nsName, mid, n, vdnsIp, vdnsPort, vnfdName, vnfdIndex), "fqdn")
      == Some(JStr(Vdns.DeleteFaasVcacheEntry(n).hostname))
    ensures Vdns.DeleteVcacheEntry(m).hostname != FaasFqdn(n)
  {
    Vdns.RegularNeverFaas(m, n);
  }

  /** The spawn payload names the operation, the mid vCache as origin on port 8080, the new uuid and the service. */
  lemma SpawnPayload(ingress: Json, osmHost: string, eventUuid: string, nsName: Json, mid: Option<string>, n: int,
                     vdnsIp: string, vdnsPort: string, vnfdName: string, vnfdIndex: string)
    ensures var r := SpawnEdgeVcacheRequest(ingress, osmHost, eventUuid, nsName, mid, n, vdnsIp, vdnsPort, vnfdName, vnfdIndex);
      Member(r, "operation") == Some(JStr("spawn_vcache"))
      && Member(r, "origin_ip") == Some(OfOption(mid))
      && Member(r, "origin_port") == Some(JStr("8080"))
      && Member(r, "event_uuid") == Some(JStr(eventUuid))
      && Member(r, "osm_ns") == Some(nsName)
      && Member(r, "fqdn") == Some(JStr(FaasFqdn(n)))
  {
  }

  /**
   * The terminate payload carries the new event uuid, points at the spawn
   * event through `uuid`, and names the same FaaS hostname as the spawn.
   */
  lemma TerminatePayload(ingress: Json, osmHost: string, terminateUuid: string, spawnUuid: string, nsName: Json, n: int,
                         vdnsIp: string, vdnsPort: string, mid: Option<string>, vnfdName: string, vnfdIndex: string)
    ensures var t := TerminateEdgeVcacheRequest(ingress, osmHost, terminateUuid, spawnUuid, nsName, n, vdnsIp, vdnsPort);
      Member(t, "operation") == Some(JStr("terminate_vcache"))
      && Member(t, "event_uuid") == Some(JStr(terminateUuid))
      && Member(t, "uuid") == Some(JStr(spawnUuid))
      && Member(t, "fqdn") == Some(JStr(FaasFqdn(n)))
      && Member(t, "fqdn") == Member(SpawnEdgeVcacheRequest(ingress, osmHost, spawnUuid, nsName, mid, n, vdnsIp, vdnsPort, vnfdName, vnfdIndex), "fqdn")
  {
  }

  /** `gpu` selects the GPU descriptor and node "1"; otherwise the CPU descriptor and node "0". */
  lemma TranscoderPlacement(ingress: Json, osmHost: string, eventUuid: Json, nsName: Json, vnfdIndex: Json, playerId: Json,
                            produceProfile: Json, gpu: bool, brokerIp: Json, brokerPort: Json)
    ensures var r := SpawnTranscoder3dRequest(ingress, osmHost, eventUuid, nsName, vnfdIndex, playerId, produceProfile, gpu, brokerIp, brokerPort);
      (Member(r, "gpu_node") == Some(JStr("1")) <==> gpu)
      && (Member(r, "vnfd_name") == Some(JStr(VtranscoderGpu)) <==> gpu)
      && (Member(r, "vnfd_name") == Some(JStr(VtranscoderCpu)) <==> !gpu)
      && Member(r, "operation") == Some(JStr("spawn_transcoder"))
  {
  }

  /**
   * The vTranscoder terminate payload holds exactly five members: it carries
   * the new event uuid as text, points at the spawn event through `uuid`, and
   * names the service the spawn named.
   */
  lemma TranscoderTerminatePayload(ingress: Json, osmHost: string, spawnUuid: Json, terminateUuid: Json, nsName: Json,
                                   vnfdIndex: Json, playerId: Json, produceProfile: Json, gpu: bool,
                                   brokerIp: Json, brokerPort: Json)
    ensures var t := TerminateTranscoder3dRequest(ingress, osmHost, spawnUuid, terminateUuid, nsName);
      var s := SpawnTranscoder3dRequest(ingress, osmHost, spawnUuid, nsName, vnfdIndex, playerId, produceProfile, gpu,
                                        brokerIp, brokerPort);
      && t.payload.Keys == {"osm_ip", "event_uuid", "osm_ns", "operation", "uuid"}
      && Member(t, "operation") == Some(JStr("terminate_transcoder"))
      && Member(t, "osm_ip") == Some(JStr(osmHost))
      && Member(t, "event_uuid") == Some(JStr(PyStr(terminateUuid)))
      && Member(s, "event_uuid") == Some(spawnUuid)
      && Member(t, "uuid") == Some(JStr(PyStr(Member(s, "event_uuid").value)))
      && Member(t, "osm_ns") == Member(s, "osm_ns")
      && t.endpoint == s.endpoint
  {
  }

  /** All four requests of one ingress go to the same resource. */
  lemma SameEndpoint(ingress: Json, osmHost: string, eventUuid: string, nsName: Json, mid: Option<string>, n: int,
                     vdnsIp: string, vdnsPort: string, vnfdName: string, vnfdIndex: string, j: Json, gpu: bool)
    ensures SpawnEdgeVcacheRequest(ingress, osmHost, eventUuid, nsName, mid, n, vdnsIp, vdnsPort, vnfdName, vnfdIndex).endpoint
      == TerminateEdgeVcacheRequest(ingress, osmHost, eventUuid, eventUuid, nsName, n, vdnsIp, vdnsPort).endpoint
      == SpawnTranscoder3dRequest(ingress, osmHost, j, nsName, j, j, j, gpu, j, j).endpoint
      == TerminateTranscoder3dRequest(ingress, osmHost, j, j, nsName).endpoint
      == PyStr(ingress) + "/handlerequest"
  {
  }

  /** `faas_action.Action`: the orchestrator host, the service and descriptor, and the ingress it talks to. */
  class Action {
    const osmHost: string
    const nsUuid: Json
    const vnfdUuid: Json
    var bootstrapIngressUrl: Json

    constructor (osmHost: string, nsUuid: Json, vnfdUuid: Json)
      ensures this.osmHost == osmHost && this.nsUuid == nsUuid && this.vnfdUuid == vnfdUuid
      ensures bootstrapIngressUrl == JNull
    {
      this.osmHost := osmHost;
      this.nsUuid := nsUuid;
      this.vnfdUuid := vnfdUuid;
      bootstrapIngressUrl := JNull;
    }

    /** `set_bootstrap_ingress_url`: only the ingress changes. */
    method SetBootstrapIngressUrl(url: Json)
      modifies this
      ensures bootstrapIngressUrl == url
    {
      bootstrapIngressUrl := url;
    }

    function SpawnEdgeVcacheVnf(eventUuid: string, nsName: Json, midCacheIpMgmtNet: Option<string>, n: int,
                                vdnsIp: string, vdnsPort: string, vnfdName: string, vnfdIndex: string): (r: FaasRequest)
      reads this
      ensures r.endpoint == PyStr(bootstrapIngressUrl) + "/handlerequest"
      ensures Member(r, "operation") == Some(JStr("spawn_vcache")) && Member(r, "event_uuid") == Some(JStr(eventUuid))
    {
      SpawnEdgeVcacheRequest(bootstrapIngressUrl, osmHost, eventUuid, nsName, midCacheIpMgmtNet, n, vdnsIp, vdnsPort, vnfdName, vnfdIndex)
    }

    function TerminateEdgeVcache(terminateEventUuid: string, spawnEventUuid: string, nsName: Json, n: int,
                                 vdnsIp: string, vdnsPort: string): (r: FaasRequest)
      reads this
      ensures r.endpoint == PyStr(bootstrapIngressUrl) + "/handlerequest"
      ensures Member(r, "operation") == Some(JStr("terminate_vcache")) && Member(r, "uuid") == Some(JStr(spawnEventUuid))
    {
      TerminateEdgeVcacheRequest(bootstrapIngressUrl, osmHost, terminateEventUuid, spawnEventUuid, nsName, n, vdnsIp, vdnsPort)
    }

    function SpawnTranscoder3dVnf(eventUuid: Json, nsName: Json, vnfdIndex: Json, playerId: Json,
                                  produceProfile: Json, gpu: bool, brokerIp: Json, brokerPort: Json): (r: FaasRequest)
      reads this
      ensures r.endpoint == PyStr(bootstrapIngressUrl) + "/handlerequest"
      ensures Member(r, "operation") == Some(JStr("spawn_transcoder")) && Member(r, "event_uuid") == Some(eventUuid)
    {
      SpawnTranscoder3dRequest(bootstrapIngressUrl, osmHost, eventUuid, nsName, vnfdIndex, playerId, produceProfile, gpu, brokerIp, brokerPort)
    }

    function TerminateTranscoder3dVnf(spawnEventUuid: Json, terminateEventUuid: Json, nsName: Json): (r: FaasRequest)
      reads this
      ensures r.endpoint == PyStr(bootstrapIngressUrl) + "/handlerequest"
      ensures Member(r, "operation") == Some(JStr("terminate_transcoder"))
      ensures Member(r, "uuid") == Some(JStr(PyStr(spawnEventUuid)))
    {
      TerminateTranscoder3dRequest(bootstrapIngressUrl, osmHost, spawnEventUuid, terminateEventUuid, nsName)
    }
  }
}
