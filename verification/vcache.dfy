/**
 * The day-1/2 configuration of an edge vCache: one PATCH to the vCache's
 * configuration service pointing it at the mid vCache.
 */
module Vcache {
  import opened Wrappers
  import opened Exceptions
  import opened Text
  import Vdns

  /** The port of the vCache configuration service. */
  const Port: string := "8888"

  /** The PATCH request: endpoint and the members of `vnfSpecificData`. */
  datatype PatchRequest = PatchRequest(endpoint: string, ipAddress: string, port: string, fqdn: string)

  /**
   * `Configuration(edge_mgmt_ip, mid_cache_ip).apply(n)`: the addresses are
   * rendered with `format`/`str`, so an absent one becomes `None`.
   */
  function Apply(edgeIpMgmtNet: Option<string>, midIpCacheNet: Option<string>, n: int): PatchRequest {
    PatchRequest(
      "http://" + Show(edgeIpMgmtNet) + ":" + Port + "/vnfconfig/v1/cache_edge_origin_configuration",
      Show(midIpCacheNet),
      "8080",
      "cdn-uhd.cache" + IntToString(n) + ".5gmedia.lab")
  }

  /** Only HTTP 200 is success. */
  function CheckStatus(status: int): (r: Outcome<Error>)
    ensures r.Pass? <==> status == 200
    ensures r.Fail? ==> r.error == VCacheConfigurationFailed
  {
    if status != 200 then Fail(VCacheConfigurationFailed) else Pass
  }

  /**
   * The vCache is told to answer for exactly the hostname the vDNS registers for
   * the same number, and for no other number's hostname.
   */
  lemma FqdnMatchesVdns(edgeIpMgmtNet: Option<string>, midIpCacheNet: Option<string>, edgeIpUserNet: Option<string>, n: int, m: int)
    ensures Apply(edgeIpMgmtNet, midIpCacheNet, n).fqdn == Vdns.AddVcacheEntry(edgeIpUserNet, n).hostname
    ensures Apply(edgeIpMgmtNet, midIpCacheNet, n).fqdn == Vdns.AddVcacheEntry(edgeIpUserNet, m).hostname <==> m == n
  {
    Vdns.HostnameInjective(n, m);
  }
}
