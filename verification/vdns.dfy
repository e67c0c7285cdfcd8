/**
 * The vDNS client: hostname registration for a new edge vCache and removal of
 * the entries of regular and FaaS edge vCaches.
 */
module Vdns {
  import opened Wrappers
  import opened Exceptions
  import opened Text
  import Settings

  /** The port the client hard-codes (it does not read `VDNS_PORT`). */
  const Port: string := "9999"

  function Endpoint(): string {
    "http://" + Settings.VdnsIp + ":" + Port + "/dns"
  }

  /** The hostname of the regular edge vCache number `n`. */
  function Hostname(n: int): string {
    "cdn-uhd.cache" + IntToString(n) + ".5gmedia.lab"
  }

  /** The hostname of the FaaS edge vCache number `n`. */
  function FaasHostname(n: int): string {
    "cdn-uhd.cache-faas-" + IntToString(n) + ".5gmedia.lab"
  }

  datatype Verb = Post | Delete

  /** A request to the vDNS: `ip` is the `ip` member of the payload, present only for registrations. */
  datatype DnsRequest = DnsRequest(verb: Verb, endpoint: string, hostname: string, ip: Option<string>)

  /** `add_vcache_entry`: the address is rendered with `"{}".format`, so an absent one becomes `None`. */
  function AddVcacheEntry(edgeIpUserNet: Option<string>, n: int): DnsRequest {
    DnsRequest(Post, Endpoint(), Hostname(n), Some(Show(edgeIpUserNet)))
  }

  /** `delete_vcache_entry`. */
  function DeleteVcacheEntry(n: int): DnsRequest {
    DnsRequest(Delete, Endpoint(), Hostname(n), None)
  }

  /** `delete_faas_vcache_entry`. */
  function DeleteFaasVcacheEntry(n: int): DnsRequest {
    DnsRequest(Delete, Endpoint(), FaasHostname(n), None)
  }

  /** All three operations accept only HTTP 200. */
  function CheckStatus(status: int): (r: Outcome<Error>)
    ensures r.Pass? <==> status == 200
    ensures r.Fail? ==> r.error == VdnsConfigurationFailed
  {
    if status != 200 then Fail(VdnsConfigurationFailed) else Pass
  }

  /** The text between a known prefix and suffix. */
  lemma Infix(p: string, x: string, q: string)
    ensures (p + x + q)[|p|..|p| + |x|] == x
  {
  }

  /** Two regular vCaches with different numbers get different hostnames. */
  lemma HostnameInjective(m: int, n: int)
    ensures Hostname(m) == Hostname(n) <==> m == n
  {
    if Hostname(m) == Hostname(n) {
      var p, q := "cdn-uhd.cache", ".5gmedia.lab";
      assert |IntToString(m)| == |IntToString(n)| by {
        assert |Hostname(m)| == |p| + |IntToString(m)| + |q|;
      }
      Infix(p, IntToString(m), q);
      Infix(p, IntToString(n), q);
      IntToStringInjective(m, n);
    }
  }

  /** Two FaaS vCaches with different numbers get different hostnames. */
  lemma FaasHostnameInjective(m: int, n: int)
    ensures FaasHostname(m) == FaasHostname(n) <==> m == n
  {
    if FaasHostname(m) == FaasHostname(n) {
      var p, q := "cdn-uhd.cache-faas-", ".5gmedia.lab";
      assert |IntToString(m)| == |IntToString(n)| by {
        assert |FaasHostname(m)| == |p| + |IntToString(m)| + |q|;
      }
      Infix(p, IntToString(m), q);
      Infix(p, IntToString(n), q);
      IntToStringInjective(m, n);
    }
  }

  /** No FaaS hostname is ever the hostname of a regular vCache, whatever the two numbers. */
  lemma RegularNeverFaas(m: int, n: int)
    ensures Hostname(m) != FaasHostname(n)
  {
    IntToStringShape(m);
    var h := Hostname(m);
    assert h[13] == IntToString(m)[0];
    if m >= 0 {
      assert IsDigit(h[13]) && FaasHostname(n)[13] == '-';
    } else {
      assert h[14] == IntToString(m)[1];
      assert IsDigit(h[14]) && FaasHostname(n)[14] == 'f';
    }
  }

  /** Removal of a regular vCache targets exactly the hostname its registration created. */
  lemma AddDeleteAgree(edgeIpUserNet: Option<string>, n: int, m: int)
    ensures DeleteVcacheEntry(m).hostname == AddVcacheEntry(edgeIpUserNet, n).hostname <==> m == n
    ensures DeleteVcacheEntry(m).endpoint == AddVcacheEntry(edgeIpUserNet, n).endpoint == "http://192.168.111.20:9999/dns"
  {
    HostnameInjective(m, n);
    EndpointText();
  }

  /** The endpoint the client builds from the configured address and its fixed port. */
  lemma EndpointText()
    ensures Endpoint() == "http://192.168.111.20:9999/dns"
  {
    var e := Endpoint();
    assert |e| == 30;
    forall k | 0 <= k < 30 ensures e[k] == "http://192.168.111.20:9999/dns"[k] {
    }
  }

  /** The regular removal never touches a FaaS vCache's entry, and the other way round. */
  lemma RemovalsDisjoint(m: int, n: int)
    ensures DeleteVcacheEntry(m).hostname != DeleteFaasVcacheEntry(n).hostname
  {
    RegularNeverFaas(m, n);
  }
}
