/**
 * The FaaS VIM polling client: the VNFs of a network service as the FaaS VIM
 * reports them, and the ingress URL of the service's bootstrap orchestrator.
 */
module NsPolling {
  import opened Wrappers
  import opened Exceptions
  import opened PyJson

  /** A reply of the polling service: its status and its body, `None` when the body is not JSON. */
  datatype PollReply = PollReply(status: int, body: Option<Json>)

  /** One entry of `get_vnfs_info`. */
  datatype VnfInfo = VnfInfo(vnfName: Json, ipAddress: Json, status: Json, records: nat)

  /** `NetworkServicePolling(osm_host, faas_host, faas_port, ns_name)`. */
  datatype Poller = Poller(osmHost: string, faasHost: string, faasPort: string, nsName: Json)

  /** Both queries read `http://{faas host}:{faas port}/osm/{ns_name}`. */
  function Endpoint(p: Poller): string {
    "http://" + p.faasHost + ":" + p.faasPort + "/osm/" + PyStr(p.nsName)
  }

  /** `request.json()['vnfs']`, iterated: a body that is not JSON is a decoding error (a ValueError). */
  function VnfsOf(reply: PollReply): Result<seq<Json>, Error> {
    match reply.body
    case None => Err(ValueError)
    case Some(data) =>
      match Index(data, "vnfs")
      case Err(e) => Err(e)
      case Ok(vnfs) => Iterate(vnfs)
  }

  /** The entry for one VNF: `records` counts the `vim_info.records` list when present, 0 otherwise. */
  function InfoOf(vnf: Json): (r: Result<VnfInfo, Error>)
    ensures r.Ok? ==> Get(vnf, "vnf_name", JNull) == Ok(r.value.vnfName)
    ensures r.Ok? ==> var vim := Get(vnf, "vim_info", JObject([])).value;
      vim.JObject? && (r.value.records == 0 <==> Lookup(vim.fields, "records").None? || Len(Lookup(vim.fields, "records").value) == Ok(0))
  {
    var name := Get(vnf, "vnf_name", JNull);
    var ip := Get(vnf, "ip_address", JNull);
    var status := Get(vnf, "status", JNull);
    var vim := Get(vnf, "vim_info", JObject([]));
    if name.Err? || ip.Err? || status.Err? || vim.Err? then Err(AttributeError)
    else if !vim.value.JObject? then Err(AttributeError)
    else if Lookup(vim.value.fields, "records").None? then Ok(VnfInfo(name.value, ip.value, status.value, 0))
    else
      match Len(Lookup(vim.value.fields, "records").value)
      case Err(e) => Err(e)
      case Ok(n) => Ok(VnfInfo(name.value, ip.value, status.value, n))
  }

  /** The entries of a list of VNFs, stopping at the first one that raises. */
  function InfoList(vnfs: seq<Json>): Result<seq<VnfInfo>, Error> {
    if vnfs == [] then Ok([])
    else
      match InfoOf(vnfs[0])
      case Err(e) => Err(e)
      case Ok(head) =>
        match InfoList(vnfs[1..])
        case Err(e) => Err(e)
        case Ok(tail) => Ok([head] + tail)
  }

  /** When no VNF raises, there is exactly one entry per VNF, in input order. */
  lemma {:induction false} InfoListPointwise(vnfs: seq<Json>)
    requires InfoList(vnfs).Ok?
    ensures |InfoList(vnfs).value| == |vnfs|
    ensures forall i :: 0 <= i < |vnfs| ==> InfoOf(vnfs[i]) == Ok(InfoList(vnfs).value[i])
  {
    InfoListLength(vnfs);
    forall i | 0 <= i < |vnfs| ensures InfoOf(vnfs[i]) == Ok(InfoList(vnfs).value[i]) {
      InfoListAt(vnfs, i);
    }
  }

  lemma {:induction false} InfoListLength(vnfs: seq<Json>)
    requires InfoList(vnfs).Ok?
    ensures |InfoList(vnfs).value| == |vnfs|
  {
    if vnfs != [] {
      InfoListStep(vnfs);
      InfoListLength(vnfs[1..]);
    }
  }

  lemma {:induction false} InfoListAt(vnfs: seq<Json>, i: nat)
    requires InfoList(vnfs).Ok? && i < |vnfs|
    ensures i < |InfoList(vnfs).value| && InfoOf(vnfs[i]) == Ok(InfoList(vnfs).value[i])
  {
    InfoListStep(vnfs);
    if i > 0 {
      InfoListAt(vnfs[1..], i - 1);
      assert vnfs[1..][i - 1] == vnfs[i];
    }
  }

  /**
   * `get_vnfs_info`: the status is not checked; an undecodable body, a missing
   * `vnfs` member or a malformed VNF raises.
   */
  method GetVnfsInfo(p: Poller, reply: PollReply) returns (r: Result<seq<VnfInfo>, Error>)
    ensures VnfsOf(reply).Err? ==> r == Err(VnfsOf(reply).error)
    ensures VnfsOf(reply).Ok? ==> r == InfoList(VnfsOf(reply).value)
  {
    var data := VnfsOf(reply);
    if data.Err? {
      return Err(data.error);
    }
    var vnfs := data.value;
    var list: seq<VnfInfo> := [];
    var i := 0;
    assert vnfs[i..] == vnfs;
    ConcatEmpty(InfoList(vnfs));
    while i < |vnfs|
      invariant 0 <= i <= |vnfs|
      invariant InfoList(vnfs) == Concat(list, InfoList(vnfs[i..]))
    {
      var entry := InfoOf(vnfs[i]);
      if entry.Err? {
        InfoListStep(vnfs[i..]);
        return Err(entry.error);
      }
      InfoListStep(vnfs[i..]);
      assert vnfs[i..][1..] == vnfs[i + 1..];
      list := list + [entry.value];
      ConcatAssoc(list[..|list| - 1], entry.value, InfoList(vnfs[i + 1..]));
      i := i + 1;
    }
    assert vnfs[i..] == [];
    assert list + [] == list;
    return Ok(list);
  }

  /** Prefixing a list of entries to a result. */
  function Concat(prefix: seq<VnfInfo>, rest: Result<seq<VnfInfo>, Error>): Result<seq<VnfInfo>, Error> {
    match rest
    case Err(e) => Err(e)
    case Ok(tail) => Ok(prefix + tail)
  }

  lemma ConcatAssoc(prefix: seq<VnfInfo>, x: VnfInfo, rest: Result<seq<VnfInfo>, Error>)
    ensures Concat(prefix, Concat([x], rest)) == Concat(prefix + [x], rest)
  {
    if rest.Ok? {
      assert prefix + ([x] + rest.value) == (prefix + [x]) + rest.value;
    }
  }

  lemma InfoListStep(vnfs: seq<Json>)
    requires vnfs != []
    ensures InfoOf(vnfs[0]).Err? ==> InfoList(vnfs) == Err(InfoOf(vnfs[0]).error)
    ensures InfoOf(vnfs[0]).Ok? ==> InfoList(vnfs) == Concat([InfoOf(vnfs[0]).value], InfoList(vnfs[1..]))
  {
  }

  lemma ConcatEmpty(rest: Result<seq<VnfInfo>, Error>)
    ensures Concat([], rest) == rest
  {
    if rest.Ok? {
      assert [] + rest.value == rest.value;
    }
  }

  /** `vnf.get('vim_info', {}).get('IngressUrl', None)`. */
  function IngressOf(vnf: Json): Result<Json, Error> {
    match Get(vnf, "vim_info", JObject([]))
    case Err(e) => Err(e)
    case Ok(vim) => Get(vim, "IngressUrl", JNull)
  }

  /** The first ingress URL that is not null, scanning the VNFs in order; null when there is none. */
  function FirstIngress(vnfs: seq<Json>): Result<Json, Error> {
    if vnfs == [] then Ok(JNull)
    else
      match IngressOf(vnfs[0])
      case Err(e) => Err(e)
      case Ok(url) => if url != JNull then Ok(url) else FirstIngress(vnfs[1..])
  }

  /**
   * The URL found belongs to some VNF and every VNF before it has none; a null
   * result means that no VNF has one.
   */
  lemma {:induction false} FirstIngressMeaning(vnfs: seq<Json>)
    requires FirstIngress(vnfs).Ok?
    ensures FirstIngress(vnfs).value != JNull ==>
      exists k :: 0 <= k < |vnfs| && IngressOf(vnfs[k]) == FirstIngress(vnfs)
        && forall j :: 0 <= j < k ==> IngressOf(vnfs[j]) == Ok(JNull)
    ensures FirstIngress(vnfs).value == JNull ==> forall j :: 0 <= j < |vnfs| ==> IngressOf(vnfs[j]) == Ok(JNull)
  {
    if vnfs != [] && IngressOf(vnfs[0]) == Ok(JNull) {
      FirstIngressMeaning(vnfs[1..]);
      if FirstIngress(vnfs).value != JNull {
        var k :| 0 <= k < |vnfs[1..]| && IngressOf(vnfs[1..][k]) == FirstIngress(vnfs[1..])
          && forall j :: 0 <= j < k ==> IngressOf(vnfs[1..][j]) == Ok(JNull);
        assert IngressOf(vnfs[k + 1]) == FirstIngress(vnfs);
        forall j | 0 <= j < k + 1 ensures IngressOf(vnfs[j]) == Ok(JNull) {
          if j > 0 { assert vnfs[j] == vnfs[1..][j - 1]; }
        }
      } else {
        forall j | 0 <= j < |vnfs| ensures IngressOf(vnfs[j]) == Ok(JNull) {
          if j > 0 { assert vnfs[j] == vnfs[1..][j - 1]; }
        }
      }
    }
  }

  /** What `get_bootstrap_ingress_url` returns for a reply. */
  function BootstrapIngressUrl(reply: PollReply): Result<Json, Error> {
    if reply.body.None? then Err(ValueError)
    else if reply.status != 200 then Ok(JNull)
    else
      match VnfsOf(reply)
      case Err(e) => Err(e)
      case Ok(vnfs) => FirstIngress(vnfs)
  }

  /**
   * `get_bootstrap_ingress_url`: the body is decoded before the status is
   * checked; any status but 200 gives None; otherwise the scan stops at the
   * first VNF whose `vim_info` has an ingress URL.
   */
  method GetBootstrapIngressUrl(p: Poller, reply: PollReply) returns (r: Result<Json, Error>)
    ensures r == BootstrapIngressUrl(reply)
    ensures reply.body.Some? && reply.status != 200 ==> r == Ok(JNull)
  {
    if reply.body.None? {
      return Err(ValueError);
    }
    if reply.status != 200 {
      return Ok(JNull);
    }
    var data := VnfsOf(reply);
    if data.Err? {
      return Err(data.error);
    }
    var vnfs := data.value;
    var url := JNull;
    var i := 0;
    while i < |vnfs|
      invariant 0 <= i <= |vnfs|
      invariant FirstIngress(vnfs) == FirstIngress(vnfs[i..])
    {
      assert vnfs[i..][1..] == vnfs[i + 1..];
      var found := IngressOf(vnfs[i]);
      if found.Err? {
        return Err(found.error);
      }
      if found.value != JNull {
        url := found.value;
        break;
      }
      i := i + 1;
    }
    return Ok(url);
  }
}
