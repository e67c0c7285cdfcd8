/**
 * The subscriber to the orchestrator's network-service topic: it configures a
 * vCDN service's new edge vCache after a scale-out or an instantiation (reach
 * it, point it at the mid vCache, register it in the vDNS), and removes the
 * service's vDNS entries and FaaS ledger points when the service terminates.
 */
module OsmSubscriber {
  import opened Wrappers
  import opened Exceptions
  import opened PyJson
  import opened OsmRecords
  import opened Effects
  import Text
  import Settings
  import Utils
  import ActionUtils
  import Vdns
  import Vcache
  import Queries

  /** `for attempt in range(1, 20)`: the new edge vCache is pinged at most this many times. */
  const PingAttempts: nat := 19

  /** `range(1, 11)` after a scale-out and `range(1, 10)` after an instantiation. */
  const ScaleOutConfigurationAttempts: nat := 10
  const InstantiationConfigurationAttempts: nat := 9

  /** The networks whose addresses the configuration uses. */
  const MidCacheNet: string := "5GMEDIA-CACHE-NET"
  const EdgeMgmtNet: string := "5GMEDIA_MGMT_NET"
  const EdgeUserNet: string := "5GMEDIA-USER-NET"

  /** The life-cycle operation paths of the two event lookups. */
  const EventPath: seq<string> := ["operationParams", "lcmOperationType"]
  const ScaleEventPath: seq<string> := ["operationParams", "scaleVnfData", "scaleVnfType"]

  /** How a handler that did not let an exception escape ended: it returned early, ran to the end, or logged an exception. */
  datatype Handled = Ignored | Completed | Caught(error: Error)

  /**
   * What the outside world answers while one message is handled. `nsRecord` and
   * `operation` are the decoded replies of the orchestrator (an error when the
   * token or the request fails), `vnfs` the VNF records discovery reads,
   * `pingStatuses` the exit status of each ping command, and the statuses the
   * answers of the vCache and the vDNS.
   */
  datatype Replies = Replies(
    nsRecord: Result<Json, Error>,
    operation: Result<Json, Error>,
    vnfs: Result<seq<VnfRecord>, Error>,
    platform: string,
    pingStatuses: seq<int>,
    vcacheStatuses: seq<int>,
    vdnsStatus: int,
    regularStatuses: seq<int>,
    ledgerReachable: bool,
    dropReply: Queries.DbReply)

  /** `nsd_ref_name and nsd_ref_name.startswith(vCDN_NSD_PREFIX)`: only a string has `startswith`. */
  function IsVcdn(nsdRefName: Json): (r: Result<bool, Error>)
    ensures r == Ok(true) <==> nsdRefName.JStr? && Text.StartsWith(nsdRefName.s, Settings.VcdnNsdPrefix)
    ensures r.Err? <==> Truthy(nsdRefName) && !nsdRefName.JStr?
    ensures r.Err? ==> r.error == AttributeError
  {
    if !Truthy(nsdRefName) then Ok(false)
    else if nsdRefName.JStr? then Ok(Text.StartsWith(nsdRefName.s, Settings.VcdnNsdPrefix))
    else Err(AttributeError)
  }

  /** `get_nsd_ref_name` followed by the prefix test. */
  function NsdCheck(nsRecord: Result<Json, Error>): (r: Result<bool, Error>)
    ensures r == Ok(true) <==>
      nsRecord.Ok? && exists name :: Get(nsRecord.value, "nsd-name-ref", JNull) == Ok(JStr(name)) && Text.StartsWith(name, Settings.VcdnNsdPrefix)
    ensures nsRecord.Err? ==> r == Err(nsRecord.error)
  {
    if nsRecord.Err? then Err(nsRecord.error)
    else
      match Get(nsRecord.value, "nsd-name-ref", JNull)
      case Err(e) => Err(e)
      case Ok(name) => IsVcdn(name)
  }

  /** `get_event` and `get_scale_event`: a chain of `get`s in the decoded operation. */
  function OperationEvent(operation: Result<Json, Error>, path: seq<string>): Result<Json, Error>
    requires |path| > 0
  {
    if operation.Err? then Err(operation.error) else GetPath(operation.value, path, JNull)
  }

  /** Whether attempt `i` succeeded; an attempt past the given outcomes fails. */
  predicate Succeeded(outcomes: seq<bool>, i: nat) {
    i < |outcomes| && outcomes[i]
  }

  /**
   * `k` rounds of a retry loop that breaks at the first success: whether it
   * succeeded, and one `attempt` per round actually run.
   */
  function Retries(attempt: Effect, outcomes: seq<bool>, k: nat): (bool, seq<Effect>) {
    if k == 0 then (false, [])
    else
      var prev := Retries(attempt, outcomes, k - 1);
      if prev.0 then prev else (Succeeded(outcomes, k - 1), prev.1 + [attempt])
  }

  /**
   * The loop runs one round more than the failures before the first success,
   * and all `k` rounds when none of them succeeds; it never runs past `k`.
   */
  lemma {:induction false} RetriesMeaning(attempt: Effect, outcomes: seq<bool>, k: nat)
    ensures var (ok, t) := Retries(attempt, outcomes, k);
      |t| <= k && (k > 0 ==> |t| >= 1)
      && (forall j :: 0 <= j < |t| ==> t[j] == attempt)
      && (forall j :: 0 <= j < |t| - 1 ==> !Succeeded(outcomes, j))
      && (ok <==> |t| >= 1 && Succeeded(outcomes, |t| - 1))
      && (!ok ==> |t| == k)
  {
    if k > 0 {
      RetriesMeaning(attempt, outcomes, k - 1);
    }
  }

  /** Once the loop has succeeded, granting it more rounds changes nothing. */
  lemma {:induction false} RetriesSettled(attempt: Effect, outcomes: seq<bool>, k: nat, l: nat)
    requires k <= l && Retries(attempt, outcomes, k).0
    ensures Retries(attempt, outcomes, l) == Retries(attempt, outcomes, k)
    decreases l - k
  {
    if k < l {
      RetriesSettled(attempt, outcomes, k, l - 1);
    }
  }

  /** What `check_ping` reports for pings that exit with these statuses. */
  function Reachabilities(statuses: seq<int>): (outcomes: seq<bool>)
    ensures |outcomes| == |statuses|
    ensures forall i :: 0 <= i < |statuses| ==> (outcomes[i] <==> statuses[i] == 0)
  {
    seq(|statuses|, i requires 0 <= i < |statuses| => Utils.CheckPing(statuses[i]))
  }

  /**
   * `ping_edge_vcache_ip`: ping until `check_ping` reports the address
   * reachable, at most nineteen times; it never raises. A ping past the given
   * statuses fails.
   */
  method PingEdgeVcacheIp(ip: Option<string>, platform: string, statuses: seq<int>) returns (effects: seq<Effect>)
    ensures effects == Retries(Ping(Utils.PingCommand(platform, ip)), Reachabilities(statuses), PingAttempts).1
  {
    var attempt := Ping(Utils.PingCommand(platform, ip));
    effects := [];
    var i := 0;
    while i < PingAttempts
      invariant i <= PingAttempts
      invariant Retries(attempt, Reachabilities(statuses), i) == (false, effects)
    {
      effects := effects + [attempt];
      var status := if i < |statuses| then statuses[i] else 1;
      var reachable := Utils.CheckPing(status);
      assert reachable == Succeeded(Reachabilities(statuses), i);
      if reachable {
        RetriesSettled(attempt, Reachabilities(statuses), i + 1, PingAttempts);
        break;
      }
      i := i + 1;
    }
  }

  /**
   * The address is pinged once more than the failed pings before the first
   * ping that exits with 0, and nineteen times when none of the first
   * nineteen does; every ping runs the same command.
   */
  lemma PingsUntilReachable(ip: Option<string>, platform: string, statuses: seq<int>)
    ensures var t := Retries(Ping(Utils.PingCommand(platform, ip)), Reachabilities(statuses), PingAttempts).1;
      && 1 <= |t| <= PingAttempts
      && (forall j :: 0 <= j < |t| ==> t[j] == Ping(Utils.PingCommand(platform, ip)))
      && (forall j :: 0 <= j < |t| - 1 && j < |statuses| ==> statuses[j] != 0)
      && (|t| < PingAttempts ==> |t| <= |statuses| && statuses[|t| - 1] == 0)
      && (forall j :: 0 <= j < PingAttempts && j < |statuses| && statuses[j] == 0 ==> |t| <= j + 1)
  {
    var outcomes := Reachabilities(statuses);
    RetriesMeaning(Ping(Utils.PingCommand(platform, ip)), outcomes, PingAttempts);
    var t := Retries(Ping(Utils.PingCommand(platform, ip)), outcomes, PingAttempts).1;
    forall j | 0 <= j < |t| - 1 && j < |statuses|
      ensures statuses[j] != 0
    {
      assert !Succeeded(outcomes, j);
    }
  }

  /** The outcomes of vCache configuration attempts answered with these statuses. */
  function Completions(statuses: seq<int>): (outcomes: seq<bool>)
    ensures |outcomes| == |statuses|
    ensures forall i :: 0 <= i < |statuses| ==> (outcomes[i] <==> statuses[i] == 200)
  {
    seq(|statuses|, i requires 0 <= i < |statuses| => Vcache.CheckStatus(statuses[i]).Pass?)
  }

  /** `configure_edge_vcache`: true iff `apply` completes without raising, that is iff the vCache answers 200. */
  method ConfigureEdgeVcache(edgeIpMgmtNet: Option<string>, midIpCacheNet: Option<string>, n: int, status: int)
    returns (completed: bool, patch: Vcache.PatchRequest)
    ensures patch == Vcache.Apply(edgeIpMgmtNet, midIpCacheNet, n)
    ensures completed <==> status == 200
  {
    completed := true;
    patch := Vcache.Apply(edgeIpMgmtNet, midIpCacheNet, n);
    var applied := Vcache.CheckStatus(status);
    if applied.Fail? {
      completed := false;
    }
  }

  /** The configuration loop: configure until an attempt completes, at most `limit` times; it never raises. */
  method RetryEdgeVcacheConfiguration(edgeIpMgmtNet: Option<string>, midIpCacheNet: Option<string>, n: int,
                                      statuses: seq<int>, limit: nat)
    returns (effects: seq<Effect>)
    ensures effects == Retries(ConfigureVcache(Vcache.Apply(edgeIpMgmtNet, midIpCacheNet, n)), Completions(statuses), limit).1
  {
    ghost var attempt := ConfigureVcache(Vcache.Apply(edgeIpMgmtNet, midIpCacheNet, n));
    effects := [];
    var i := 0;
    while i < limit
      invariant i <= limit
      invariant Retries(attempt, Completions(statuses), i) == (false, effects)
    {
      var status := if i < |statuses| then statuses[i] else 503;
      var completed, patch := ConfigureEdgeVcache(edgeIpMgmtNet, midIpCacheNet, n, status);
      effects := effects + [ConfigureVcache(patch)];
      assert completed == Succeeded(Completions(statuses), i);
      if completed {
        RetriesSettled(attempt, Completions(statuses), i + 1, limit);
        break;
      }
      i := i + 1;
    }
  }

  /** What the configuration of a new edge vCache works with: its number and the three addresses. */
  datatype Provision = Provision(counter: int, midIpCacheNet: Option<string>, edgeIpMgmtNet: Option<string>, edgeIpUserNet: Option<string>)

  /**
   * The discovery step of both configuration handlers: the counter is the
   * newest edge replica's count-index plus one; without a mid vCache the
   * address lookup on `None` raises.
   */
  function ProvisionPlan(vnfs: Result<seq<VnfRecord>, Error>): Result<Provision, Error> {
    if vnfs.Err? then Err(vnfs.error)
    else
      match ActionUtils.VcdnNetInterfaces(vnfs.value, ActionUtils.MidVduName, ActionUtils.EdgeVduName)
      case Err(e) => Err(e)
      case Ok((net, ci)) =>
        if net.mid.None? then Err(AttributeError)
        else
          Ok(Provision(ci + 1, ActionUtils.IpAddressOn(net.mid, MidCacheNet),
            ActionUtils.IpAddressOn(net.edge, EdgeMgmtNet), ActionUtils.IpAddressOn(net.edge, EdgeUserNet)))
  }

  /** The requests of a configuration: the pings, the vCache attempts, then the vDNS registration. */
  function ProvisionTrace(p: Provision, replies: Replies, limit: nat): seq<Effect> {
    Retries(Ping(Utils.PingCommand(replies.platform, p.edgeIpMgmtNet)), Reachabilities(replies.pingStatuses), PingAttempts).1
    + Retries(ConfigureVcache(Vcache.Apply(p.edgeIpMgmtNet, p.midIpCacheNet, p.counter)), Completions(replies.vcacheStatuses), limit).1
    + [UpdateVdns(Vdns.AddVcacheEntry(p.edgeIpUserNet, p.counter))]
  }

  /** `configure_vdns`: the registration raises unless the vDNS answers 200. */
  method ConfigureVdns(edgeIpUserNet: Option<string>, n: int, status: int) returns (r: Outcome<Error>, request: Vdns.DnsRequest)
    ensures request == Vdns.AddVcacheEntry(edgeIpUserNet, n)
    ensures r.Pass? <==> status == 200
    ensures r.Fail? ==> r.error == VdnsConfigurationFailed
  {
    request := Vdns.AddVcacheEntry(edgeIpUserNet, n);
    r := Vdns.CheckStatus(status);
  }

  /**
   * The common tail of both configuration handlers (discovery, ping,
   * configuration with `limit` attempts, vDNS registration); an exception is
   * logged by the handler.
   */
  method ProvisionEdgeVcache(replies: Replies, limit: nat) returns (h: Handled, effects: seq<Effect>)
    ensures ProvisionPlan(replies.vnfs).Err? ==> h == Caught(ProvisionPlan(replies.vnfs).error) && effects == []
    ensures ProvisionPlan(replies.vnfs).Ok? ==> effects == ProvisionTrace(ProvisionPlan(replies.vnfs).value, replies, limit)
    ensures ProvisionPlan(replies.vnfs).Ok? ==> (h == Completed <==> replies.vdnsStatus == 200)
    ensures ProvisionPlan(replies.vnfs).Ok? && h != Completed ==> h == Caught(VdnsConfigurationFailed)
  {
    if replies.vnfs.Err? {
      return Caught(replies.vnfs.error), [];
    }
    var found := ActionUtils.GetVcdnNetInterfaces(replies.vnfs.value, ActionUtils.MidVduName, ActionUtils.EdgeVduName);
    if found.Err? {
      return Caught(found.error), [];
    }
    var (net, ci) := found.value;
    var counter := ci + 1;
    if net.mid.None? {
      return Caught(AttributeError), [];
    }
    var midIp := ActionUtils.IpAddressOn(net.mid, MidCacheNet);
    var edgeMgmtIp := ActionUtils.IpAddressOn(net.edge, EdgeMgmtNet);
    var edgeUserIp := ActionUtils.IpAddressOn(net.edge, EdgeUserNet);
    ghost var p := Provision(counter, midIp, edgeMgmtIp, edgeUserIp);
    assert ProvisionPlan(replies.vnfs) == Ok(p);
    var pings := PingEdgeVcacheIp(edgeMgmtIp, replies.platform, replies.pingStatuses);
    var configurations := RetryEdgeVcacheConfiguration(edgeMgmtIp, midIp, counter, replies.vcacheStatuses, limit);
    var registered, request := ConfigureVdns(edgeUserIp, counter, replies.vdnsStatus);
    effects := pings + configurations + [UpdateVdns(request)];
    if registered.Fail? {
      return Caught(registered.error), effects;
    }
    return Completed, effects;
  }

  /** Where the checks in front of a handler's work end. */
  datatype Gate = Escape(error: Error) | Stop(handled: Handled) | Proceed

  /**
   * The checks of both configuration handlers: the state is read outside the
   * `try` (a message that is not a mapping raises out of the handler); the
   * descriptor and the event are read inside it, and any of them that does not
   * match ends the handler quietly.
   */
  function ConfigurationGate(message: Json, replies: Replies, eventPath: seq<string>, expected: string): (g: Gate)
    requires |eventPath| > 0
    ensures g.Escape? <==> !message.JObject?
    ensures g == Proceed <==>
      Get(message, "operationState", JNull) == Ok(JStr("COMPLETED"))
      && NsdCheck(replies.nsRecord) == Ok(true) && OperationEvent(replies.operation, eventPath) == Ok(JStr(expected))
  {
    match Get(message, "operationState", JNull)
    case Err(e) => Escape(e)
    case Ok(state) =>
      if state != JStr("COMPLETED") then Stop(Ignored)
      else
        match NsdCheck(replies.nsRecord)
        case Err(e) => Stop(Caught(e))
        case Ok(vcdn) =>
          if !vcdn then Stop(Ignored)
          else
            match OperationEvent(replies.operation, eventPath)
            case Err(e) => Stop(Caught(e))
            case Ok(event) => if event != JStr(expected) then Stop(Ignored) else Proceed
  }

  /** What one message does: how its handler ended, the requests it sent, and the service whose ledger points it asked to drop. */
  datatype Step = Step(result: Result<Handled, Error>, effects: seq<Effect>, dropNs: Option<string>)

  /** A configuration handler, from its checks through the vDNS registration. */
  function ConfigurationStep(message: Json, replies: Replies, eventPath: seq<string>, expected: string, limit: nat): Step
    requires |eventPath| > 0
  {
    match ConfigurationGate(message, replies, eventPath, expected)
    case Escape(e) => Step(Err(e), [], None)
    case Stop(h) => Step(Ok(h), [], None)
    case Proceed =>
      match ProvisionPlan(replies.vnfs)
      case Err(e) => Step(Ok(Caught(e)), [], None)
      case Ok(p) =>
        Step(Ok(if replies.vdnsStatus == 200 then Completed else Caught(VdnsConfigurationFailed)),
          ProvisionTrace(p, replies, limit), None)
  }

  /** `configure_vcdn_ns_after_scale_out`: configure the new edge vCache of a completed SCALE_OUT, with ten configuration attempts. */
  method ConfigureVcdnNsAfterScaleOut(message: Json, replies: Replies) returns (r: Result<Handled, Error>, effects: seq<Effect>)
    ensures Step(r, effects, None) == ConfigurationStep(message, replies, ScaleEventPath, "SCALE_OUT", ScaleOutConfigurationAttempts)
  {
    var gate := ConfigurationGate(message, replies, ScaleEventPath, "SCALE_OUT");
    if gate.Escape? {
      return Err(gate.error), [];
    } else if gate.Stop? {
      return Ok(gate.handled), [];
    }
    var h;
    h, effects := ProvisionEdgeVcache(replies, ScaleOutConfigurationAttempts);
    r := Ok(h);
  }

  /** `configure_vcdn_ns_after_instantiation`: configure the edge vCache of a completed instantiation, with nine configuration attempts. */
  method ConfigureVcdnNsAfterInstantiation(message: Json, replies: Replies) returns (r: Result<Handled, Error>, effects: seq<Effect>)
    ensures Step(r, effects, None) == ConfigurationStep(message, replies, EventPath, "instantiate", InstantiationConfigurationAttempts)
  {
    var gate := ConfigurationGate(message, replies, EventPath, "instantiate");
    if gate.Escape? {
      return Err(gate.error), [];
    } else if gate.Stop? {
      return Ok(gate.handled), [];
    }
    var h;
    h, effects := ProvisionEdgeVcache(replies, InstantiationConfigurationAttempts);
    r := Ok(h);
  }

  /** The counter of a configuration is one more than the count-index of the newest edge replica. */
  lemma CounterFollowsNewestReplica(vnfs: Result<seq<VnfRecord>, Error>) returns (newest: nat)
    requires ProvisionPlan(vnfs).Ok?
    ensures var vdus := ActionUtils.AllVdus(vnfs.value); var ci := ProvisionPlan(vnfs).value.counter - 1;
      newest < |vdus| && ActionUtils.IsEdge(vdus[newest], ActionUtils.EdgeVduName, 0, ci)
      && (forall j, k :: 0 <= j < |vdus| && ActionUtils.IsEdge(vdus[j], ActionUtils.EdgeVduName, 0, k) ==> k <= ci)
  {
    var vdus := ActionUtils.AllVdus(vnfs.value);
    var found := ActionUtils.VcdnNetInterfaces(vnfs.value, ActionUtils.MidVduName, ActionUtils.EdgeVduName);
    assert found.Ok? && ProvisionPlan(vnfs).value.counter == found.value.1 + 1;
    ActionUtils.MaxEdgeMeaning(vdus, ActionUtils.EdgeVduName, 0);
    newest :| 0 <= newest < |vdus| && ActionUtils.IsEdge(vdus[newest], ActionUtils.EdgeVduName, 0, found.value.1);
  }

  /**
   * A configuration pings first (at least once, at most nineteen times), then
   * configures the vCache (at least once, at most `limit` times), and ends with
   * the vDNS registration of the host name every vCache attempt announced.
   */
  lemma ProvisionTraceShape(p: Provision, replies: Replies, limit: nat)
    requires limit > 0
    ensures var t := ProvisionTrace(p, replies, limit); var ping := Ping(Utils.PingCommand(replies.platform, p.edgeIpMgmtNet));
      var patch := ConfigureVcache(Vcache.Apply(p.edgeIpMgmtNet, p.midIpCacheNet, p.counter));
      3 <= |t| <= PingAttempts + limit + 1
      && t[0] == ping && t[|t| - 2] == patch
      && t[|t| - 1] == UpdateVdns(Vdns.AddVcacheEntry(p.edgeIpUserNet, p.counter))
      && (forall j :: 0 <= j < |t| - 1 ==> t[j] == ping || t[j] == patch)
      && (forall i, j :: 0 <= i < j < |t| - 1 && t[i] == patch ==> t[j] == patch)
      && patch.patch.fqdn == t[|t| - 1].dns.hostname
  {
    var ping := Ping(Utils.PingCommand(replies.platform, p.edgeIpMgmtNet));
    var patch := ConfigureVcache(Vcache.Apply(p.edgeIpMgmtNet, p.midIpCacheNet, p.counter));
    RetriesMeaning(ping, Reachabilities(replies.pingStatuses), PingAttempts);
    RetriesMeaning(patch, Completions(replies.vcacheStatuses), limit);
    Vcache.FqdnMatchesVdns(p.edgeIpMgmtNet, p.midIpCacheNet, p.edgeIpUserNet, p.counter, p.counter);
    var pings := Retries(ping, Reachabilities(replies.pingStatuses), PingAttempts).1;
    var patches := Retries(patch, Completions(replies.vcacheStatuses), limit).1;
    var t := ProvisionTrace(p, replies, limit);
    assert t == pings + patches + [t[|t| - 1]];
    assert ping != patch;
  }

  /**
   * The vCache is configured at most until it first accepts: every attempt
   * before the last one was refused, and the attempts stop early exactly when
   * one was accepted.
   */
  lemma ConfigurationStopsAtAcceptance(p: Provision, replies: Replies, limit: nat)
    ensures var patch := ConfigureVcache(Vcache.Apply(p.edgeIpMgmtNet, p.midIpCacheNet, p.counter));
      var patches := Retries(patch, Completions(replies.vcacheStatuses), limit).1;
      (forall j :: 0 <= j < |patches| - 1 ==> !(j < |replies.vcacheStatuses| && replies.vcacheStatuses[j] == 200))
      && (0 < |patches| < limit ==> |patches| - 1 < |replies.vcacheStatuses| && replies.vcacheStatuses[|patches| - 1] == 200)
  {
    var patch := ConfigureVcache(Vcache.Apply(p.edgeIpMgmtNet, p.midIpCacheNet, p.counter));
    var outcomes := Completions(replies.vcacheStatuses);
    RetriesMeaning(patch, outcomes, limit);
    var patches := Retries(patch, outcomes, limit).1;
    forall j | 0 <= j < |patches| - 1
      ensures !(j < |replies.vcacheStatuses| && replies.vcacheStatuses[j] == 200)
    {
      assert !Succeeded(outcomes, j);
    }
  }

  /**
   * A configuration handler sends nothing unless the message reports a
   * completed operation of a vCDN service with the expected event, and its
   * last request is then the vDNS registration of the newest edge replica.
   */
  lemma ConfigurationOnlyWhenAdmitted(message: Json, replies: Replies, eventPath: seq<string>, expected: string, limit: nat)
    requires |eventPath| > 0 && limit > 0
    ensures var s := ConfigurationStep(message, replies, eventPath, expected, limit);
      s.effects != [] ==>
        Get(message, "operationState", JNull) == Ok(JStr("COMPLETED"))
        && NsdCheck(replies.nsRecord) == Ok(true)
        && OperationEvent(replies.operation, eventPath) == Ok(JStr(expected))
        && ProvisionPlan(replies.vnfs).Ok?
        && s.effects[|s.effects| - 1] == UpdateVdns(Vdns.AddVcacheEntry(ProvisionPlan(replies.vnfs).value.edgeIpUserNet,
             ActionUtils.VcdnNetInterfaces(replies.vnfs.value, ActionUtils.MidVduName, ActionUtils.EdgeVduName).value.1 + 1))
    ensures var s := ConfigurationStep(message, replies, eventPath, expected, limit);
      s.result == Ok(Completed) <==>
        ConfigurationGate(message, replies, eventPath, expected) == Proceed && ProvisionPlan(replies.vnfs).Ok? && replies.vdnsStatus == 200
  {
    if ConfigurationGate(message, replies, eventPath, expected) == Proceed && ProvisionPlan(replies.vnfs).Ok? {
      ProvisionTraceShape(ProvisionPlan(replies.vnfs).value, replies, limit);
    }
  }

  /** The status of the `i`-th vDNS removal; a removal past the given statuses fails. */
  function StatusAt(statuses: seq<int>, i: nat): int {
    if i < |statuses| then statuses[i] else 503
  }

  /**
   * The removals `N = 1..k` of the regular edge vCaches, in order: the first
   * one the vDNS refuses raises and ends the loop.
   */
  function RegularDeletes(statuses: seq<int>, k: int): (Outcome<Error>, seq<Effect>)
    decreases k
  {
    if k <= 0 then (Pass, [])
    else
      var prev := RegularDeletes(statuses, k - 1);
      if prev.0.Fail? then prev
      else (Vdns.CheckStatus(StatusAt(statuses, k - 1)), prev.1 + [UpdateVdns(Vdns.DeleteVcacheEntry(k))])
  }

  /**
   * The `j`-th removal is that of replica `j + 1`; the loop completes iff the
   * vDNS accepts every removal, and otherwise stops at the first refused one.
   */
  lemma {:induction false} RegularDeletesMeaning(statuses: seq<int>, k: int)
    decreases k
    ensures var (o, t) := RegularDeletes(statuses, k);
      |t| <= (if k > 0 then k else 0)
      && (forall j :: 0 <= j < |t| ==> t[j] == UpdateVdns(Vdns.DeleteVcacheEntry(j + 1)))
      && (forall j :: 0 <= j < |t| - 1 ==> StatusAt(statuses, j) == 200)
      && (o.Pass? <==> |t| == (if k > 0 then k else 0) && forall j :: 0 <= j < |t| ==> StatusAt(statuses, j) == 200)
      && (o.Fail? ==> o.error == VdnsConfigurationFailed && |t| >= 1 && StatusAt(statuses, |t| - 1) != 200)
  {
    if k > 0 {
      RegularDeletesMeaning(statuses, k - 1);
    }
  }

  /** Once a removal has been refused, later rounds change nothing. */
  lemma {:induction false} RegularDeletesSettled(statuses: seq<int>, k: int, l: int)
    requires k <= l && RegularDeletes(statuses, k).0.Fail?
    ensures RegularDeletes(statuses, l) == RegularDeletes(statuses, k)
    decreases l - k
  {
    if k < l {
      RegularDeletesSettled(statuses, k, l - 1);
    }
  }

  /**
   * The number of regular edge vCaches to remove: one more than the newest
   * replica's count-index, and none when discovery raises (the exception is
   * logged and the removal loop runs over an empty range).
   */
  function RegularCount(vnfs: Result<seq<VnfRecord>, Error>): int {
    if vnfs.Err? then 0
    else
      match ActionUtils.VcdnNetInterfaces(vnfs.value, ActionUtils.MidVduName, ActionUtils.EdgeVduName)
      case Err(_) => 0
      case Ok((_, ci)) => ci + 1
  }

  /** `clean_vdns_from_regular_vnfs`: remove the entries `N = 1..count`; a refused removal raises out of it. */
  method CleanVdnsFromRegularVnfs(vnfs: Result<seq<VnfRecord>, Error>, statuses: seq<int>)
    returns (r: Outcome<Error>, effects: seq<Effect>)
    ensures (r, effects) == RegularDeletes(statuses, RegularCount(vnfs))
  {
    var count := 0;
    if vnfs.Ok? {
      var found := ActionUtils.GetVcdnNetInterfaces(vnfs.value, ActionUtils.MidVduName, ActionUtils.EdgeVduName);
      if found.Ok? {
        count := found.value.1 + 1;
      }
    }
    assert count == RegularCount(vnfs);
    r, effects := Pass, [];
    var n := 1;
    while n <= count
      invariant 1 <= n && (n <= count + 1 || n == 1)
      invariant RegularDeletes(statuses, n - 1) == (Pass, effects)
    {
      var request := Vdns.DeleteVcacheEntry(n);
      effects := effects + [UpdateVdns(request)];
      var removed := Vdns.CheckStatus(StatusAt(statuses, n - 1));
      if removed.Fail? {
        RegularDeletesSettled(statuses, n, count);
        return removed, effects;
      }
      n := n + 1;
    }
  }

  /** The removals `N = 1..n` of the FaaS edge vCaches, each sent whatever the vDNS answered to the previous one. */
  function FaasDeletes(n: int): (t: seq<Effect>)
    decreases n
    ensures |t| == if n > 0 then n else 0
    ensures forall j :: 0 <= j < |t| ==> t[j] == UpdateVdns(Vdns.DeleteFaasVcacheEntry(j + 1))
  {
    if n <= 0 then [] else FaasDeletes(n - 1) + [UpdateVdns(Vdns.DeleteFaasVcacheEntry(n))]
  }

  /**
   * `clean_vdns_from_faas_vnfs`: remove the FaaS entries `N = 1..count`, logging
   * each refusal, then drop the service's points from the ledger, logging a
   * failure.
   */
  method CleanVdnsFromFaasVnfs(ledger: Queries.Ledger, nsUuid: string, count: int, dropReply: Queries.DbReply)
    returns (effects: seq<Effect>)
    requires ledger.Valid()
    modifies ledger
    ensures ledger.Valid()
    ensures effects == FaasDeletes(count)
    ensures ledger.records == if dropReply == Queries.Done then Queries.Drop(old(ledger.records), Queries.NsUuidTag, nsUuid) else old(ledger.records)
  {
    effects := [];
    var n := 1;
    while n <= count
      invariant 1 <= n && (n <= count + 1 || n == 1)
      invariant effects == FaasDeletes(n - 1)
    {
      effects := effects + [UpdateVdns(Vdns.DeleteFaasVcacheEntry(n))];
      n := n + 1;
    }
    var dropped := ledger.DeleteOperationByNs(nsUuid, dropReply);
  }

  /**
   * The checks of the termination handler: the state is read outside the
   * `try`, and so are the token and the descriptor lookup, so a failure there
   * raises out of the handler; only the event lookup is inside it.
   */
  function TerminationGate(message: Json, replies: Replies): (g: Gate)
    ensures g == Proceed <==>
      Get(message, "operationState", JNull) == Ok(JStr("PROCESSING"))
      && NsdCheck(replies.nsRecord) == Ok(true) && OperationEvent(replies.operation, EventPath) == Ok(JStr("terminate"))
    ensures g.Escape? <==>
      !message.JObject? || (Get(message, "operationState", JNull) == Ok(JStr("PROCESSING")) && NsdCheck(replies.nsRecord).Err?)
  {
    match Get(message, "operationState", JNull)
    case Err(e) => Escape(e)
    case Ok(state) =>
      if state != JStr("PROCESSING") then Stop(Ignored)
      else
        match NsdCheck(replies.nsRecord)
        case Err(e) => Escape(e)
        case Ok(vcdn) =>
          if !vcdn then Stop(Ignored)
          else
            match OperationEvent(replies.operation, EventPath)
            case Err(e) => Stop(Caught(e))
            case Ok(event) => if event != JStr("terminate") then Stop(Ignored) else Proceed
  }

  /** `message.get('nsInstanceId', None)`, read once the message is known to be a mapping. */
  function NsInstance(message: Json): Json {
    match Get(message, "nsInstanceId", JNull)
    case Ok(j) => j
    case Err(_) => JNull
  }

  /** The termination handler: regular removals, then, when the ledger knows FaaS replicas of the service, their removals and the drop. */
  function TerminationStep(records: seq<Queries.LedgerRecord>, message: Json, replies: Replies): Step {
    match TerminationGate(message, replies)
    case Escape(e) => Step(Err(e), [], None)
    case Stop(h) => Step(Ok(h), [], None)
    case Proceed =>
      Cleanup(replies.regularStatuses, RegularCount(replies.vnfs), PyStr(NsInstance(message)),
        Queries.LastOperation(records, PyStr(NsInstance(message)), replies.ledgerReachable).1)
  }

  /**
   * The admitted part of the termination handler: the regular removals
   * `1..count`, then, when the newest ledger point of service `ns` has
   * instance number `n > 0`, the FaaS removals `1..n` and the drop.
   */
  function Cleanup(statuses: seq<int>, count: int, ns: string, n: int): Step {
    var (cleaned, regular) := RegularDeletes(statuses, count);
    if cleaned.Fail? then Step(Ok(Caught(cleaned.error)), regular, None)
    else if n > 0 then Step(Ok(Completed), regular + FaasDeletes(n), Some(ns))
    else Step(Ok(Completed), regular, None)
  }

  /** The ledger after a step: the service's points are gone when a drop was asked for and the database did it. */
  function Settle(records: seq<Queries.LedgerRecord>, step: Step, dropReply: Queries.DbReply): seq<Queries.LedgerRecord> {
    if step.dropNs.Some? && dropReply == Queries.Done then Queries.Drop(records, Queries.NsUuidTag, step.dropNs.value)
    else records
  }

  /** `configure_vcdn_ns_after_termination`. */
  method ConfigureVcdnNsAfterTermination(ledger: Queries.Ledger, message: Json, replies: Replies)
    returns (r: Result<Handled, Error>, effects: seq<Effect>)
    requires ledger.Valid()
    modifies ledger
    ensures ledger.Valid()
    ensures Step(r, effects, TerminationStep(old(ledger.records), message, replies).dropNs)
      == TerminationStep(old(ledger.records), message, replies)
    ensures ledger.records == Settle(old(ledger.records), TerminationStep(old(ledger.records), message, replies), replies.dropReply)
  {
    ghost var step := TerminationStep(ledger.records, message, replies);
    var gate := TerminationGate(message, replies);
    if gate.Escape? {
      return Err(gate.error), [];
    } else if gate.Stop? {
      return Ok(gate.handled), [];
    }
    var cleaned, regular := CleanVdnsFromRegularVnfs(replies.vnfs, replies.regularStatuses);
    if cleaned.Fail? {
      return Ok(Caught(cleaned.error)), regular;
    }
    var ns := PyStr(NsInstance(message));
    var last := Queries.LastOperation(ledger.records, ns, replies.ledgerReachable);
    if last.1 > 0 {
      assert step == Step(Ok(Completed), regular + FaasDeletes(last.1), Some(ns));
      var faas := CleanVdnsFromFaasVnfs(ledger, ns, last.1, replies.dropReply);
      return Ok(Completed), regular + faas;
    }
    return Ok(Completed), regular;
  }

  /** The termination handler sends nothing and drops nothing unless the message reports a terminating vCDN service. */
  lemma TerminationOnlyWhenAdmitted(records: seq<Queries.LedgerRecord>, message: Json, replies: Replies)
    ensures var s := TerminationStep(records, message, replies);
      (s.effects != [] || s.dropNs.Some?) ==>
        Get(message, "operationState", JNull) == Ok(JStr("PROCESSING"))
        && NsdCheck(replies.nsRecord) == Ok(true)
        && OperationEvent(replies.operation, EventPath) == Ok(JStr("terminate"))
  {
  }

  /**
   * Once admitted and with every regular removal accepted, the handler removes
   * the regular entries `1..count` and then the FaaS entries `1..n`, where `n`
   * is the instance number of the service's newest ledger point, and asks for
   * the drop exactly when there are FaaS entries.
   */
  lemma {:induction false} TerminationRemovals(records: seq<Queries.LedgerRecord>, message: Json, replies: Replies)
    requires TerminationGate(message, replies) == Proceed
    requires RegularDeletes(replies.regularStatuses, RegularCount(replies.vnfs)).0.Pass?
    ensures var s := TerminationStep(records, message, replies);
      var count := if RegularCount(replies.vnfs) > 0 then RegularCount(replies.vnfs) else 0;
      var n := Queries.LastOperation(records, PyStr(NsInstance(message)), replies.ledgerReachable).1;
      s.result == Ok(Completed)
      && |s.effects| == count + (if n > 0 then n else 0)
      && (forall j :: 0 <= j < count ==> s.effects[j] == UpdateVdns(Vdns.DeleteVcacheEntry(j + 1)))
      && (forall j :: count <= j < |s.effects| ==> s.effects[j] == UpdateVdns(Vdns.DeleteFaasVcacheEntry(j - count + 1)))
      && (s.dropNs.Some? <==> n > 0)
  {
    CleanupRemovals(replies.regularStatuses, RegularCount(replies.vnfs), PyStr(NsInstance(message)),
      Queries.LastOperation(records, PyStr(NsInstance(message)), replies.ledgerReachable).1);
  }

  /** The admitted part of the handler, once every regular removal is accepted. */
  lemma CleanupRemovals(statuses: seq<int>, count: int, ns: string, n: int)
    requires RegularDeletes(statuses, count).0.Pass?
    ensures var s := Cleanup(statuses, count, ns, n);
      var k := if count > 0 then count else 0;
      s.result == Ok(Completed)
      && |s.effects| == k + (if n > 0 then n else 0)
      && (forall j :: 0 <= j < k ==> s.effects[j] == UpdateVdns(Vdns.DeleteVcacheEntry(j + 1)))
      && (forall j :: k <= j < |s.effects| ==> s.effects[j] == UpdateVdns(Vdns.DeleteFaasVcacheEntry(j - k + 1)))
      && (s.dropNs.Some? <==> n > 0)
  {
    RegularDeletesMeaning(statuses, count);
    RemovalsInOrder(RegularDeletes(statuses, count).1, n, if count > 0 then count else 0, Cleanup(statuses, count, ns, n).effects);
  }

  /** Regular removals `1..count` followed by the FaaS removals `1..n`, entry by entry. */
  lemma RemovalsInOrder(regular: seq<Effect>, n: int, count: nat, t: seq<Effect>)
    requires |regular| == count
    requires forall j :: 0 <= j < count ==> regular[j] == UpdateVdns(Vdns.DeleteVcacheEntry(j + 1))
    requires t == regular + (if n > 0 then FaasDeletes(n) else [])
    ensures |t| == count + (if n > 0 then n else 0)
    ensures forall j :: 0 <= j < count ==> t[j] == UpdateVdns(Vdns.DeleteVcacheEntry(j + 1))
    ensures forall j :: count <= j < |t| ==> t[j] == UpdateVdns(Vdns.DeleteFaasVcacheEntry(j - count + 1))
  {
    var faas := if n > 0 then FaasDeletes(n) else [];
    forall j | count <= j < |t|
      ensures t[j] == UpdateVdns(Vdns.DeleteFaasVcacheEntry(j - count + 1))
    {
      assert t[j] == faas[j - count];
    }
  }

  /** A refused regular removal ends the handler: the exception is logged, no FaaS entry is removed and the ledger is kept. */
  lemma {:induction false} RefusedRemovalStops(records: seq<Queries.LedgerRecord>, message: Json, replies: Replies)
    requires TerminationGate(message, replies) == Proceed
    requires RegularDeletes(replies.regularStatuses, RegularCount(replies.vnfs)).0.Fail?
    ensures var s := TerminationStep(records, message, replies);
      s.result == Ok(Caught(VdnsConfigurationFailed)) && s.dropNs.None?
      && |s.effects| >= 1 && StatusAt(replies.regularStatuses, |s.effects| - 1) != 200
      && (forall j :: 0 <= j < |s.effects| ==> s.effects[j] == UpdateVdns(Vdns.DeleteVcacheEntry(j + 1)))
  {
    CleanupRefused(replies.regularStatuses, RegularCount(replies.vnfs), PyStr(NsInstance(message)),
      Queries.LastOperation(records, PyStr(NsInstance(message)), replies.ledgerReachable).1);
  }

  /** The admitted part of the handler, once a regular removal is refused. */
  lemma CleanupRefused(statuses: seq<int>, count: int, ns: string, n: int)
    requires RegularDeletes(statuses, count).0.Fail?
    ensures var s := Cleanup(statuses, count, ns, n);
      s.result == Ok(Caught(VdnsConfigurationFailed)) && s.dropNs.None?
      && |s.effects| >= 1 && StatusAt(statuses, |s.effects| - 1) != 200
      && (forall j :: 0 <= j < |s.effects| ==> s.effects[j] == UpdateVdns(Vdns.DeleteVcacheEntry(j + 1)))
  {
    RegularDeletesMeaning(statuses, count);
  }

  /** Regular removals `1..k` followed by FaaS removals `1..`: no host name comes twice. */
  lemma DistinctRemovals(t: seq<Effect>, k: nat)
    requires forall j :: 0 <= j < |t| && j < k ==> t[j] == UpdateVdns(Vdns.DeleteVcacheEntry(j + 1))
    requires forall j :: k <= j < |t| ==> t[j] == UpdateVdns(Vdns.DeleteFaasVcacheEntry(j - k + 1))
    ensures forall j :: 0 <= j < |t| ==> t[j].UpdateVdns?
    ensures forall i, j :: 0 <= i < j < |t| ==> t[i].dns.hostname != t[j].dns.hostname
  {
    forall i, j | 0 <= i < j < |t|
      ensures t[i].dns.hostname != t[j].dns.hostname
    {
      if j < k {
        Vdns.HostnameInjective(i + 1, j + 1);
      } else if i < k {
        Vdns.RemovalsDisjoint(i + 1, j - k + 1);
      } else {
        Vdns.FaasHostnameInjective(i - k + 1, j - k + 1);
      }
    }
  }

  /** The handler never asks the vDNS to remove the same host name twice. */
  lemma TerminationRemovesEachEntryOnce(records: seq<Queries.LedgerRecord>, message: Json, replies: Replies)
    ensures var s := TerminationStep(records, message, replies);
      (forall j :: 0 <= j < |s.effects| ==> s.effects[j].UpdateVdns?)
      && forall i, j :: 0 <= i < j < |s.effects| ==> s.effects[i].dns.hostname != s.effects[j].dns.hostname
  {
    if TerminationGate(message, replies) == Proceed {
      CleanupDistinct(replies.regularStatuses, RegularCount(replies.vnfs), PyStr(NsInstance(message)),
        Queries.LastOperation(records, PyStr(NsInstance(message)), replies.ledgerReachable).1);
    }
  }

  /** The removals of the admitted part of the handler name distinct hosts. */
  lemma CleanupDistinct(statuses: seq<int>, count: int, ns: string, n: int)
    ensures var t := Cleanup(statuses, count, ns, n).effects;
      (forall j :: 0 <= j < |t| ==> t[j].UpdateVdns?)
      && forall i, j :: 0 <= i < j < |t| ==> t[i].dns.hostname != t[j].dns.hostname
  {
    var t := Cleanup(statuses, count, ns, n).effects;
    if RegularDeletes(statuses, count).0.Pass? {
      CleanupRemovals(statuses, count, ns, n);
      DistinctRemovals(t, if count > 0 then count else 0);
    } else {
      CleanupRefused(statuses, count, ns, n);
      DistinctRemovals(t, |t|);
    }
  }

  /**
   * After a completed drop the ledger no longer knows the service: a later
   * lookup of its newest point finds none, so FaaS numbering restarts at one.
   * Points of other services are kept, in order.
   */
  lemma TerminationForgetsService(records: seq<Queries.LedgerRecord>, message: Json, replies: Replies)
    requires Queries.Chronological(records)
    requires TerminationStep(records, message, replies).dropNs.Some? && replies.dropReply == Queries.Done
    ensures var s := TerminationStep(records, message, replies); var after := Settle(records, s, replies.dropReply);
      s.dropNs.value == PyStr(NsInstance(message))
      && Queries.LastOperation(after, s.dropNs.value, true) == (None, 0)
      && Queries.Chronological(after)
      && forall x :: x in records && x.nsUuid != s.dropNs.value ==> x in after
  {
    var s := TerminationStep(records, message, replies);
    Queries.DropNsThenLast(records, s.dropNs.value);
    Queries.DropKeepsChronological(records, Queries.NsUuidTag, s.dropNs.value);
  }

  /** One message from the topic: its key, and its value decoded as YAML (a decoding error raises out of the loop). */
  datatype Delivery = Delivery(key: string, payload: Result<Json, Error>, replies: Replies)

  /** The dispatch on the message key; the other keys are ignored. */
  function DispatchStep(records: seq<Queries.LedgerRecord>, d: Delivery): Step {
    if d.payload.Err? then Step(Err(d.payload.error), [], None)
    else if d.key == "scaled" then
      ConfigurationStep(d.payload.value, d.replies, ScaleEventPath, "SCALE_OUT", ScaleOutConfigurationAttempts)
    else if d.key == "instantiated" then
      ConfigurationStep(d.payload.value, d.replies, EventPath, "instantiate", InstantiationConfigurationAttempts)
    else if d.key == "terminate" then TerminationStep(records, d.payload.value, d.replies)
    else Step(Ok(Ignored), [], None)
  }

  /** Only a `terminate` message can change the ledger, and it only ever removes points. */
  lemma OnlyTerminationTouchesLedger(records: seq<Queries.LedgerRecord>, d: Delivery)
    ensures var s := DispatchStep(records, d);
      (s.dropNs.Some? ==> d.key == "terminate" && d.payload.Ok?)
      && forall x :: x in Settle(records, s, d.replies.dropReply) ==> x in records
  {
  }

  /** Handle one message. */
  method Dispatch(ledger: Queries.Ledger, d: Delivery) returns (r: Result<Handled, Error>, effects: seq<Effect>)
    requires ledger.Valid()
    modifies ledger
    ensures ledger.Valid()
    ensures r == DispatchStep(old(ledger.records), d).result && effects == DispatchStep(old(ledger.records), d).effects
    ensures ledger.records == Settle(old(ledger.records), DispatchStep(old(ledger.records), d), d.replies.dropReply)
  {
    if d.payload.Err? {
      return Err(d.payload.error), [];
    }
    var message := d.payload.value;
    if d.key == "scaled" {
      r, effects := ConfigureVcdnNsAfterScaleOut(message, d.replies);
    } else if d.key == "instantiated" {
      r, effects := ConfigureVcdnNsAfterInstantiation(message, d.replies);
    } else if d.key == "terminate" {
      r, effects := ConfigureVcdnNsAfterTermination(ledger, message, d.replies);
    } else {
      r, effects := Ok(Ignored), [];
    }
  }

  /** How a run over a sequence of messages ended: how many were handled, the exception that ended it, the requests, the ledger. */
  datatype RunResult = RunResult(handled: nat, escape: Option<Error>, effects: seq<Effect>, records: seq<Queries.LedgerRecord>)

  /** The consumer loop over the messages in order; an exception raised out of a handler ends the process. */
  function Run(records: seq<Queries.LedgerRecord>, deliveries: seq<Delivery>): RunResult
    decreases |deliveries|
  {
    if deliveries == [] then RunResult(0, None, [], records)
    else
      var s := DispatchStep(records, deliveries[0]);
      var after := Settle(records, s, deliveries[0].replies.dropReply);
      if s.result.Err? then RunResult(0, Some(s.result.error), s.effects, after)
      else
        var rest := Run(after, deliveries[1..]);
        RunResult(rest.handled + 1, rest.escape, s.effects + rest.effects, rest.records)
  }

  /**
   * The loop handles every message unless one raises, and then exactly the
   * messages before it; the ledger only ever loses points and stays ordered.
   */
  lemma {:induction false} RunMeaning(records: seq<Queries.LedgerRecord>, deliveries: seq<Delivery>)
    requires Queries.Chronological(records)
    ensures var out := Run(records, deliveries);
      (out.escape.None? <==> out.handled == |deliveries|)
      && out.handled <= |deliveries|
      && (out.escape.Some? ==> DispatchStep(Run(records, deliveries[..out.handled]).records, deliveries[out.handled]).result == Err(out.escape.value))
      && Queries.Chronological(out.records)
      && forall x :: x in out.records ==> x in records
    decreases |deliveries|
  {
    if deliveries != [] {
      var s := DispatchStep(records, deliveries[0]);
      var after := Settle(records, s, deliveries[0].replies.dropReply);
      StepKeepsLedger(records, deliveries[0]);
      if s.result.Ok? {
        RunMeaning(after, deliveries[1..]);
        var out := Run(records, deliveries);
        if out.escape.Some? {
          RunPrefixCons(records, deliveries, out.handled - 1);
        }
      } else {
        assert deliveries[..0] == [];
      }
    }
  }

  /** One message keeps the ledger ordered and only ever removes points from it. */
  lemma StepKeepsLedger(records: seq<Queries.LedgerRecord>, d: Delivery)
    requires Queries.Chronological(records)
    ensures var after := Settle(records, DispatchStep(records, d), d.replies.dropReply);
      Queries.Chronological(after) && forall x :: x in after ==> x in records
  {
    var s := DispatchStep(records, d);
    OnlyTerminationTouchesLedger(records, d);
    if s.dropNs.Some? && d.replies.dropReply == Queries.Done {
      Queries.DropKeepsChronological(records, Queries.NsUuidTag, s.dropNs.value);
    }
  }

  /** The run over the first `h + 1` messages, when the first one does not raise, is that one followed by the run over the next `h`. */
  lemma RunPrefixCons(records: seq<Queries.LedgerRecord>, deliveries: seq<Delivery>, h: nat)
    requires h < |deliveries| && DispatchStep(records, deliveries[0]).result.Ok?
    ensures Run(records, deliveries[..h + 1]).records
      == Run(Settle(records, DispatchStep(records, deliveries[0]), deliveries[0].replies.dropReply), deliveries[1..][..h]).records
  {
    var p := deliveries[..h + 1];
    assert p[0] == deliveries[0];
    assert p[1..] == deliveries[1..][..h];
  }

  /** The run as `Extend` sees it: `k` messages handled before, with these requests. */
  function Extend(k: nat, effects: seq<Effect>, rest: RunResult): RunResult {
    RunResult(k + rest.handled, rest.escape, effects + rest.effects, rest.records)
  }

  /** `main`: consume the topic's messages in order, until one raises. */
  method Serve(ledger: Queries.Ledger, deliveries: seq<Delivery>) returns (handled: nat, escape: Option<Error>, effects: seq<Effect>)
    requires ledger.Valid()
    modifies ledger
    ensures ledger.Valid()
    ensures RunResult(handled, escape, effects, ledger.records) == Run(old(ledger.records), deliveries)
  {
    handled, escape, effects := 0, None, [];
    while handled < |deliveries|
      invariant handled <= |deliveries|
      invariant ledger.Valid()
      invariant Run(old(ledger.records), deliveries) == Extend(handled, effects, Run(ledger.records, deliveries[handled..]))
    {
      ghost var before := ledger.records;
      var d := deliveries[handled];
      assert deliveries[handled..][0] == d && deliveries[handled..][1..] == deliveries[handled + 1..];
      var r, e := Dispatch(ledger, d);
      if r.Err? {
        effects := effects + e;
        escape := Some(r.error);
        return;
      }
      ghost var rest := Run(ledger.records, deliveries[handled + 1..]);
      assert Run(before, deliveries[handled..]) == RunResult(rest.handled + 1, rest.escape, e + rest.effects, rest.records);
      assert effects + (e + rest.effects) == (effects + e) + rest.effects;
      effects := effects + e;
      handled := handled + 1;
    }
    assert deliveries[handled..] == [];
    assert effects + [] == effects;
  }
}
