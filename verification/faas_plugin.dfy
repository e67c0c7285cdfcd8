/**
 * FaaS edge vCache scaling: poll the service's bootstrap ingress, spawn or
 * terminate a FaaS edge vCache through it, and keep the FaaS operations ledger
 * in step with what the orchestrator accepted.
 */
module FaasPlugin {
  import opened Wrappers
  import opened Exceptions
  import opened PyJson
  import opened OsmRecords
  import Settings
  import Utils
  import ActionUtils
  import NsPolling
  import FaasAction
  import Queries
  import Vdns

  /** `for i in range(1, 20)`: the ingress is polled at most this many times. */
  const PollAttempts: nat := 19

  /** The descriptor `vcache_vnfd.2` split at the dot. */
  const SpawnVnfdName: string := "vcache_vnfd"
  const SpawnVnfdIndex: string := "2"

  /** The ledger's operation type for a spawn. */
  const SpawnOperationType: string := "spawn_vcache"

  /** The interface network of the mid vCache whose address a FaaS edge vCache uses as origin. */
  const MidCacheNet: string := "5GMEDIA-CACHE-NET"

  /**
   * The reply to poll number `i`; the replies are given up front and, past the
   * last one, the service answers with an error status (no ingress yet).
   */
  function ReplyAt(polls: seq<NsPolling.PollReply>, i: nat): NsPolling.PollReply {
    if i < |polls| then polls[i] else NsPolling.PollReply(503, Some(JObject([])))
  }

  /** The outcome of polls `i`, `i + 1`, ... up to the last attempt: the first ingress URL found, null if none. */
  function PollFrom(polls: seq<NsPolling.PollReply>, i: nat): Result<Json, Error>
    decreases PollAttempts - i
  {
    if i >= PollAttempts then Ok(JNull)
    else
      match NsPolling.BootstrapIngressUrl(ReplyAt(polls, i))
      case Err(e) => Err(e)
      case Ok(url) => if url != JNull then Ok(url) else PollFrom(polls, i + 1)
  }

  /** Replies past the nineteenth are never read. */
  lemma {:induction false} PollingIsBounded(polls: seq<NsPolling.PollReply>, later: seq<NsPolling.PollReply>, i: nat)
    requires |polls| >= PollAttempts
    ensures PollFrom(polls + later, i) == PollFrom(polls, i)
    decreases PollAttempts - i
  {
    if i < PollAttempts {
      assert ReplyAt(polls + later, i) == ReplyAt(polls, i);
      PollingIsBounded(polls, later, i + 1);
    }
  }

  /** A URL found is the answer of some attempt among the first nineteen, and every earlier attempt found none. */
  lemma {:induction false} PollingMeaning(polls: seq<NsPolling.PollReply>, i: nat)
    requires PollFrom(polls, i).Ok? && PollFrom(polls, i).value != JNull
    ensures exists k :: (i <= k < PollAttempts && NsPolling.BootstrapIngressUrl(ReplyAt(polls, k)) == PollFrom(polls, i)
      && forall j :: i <= j < k ==> NsPolling.BootstrapIngressUrl(ReplyAt(polls, j)) == Ok(JNull))
    decreases PollAttempts - i
  {
    if NsPolling.BootstrapIngressUrl(ReplyAt(polls, i)) == Ok(JNull) {
      PollingMeaning(polls, i + 1);
    }
  }

  /** The polling loop: stop at the first URL that is not None. */
  method PollBootstrapIngressUrl(polls: seq<NsPolling.PollReply>) returns (r: Result<Json, Error>)
    ensures r == PollFrom(polls, 0)
  {
    var url := JNull;
    var i: nat := 0;
    while i < PollAttempts
      invariant i <= PollAttempts
      invariant PollFrom(polls, 0) == PollFrom(polls, i)
    {
      var reply := NsPolling.BootstrapIngressUrl(ReplyAt(polls, i));
      if reply.Err? {
        return Err(reply.error);
      }
      url := reply.value;
      if url != JNull {
        return Ok(url);
      }
      i := i + 1;
    }
    return Ok(JNull);
  }

  /** The service name: the given one, or the orchestrator's record of the service (`get_ns_name`) when None. */
  function NsName(given: Json, lookup: Result<Json, Error>): (r: Result<Json, Error>)
    ensures given != JNull ==> r == Ok(given)
    ensures given == JNull ==> r == lookup
  {
    if given == JNull then lookup else Ok(given)
  }

  /** The mid vCache's cache-network address; a missing mid vCache makes the `.get` chain raise. */
  function MidCacheIp(net: ActionUtils.NetInterfaces): (r: Result<Option<string>, Error>)
    ensures r.Err? <==> net.mid.None?
    ensures r.Err? ==> r.error == AttributeError
  {
    if net.mid.None? then Err(AttributeError) else Ok(ActionUtils.IpAddressOn(net.mid, MidCacheNet))
  }

  /** The replies the scale-out sees, in the order it asks. */
  datatype ScaleOutReplies = ScaleOutReplies(
    nsNameLookup: Result<Json, Error>,
    vnfs: seq<VnfRecord>,
    polls: seq<NsPolling.PollReply>,
    ledgerReachable: bool,
    uuidText: string,
    spawnStatus: int,
    now: int,
    written: bool)

  /** What a scale-out that goes ahead decided: where to send, for which service, and the new instance's ordinal and uuid. */
  datatype Spawn = Spawn(ingress: Json, nsName: Json, midCacheIp: Option<string>, instanceNumber: int, eventUuid: string)

  /** The spawn request a decided scale-out sends. */
  function SpawnRequest(d: Spawn): FaasAction.FaasRequest {
    FaasAction.SpawnEdgeVcacheRequest(d.ingress, Settings.OsmIp, d.eventUuid, d.nsName, d.midCacheIp, d.instanceNumber,
      Settings.VdnsIp, Settings.VdnsPort, SpawnVnfdName, SpawnVnfdIndex)
  }

  /** The ledger point a decided scale-out stores once the orchestrator accepts it. */
  function SpawnRecord(d: Spawn, nsUuid: Json, now: int): Queries.LedgerRecord {
    Queries.LedgerRecord(SpawnOperationType, d.eventUuid, PyStr(nsUuid), d.nsName, d.instanceNumber, now)
  }

  /**
   * What the scale-out decides before it sends anything: an exception, nothing
   * to do (no ingress), or a spawn.
   */
  function ScaleOutPlan(records: seq<Queries.LedgerRecord>, nsName: Json, nsUuid: Json, replies: ScaleOutReplies)
    : Result<Option<Spawn>, Error>
  {
    match SpawnSource(nsName, replies)
    case Err(e) => Err(e)
    case Ok((name, midIp)) =>
      var url := PollFrom(replies.polls, 0);
      if url.Err? then Err(url.error)
      else if url.value == JNull then Ok(None)
      else
        Ok(Some(Spawn(url.value, name, midIp,
          Queries.LastOperation(records, PyStr(nsUuid), replies.ledgerReachable).1 + 1,
          Utils.GenerateEventUuid(replies.uuidText))))
  }

  /** The service name and the mid vCache's address, read in that order; each lookup may raise. */
  function SpawnSource(nsName: Json, replies: ScaleOutReplies): Result<(Json, Option<string>), Error> {
    var name := NsName(nsName, replies.nsNameLookup);
    var net := ActionUtils.FaasNetInterfaces(replies.vnfs, ActionUtils.MidVduName, ActionUtils.EdgeVduName);
    if name.Err? then Err(name.error)
    else if net.Err? then Err(net.error)
    else if MidCacheIp(net.value).Err? then Err(MidCacheIp(net.value).error)
    else Ok((name.value, MidCacheIp(net.value).value))
  }

  /** The outcome of a scale-out, the spawn request it sent, if any, and the ledger afterwards. */
  function ScaleOutResult(records: seq<Queries.LedgerRecord>, nsName: Json, nsUuid: Json, replies: ScaleOutReplies)
    : (Outcome<Error>, Option<FaasAction.FaasRequest>, seq<Queries.LedgerRecord>)
  {
    match ScaleOutPlan(records, nsName, nsUuid, replies)
    case Err(e) => (Fail(e), None, records)
    case Ok(None) => (Pass, None, records)
    case Ok(Some(d)) =>
      var (r, after) := SpawnOutcome(records, d, nsUuid, replies);
      (r, Some(SpawnRequest(d)), after)
  }

  /** How the orchestrator's answer to a sent spawn ends the scale-out, and the ledger afterwards. */
  function SpawnOutcome(records: seq<Queries.LedgerRecord>, d: Spawn, nsUuid: Json, replies: ScaleOutReplies)
    : (Outcome<Error>, seq<Queries.LedgerRecord>)
  {
    if 400 <= replies.spawnStatus < 600 then (Fail(HttpError), records)
    else if replies.spawnStatus != 200 then (Pass, records)
    else if replies.written then (Pass, Queries.InsertByTime(records, SpawnRecord(d, nsUuid, replies.now)))
    else (Fail(CollaboratorFailure), records)
  }

  /** Check the answer to a sent spawn and, on 200, store its point. */
  method StoreSpawn(ledger: Queries.Ledger, d: Spawn, nsUuid: Json, replies: ScaleOutReplies) returns (r: Outcome<Error>)
    requires ledger.Valid()
    modifies ledger
    ensures ledger.Valid()
    ensures (r, ledger.records) == SpawnOutcome(old(ledger.records), d, nsUuid, replies)
  {
    var status := FaasAction.RaiseForStatus(replies.spawnStatus);
    if status.Err? {
      return Fail(status.error);
    }
    if status.value == 200 {
      r := ledger.StoreOperation(SpawnOperationType, d.eventUuid, d.nsName, PyStr(nsUuid), d.instanceNumber, replies.now, replies.written);
      return r;
    }
    return Pass;
  }

  /**
   * `execute_faas_vnf_scale_out(ns_name, ns_uuid, vnfd_uuid)`: it sends the
   * planned spawn, raises on a 4xx or 5xx answer, and stores the planned point
   * only on 200.
   */
  method ExecuteFaasVnfScaleOut(ledger: Queries.Ledger, nsName: Json, nsUuid: Json, vnfdUuid: Json, replies: ScaleOutReplies)
    returns (r: Outcome<Error>, spawn: Option<FaasAction.FaasRequest>)
    requires ledger.Valid()
    modifies ledger
    ensures ledger.Valid()
    ensures (r, spawn, ledger.records) == ScaleOutResult(old(ledger.records), nsName, nsUuid, replies)
  {
    var plan := PlanScaleOut(ledger.records, nsName, nsUuid, replies);
    if plan.Err? {
      return Fail(plan.error), None;
    }
    if plan.value.None? {
      return Pass, None;
    }
    var decided := plan.value.value;
    var action := new FaasAction.Action(Settings.OsmIp, nsUuid, vnfdUuid);
    action.SetBootstrapIngressUrl(decided.ingress);
    var request := action.SpawnEdgeVcacheVnf(decided.eventUuid, decided.nsName, decided.midCacheIp, decided.instanceNumber,
      Settings.VdnsIp, Settings.VdnsPort, SpawnVnfdName, SpawnVnfdIndex);
    assert request == SpawnRequest(decided);
    spawn := Some(request);
    r := StoreSpawn(ledger, decided, nsUuid, replies);
  }

  /**
   * The first half of `execute_faas_vnf_scale_out`: the service name, the
   * mid cache address, the ingress, the next ordinal and a fresh event uuid.
   */
  method PlanScaleOut(records: seq<Queries.LedgerRecord>, nsName: Json, nsUuid: Json, replies: ScaleOutReplies)
    returns (plan: Result<Option<Spawn>, Error>)
    ensures plan == ScaleOutPlan(records, nsName, nsUuid, replies)
  {
    var source := FindSpawnSource(nsName, replies);
    if source.Err? {
      return Err(source.error);
    }
    var url := PollBootstrapIngressUrl(replies.polls);
    if url.Err? {
      return Err(url.error);
    }
    if url.value == JNull {
      return Ok(None);
    }
    var operation := Queries.LastOperation(records, PyStr(nsUuid), replies.ledgerReachable);
    var counter := operation.1 + 1;
    var eventUuid := Utils.GenerateEventUuid(replies.uuidText);
    return Ok(Some(Spawn(url.value, source.value.0, source.value.1, counter, eventUuid)));
  }

  /** The service name, then the discovery of the mid vCache and its address. */
  method FindSpawnSource(nsName: Json, replies: ScaleOutReplies) returns (r: Result<(Json, Option<string>), Error>)
    ensures r == SpawnSource(nsName, replies)
  {
    var name := NsName(nsName, replies.nsNameLookup);
    if name.Err? {
      return Err(name.error);
    }
    var net := ActionUtils.GetFaasVcdnNetInterfaces(replies.vnfs, ActionUtils.MidVduName, ActionUtils.EdgeVduName);
    if net.Err? {
      return Err(net.error);
    }
    var midIp := MidCacheIp(net.value);
    if midIp.Err? {
      return Err(midIp.error);
    }
    return Ok((name.value, midIp.value));
  }

  /** What the scale-out does to the ledger, in brief: it changes only after a spawn was sent, and stays in time order. */
  lemma ScaleOutLedger(records: seq<Queries.LedgerRecord>, nsName: Json, nsUuid: Json, replies: ScaleOutReplies)
    ensures var (_, sent, after) := ScaleOutResult(records, nsName, nsUuid, replies);
      (after != records ==> sent.Some?) && (Queries.Chronological(records) ==> Queries.Chronological(after))
  {
    ScaleOutOutcome(records, nsName, nsUuid, replies);
  }

  /**
   * A scale-out changes the ledger only when the spawn it sent was answered
   * with 200 and the point was written, and then only by adding the planned
   * point; it raises on a 4xx or 5xx answer and when the point cannot be
   * written, and the ledger stays time-ordered.
   */
  lemma ScaleOutOutcome(records: seq<Queries.LedgerRecord>, nsName: Json, nsUuid: Json, replies: ScaleOutReplies)
    ensures var (r, sent, after) := ScaleOutResult(records, nsName, nsUuid, replies);
      var plan := ScaleOutPlan(records, nsName, nsUuid, replies);
      (after != records ==> sent.Some? && replies.spawnStatus == 200 && replies.written)
      && (forall x :: x in after ==> x in records || (plan.Ok? && plan.value.Some? && x == SpawnRecord(plan.value.value, nsUuid, replies.now)))
      && (sent.Some? <==> plan.Ok? && plan.value.Some?)
      && (sent.Some? && 400 <= replies.spawnStatus < 600 ==> r == Fail(HttpError))
      && (sent.Some? && replies.spawnStatus == 200 && !replies.written ==> r == Fail(CollaboratorFailure))
      && (Queries.Chronological(records) ==> Queries.Chronological(after))
  {
    var plan := ScaleOutPlan(records, nsName, nsUuid, replies);
    if plan.Ok? && plan.value.Some? {
      SpawnOutcomeMeaning(records, plan.value.value, nsUuid, replies);
    }
  }

  /** The answer to a sent spawn: the ledger gains the spawn's point on 200 when it is written, and nothing otherwise. */
  lemma SpawnOutcomeMeaning(records: seq<Queries.LedgerRecord>, d: Spawn, nsUuid: Json, replies: ScaleOutReplies)
    ensures var (r, after) := SpawnOutcome(records, d, nsUuid, replies);
      (after != records ==> replies.spawnStatus == 200 && replies.written)
      && (forall x :: x in after ==> x in records || x == SpawnRecord(d, nsUuid, replies.now))
      && (400 <= replies.spawnStatus < 600 ==> r == Fail(HttpError))
      && (replies.spawnStatus == 200 && !replies.written ==> r == Fail(CollaboratorFailure))
      && (Queries.Chronological(records) ==> Queries.Chronological(after))
  {
    if Queries.Chronological(records) {
      Queries.InsertKeepsChronological(records, SpawnRecord(d, nsUuid, replies.now));
    }
  }

  /**
   * A planned spawn carries the next FaaS ordinal (the newest ledger instance
   * number of the service plus one) and a fresh dash-free event uuid, and goes
   * to the ingress the polling found; the stored point shares the uuid and
   * ordinal, and the request names the FaaS hostname of that ordinal.
   */
  lemma ScaleOutPlanMeaning(records: seq<Queries.LedgerRecord>, nsName: Json, nsUuid: Json, replies: ScaleOutReplies)
    requires ScaleOutPlan(records, nsName, nsUuid, replies).Ok? && ScaleOutPlan(records, nsName, nsUuid, replies).value.Some?
    ensures var d := ScaleOutPlan(records, nsName, nsUuid, replies).value.value;
      d.instanceNumber == Queries.LastOperation(records, PyStr(nsUuid), replies.ledgerReachable).1 + 1
      && d.eventUuid == Utils.GenerateEventUuid(replies.uuidText) && '-' !in d.eventUuid
      && PollFrom(replies.polls, 0) == Ok(d.ingress) && d.ingress != JNull
      && NsName(nsName, replies.nsNameLookup) == Ok(d.nsName)
    ensures var d := ScaleOutPlan(records, nsName, nsUuid, replies).value.value;
      var request := SpawnRequest(d);
      FaasAction.Member(request, "fqdn") == Some(JStr(Vdns.DeleteFaasVcacheEntry(d.instanceNumber).hostname))
      && FaasAction.Member(request, "event_uuid") == Some(JStr(d.eventUuid))
      && FaasAction.Member(request, "osm_ns") == Some(d.nsName)
      && FaasAction.Member(request, "operation") == Some(JStr("spawn_vcache"))
      && request.endpoint == PyStr(d.ingress) + "/handlerequest"
  {
    var d := ScaleOutPlan(records, nsName, nsUuid, replies).value.value;
    FaasAction.SpawnPayload(d.ingress, Settings.OsmIp, d.eventUuid, d.nsName, d.midCacheIp, d.instanceNumber,
      Settings.VdnsIp, Settings.VdnsPort, SpawnVnfdName, SpawnVnfdIndex);
    FaasAction.SpawnFqdnIsFaasVdnsEntry(d.ingress, Settings.OsmIp, d.eventUuid, d.nsName, d.midCacheIp, d.instanceNumber,
      Settings.VdnsIp, Settings.VdnsPort, SpawnVnfdName, SpawnVnfdIndex, 0);
    FaasAction.SameEndpoint(d.ingress, Settings.OsmIp, d.eventUuid, d.nsName, d.midCacheIp, d.instanceNumber,
      Settings.VdnsIp, Settings.VdnsPort, SpawnVnfdName, SpawnVnfdIndex, JNull, false);
  }

  /** Without an ingress among the nineteen polls the scale-out sends nothing. */
  lemma NoIngressNoSpawn(records: seq<Queries.LedgerRecord>, nsName: Json, nsUuid: Json, replies: ScaleOutReplies)
    requires PollFrom(replies.polls, 0) == Ok(JNull)
    ensures ScaleOutPlan(records, nsName, nsUuid, replies).Ok? ==> ScaleOutPlan(records, nsName, nsUuid, replies) == Ok(None)
  {
  }

  /**
   * Two scale-outs in a row get consecutive ordinals: once a spawn stamped no
   * earlier than the ledger's points is stored, the next plan for the service
   * uses its ordinal plus one.
   */
  lemma ConsecutiveOrdinals(records: seq<Queries.LedgerRecord>, nsName: Json, nsUuid: Json, first: Spawn,
                            firstReplies: ScaleOutReplies, secondReplies: ScaleOutReplies)
    requires ScaleOutPlan(records, nsName, nsUuid, firstReplies) == Ok(Some(first))
    requires forall i :: 0 <= i < |records| ==> records[i].time <= firstReplies.now
    requires secondReplies.ledgerReachable
    ensures var next := ScaleOutPlan(Queries.InsertByTime(records, SpawnRecord(first, nsUuid, firstReplies.now)), nsName, nsUuid, secondReplies);
      next.Ok? && next.value.Some? ==> next.value.value.instanceNumber == first.instanceNumber + 1
  {
    var rec := SpawnRecord(first, nsUuid, firstReplies.now);
    Queries.StoreThenLast(records, rec);
    var after := Queries.InsertByTime(records, rec);
    var next := ScaleOutPlan(after, nsName, nsUuid, secondReplies);
    if next.Ok? && next.value.Some? {
      ScaleOutPlanMeaning(after, nsName, nsUuid, secondReplies);
    }
  }

  /** The replies the scale-in sees, in the order it asks. */
  datatype ScaleInReplies = ScaleInReplies(
    nsNameLookup: Result<Json, Error>,
    polls: seq<NsPolling.PollReply>,
    ledgerReachable: bool,
    now: int,
    uuidText: string,
    terminateStatus: int,
    dropReply: Queries.DbReply)

  /** What a scale-in that goes ahead decided: where to send, for which service, and which spawn it undoes. */
  datatype Terminate = Terminate(ingress: Json, nsName: Json, eventUuid: string, spawnEventUuid: string, instanceNumber: int)

  /** The terminate request a decided scale-in sends. */
  function TerminateRequest(d: Terminate): FaasAction.FaasRequest {
    FaasAction.TerminateEdgeVcacheRequest(d.ingress, Settings.OsmIp, d.eventUuid, d.spawnEventUuid, d.nsName,
      d.instanceNumber, Settings.VdnsIp, Settings.VdnsPort)
  }

  /**
   * What the scale-in decides before it sends anything: an exception, nothing
   * to do (no ingress), or a terminate. With no fresh spawn in the ledger it
   * raises.
   */
  function ScaleInPlan(records: seq<Queries.LedgerRecord>, nsName: Json, nsUuid: Json, replies: ScaleInReplies)
    : Result<Option<Terminate>, Error>
  {
    var name := NsName(nsName, replies.nsNameLookup);
    if name.Err? then Err(name.error)
    else if PollFrom(replies.polls, 0).Err? then Err(PollFrom(replies.polls, 0).error)
    else if PollFrom(replies.polls, 0).value == JNull then Ok(None)
    else
      var first := Queries.FirstOperation(records, PyStr(nsUuid), Utils.OneHourAgo(replies.now), replies.ledgerReachable);
      if first.0.None? || first.1.None? then Err(PlainException)
      else
        Ok(Some(Terminate(PollFrom(replies.polls, 0).value, name.value, Utils.GenerateEventUuid(replies.uuidText),
          first.0.value, first.1.value)))
  }

  /** The outcome of a scale-in, the terminate request it sent, if any, and the ledger afterwards. */
  function ScaleInResult(records: seq<Queries.LedgerRecord>, nsName: Json, nsUuid: Json, replies: ScaleInReplies)
    : (Outcome<Error>, Option<FaasAction.FaasRequest>, seq<Queries.LedgerRecord>)
  {
    match ScaleInPlan(records, nsName, nsUuid, replies)
    case Err(e) => (Fail(e), None, records)
    case Ok(None) => (Pass, None, records)
    case Ok(Some(d)) =>
      var (r, after) := TerminateOutcome(records, d, replies);
      (r, Some(TerminateRequest(d)), after)
  }

  /** How the orchestrator's answer to a sent terminate ends the scale-in, and the ledger afterwards. */
  function TerminateOutcome(records: seq<Queries.LedgerRecord>, d: Terminate, replies: ScaleInReplies)
    : (Outcome<Error>, seq<Queries.LedgerRecord>)
  {
    if 400 <= replies.terminateStatus < 600 then (Fail(HttpError), records)
    else if replies.terminateStatus != 200 then (Pass, records)
    else
      match replies.dropReply
      case Done => (Pass, Queries.Drop(records, Queries.EventUuidTag, d.spawnEventUuid))
      case Rejected => (Pass, records)
      case Unreachable => (Fail(CollaboratorFailure), records)
  }

  /** Check the answer to a sent terminate and, on 200, drop the points of the spawn it undid. */
  method DropSpawn(ledger: Queries.Ledger, d: Terminate, replies: ScaleInReplies) returns (r: Outcome<Error>)
    requires ledger.Valid()
    modifies ledger
    ensures ledger.Valid()
    ensures (r, ledger.records) == TerminateOutcome(old(ledger.records), d, replies)
  {
    var status := FaasAction.RaiseForStatus(replies.terminateStatus);
    if status.Err? {
      return Fail(status.error);
    }
    if status.value == 200 {
      var dropped := ledger.DeleteOperation(d.spawnEventUuid, replies.dropReply);
      if dropped.Err? {
        return Fail(dropped.error);
      }
      return Pass;
    }
    return Pass;
  }

  /**
   * `execute_faas_vnf_scale_in(ns_name, ns_uuid, vnfd_uuid)`: it sends the
   * planned terminate, raises on a 4xx or 5xx answer, and on 200 drops the
   * series of the spawn it undid.
   */
  method ExecuteFaasVnfScaleIn(ledger: Queries.Ledger, nsName: Json, nsUuid: Json, vnfdUuid: Json, replies: ScaleInReplies)
    returns (r: Outcome<Error>, terminate: Option<FaasAction.FaasRequest>)
    requires ledger.Valid()
    modifies ledger
    ensures ledger.Valid()
    ensures (r, terminate, ledger.records) == ScaleInResult(old(ledger.records), nsName, nsUuid, replies)
  {
    var plan := PlanScaleIn(ledger.records, nsName, nsUuid, replies);
    if plan.Err? {
      return Fail(plan.error), None;
    }
    if plan.value.None? {
      return Pass, None;
    }
    var decided := plan.value.value;
    var action := new FaasAction.Action(Settings.OsmIp, nsUuid, vnfdUuid);
    action.SetBootstrapIngressUrl(decided.ingress);
    var request := action.TerminateEdgeVcache(decided.eventUuid, decided.spawnEventUuid, decided.nsName, decided.instanceNumber,
      Settings.VdnsIp, Settings.VdnsPort);
    assert request == TerminateRequest(decided);
    terminate := Some(request);
    r := DropSpawn(ledger, decided, replies);
  }

  /**
   * The first half of `execute_faas_vnf_scale_in`: the service name, the
   * ingress, the oldest fresh spawn of the service and a fresh event uuid.
   */
  method PlanScaleIn(records: seq<Queries.LedgerRecord>, nsName: Json, nsUuid: Json, replies: ScaleInReplies)
    returns (plan: Result<Option<Terminate>, Error>)
    ensures plan == ScaleInPlan(records, nsName, nsUuid, replies)
  {
    var name := NsName(nsName, replies.nsNameLookup);
    if name.Err? {
      return Err(name.error);
    }
    var url := PollBootstrapIngressUrl(replies.polls);
    if url.Err? {
      return Err(url.error);
    }
    if url.value == JNull {
      return Ok(None);
    }
    var operation := Queries.FirstOperation(records, PyStr(nsUuid), Utils.OneHourAgo(replies.now), replies.ledgerReachable);
    var spawnEventUuid := operation.0;
    var instanceNumber := operation.1;
    if spawnEventUuid.None? || instanceNumber.None? {
      return Err(PlainException);
    }
    var terminateEventUuid := Utils.GenerateEventUuid(replies.uuidText);
    return Ok(Some(Terminate(url.value, name.value, terminateEventUuid, spawnEventUuid.value, instanceNumber.value)));
  }

  /** What the scale-in does to the ledger, in brief: it only removes points, only after a terminate was sent, and stays in time order. */
  lemma ScaleInLedger(records: seq<Queries.LedgerRecord>, nsName: Json, nsUuid: Json, replies: ScaleInReplies)
    ensures var (_, sent, after) := ScaleInResult(records, nsName, nsUuid, replies);
      (after != records ==> sent.Some?) && (forall x :: x in after ==> x in records)
      && (Queries.Chronological(records) ==> Queries.Chronological(after))
  {
    ScaleInOutcome(records, nsName, nsUuid, replies);
  }

  /**
   * A scale-in changes the ledger only when the terminate it sent was answered
   * with 200 and the database dropped the series, and then only by removing
   * the points of the spawn it undid; the ledger stays time-ordered.
   */
  lemma ScaleInOutcome(records: seq<Queries.LedgerRecord>, nsName: Json, nsUuid: Json, replies: ScaleInReplies)
    ensures var (r, sent, after) := ScaleInResult(records, nsName, nsUuid, replies);
      var plan := ScaleInPlan(records, nsName, nsUuid, replies);
      (after != records ==> sent.Some? && replies.terminateStatus == 200 && replies.dropReply == Queries.Done)
      && (forall x :: x in after ==> x in records)
      && (forall x :: x in records && x !in after ==> plan.Ok? && plan.value.Some? && x.eventUuid == plan.value.value.spawnEventUuid)
      && (sent.Some? <==> plan.Ok? && plan.value.Some?)
      && (sent.Some? && 400 <= replies.terminateStatus < 600 ==> r == Fail(HttpError))
      && (Queries.Chronological(records) ==> Queries.Chronological(after))
  {
    var plan := ScaleInPlan(records, nsName, nsUuid, replies);
    if plan.Ok? && plan.value.Some? && Queries.Chronological(records) {
      Queries.DropKeepsChronological(records, Queries.EventUuidTag, plan.value.value.spawnEventUuid);
    }
  }

  /**
   * A planned terminate undoes the oldest spawn of the service stamped after
   * the cutoff 59 minutes before now: it names that spawn's event uuid and
   * ordinal, and its request names that spawn's uuid and FaaS hostname.
   */
  lemma ScaleInPlanMeaning(records: seq<Queries.LedgerRecord>, nsName: Json, nsUuid: Json, replies: ScaleInReplies)
    requires Queries.Chronological(records)
    requires ScaleInPlan(records, nsName, nsUuid, replies).Ok? && ScaleInPlan(records, nsName, nsUuid, replies).value.Some?
    ensures var d := ScaleInPlan(records, nsName, nsUuid, replies).value.value;
      exists k :: (0 <= k < |records| && records[k].nsUuid == PyStr(nsUuid) && records[k].time > replies.now - 3540
        && records[k].eventUuid == d.spawnEventUuid && records[k].instanceNumber == d.instanceNumber
        && forall i :: 0 <= i < |records| && records[i].nsUuid == PyStr(nsUuid) && records[i].time > replies.now - 3540 ==>
          records[k].time <= records[i].time)
    ensures var d := ScaleInPlan(records, nsName, nsUuid, replies).value.value;
      FaasAction.Member(TerminateRequest(d), "uuid") == Some(JStr(d.spawnEventUuid))
      && FaasAction.Member(TerminateRequest(d), "fqdn") == Some(JStr(FaasAction.FaasFqdn(d.instanceNumber)))
      && FaasAction.Member(TerminateRequest(d), "operation") == Some(JStr("terminate_vcache"))
  {
    var d := ScaleInPlan(records, nsName, nsUuid, replies).value.value;
    Queries.FirstOperationIsOldestFresh(records, PyStr(nsUuid), Utils.OneHourAgo(replies.now));
    FaasAction.TerminatePayload(d.ingress, Settings.OsmIp, d.eventUuid, d.spawnEventUuid, d.nsName, d.instanceNumber,
      Settings.VdnsIp, Settings.VdnsPort, None, SpawnVnfdName, SpawnVnfdIndex);
    FaasAction.SpawnPayload(d.ingress, Settings.OsmIp, d.spawnEventUuid, d.nsName, None, d.instanceNumber,
      Settings.VdnsIp, Settings.VdnsPort, SpawnVnfdName, SpawnVnfdIndex);
  }

  /** A planned terminate targets what `get_first_operation` reports, which needs a reachable ledger. */
  lemma ScaleInTarget(records: seq<Queries.LedgerRecord>, nsName: Json, nsUuid: Json, replies: ScaleInReplies)
    requires ScaleInPlan(records, nsName, nsUuid, replies).Ok? && ScaleInPlan(records, nsName, nsUuid, replies).value.Some?
    ensures replies.ledgerReachable
    ensures var d := ScaleInPlan(records, nsName, nsUuid, replies).value.value;
      Queries.FirstOperation(records, PyStr(nsUuid), replies.now - 3540, true) == (Some(d.spawnEventUuid), Some(d.instanceNumber))
  {
    var first := Queries.FirstOperation(records, PyStr(nsUuid), Utils.OneHourAgo(replies.now), replies.ledgerReachable);
    assert first.0.Some? && first.1.Some?;
    assert Utils.OneHourAgo(replies.now) == replies.now - 3540;
  }

  /**
   * A scale-in after a scale-out, on a ledger holding no other fresh spawn of
   * the service, undoes exactly that spawn: same event uuid, same ordinal, so
   * the same FaaS hostname.
   */
  lemma ScaleInUndoesScaleOut(records: seq<Queries.LedgerRecord>, nsName: Json, nsUuid: Json,
                              spawn: Spawn, out: ScaleOutReplies, back: ScaleInReplies)
    requires ScaleOutPlan(records, nsName, nsUuid, out) == Ok(Some(spawn))
    requires forall i :: 0 <= i < |records| ==> records[i].time <= out.now
    requires forall i :: 0 <= i < |records| && records[i].nsUuid == PyStr(nsUuid) ==> records[i].time <= back.now - 3540
    requires out.now > back.now - 3540
    requires ScaleInPlan(Queries.InsertByTime(records, SpawnRecord(spawn, nsUuid, out.now)), nsName, nsUuid, back).Ok?
    requires ScaleInPlan(Queries.InsertByTime(records, SpawnRecord(spawn, nsUuid, out.now)), nsName, nsUuid, back).value.Some?
    ensures var d := ScaleInPlan(Queries.InsertByTime(records, SpawnRecord(spawn, nsUuid, out.now)), nsName, nsUuid, back).value.value;
      d.spawnEventUuid == spawn.eventUuid && d.instanceNumber == spawn.instanceNumber
      && FaasAction.Member(TerminateRequest(d), "fqdn") == FaasAction.Member(SpawnRequest(spawn), "fqdn")
  {
    var rec := SpawnRecord(spawn, nsUuid, out.now);
    ScaleInFindsSpawn(records, nsUuid, spawn, out, back);
    var d := ScaleInPlan(Queries.InsertByTime(records, rec), nsName, nsUuid, back).value.value;
    SameOrdinalSameHostname(d, spawn);
  }

  /** The scale-in's target, on the ledger after the spawn's point was stored, is that spawn. */
  lemma ScaleInFindsSpawn(records: seq<Queries.LedgerRecord>, nsUuid: Json, spawn: Spawn, out: ScaleOutReplies, back: ScaleInReplies)
    requires forall i :: 0 <= i < |records| ==> records[i].time <= out.now
    requires forall i :: 0 <= i < |records| && records[i].nsUuid == PyStr(nsUuid) ==> records[i].time <= back.now - 3540
    requires out.now > back.now - 3540
    ensures forall nsName: Json ::
      var plan := ScaleInPlan(Queries.InsertByTime(records, SpawnRecord(spawn, nsUuid, out.now)), nsName, nsUuid, back);
      plan.Ok? && plan.value.Some? ==>
        plan.value.value.spawnEventUuid == spawn.eventUuid && plan.value.value.instanceNumber == spawn.instanceNumber
  {
    var rec := SpawnRecord(spawn, nsUuid, out.now);
    Queries.OnlyFreshIsFirst(records, rec, Utils.OneHourAgo(back.now));
    forall nsName: Json | ScaleInPlan(Queries.InsertByTime(records, rec), nsName, nsUuid, back).Ok?
      && ScaleInPlan(Queries.InsertByTime(records, rec), nsName, nsUuid, back).value.Some?
    {
      ScaleInTarget(Queries.InsertByTime(records, rec), nsName, nsUuid, back);
    }
  }

  /** A terminate and a spawn of the same ordinal name the same FaaS hostname. */
  lemma SameOrdinalSameHostname(d: Terminate, spawn: Spawn)
    requires d.instanceNumber == spawn.instanceNumber
    ensures FaasAction.Member(TerminateRequest(d), "fqdn") == FaasAction.Member(SpawnRequest(spawn), "fqdn")
  {
    FaasAction.TerminatePayload(d.ingress, Settings.OsmIp, d.eventUuid, d.spawnEventUuid, d.nsName, d.instanceNumber,
      Settings.VdnsIp, Settings.VdnsPort, None, SpawnVnfdName, SpawnVnfdIndex);
    FaasAction.SpawnPayload(spawn.ingress, Settings.OsmIp, spawn.eventUuid, spawn.nsName, spawn.midCacheIp, spawn.instanceNumber,
      Settings.VdnsIp, Settings.VdnsPort, SpawnVnfdName, SpawnVnfdIndex);
  }
}
