/**
 * The executor's worker: it consumes the planned actions of the cognitive
 * optimiser, applies each approved one (a VNF scale, a FaaS scale, a vCE
 * bitrate, a vTranscoder profile, placement or spectator qualities) and records
 * an optimization event. Every exception is logged, so each message is
 * handled and the loop goes on.
 */
module Worker {
  import opened Wrappers
  import opened Exceptions
  import opened PyJson
  import opened OsmRecords
  import opened Effects
  import Utils
  import ActionUtils
  import NbiNs
  import Scale
  import Vce
  import Vtranscoder
  import FaasPlugin
  import Queries

  /** How the handling of one message ended: skipped by a filter or a no-op action, run to the end, or an exception logged. */
  datatype Handled = Skipped | Completed | Logged(error: Error)

  /**
   * What the outside world answers while one message is handled: the token
   * and the orchestrator's answers that the scale action reads, the VNF
   * records discovery reads, the replies the FaaS plugin sees, whether the
   * configuration topic acknowledged a publish, and the clock of the event.
   */
  datatype IntentReplies = IntentReplies(
    token: string,
    vnfdStatus: int,
    scalingGroups: seq<ScalingGroupEntry>,
    vnfs: seq<VnfRecord>,
    operations: Json,
    scaleStatus: int,
    discovery: Result<seq<VnfRecord>, Error>,
    faasOut: FaasPlugin.ScaleOutReplies,
    faasIn: FaasPlugin.ScaleInReplies,
    sendOk: bool,
    now: int)

  /** How a handler ended and the requests, publishes and writes it made, in order. */
  datatype Step = Step(result: Handled, effects: seq<Effect>)

  /** An optimization event is only ever the last effect of a handler, and only of one that completed. */
  predicate EventLast(s: Step) {
    forall i :: 0 <= i < |s.effects| && s.effects[i].WriteEvent? ==> i == |s.effects| - 1 && s.result == Completed
  }

  /** `effects` ends with writing the optimization event `event`, which was composed successfully. */
  predicate EndsWithEvent(effects: seq<Effect>, event: Result<Utils.EventRecord, Error>) {
    event.Ok? && effects != [] && effects[|effects| - 1] == WriteEvent(event.value)
  }

  /** `message.get('execution', {}).get('planning', None)`. */
  function Planning(message: Json): Result<Json, Error> {
    GetPath(message, ["execution", "planning"], JNull)
  }

  /** `message.get('analysis', {}).get('action', False)`. */
  function Approved(message: Json): Result<Json, Error> {
    GetPath(message, ["analysis", "action"], JBool(false))
  }

  /** The service uuid, the descriptor uuid and the member index a VNF scale names. */
  function ScaleTargets(message: Json): Result<(Json, Json, Json), Error> {
    var ns := GetPath(message, ["mano", "ns", "id"], JNull);
    var vnfd := GetPath(message, ["mano", "vnf", "vnfd_id"], JNull);
    var index := GetPath(message, ["mano", "vnf", "index"], JNull);
    if ns.Err? then Err(ns.error)
    else if vnfd.Err? then Err(vnfd.error)
    else if index.Err? then Err(index.error)
    else Ok((ns.value, vnfd.value, index.value))
  }

  /** The service name, the service uuid and the descriptor uuid a FaaS scale names. */
  function FaasTargets(message: Json): Result<(Json, Json, Json), Error> {
    var name := GetPath(message, ["mano", "ns", "name"], JNull);
    var ns := GetPath(message, ["mano", "ns", "id"], JNull);
    var vnfd := GetPath(message, ["mano", "vnf", "vnfd_id"], JNull);
    if name.Err? then Err(name.error)
    else if ns.Err? then Err(ns.error)
    else if vnfd.Err? then Err(vnfd.error)
    else Ok((name.value, ns.value, vnfd.value))
  }

  /** The service name, the descriptor name and the member index a vTranscoder action names. */
  function TranscoderTargets(message: Json): Result<(Json, Json, Json), Error> {
    var name := GetPath(message, ["mano", "ns", "name"], JNull);
    var vnfd := GetPath(message, ["mano", "vnf", "vnfd_name"], JNull);
    var index := GetPath(message, ["mano", "vnf", "index"], JNull);
    if name.Err? then Err(name.error)
    else if vnfd.Err? then Err(vnfd.error)
    else if index.Err? then Err(index.error)
    else Ok((name.value, vnfd.value, index.value))
  }

  /** The scale request a scale action submitted, if any. */
  function Submitted(request: Option<NbiNs.ScaleRequest>): (effects: seq<Effect>)
    ensures |effects| <= 1 && (request.Some? <==> effects != [])
    ensures forall i :: 0 <= i < |effects| ==> effects[i] == ScaleVnf(request.value)
  {
    if request.Some? then [ScaleVnf(request.value)] else []
  }

  /** The FaaS request a FaaS scale sent, if any. */
  function Called(request: Option<FaasAction.FaasRequest>): (effects: seq<Effect>)
    ensures |effects| <= 1 && (request.Some? <==> effects != [])
    ensures forall i :: 0 <= i < |effects| ==> effects[i] == CallFaas(request.value)
  {
    if request.Some? then [CallFaas(request.value)] else []
  }

  /**
   * The last step of a handler that got this far: write the optimization
   * event, or log the exception composing it raised. Composing reads only
   * the message, the action and the clock, so the handlers receive its
   * outcome as `event`.
   */
  function Recorded(event: Result<Utils.EventRecord, Error>, sent: seq<Effect>): (s: Step)
    ensures s.result == Completed <==> event.Ok?
    ensures s.result == Completed ==> s.effects == sent + [WriteEvent(event.value)]
    ensures s.result != Completed ==> s.effects == sent && s.result == Logged(event.error)
    ensures (forall i :: 0 <= i < |sent| ==> !sent[i].WriteEvent?) ==> EventLast(s)
  {
    match event
    case Err(e) => Step(Logged(e), sent)
    case Ok(record) => Step(Completed, sent + [WriteEvent(record)])
  }

  /** `vnf_scale_out`: scale out through the orchestrator, then record the event. */
  function VnfScaleOutStep(message: Json, replies: IntentReplies, event: Result<Utils.EventRecord, Error>): (s: Step)
    ensures EventLast(s) && s.result != Skipped
    ensures forall i :: 0 <= i < |s.effects| ==> s.effects[i].WriteEvent? || (s.effects[i].ScaleVnf? && s.effects[i].scale.scaleVnfType == "SCALE_OUT")
    ensures s.result == Completed ==>
      replies.scaleStatus == 201 && |s.effects| == 2 && s.effects[0].ScaleVnf?
      && EndsWithEvent(s.effects, event)
  {
    match ScaleTargets(message)
    case Err(e) => Step(Logged(e), [])
    case Ok((ns, vnfd, index)) =>
      match Scale.ActionFor(ns, vnfd, replies.token, replies.vnfdStatus, replies.scalingGroups)
      case Err(e) => Step(Logged(e), [])
      case Ok(action) =>
        var (applied, submitted) := Scale.ApplyResult(action, index, "scale_out", replies.vnfs, replies.operations, replies.scaleStatus);
        if applied.Fail? then Step(Logged(applied.error), Submitted(submitted))
        else Recorded(event, Submitted(submitted))
  }

  method ApplyVnfScaleOut(message: Json, replies: IntentReplies) returns (h: Handled, effects: seq<Effect>)
    ensures Step(h, effects) == VnfScaleOutStep(message, replies, EventFor(message, VnfScaleOut, replies.now))
  {
    var targets := ScaleTargets(message);
    if targets.Err? {
      return Logged(targets.error), [];
    }
    var (ns, vnfd, index) := targets.value;
    var action := Scale.NewAction(ns, vnfd, replies.token, replies.vnfdStatus, replies.scalingGroups);
    if action.Err? {
      return Logged(action.error), [];
    }
    var applied, submitted := Scale.Apply(action.value, index, "scale_out", replies.vnfs, replies.operations, replies.scaleStatus);
    effects := Submitted(submitted);
    if applied.Fail? {
      return Logged(applied.error), effects;
    }
    var s := Recorded(EventFor(message, VnfScaleOut, replies.now), effects);
    h, effects := s.result, s.effects;
  }

  /** The vDNS client's constructor takes no argument besides the instance. */
  const VdnsConfigurationArity: nat := 0

  /** Calling the vDNS client's constructor with `args` arguments: any other count raises a TypeError. */
  function ConstructVdnsConfiguration(args: nat): (r: Outcome<Error>)
    ensures r.Pass? <==> args == VdnsConfigurationArity
    ensures r.Fail? ==> r.error == TypeError
  {
    if args == VdnsConfigurationArity then Pass else Fail(TypeError)
  }

  /**
   * `vnf_scale_in`: discover the newest regular edge replica, scale in through
   * the orchestrator, then build the vDNS client with the edge address, which
   * its constructor does not accept.
   */
  function VnfScaleInStep(message: Json, replies: IntentReplies): (s: Step)
    ensures s.result != Completed && s.result != Skipped && EventLast(s)
    ensures |s.effects| <= 1
    ensures forall i :: 0 <= i < |s.effects| ==> s.effects[i].ScaleVnf? && s.effects[i].scale.scaleVnfType == "SCALE_IN"
    ensures replies.discovery.Err? ==> s.effects == []
    ensures s.effects != [] && replies.scaleStatus == 201 ==> s.result == Logged(TypeError)
  {
    match ScaleTargets(message)
    case Err(e) => Step(Logged(e), [])
    case Ok((ns, vnfd, index)) =>
      if replies.discovery.Err? then Step(Logged(replies.discovery.error), [])
      else
        match ActionUtils.VcdnNetInterfaces(replies.discovery.value, ActionUtils.DefaultMidName, ActionUtils.DefaultEdgeName)
        case Err(e) => Step(Logged(e), [])
        case Ok(_) =>
          match Scale.ActionFor(ns, vnfd, replies.token, replies.vnfdStatus, replies.scalingGroups)
          case Err(e) => Step(Logged(e), [])
          case Ok(action) =>
            var (applied, submitted) := Scale.ApplyResult(action, index, "scale_in", replies.vnfs, replies.operations, replies.scaleStatus);
            if applied.Fail? then Step(Logged(applied.error), Submitted(submitted))
            else Step(Logged(ConstructVdnsConfiguration(1).error), Submitted(submitted))
  }

  method ApplyVnfScaleIn(message: Json, replies: IntentReplies) returns (h: Handled, effects: seq<Effect>)
    ensures Step(h, effects) == VnfScaleInStep(message, replies)
  {
    var targets := ScaleTargets(message);
    if targets.Err? {
      return Logged(targets.error), [];
    }
    var (ns, vnfd, index) := targets.value;
    if replies.discovery.Err? {
      return Logged(replies.discovery.error), [];
    }
    var found := ActionUtils.GetVcdnNetInterfaces(replies.discovery.value, ActionUtils.DefaultMidName, ActionUtils.DefaultEdgeName);
    if found.Err? {
      return Logged(found.error), [];
    }
    var action := Scale.NewAction(ns, vnfd, replies.token, replies.vnfdStatus, replies.scalingGroups);
    if action.Err? {
      return Logged(action.error), [];
    }
    var applied, submitted := Scale.Apply(action.value, index, "scale_in", replies.vnfs, replies.operations, replies.scaleStatus);
    effects := Submitted(submitted);
    if applied.Fail? {
      return Logged(applied.error), effects;
    }
    var constructed := ConstructVdnsConfiguration(1);
    return Logged(constructed.error), effects;
  }

  /** `faas_vnf_scale_out`: run the FaaS scale-out, then record the event. */
  function FaasScaleOutStep(records: seq<Queries.LedgerRecord>, message: Json, replies: IntentReplies,
                            event: Result<Utils.EventRecord, Error>)
    : (r: (Step, seq<Queries.LedgerRecord>))
    ensures EventLast(r.0) && r.0.result != Skipped
    ensures forall i :: 0 <= i < |r.0.effects| ==> r.0.effects[i].WriteEvent? || r.0.effects[i].CallFaas?
    ensures r.0.result == Completed ==> EndsWithEvent(r.0.effects, event)
    ensures r.1 != records ==> r.0.effects != [] && r.0.effects[0].CallFaas?
    ensures Queries.Chronological(records) ==> Queries.Chronological(r.1)
  {
    match FaasTargets(message)
    case Err(e) => (Step(Logged(e), []), records)
    case Ok((name, ns, _)) =>
      FaasPlugin.ScaleOutLedger(records, name, ns, replies.faasOut);
      var (r, sent, after) := FaasPlugin.ScaleOutResult(records, name, ns, replies.faasOut);
      if r.Fail? then (Step(Logged(r.error), Called(sent)), after)
      else (Recorded(event, Called(sent)), after)
  }

  method ApplyFaasScaleOut(ledger: Queries.Ledger, message: Json, replies: IntentReplies) returns (h: Handled, effects: seq<Effect>)
    requires ledger.Valid()
    modifies ledger
    ensures ledger.Valid()
    ensures (Step(h, effects), ledger.records) == FaasScaleOutStep(old(ledger.records), message, replies, EventFor(message, FaasVnfScaleOut, replies.now))
  {
    var targets := FaasTargets(message);
    if targets.Err? {
      return Logged(targets.error), [];
    }
    var (name, ns, vnfd) := targets.value;
    var r, sent := FaasPlugin.ExecuteFaasVnfScaleOut(ledger, name, ns, vnfd, replies.faasOut);
    effects := Called(sent);
    if r.Fail? {
      return Logged(r.error), effects;
    }
    var s := Recorded(EventFor(message, FaasVnfScaleOut, replies.now), effects);
    h, effects := s.result, s.effects;
  }

  /** `faas_vnf_scale_in`: run the FaaS scale-in, then record the event. */
  function FaasScaleInStep(records: seq<Queries.LedgerRecord>, message: Json, replies: IntentReplies,
                           event: Result<Utils.EventRecord, Error>)
    : (r: (Step, seq<Queries.LedgerRecord>))
    ensures EventLast(r.0) && r.0.result != Skipped
    ensures forall i :: 0 <= i < |r.0.effects| ==> r.0.effects[i].WriteEvent? || r.0.effects[i].CallFaas?
    ensures r.0.result == Completed ==> EndsWithEvent(r.0.effects, event)
    ensures r.1 != records ==> r.0.effects != [] && r.0.effects[0].CallFaas?
    ensures forall x :: x in r.1 ==> x in records
    ensures Queries.Chronological(records) ==> Queries.Chronological(r.1)
  {
    match FaasTargets(message)
    case Err(e) => (Step(Logged(e), []), records)
    case Ok((name, ns, _)) =>
      FaasPlugin.ScaleInLedger(records, name, ns, replies.faasIn);
      var (r, sent, after) := FaasPlugin.ScaleInResult(records, name, ns, replies.faasIn);
      if r.Fail? then (Step(Logged(r.error), Called(sent)), after)
      else (Recorded(event, Called(sent)), after)
  }

  method ApplyFaasScaleIn(ledger: Queries.Ledger, message: Json, replies: IntentReplies) returns (h: Handled, effects: seq<Effect>)
    requires ledger.Valid()
    modifies ledger
    ensures ledger.Valid()
    ensures (Step(h, effects), ledger.records) == FaasScaleInStep(old(ledger.records), message, replies, EventFor(message, FaasVnfScaleIn, replies.now))
  {
    var targets := FaasTargets(message);
    if targets.Err? {
      return Logged(targets.error), [];
    }
    var (name, ns, vnfd) := targets.value;
    var r, sent := FaasPlugin.ExecuteFaasVnfScaleIn(ledger, name, ns, vnfd, replies.faasIn);
    effects := Called(sent);
    if r.Fail? {
      return Logged(r.error), effects;
    }
    var s := Recorded(EventFor(message, FaasVnfScaleIn, replies.now), effects);
    h, effects := s.result, s.effects;
  }

  /**
   * `set_vce_bitrate`: a bitrate that `int()` reads as negative is skipped;
   * otherwise the bitrate, as given, is published for the vCE with the given
   * MAC address, and an unacknowledged publish raises.
   */
  function VceStep(message: Json, sendOk: bool): (s: Step)
    ensures var bitrate := GetPath(message, ["execution", "value"], JNull);
      var mac := GetPath(message, ["execution", "mac"], JNull);
      (s.result == Skipped <==> bitrate.Ok? && mac.Ok? && PyInt(bitrate.value).Ok? && PyInt(bitrate.value).value < 0)
      && (s.effects != [] <==> bitrate.Ok? && mac.Ok? && PyInt(bitrate.value).Ok? && PyInt(bitrate.value).value >= 0)
      && (s.effects != [] ==>
            s.effects == [Publish(Vce.SetBitrateMessage(mac.value, bitrate.value))] && (s.result == Completed <==> sendOk))
      && (s.effects == [] ==> s.result != Completed)
  {
    var bitrate := GetPath(message, ["execution", "value"], JNull);
    var mac := GetPath(message, ["execution", "mac"], JNull);
    if bitrate.Err? then Step(Logged(bitrate.error), [])
    else if mac.Err? then Step(Logged(mac.error), [])
    else
      match PyInt(bitrate.value)
      case Err(e) => Step(Logged(e), [])
      case Ok(b) =>
        if b < 0 then Step(Skipped, [])
        else
          var (completed, sent) := Vce.SetBitrate(mac.value, bitrate.value, sendOk);
          Step(if completed then Completed else Logged(CompressionEngineConfigurationFailed), [Publish(sent)])
  }

  method ApplyVceBitrate(message: Json, sendOk: bool) returns (h: Handled, effects: seq<Effect>)
    ensures Step(h, effects) == VceStep(message, sendOk)
  {
    var bitrate := GetPath(message, ["execution", "value"], JNull);
    var mac := GetPath(message, ["execution", "mac"], JNull);
    if bitrate.Err? {
      return Logged(bitrate.error), [];
    } else if mac.Err? {
      return Logged(mac.error), [];
    }
    var value := PyInt(bitrate.value);
    if value.Err? {
      return Logged(value.error), [];
    }
    if value.value < 0 {
      return Skipped, [];
    }
    var (completed, sent) := Vce.SetBitrate(mac.value, bitrate.value, sendOk);
    effects := [Publish(sent)];
    if !completed {
      return Logged(CompressionEngineConfigurationFailed), effects;
    }
    h := Completed;
  }

  /** The message a profile update publishes: the new configuration's action with the profiles as its parameters. */
  function ProfileMessage(name: Json, vnfd: Json, index: Json, profiles: seq<Json>): Message {
    Message(Vtranscoder.ActionKey, Vtranscoder.InitialAction(name, vnfd, index)["action_params" := Vtranscoder.ProfileParams(profiles)])
  }

  /**
   * `set_vtranscoder_profile`: publish the qualities (`tuple()` of the value,
   * an empty list by default), raise when the publish is not acknowledged,
   * then record the event.
   */
  function ProfileStep(message: Json, replies: IntentReplies, event: Result<Utils.EventRecord, Error>): (s: Step)
    ensures EventLast(s) && s.result != Skipped
    ensures var qualities := GetPath(message, ["execution", "value"], JList([]));
      var targets := TranscoderTargets(message);
      (s.effects != [] <==>
        (qualities.Ok? && targets.Ok? && Iterate(qualities.value).Ok? && Iterate(qualities.value).value != []))
      && (s.effects != [] ==>
            s.effects[0] == Publish(ProfileMessage(targets.value.0, targets.value.1, targets.value.2, Iterate(qualities.value).value)))
      && (qualities == Ok(JList([])) && targets.Ok? ==> s == Step(Logged(ValueError), []))
    ensures s.result == Completed ==>
      replies.sendOk && |s.effects| == 2 && EndsWithEvent(s.effects, event)
  {
    var qualities := GetPath(message, ["execution", "value"], JList([]));
    if qualities.Err? then Step(Logged(qualities.error), [])
    else
      match TranscoderTargets(message)
      case Err(e) => Step(Logged(e), [])
      case Ok((name, vnfd, index)) =>
        match Iterate(qualities.value)
        case Err(e) => Step(Logged(e), [])
        case Ok(profiles) =>
          if profiles == [] then Step(Logged(ValueError), [])
          else
            var sent := [Publish(ProfileMessage(name, vnfd, index, profiles))];
            if !replies.sendOk then Step(Logged(TranscoderProfileUpdateFailed), sent)
            else Recorded(event, sent)
  }

  method ApplyTranscoderProfile(message: Json, replies: IntentReplies) returns (h: Handled, effects: seq<Effect>)
    ensures Step(h, effects) == ProfileStep(message, replies, EventFor(message, SetTranscoderProfile, replies.now))
  {
    var qualities := GetPath(message, ["execution", "value"], JList([]));
    if qualities.Err? {
      return Logged(qualities.error), [];
    }
    var targets := TranscoderTargets(message);
    if targets.Err? {
      return Logged(targets.error), [];
    }
    var (name, vnfd, index) := targets.value;
    var configuration := new Vtranscoder.Configuration(name, vnfd, index);
    var profiles := Iterate(qualities.value);
    if profiles.Err? {
      return Logged(profiles.error), [];
    }
    var completed, sent := configuration.SetTranscoderProfile(profiles.value, replies.sendOk);
    if completed.Err? {
      return Logged(completed.error), [];
    }
    effects := [Publish(sent.value)];
    if !completed.value {
      return Logged(TranscoderProfileUpdateFailed), effects;
    }
    var s := Recorded(EventFor(message, SetTranscoderProfile, replies.now), effects);
    h, effects := s.result, s.effects;
  }

  /** The message a placement publishes: the invoker selector, anti-affinity on, and the GPU node of the processor. */
  function PlacementMessage(name: Json, vnfd: Json, index: Json, processor: Json): Message {
    Message(Vtranscoder.ActionKey, Vtranscoder.InitialAction(name, vnfd, index)["invoker-selector" := processor]
      ["action-antiaffinity" := JStr("true")]["action_params" := Vtranscoder.PlacementParams(processor)])
  }

  /** `set_vtranscoder_processing_unit`: publish the placement ("cpu" by default), raise when not acknowledged, then record the event. */
  function PlacementStep(message: Json, replies: IntentReplies, event: Result<Utils.EventRecord, Error>): (s: Step)
    ensures EventLast(s) && s.result != Skipped
    ensures var processor := GetPath(message, ["execution", "value"], JStr("cpu"));
      var targets := TranscoderTargets(message);
      (s.effects != [] <==> processor.Ok? && targets.Ok?)
      && (s.effects != [] ==>
            s.effects[0] == Publish(PlacementMessage(targets.value.0, targets.value.1, targets.value.2, processor.value)))
    ensures s.result == Completed ==>
      replies.sendOk && |s.effects| == 2 && EndsWithEvent(s.effects, event)
  {
    var processor := GetPath(message, ["execution", "value"], JStr("cpu"));
    if processor.Err? then Step(Logged(processor.error), [])
    else
      match TranscoderTargets(message)
      case Err(e) => Step(Logged(e), [])
      case Ok((name, vnfd, index)) =>
        var sent := [Publish(PlacementMessage(name, vnfd, index, processor.value))];
        if !replies.sendOk then Step(Logged(TranscoderPlacementFailed), sent)
        else Recorded(event, sent)
  }

  method ApplyTranscoderPlacement(message: Json, replies: IntentReplies) returns (h: Handled, effects: seq<Effect>)
    ensures Step(h, effects) == PlacementStep(message, replies, EventFor(message, SetTranscoderProcessingUnit, replies.now))
  {
    var processor := GetPath(message, ["execution", "value"], JStr("cpu"));
    if processor.Err? {
      return Logged(processor.error), [];
    }
    var targets := TranscoderTargets(message);
    if targets.Err? {
      return Logged(targets.error), [];
    }
    var (name, vnfd, index) := targets.value;
    var configuration := new Vtranscoder.Configuration(name, vnfd, index);
    var completed, sent := configuration.ApplyPlacement(processor.value, replies.sendOk);
    effects := [Publish(sent)];
    if !completed {
      return Logged(TranscoderPlacementFailed), effects;
    }
    var s := Recorded(EventFor(message, SetTranscoderProcessingUnit, replies.now), effects);
    h, effects := s.result, s.effects;
  }

  /**
   * The validation of the spectator qualities: a value without `keys()`
   * raises AttributeError, one whose `clients` has no `len()` raises
   * TypeError, and an empty dictionary, a missing or null `clients` and an
   * empty `clients` are invalid.
   */
  function SpectatorsCheck(qualities: Json): Outcome<Error> {
    if !qualities.JObject? then Fail(AttributeError)
    else if Len(qualities) == Ok(0) then Fail(InvalidTranscoderSpectatorsQualities)
    else
      var clients := Lookup(qualities.fields, "clients").GetOr(JNull);
      if clients == JNull then Fail(InvalidTranscoderSpectatorsQualities)
      else
        match Len(clients)
        case Err(e) => Fail(e)
        case Ok(n) => if n == 0 then Fail(InvalidTranscoderSpectatorsQualities) else Pass
  }

  /**
   * Valid spectator qualities are exactly a non-empty dictionary whose
   * `clients` is a non-empty string, list or dictionary; a value that is not a
   * dictionary raises AttributeError and a boolean or number as `clients`
   * raises TypeError.
   */
  lemma SpectatorsCheckMeaning(qualities: Json)
    ensures SpectatorsCheck(qualities).Pass? <==>
      (qualities.JObject? && qualities.fields != []
       && Lookup(qualities.fields, "clients").Some?
       && var clients := Lookup(qualities.fields, "clients").value;
          (clients.JStr? || clients.JList? || clients.JObject?) && Truthy(clients))
    ensures SpectatorsCheck(qualities) == Fail(AttributeError) <==> !qualities.JObject?
    ensures SpectatorsCheck(qualities) == Fail(TypeError) <==>
      (qualities.JObject? && qualities.fields != []
       && Lookup(qualities.fields, "clients").Some?
       && var clients := Lookup(qualities.fields, "clients").value;
          clients.JBool? || clients.JInt? || clients.JFloat?)
  {
    if qualities.JObject? && qualities.fields != [] {
      assert Truthy(qualities);
    }
  }

  /** `set_vtranscoder_client_profile`: validate the qualities (an empty dictionary by default), then publish them as they are. */
  function SpectatorsStep(message: Json, replies: IntentReplies): (s: Step)
    ensures EventLast(s) && s.result != Skipped
    ensures var qualities := GetPath(message, ["execution", "value"], JObject([]));
      (s.effects != [] <==> qualities.Ok? && SpectatorsCheck(qualities.value).Pass?)
      && (s.effects != [] ==> s.effects == [PublishSpectators(qualities.value)])
      && (s.result == Completed <==> s.effects != [] && replies.sendOk)
  {
    var qualities := GetPath(message, ["execution", "value"], JObject([]));
    if qualities.Err? then Step(Logged(qualities.error), [])
    else
      match SpectatorsCheck(qualities.value)
      case Fail(e) => Step(Logged(e), [])
      case Pass =>
        Step(if replies.sendOk then Completed else Logged(TranscoderSpectatorsQualityConfigurationFailed),
          [PublishSpectators(qualities.value)])
  }

  method ApplySpectatorQualities(message: Json, replies: IntentReplies) returns (h: Handled, effects: seq<Effect>)
    ensures Step(h, effects) == SpectatorsStep(message, replies)
  {
    var qualities := GetPath(message, ["execution", "value"], JObject([]));
    if qualities.Err? {
      return Logged(qualities.error), [];
    }
    var valid := SpectatorsCheck(qualities.value);
    if valid.Fail? {
      return Logged(valid.error), [];
    }
    effects := [PublishSpectators(qualities.value)];
    h := if replies.sendOk then Completed else Logged(TranscoderSpectatorsQualityConfigurationFailed);
  }

  /** The actions the worker applies; any other planning, such as the reserved `ns_*` ones, does nothing. */
  datatype ActionName =
    | VnfScaleOut | VnfScaleIn | FaasVnfScaleOut | FaasVnfScaleIn
    | SetVceBitrate | SetTranscoderProfile | SetTranscoderProcessingUnit | SetTranscoderClientProfile

  /** The planning text of each action, which is also the metric of the event it records. */
  function ActionText(a: ActionName): string {
    match a
    case VnfScaleOut => "vnf_scale_out"
    case VnfScaleIn => "vnf_scale_in"
    case FaasVnfScaleOut => "faas_vnf_scale_out"
    case FaasVnfScaleIn => "faas_vnf_scale_in"
    case SetVceBitrate => "set_vce_bitrate"
    case SetTranscoderProfile => "set_vtranscoder_profile"
    case SetTranscoderProcessingUnit => "set_vtranscoder_processing_unit"
    case SetTranscoderClientProfile => "set_vtranscoder_client_profile"
  }

  /** The optimization event of action `a`: its metric is the action's planning text. */
  function EventFor(message: Json, a: ActionName, now: int): Result<Utils.EventRecord, Error> {
    Utils.ComposeOptimizationEvent(message, ActionText(a), now)
  }

  /** The actions whose handler ends by writing an optimization event. */
  predicate WritesEvent(a: ActionName) {
    a in {VnfScaleOut, FaasVnfScaleOut, FaasVnfScaleIn, SetTranscoderProfile, SetTranscoderProcessingUnit}
  }

  /** The `if`/`elif` chain on the planning: the action whose text it equals, if any. */
  function ParseAction(action: Json): (r: Option<ActionName>)
    ensures r.Some? ==> action == JStr(ActionText(r.value))
    ensures r.None? ==> forall a :: action != JStr(ActionText(a))
  {
    if action == JStr("vnf_scale_out") then Some(VnfScaleOut)
    else if action == JStr("vnf_scale_in") then Some(VnfScaleIn)
    else if action == JStr("faas_vnf_scale_out") then Some(FaasVnfScaleOut)
    else if action == JStr("faas_vnf_scale_in") then Some(FaasVnfScaleIn)
    else if action == JStr("set_vce_bitrate") then Some(SetVceBitrate)
    else if action == JStr("set_vtranscoder_profile") then Some(SetTranscoderProfile)
    else if action == JStr("set_vtranscoder_processing_unit") then Some(SetTranscoderProcessingUnit)
    else if action == JStr("set_vtranscoder_client_profile") then Some(SetTranscoderClientProfile)
    else None
  }

  /**
   * The handler of an approved action and the ledger after it: only the vCE's
   * negative-bitrate guard skips, and only the FaaS scales touch the ledger.
   */
  function ActionStep(records: seq<Queries.LedgerRecord>, message: Json, a: ActionName, replies: IntentReplies)
    : (r: (Step, seq<Queries.LedgerRecord>))
    ensures EventLast(r.0)
    ensures r.0.result == Skipped <==> a == SetVceBitrate && VceStep(message, replies.sendOk).result == Skipped
    ensures r.0.result == Skipped ==> r.0.effects == []
    ensures WritesEvent(a) && r.0.result == Completed ==> EndsWithEvent(r.0.effects, EventFor(message, a, replies.now))
    ensures r.1 != records ==> a == FaasVnfScaleOut || a == FaasVnfScaleIn
    ensures a == FaasVnfScaleIn ==> forall x :: x in r.1 ==> x in records
    ensures Queries.Chronological(records) ==> Queries.Chronological(r.1)
  {
    if TouchesLedger(a) then LedgerActionStep(records, message, a, replies)
    else (HandlerStep(message, a, replies), records)
  }

  /** The actions whose handlers read and write the FaaS ledger. */
  predicate TouchesLedger(a: ActionName) {
    a == FaasVnfScaleOut || a == FaasVnfScaleIn
  }

  /** The handlers that leave the ledger alone. */
  function HandlerStep(message: Json, a: ActionName, replies: IntentReplies): (s: Step)
    requires !TouchesLedger(a)
    ensures EventLast(s)
    ensures s.result == Skipped <==> a == SetVceBitrate && VceStep(message, replies.sendOk).result == Skipped
    ensures s.result == Skipped ==> s.effects == []
    ensures WritesEvent(a) && s.result == Completed ==> EndsWithEvent(s.effects, EventFor(message, a, replies.now))
  {
    match a
    case VnfScaleOut => VnfScaleOutStep(message, replies, EventFor(message, a, replies.now))
    case VnfScaleIn => VnfScaleInStep(message, replies)
    case SetVceBitrate => VceStep(message, replies.sendOk)
    case SetTranscoderProfile => ProfileStep(message, replies, EventFor(message, a, replies.now))
    case SetTranscoderProcessingUnit => PlacementStep(message, replies, EventFor(message, a, replies.now))
    case SetTranscoderClientProfile => SpectatorsStep(message, replies)
  }

  /** The two FaaS scales and the ledger after them. */
  function LedgerActionStep(records: seq<Queries.LedgerRecord>, message: Json, a: ActionName, replies: IntentReplies)
    : (r: (Step, seq<Queries.LedgerRecord>))
    requires TouchesLedger(a)
    ensures EventLast(r.0) && r.0.result != Skipped
    ensures r.0.result == Completed ==> EndsWithEvent(r.0.effects, EventFor(message, a, replies.now))
    ensures a == FaasVnfScaleIn ==> forall x :: x in r.1 ==> x in records
    ensures Queries.Chronological(records) ==> Queries.Chronological(r.1)
  {
    if a == FaasVnfScaleOut then FaasScaleOutStep(records, message, replies, EventFor(message, a, replies.now))
    else FaasScaleInStep(records, message, replies, EventFor(message, a, replies.now))
  }

  /** One message of the execution topic: its decoded payload (or the decoding error) and what the world answers while it is handled. */
  datatype Intent = Intent(payload: Result<Json, Error>, replies: IntentReplies)

  /** Whether the analysis approved a message and planned the action `a` for it. */
  predicate Plans(d: Intent, a: ActionName) {
    d.payload.Ok? && Planning(d.payload.value) == Ok(JStr(ActionText(a)))
    && Approved(d.payload.value).Ok? && Truthy(Approved(d.payload.value).value)
  }

  /**
   * The body of the loop for one message: a message without a planning or
   * not approved by the analysis is skipped, an approved one goes to its
   * action's handler, and every exception is logged. A skipped message sends
   * nothing, an optimization event is the last effect of a completed handler
   * and is composed for the action planned, and the ledger changes only for a
   * FaaS scale and stays in time order.
   */
  function IntentStep(records: seq<Queries.LedgerRecord>, d: Intent): (r: (Step, seq<Queries.LedgerRecord>))
    ensures EventLast(r.0)
    ensures r.0.result == Skipped ==> r.0.effects == [] && r.1 == records
    ensures r.1 != records ==> Plans(d, FaasVnfScaleOut) || Plans(d, FaasVnfScaleIn)
    ensures Queries.Chronological(records) ==> Queries.Chronological(r.1)
  {
    match d.payload
    case Err(e) => (Step(Logged(e), []), records)
    case Ok(message) =>
      match Planning(message)
      case Err(e) => (Step(Logged(e), []), records)
      case Ok(action) =>
        if action == JNull then (Step(Skipped, []), records)
        else
          match Approved(message)
          case Err(e) => (Step(Logged(e), []), records)
          case Ok(approved) =>
            if !Truthy(approved) then (Step(Skipped, []), records)
            else
              match ParseAction(action)
              case None => (Step(Skipped, []), records)
              case Some(a) => ActionStep(records, message, a, d.replies)
  }

  /** Each action's planning text selects that action. */
  lemma ParseActionText(a: ActionName)
    ensures ParseAction(JStr(ActionText(a))) == Some(a)
  {
    match a
    case VnfScaleOut =>
    case VnfScaleIn =>
    case FaasVnfScaleOut =>
    case FaasVnfScaleIn =>
    case SetVceBitrate =>
    case SetTranscoderProfile =>
    case SetTranscoderProcessingUnit =>
    case SetTranscoderClientProfile =>
  }

  /** An approved message planning action `a` is handled by `a`'s handler. */
  lemma PlannedHandler(records: seq<Queries.LedgerRecord>, d: Intent, a: ActionName)
    requires Plans(d, a)
    ensures IntentStep(records, d) == ActionStep(records, d.payload.value, a, d.replies)
  {
    ParseActionText(a);
  }

  /**
   * A message is skipped exactly when it has no planning, is not approved,
   * plans an action the worker does not apply, or asks the vCE for a negative
   * bitrate.
   */
  lemma SkippedMeaning(records: seq<Queries.LedgerRecord>, d: Intent)
    ensures IntentStep(records, d).0.result == Skipped <==>
      (d.payload.Ok? && Planning(d.payload.value) == Ok(JNull))
      || (d.payload.Ok? && Planning(d.payload.value).Ok? && Approved(d.payload.value).Ok? && !Truthy(Approved(d.payload.value).value))
      || (d.payload.Ok? && Planning(d.payload.value).Ok? && Approved(d.payload.value).Ok? && Truthy(Approved(d.payload.value).value)
          && forall a :: !Plans(d, a))
      || (Plans(d, SetVceBitrate) && VceStep(d.payload.value, d.replies.sendOk).result == Skipped)
  {
    if d.payload.Ok? && Planning(d.payload.value).Ok? && Approved(d.payload.value).Ok? && Truthy(Approved(d.payload.value).value) {
      var parsed := ParseAction(Planning(d.payload.value).value);
      if parsed.Some? {
        assert Plans(d, parsed.value);
        PlannedHandler(records, d, parsed.value);
        if Plans(d, SetVceBitrate) {
          PlannedHandler(records, d, SetVceBitrate);
        }
      }
    }
  }

  /**
   * A completed handler of an action that records its optimization event ends
   * by writing the event composed for that action; a FaaS scale-in only ever
   * removes points from the ledger.
   */
  lemma PlannedEffects(records: seq<Queries.LedgerRecord>, d: Intent, a: ActionName)
    requires Plans(d, a)
    ensures var (s, after) := IntentStep(records, d);
      (WritesEvent(a) && s.result == Completed ==> EndsWithEvent(s.effects, EventFor(d.payload.value, a, d.replies.now)))
      && (a == FaasVnfScaleIn ==> forall x :: x in after ==> x in records)
  {
    PlannedHandler(records, d, a);
  }

  /** Apply an approved action with its handler. */
  method ApplyAction(ledger: Queries.Ledger, message: Json, a: ActionName, replies: IntentReplies) returns (h: Handled, effects: seq<Effect>)
    requires ledger.Valid()
    modifies ledger
    ensures ledger.Valid()
    ensures (Step(h, effects), ledger.records) == ActionStep(old(ledger.records), message, a, replies)
  {
    if TouchesLedger(a) {
      if a == FaasVnfScaleOut {
        h, effects := ApplyFaasScaleOut(ledger, message, replies);
      } else {
        h, effects := ApplyFaasScaleIn(ledger, message, replies);
      }
    } else {
      h, effects := ApplyHandler(message, a, replies);
    }
  }

  /** Apply an approved action whose handler leaves the ledger alone. */
  method ApplyHandler(message: Json, a: ActionName, replies: IntentReplies) returns (h: Handled, effects: seq<Effect>)
    requires !TouchesLedger(a)
    ensures Step(h, effects) == HandlerStep(message, a, replies)
  {
    match a {
      case VnfScaleOut => h, effects := ApplyVnfScaleOut(message, replies);
      case VnfScaleIn => h, effects := ApplyVnfScaleIn(message, replies);
      case SetVceBitrate => h, effects := ApplyVceBitrate(message, replies.sendOk);
      case SetTranscoderProfile => h, effects := ApplyTranscoderProfile(message, replies);
      case SetTranscoderProcessingUnit => h, effects := ApplyTranscoderPlacement(message, replies);
      case SetTranscoderClientProfile => h, effects := ApplySpectatorQualities(message, replies);
    }
  }

  method Dispatch(ledger: Queries.Ledger, d: Intent) returns (h: Handled, effects: seq<Effect>)
    requires ledger.Valid()
    modifies ledger
    ensures ledger.Valid()
    ensures (Step(h, effects), ledger.records) == IntentStep(old(ledger.records), d)
  {
    if d.payload.Err? {
      return Logged(d.payload.error), [];
    }
    var message := d.payload.value;
    var action := Planning(message);
    if action.Err? {
      return Logged(action.error), [];
    } else if action.value == JNull {
      return Skipped, [];
    }
    var approved := Approved(message);
    if approved.Err? {
      return Logged(approved.error), [];
    } else if !Truthy(approved.value) {
      return Skipped, [];
    }
    var parsed := ParseAction(action.value);
    if parsed.None? {
      return Skipped, [];
    }
    h, effects := ApplyAction(ledger, message, parsed.value, d.replies);
  }

  /** What the loop did with a sequence of messages: one outcome per message, the effects in order, and the ledger after. */
  datatype RunResult = RunResult(handled: seq<Handled>, effects: seq<Effect>, records: seq<Queries.LedgerRecord>)

  /** How one message is handled against a ledger: what it did and the ledger after it. */
  type Handler = (seq<Queries.LedgerRecord>, Intent) -> (Step, seq<Queries.LedgerRecord>)

  /** A loop over a topic, message by message, with the given handler; each message sees the ledger its predecessors left. */
  function RunWith(step: Handler, records: seq<Queries.LedgerRecord>, intents: seq<Intent>): RunResult
    decreases |intents|
  {
    if intents == [] then RunResult([], [], records)
    else
      var (s, after) := step(records, intents[0]);
      var rest := RunWith(step, after, intents[1..]);
      RunResult([s.result] + rest.handled, s.effects + rest.effects, rest.records)
  }

  /** The worker's loop over the execution topic. */
  function Run(records: seq<Queries.LedgerRecord>, intents: seq<Intent>): RunResult {
    RunWith(IntentStep, records, intents)
  }

  /**
   * The worker handles every message whatever happens, in order, each one
   * against the ledger its predecessors left.
   */
  lemma RunHandlesEach(records: seq<Queries.LedgerRecord>, intents: seq<Intent>)
    ensures var out := Run(records, intents);
      |out.handled| == |intents|
      && forall i :: 0 <= i < |intents| ==> out.handled[i] == IntentStep(Run(records, intents[..i]).records, intents[i]).0.result
  {
    RunLength(IntentStep, records, intents);
    forall i | 0 <= i < |intents|
      ensures Run(records, intents).handled[i] == IntentStep(Run(records, intents[..i]).records, intents[i]).0.result
    {
      RunHandledAt(IntentStep, records, intents, i);
    }
  }

  /** One outcome per message. */
  lemma {:induction false} RunLength(step: Handler, records: seq<Queries.LedgerRecord>, intents: seq<Intent>)
    ensures |RunWith(step, records, intents).handled| == |intents|
    decreases |intents|
  {
    if intents != [] {
      RunLength(step, step(records, intents[0]).1, intents[1..]);
    }
  }

  /** The outcome of message `i` is its handler's, against the ledger the first `i` messages left. */
  lemma {:induction false} RunHandledAt(step: Handler, records: seq<Queries.LedgerRecord>, intents: seq<Intent>, i: nat)
    requires i < |intents|
    ensures i < |RunWith(step, records, intents).handled|
    ensures RunWith(step, records, intents).handled[i] == step(RunWith(step, records, intents[..i]).records, intents[i]).0.result
    decreases i
  {
    var after := step(records, intents[0]).1;
    if i == 0 {
      assert intents[..0] == [];
    } else {
      RunHandledAt(step, after, intents[1..], i - 1);
      var prefix := intents[..i];
      assert prefix[0] == intents[0] && prefix[1..] == intents[1..][..i - 1];
      assert intents[1..][i - 1] == intents[i];
    }
  }

  /** The ledger stays in time order, and a run without approved FaaS scales leaves it as it was. */
  lemma RunKeepsLedger(records: seq<Queries.LedgerRecord>, intents: seq<Intent>)
    requires Queries.Chronological(records)
    ensures var out := Run(records, intents);
      Queries.Chronological(out.records)
      && ((forall i :: 0 <= i < |intents| ==> !Plans(intents[i], FaasVnfScaleOut) && !Plans(intents[i], FaasVnfScaleIn))
          ==> out.records == records)
  {
    forall r, d | Queries.Chronological(r) ensures Queries.Chronological(IntentStep(r, d).1) { }
    RunKeepsOrder(IntentStep, records, intents);
    if forall i :: 0 <= i < |intents| ==> !Plans(intents[i], FaasVnfScaleOut) && !Plans(intents[i], FaasVnfScaleIn) {
      forall i, r | 0 <= i < |intents| ensures IntentStep(r, intents[i]).1 == r { }
      RunKeepsRecords(IntentStep, records, intents);
    }
  }

  /** A handler that keeps the ledger in time order keeps it so over a whole run. */
  lemma {:induction false} RunKeepsOrder(step: Handler, records: seq<Queries.LedgerRecord>, intents: seq<Intent>)
    requires forall r, d :: Queries.Chronological(r) ==> Queries.Chronological(step(r, d).1)
    requires Queries.Chronological(records)
    ensures Queries.Chronological(RunWith(step, records, intents).records)
    decreases |intents|
  {
    if intents != [] {
      RunKeepsOrder(step, step(records, intents[0]).1, intents[1..]);
    }
  }

  /** A run over messages none of which changes the ledger leaves it as it was. */
  lemma {:induction false} RunKeepsRecords(step: Handler, records: seq<Queries.LedgerRecord>, intents: seq<Intent>)
    requires forall i, r :: 0 <= i < |intents| ==> step(r, intents[i]).1 == r
    ensures RunWith(step, records, intents).records == records
    decreases |intents|
  {
    if intents != [] {
      assert step(records, intents[0]).1 == records;
      forall i, r | 0 <= i < |intents| - 1 ensures step(r, intents[1..][i]).1 == r {
        assert intents[1..][i] == intents[i + 1];
      }
      RunKeepsRecords(step, records, intents[1..]);
    }
  }

  /** A run preceded by the outcomes and effects of earlier messages. */
  function Prepend(handled: seq<Handled>, effects: seq<Effect>, rest: RunResult): RunResult {
    RunResult(handled + rest.handled, effects + rest.effects, rest.records)
  }

  /** `Run` on a non-empty sequence: the first message, then the rest against the ledger it left. */
  lemma RunCons(records: seq<Queries.LedgerRecord>, intents: seq<Intent>, s: Step, after: seq<Queries.LedgerRecord>)
    requires intents != [] && IntentStep(records, intents[0]) == (s, after)
    ensures Run(records, intents) == Prepend([s.result], s.effects, Run(after, intents[1..]))
  {
  }

  /** Prepending twice is prepending the concatenations. */
  lemma PrependTwice(handled: seq<Handled>, effects: seq<Effect>, h: seq<Handled>, e: seq<Effect>, rest: RunResult)
    ensures Prepend(handled, effects, Prepend(h, e, rest)) == Prepend(handled + h, effects + e, rest)
  {
    assert handled + (h + rest.handled) == (handled + h) + rest.handled;
    assert effects + (e + rest.effects) == (effects + e) + rest.effects;
  }

  /** `main`: consume the execution topic's messages in order, handling every one. */
  method Serve(ledger: Queries.Ledger, intents: seq<Intent>) returns (handled: seq<Handled>, effects: seq<Effect>)
    requires ledger.Valid()
    modifies ledger
    ensures ledger.Valid()
    ensures RunResult(handled, effects, ledger.records) == Run(old(ledger.records), intents)
  {
    handled, effects := [], [];
    var k := 0;
    while k < |intents|
      invariant k <= |intents| && |handled| == k
      invariant ledger.Valid()
      invariant Run(old(ledger.records), intents) == Prepend(handled, effects, Run(ledger.records, intents[k..]))
    {
      ghost var before := ledger.records;
      var h, e := Dispatch(ledger, intents[k]);
      assert intents[k..][0] == intents[k] && intents[k..][1..] == intents[k + 1..];
      RunCons(before, intents[k..], Step(h, e), ledger.records);
      PrependTwice(handled, effects, [h], e, Run(ledger.records, intents[k + 1..]));
      handled, effects := handled + [h], effects + e;
      k := k + 1;
    }
    assert intents[k..] == [];
    assert handled + [] == handled && effects + [] == effects;
  }
}
