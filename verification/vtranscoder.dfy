/**
 * vTranscoder configuration through the FaaS configuration service: one
 * `action` dictionary per configuration object, updated in place by every
 * call and published whole after each update.
 */
module Vtranscoder {
  import opened Wrappers
  import opened Exceptions
  import opened PyJson
  import opened Effects

  /** Messages for the FaaS configuration service carry this key. */
  const ActionKey: string := "faas"

  /** The placement annotation `set_spectator_quality` sends for a processor. */
  function SpectatorAnnotation(processor: string): Json {
    JObject([("annotations", JList([JObject([
      ("key", JStr("placement")),
      ("value", JObject([("invoker-selector", JObject([("processor", JStr(processor))]))])),
      ("action-antiaffinity", JStr("true"))])]))])
  }

  /** The action a new configuration starts from: the service, the descriptor and, as text, the VNF index. */
  function InitialAction(nsName: Json, vnfdName: Json, vnfIndex: Json): map<string, Json> {
    map["ns_name" := nsName, "vnf_name" := vnfdName, "vnf_index" := JStr(PyStr(vnfIndex))]
  }

  /** The `action_params` of a profile update: the profiles to produce, in order. */
  function ProfileParams(qualities: seq<Json>): Json {
    JObject([("produce_profiles", JList(qualities))])
  }

  /** The `action_params` of a placement: GPU node "0" for the processor "cpu" and "1" otherwise. */
  function PlacementParams(processor: Json): (params: Json)
    ensures Get(params, "gpu_node", JNull) == Ok(JStr("0")) <==> processor == JStr("cpu")
  {
    JObject([("gpu_node", JStr(if processor == JStr("cpu") then "0" else "1"))])
  }

  class Configuration {
    var action: map<string, Json>

    /** The action names the service, the descriptor and, as text, the VNF index. */
    constructor (nsName: Json, vnfdName: Json, vnfIndex: Json)
      ensures action == InitialAction(nsName, vnfdName, vnfIndex)
      ensures action.Keys == {"ns_name", "vnf_name", "vnf_index"} && action["vnf_index"].JStr?
    {
      action := map["ns_name" := nsName, "vnf_name" := vnfdName, "vnf_index" := JStr(PyStr(vnfIndex))];
    }

    /**
     * `set_transcoder_profile(qualities)`: an empty list raises ValueError before
     * anything changes or is sent; otherwise `action_params` becomes the list of
     * profiles in the given order, the whole action is published, and the result
     * is whether the send was acknowledged. Every other key keeps its value.
     */
    method SetTranscoderProfile(qualities: seq<Json>, sendOk: bool) returns (r: Result<bool, Error>, sent: Option<Message>)
      modifies this
      ensures qualities == [] ==> r == Err(ValueError) && sent == None && action == old(action)
      ensures qualities != [] ==> r == Ok(sendOk)
      ensures qualities != [] ==> action == old(action)["action_params" := ProfileParams(qualities)]
      ensures qualities != [] ==> sent == Some(Message(ActionKey, action))
      ensures forall k :: k in old(action) && k != "action_params" ==> k in action && action[k] == old(action)[k]
    {
      if |qualities| == 0 {
        return Err(ValueError), None;
      }
      action := action["action_params" := ProfileParams(qualities)];
      r := Ok(sendOk);
      sent := Some(Message(ActionKey, action));
    }

    /**
     * `apply_placement(processor)`: the invoker selector is the processor, anti-affinity
     * is on, and the GPU node is "0" exactly when the processor is "cpu".
     */
    method ApplyPlacement(processor: Json, sendOk: bool) returns (completed: bool, sent: Message)
      modifies this
      ensures completed == sendOk
      ensures action == old(action)["invoker-selector" := processor]["action-antiaffinity" := JStr("true")]
        ["action_params" := PlacementParams(processor)]
      ensures sent == Message(ActionKey, action)
      ensures Get(action["action_params"], "gpu_node", JNull) == Ok(JStr("0")) <==> processor == JStr("cpu")
      ensures forall k :: k in old(action) && k !in {"action_params", "invoker-selector", "action-antiaffinity"} ==>
        k in action && action[k] == old(action)[k]
    {
      action := action["invoker-selector" := processor];
      action := action["action-antiaffinity" := JStr("true")];
      action := action["action_params" := PlacementParams(processor)];
      completed := sendOk;
      sent := Message(ActionKey, action);
    }

    /**
     * `set_spectator_quality(cpu)`: `action_params` becomes the placement
     * annotation for "cpu" when the flag is set and "gpu" otherwise; keys set by
     * earlier calls, such as the invoker selector, are still sent.
     */
    method SetSpectatorQuality(cpu: bool, sendOk: bool) returns (completed: bool, sent: Message)
      modifies this
      ensures completed == sendOk
      ensures action == old(action)["action_params" := SpectatorAnnotation(if cpu then "cpu" else "gpu")]
      ensures sent == Message(ActionKey, action)
      ensures forall k :: k in old(action) && k != "action_params" ==> k in action && action[k] == old(action)[k]
    {
      var processor := if cpu then "cpu" else "gpu";
      action := action["action_params" := SpectatorAnnotation(processor)];
      completed := sendOk;
      sent := Message(ActionKey, action);
    }
  }
}
