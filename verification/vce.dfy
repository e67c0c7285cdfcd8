/** The vCE (compression engine) bitrate configuration message. */
module Vce {
  import opened Wrappers
  import opened PyJson
  import opened Effects

  /** Messages for the vCE carry this key. */
  const ActionKey: string := "vce"

  /** `Configuration(mac).set_bitrate(bitrate)`: the message published. */
  function SetBitrateMessage(mac: Json, bitrate: Json): Message {
    Message(ActionKey, map["mac" := mac, "action" := JObject([("bitrate", bitrate)])])
  }

  /**
   * `set_bitrate` returns whether the send was acknowledged (`sendOk`); the
   * producer is closed either way, so nothing else depends on the outcome.
   */
  function SetBitrate(mac: Json, bitrate: Json, sendOk: bool): (r: (bool, Message))
    ensures r.0 <==> sendOk
    ensures r.1.key == "vce" && r.1.value.Keys == {"mac", "action"}
    ensures r.1.value["mac"] == mac
    ensures Get(r.1.value["action"], "bitrate", JNull) == Ok(bitrate)
  {
    (sendOk, SetBitrateMessage(mac, bitrate))
  }
}
