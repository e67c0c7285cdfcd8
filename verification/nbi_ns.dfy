/** The orchestrator's VNF-level scale request (`Ns.scale_vnf`). */
module NbiNs {
  import opened Text
  import opened PyJson
  import Settings

  /** The POST request: endpoint, bearer header and the `scaleVnfData` payload. */
  datatype ScaleRequest = ScaleRequest(
    endpoint: string,
    authorization: string,
    scaleVnfType: string,
    memberVnfIndex: string,
    scalingGroupDescriptor: string,
    scaleType: string)

  /** The request for a scale-out (`scaleOut`) or a scale-in of a VNF; identifiers are rendered with `str`. */
  function ScaleVnf(token: string, nsUuid: Json, vnfIndex: Json, scalingGroupName: Json, scaleOut: bool): ScaleRequest {
    ScaleRequest(
      Settings.NbiApi + "/osm/nslcm/v1/ns_instances/" + PyStr(nsUuid) + "/scale",
      "Bearer " + token,
      if scaleOut then "SCALE_OUT" else "SCALE_IN",
      PyStr(vnfIndex),
      PyStr(scalingGroupName),
      "SCALE_VNF")
  }

  /**
   * The operation type sent, lower-cased, is the action string the pending
   * check compares with (`scale_out` / `scale_in`), and it tells the two
   * directions apart.
   */
  lemma ScaleTypeLowered(token: string, nsUuid: Json, vnfIndex: Json, name: Json, scaleOut: bool)
    ensures Lower(ScaleVnf(token, nsUuid, vnfIndex, name, scaleOut).scaleVnfType)
      == (if scaleOut then "scale_out" else "scale_in")
    ensures ScaleVnf(token, nsUuid, vnfIndex, name, scaleOut).scaleType == "SCALE_VNF"
  {
    LowerScaleTypes();
  }

  /** The two operation types, lower-cased. */
  lemma LowerScaleTypes()
    ensures Lower("SCALE_OUT") == "scale_out" && Lower("SCALE_IN") == "scale_in"
  {
    LowerLetters("SCALE_OUT", "scale_out");
    LowerLetters("SCALE_IN", "scale_in");
  }

  /** `lower` maps each upper-case letter or underscore of `s` to the matching character of `t`. */
  lemma LowerLetters(s: string, t: string)
    requires |s| == |t|
    requires forall k :: 0 <= k < |s| ==> ('A' <= s[k] <= 'Z' && t[k] as int == s[k] as int + 32) || (s[k] == t[k] == '_')
    ensures Lower(s) == t
  {
    var l := Lower(s);
    forall k | 0 <= k < |s| ensures l[k] == t[k] {
      assert l[k] == LowerChar(s[k]);
    }
  }
}
