/**
 * The orchestrator records the executor reads: VNF records with their VDUs and
 * network interfaces, and the scaling-group entries of a VNF descriptor. A field that the code reads with `.get(key, None)` is an
 * `Option`; `None` stands for both an absent key and an explicit null.
 */
module OsmRecords {
  import opened Wrappers
  import opened PyJson

  /** One network interface of a VDU record. */
  datatype Interface = Interface(nsVldId: Option<string>, ipAddress: Option<string>, macAddress: Option<string>)

  /** One VDU record (`vdur` entry): its descriptor reference, replica index and interfaces. */
  datatype Vdu = Vdu(vduIdRef: Option<string>, countIndex: Option<int>, interfaces: seq<Interface>)

  /**
   * One VNF record of a network service. `memberVnfIndexRef` keeps the raw
   * decoded value because the code converts it with `int()`; an absent `vdur`
   * is the empty list.
   */
  datatype VnfRecord = VnfRecord(memberVnfIndexRef: Json, vdur: seq<Vdu>)

  /**
   * One entry of a descriptor's `scaling-group-descriptor` list: `None` when the
   * entry has no `name` key, otherwise the decoded value of that key.
   */
  datatype ScalingGroupEntry = ScalingGroupEntry(name: Option<Json>)
}
