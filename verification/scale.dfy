/**
 * The VNF-level scale action: the scaling group of the edge vCache descriptor,
 * the admission guard (edge replica count and in-flight scale operations) and
 * the single scale request it submits.
 */
module Scale {
  import opened Wrappers
  import opened Exceptions
  import opened Text
  import opened PyJson
  import opened OsmRecords
  import NbiNs

  /** A constructed `scale.Action`: the service, the descriptor, the bearer token and the chosen scaling group. */
  datatype ScaleAction = ScaleAction(nsUuid: Json, vnfdUuid: Json, token: string, scalingGroupName: Json)

  /** The first `name` among the scaling-group entries that have one. */
  function FirstNamed(entries: seq<ScalingGroupEntry>): (r: Option<Json>)
    ensures r.None? <==> forall i :: 0 <= i < |entries| ==> entries[i].name.None?
    ensures r.Some? ==> exists k :: (0 <= k < |entries| && entries[k].name == r
      && forall j :: 0 <= j < k ==> entries[j].name.None?)
  {
    if entries == [] then None
    else if entries[0].name.Some? then entries[0].name
    else
      var r := FirstNamed(entries[1..]);
      assert forall i :: 1 <= i < |entries| ==> entries[i] == entries[1..][i - 1];
      if r.Some? then
        var k :| 0 <= k < |entries[1..]| && entries[1..][k].name == r && forall j :: 0 <= j < k ==> entries[1..][j].name.None?;
        assert entries[k + 1].name == r;
        r
      else r
  }

  /** The names the loop of `get_scaling_group_if_any` collects from a prefix of the entries. */
  function NamesOf(entries: seq<ScalingGroupEntry>): seq<Json> {
    if entries == [] then []
    else
      var last := entries[|entries| - 1];
      NamesOf(entries[..|entries| - 1]) + (if last.name.Some? then [last.name.value] else [])
  }

  /** The collected names start with the first named entry's name, and there are none iff no entry is named. */
  lemma {:induction false} NamesOfFirst(entries: seq<ScalingGroupEntry>)
    ensures NamesOf(entries) == [] <==> FirstNamed(entries).None?
    ensures NamesOf(entries) != [] ==> Some(NamesOf(entries)[0]) == FirstNamed(entries)
  {
    if entries != [] {
      var init := entries[..|entries| - 1];
      NamesOfFirst(init);
      assert forall i :: 0 <= i < |init| ==> init[i] == entries[i];
      if NamesOf(init) != [] {
        var k :| 0 <= k < |init| && init[k].name == FirstNamed(init) && forall j :: 0 <= j < k ==> init[j].name.None?;
        FirstNamedAt(entries, k);
      } else if entries[|entries| - 1].name.Some? {
        FirstNamedAt(entries, |entries| - 1);
      }
    }
  }

  /** The entry at `k` is the first named one when every entry before it is unnamed. */
  lemma {:induction false} FirstNamedAt(entries: seq<ScalingGroupEntry>, k: int)
    requires 0 <= k < |entries| && entries[k].name.Some?
    requires forall j :: 0 <= j < k ==> entries[j].name.None?
    ensures FirstNamed(entries) == entries[k].name
  {
    if k > 0 {
      assert forall j :: 0 <= j < k - 1 ==> entries[1..][j] == entries[j + 1];
      FirstNamedAt(entries[1..], k - 1);
    }
  }

  /**
   * `get_scaling_group_if_any` for the descriptor fetch's status and the
   * descriptor's `scaling-group-descriptor` entries.
   */
  method GetScalingGroupIfAny(vnfdStatus: int, entries: seq<ScalingGroupEntry>) returns (r: Result<Json, Error>)
    ensures vnfdStatus != 200 ==> r == Err(VnfdUnexpectedStatusCode)
    ensures vnfdStatus == 200 && FirstNamed(entries).None? ==> r == Err(ScalingGroupNotFound)
    ensures vnfdStatus == 200 && FirstNamed(entries).Some? ==> r == Ok(FirstNamed(entries).value)
  {
    if vnfdStatus != 200 {
      return Err(VnfdUnexpectedStatusCode);
    }
    var scalingGroups: seq<Json> := [];
    var i := 0;
    while i < |entries|
      invariant 0 <= i <= |entries|
      invariant scalingGroups == NamesOf(entries[..i])
    {
      assert entries[..i + 1][..i] == entries[..i];
      if entries[i].name.Some? {
        scalingGroups := scalingGroups + [entries[i].name.value];
      }
      i := i + 1;
    }
    assert entries[..i] == entries;
    NamesOfFirst(entries);
    if |scalingGroups| > 0 {
      return Ok(scalingGroups[0]);
    }
    return Err(ScalingGroupNotFound);
  }

  /** The action the constructor builds, or what it raises. */
  function ActionFor(nsUuid: Json, vnfdUuid: Json, token: string, vnfdStatus: int, entries: seq<ScalingGroupEntry>)
    : Result<ScaleAction, Error>
  {
    if vnfdStatus != 200 then Err(VnfdUnexpectedStatusCode)
    else
      match FirstNamed(entries)
      case None => Err(ScalingGroupNotFound)
      case Some(name) => Ok(ScaleAction(nsUuid, vnfdUuid, token, name))
  }

  /** `Action(ns_uuid, vnfd_uuid)`: the constructor raises what the scaling-group lookup raises. */
  method NewAction(nsUuid: Json, vnfdUuid: Json, token: string, vnfdStatus: int, entries: seq<ScalingGroupEntry>)
    returns (r: Result<ScaleAction, Error>)
    ensures r == ActionFor(nsUuid, vnfdUuid, token, vnfdStatus, entries)
    ensures vnfdStatus != 200 ==> r == Err(VnfdUnexpectedStatusCode)
    ensures vnfdStatus == 200 && FirstNamed(entries).None? ==> r == Err(ScalingGroupNotFound)
    ensures vnfdStatus == 200 && FirstNamed(entries).Some? ==>
      r == Ok(ScaleAction(nsUuid, vnfdUuid, token, FirstNamed(entries).value))
  {
    var name := GetScalingGroupIfAny(vnfdStatus, entries);
    if name.Err? {
      return Err(name.error);
    }
    return Ok(ScaleAction(nsUuid, vnfdUuid, token, name.value));
  }

  /** The member index of the edge vCache VNF, fixed in the count (not the `vnf_index` argument). */
  const EdgeMemberIndex: int := 2

  /**
   * The edge VDU count after the first `|vnfs|` records: 1 to start with, then
   * `len(vdur)` of every record whose member index converts to 2; a member
   * index that `int()` rejects raises.
   */
  function EdgeCount(vnfs: seq<VnfRecord>): Result<nat, Error> {
    if vnfs == [] then Ok(1)
    else
      var v := vnfs[|vnfs| - 1];
      match EdgeCount(vnfs[..|vnfs| - 1])
      case Err(e) => Err(e)
      case Ok(c) =>
        if v.memberVnfIndexRef == JNull then Ok(c)
        else
          match PyInt(v.memberVnfIndexRef)
          case Err(e) => Err(e)
          case Ok(n) => if n == EdgeMemberIndex then Ok(|v.vdur|) else Ok(c)
  }

  /** A record the count reads: its member index is present and converts to 2. */
  predicate IsEdgeRecord(v: VnfRecord) {
    v.memberVnfIndexRef != JNull && PyInt(v.memberVnfIndexRef) == Ok(EdgeMemberIndex)
  }

  /**
   * When no member index raises, the count is `len(vdur)` of the last edge
   * record, or 1 when there is none.
   */
  lemma {:induction false} EdgeCountMeaning(vnfs: seq<VnfRecord>)
    requires EdgeCount(vnfs).Ok?
    ensures (forall i :: 0 <= i < |vnfs| ==> !IsEdgeRecord(vnfs[i])) ==> EdgeCount(vnfs) == Ok(1)
    ensures (exists i :: 0 <= i < |vnfs| && IsEdgeRecord(vnfs[i])) ==>
      exists k :: (0 <= k < |vnfs| && IsEdgeRecord(vnfs[k]) && EdgeCount(vnfs) == Ok(|vnfs[k].vdur|)
        && forall j :: k < j < |vnfs| ==> !IsEdgeRecord(vnfs[j]))
  {
    if vnfs != [] {
      var init := vnfs[..|vnfs| - 1];
      EdgeCountMeaning(init);
      assert forall i :: 0 <= i < |init| ==> init[i] == vnfs[i];
    }
  }

  /** `allow_scale_action`'s verdict for a count: scale-out needs one edge replica, scale-in more than one. */
  function Allowed(count: int, scaleAction: string): (ok: bool)
    ensures scaleAction == "scale_out" ==> (ok <==> count == 1)
    ensures scaleAction == "scale_in" ==> (ok <==> count > 1)
    ensures scaleAction != "scale_out" && scaleAction != "scale_in" ==> !ok
  {
    if scaleAction == "scale_out" then count == 1
    else if scaleAction == "scale_in" then count > 1
    else false
  }

  /** `allow_scale_action(scale_action)` over the service's VNF records. */
  method AllowScaleAction(vnfs: seq<VnfRecord>, scaleAction: string) returns (r: Result<bool, Error>)
    ensures EdgeCount(vnfs).Err? ==> r == Err(EdgeCount(vnfs).error)
    ensures EdgeCount(vnfs).Ok? ==> r == Ok(Allowed(EdgeCount(vnfs).value, scaleAction))
  {
    var currentEdgeVdus: nat := 1;
    var i := 0;
    while i < |vnfs|
      invariant 0 <= i <= |vnfs|
      invariant EdgeCount(vnfs[..i]) == Ok(currentEdgeVdus)
      invariant EdgeCount(vnfs[..i]).Err? ==> EdgeCount(vnfs).Err?
    {
      var v := vnfs[i];
      assert vnfs[..i + 1][..i] == vnfs[..i] && vnfs[..i + 1][i] == v;
      if v.memberVnfIndexRef != JNull {
        var n := PyInt(v.memberVnfIndexRef);
        if n.Err? {
          EdgeCountPrefixError(vnfs, i + 1);
          return Err(n.error);
        }
        if n.value == EdgeMemberIndex {
          currentEdgeVdus := |v.vdur|;
        }
      }
      i := i + 1;
    }
    assert vnfs[..i] == vnfs;
    return Ok(Allowed(currentEdgeVdus, scaleAction));
  }

  /** An error in a prefix is the error of the whole list: the loop stops at the first record that raises. */
  lemma {:induction false} EdgeCountPrefixError(vnfs: seq<VnfRecord>, n: int)
    requires 0 <= n <= |vnfs| && EdgeCount(vnfs[..n]).Err?
    ensures EdgeCount(vnfs) == EdgeCount(vnfs[..n])
    decreases |vnfs| - n
  {
    if n < |vnfs| {
      assert vnfs[..n + 1][..n] == vnfs[..n];
      EdgeCountPrefixError(vnfs, n + 1);
    } else {
      assert vnfs[..n] == vnfs;
    }
  }

  /** Where `detect_pending_scale_actions` reads an operation's scale direction. */
  const ScaleTypePath: seq<string> := ["operationParams", "scaleVnfData", "scaleVnfType"]

  /**
   * What the loop of `detect_pending_scale_actions` makes of one listed
   * operation: `Ok(true)` when it is a PROCESSING scale of this service in the
   * same direction, `Ok(false)` to go on with the next one, or what the
   * indexing, `get` or `lower()` raises.
   */
  function OperationVerdict(op: Json, nsUuid: Json, scaleAction: string): Result<bool, Error> {
    match Index(op, "nsInstanceId")
    case Err(e) => Err(e)
    case Ok(ns) =>
      if ns != nsUuid then Ok(false)
      else
        match Index(op, "lcmOperationType")
        case Err(e) => Err(e)
        case Ok(kind) =>
          if kind != JStr("scale") then Ok(false)
          else
            match Index(op, "operationState")
            case Err(e) => Err(e)
            case Ok(state) =>
              if state != JStr("PROCESSING") then Ok(false)
              else
                match GetPath(op, ScaleTypePath, JNull)
                case Err(e) => Err(e)
                case Ok(action) =>
                  if action == JNull then Ok(false)
                  else if !action.JStr? then Err(AttributeError)
                  else Ok(Lower(action.s) == scaleAction)
  }

  /**
   * An operation matches exactly when it is a PROCESSING scale of the service
   * whose direction lower-cases to the action; a listed value that is not a
   * dictionary raises TypeError, and one without `nsInstanceId` KeyError.
   */
  lemma OperationVerdictMeaning(op: Json, nsUuid: Json, scaleAction: string)
    ensures OperationVerdict(op, nsUuid, scaleAction) == Ok(true) <==>
      && Index(op, "nsInstanceId") == Ok(nsUuid)
      && Index(op, "lcmOperationType") == Ok(JStr("scale"))
      && Index(op, "operationState") == Ok(JStr("PROCESSING"))
      && GetPath(op, ScaleTypePath, JNull).Ok?
      && GetPath(op, ScaleTypePath, JNull).value.JStr?
      && Lower(GetPath(op, ScaleTypePath, JNull).value.s) == scaleAction
    ensures !op.JObject? ==> OperationVerdict(op, nsUuid, scaleAction) == Err(TypeError)
    ensures op.JObject? && Lookup(op.fields, "nsInstanceId").None? ==>
      OperationVerdict(op, nsUuid, scaleAction) == Err(KeyError)
  {
  }

  /** The verdicts of the listed operations, in list order. */
  function Verdicts(ops: seq<Json>, nsUuid: Json, scaleAction: string): (vs: seq<Result<bool, Error>>)
    ensures |vs| == |ops|
    ensures forall i :: 0 <= i < |ops| ==> vs[i] == OperationVerdict(ops[i], nsUuid, scaleAction)
  {
    seq(|ops|, i requires 0 <= i < |ops| => OperationVerdict(ops[i], nsUuid, scaleAction))
  }

  /** The loop over the verdicts: it stops at the first match or the first error. */
  function FirstDecisive(vs: seq<Result<bool, Error>>): Result<bool, Error> {
    if vs == [] then Ok(false)
    else if vs[0] == Ok(false) then FirstDecisive(vs[1..])
    else vs[0]
  }

  /** One turn of the loop: a verdict that lets it go on passes to the rest, any other verdict is the result. */
  lemma FirstDecisiveStep(vs: seq<Result<bool, Error>>, i: int)
    requires 0 <= i < |vs|
    ensures FirstDecisive(vs[i..]) == if vs[i] == Ok(false) then FirstDecisive(vs[i + 1..]) else vs[i]
  {
    assert vs[i..][0] == vs[i] && vs[i..][1..] == vs[i + 1..];
  }

  /** `detect_pending_scale_actions` over the decoded operation list: iterating it may itself raise. */
  function Pending(operations: Json, nsUuid: Json, scaleAction: string): Result<bool, Error> {
    match Iterate(operations)
    case Err(e) => Err(e)
    case Ok(ops) => FirstDecisive(Verdicts(ops, nsUuid, scaleAction))
  }

  /**
   * The loop finds nothing exactly when every operation lets it go on; it
   * reports a match or an error exactly when that is the verdict of the first
   * operation that does not let it go on.
   */
  lemma {:induction false} FirstDecisiveMeaning(vs: seq<Result<bool, Error>>)
    ensures FirstDecisive(vs) == Ok(false) <==> forall j :: 0 <= j < |vs| ==> vs[j] == Ok(false)
    ensures FirstDecisive(vs) != Ok(false) ==>
      exists k :: 0 <= k < |vs| && FirstDecisive(vs) == vs[k] && forall j :: 0 <= j < k ==> vs[j] == Ok(false)
  {
    if vs != [] {
      FirstDecisiveMeaning(vs[1..]);
      assert forall j :: 1 <= j < |vs| ==> vs[j] == vs[1..][j - 1];
      if FirstDecisive(vs) != Ok(false) && vs[0] == Ok(false) {
        var k :| 0 <= k < |vs[1..]| && FirstDecisive(vs[1..]) == vs[1..][k]
          && forall j :: 0 <= j < k ==> vs[1..][j] == Ok(false);
        assert FirstDecisive(vs) == vs[k + 1];
      }
    }
  }

  /**
   * Over a listed operation list: nothing is pending exactly when every
   * operation lets the loop go on; otherwise the result is the verdict of the
   * first operation that stops it.
   */
  lemma PendingMeaning(ops: seq<Json>, nsUuid: Json, scaleAction: string)
    ensures Pending(JList(ops), nsUuid, scaleAction) == Ok(false) <==>
      forall j :: 0 <= j < |ops| ==> OperationVerdict(ops[j], nsUuid, scaleAction) == Ok(false)
    ensures Pending(JList(ops), nsUuid, scaleAction) != Ok(false) ==>
      exists k :: 0 <= k < |ops| && Pending(JList(ops), nsUuid, scaleAction) == OperationVerdict(ops[k], nsUuid, scaleAction)
        && forall j :: 0 <= j < k ==> OperationVerdict(ops[j], nsUuid, scaleAction) == Ok(false)
  {
    FirstDecisiveMeaning(Verdicts(ops, nsUuid, scaleAction));
  }

  /**
   * The body of the loop of `detect_pending_scale_actions` for one operation:
   * `Ok(false)` where the loop goes on with `continue` or falls through.
   */
  method ExamineOperation(op: Json, nsUuid: Json, scaleAction: string) returns (r: Result<bool, Error>)
    ensures r == OperationVerdict(op, nsUuid, scaleAction)
  {
    var ns := Index(op, "nsInstanceId");
    if ns.Err? {
      return Err(ns.error);
    }
    if ns.value != nsUuid {
      return Ok(false);
    }
    var kind := Index(op, "lcmOperationType");
    if kind.Err? {
      return Err(kind.error);
    }
    if kind.value != JStr("scale") {
      return Ok(false);
    }
    var state := Index(op, "operationState");
    if state.Err? {
      return Err(state.error);
    }
    if state.value == JStr("PROCESSING") {
      var action := GetPath(op, ScaleTypePath, JNull);
      if action.Err? {
        return Err(action.error);
      }
      if action.value == JNull {
        return Ok(false);
      }
      if !action.value.JStr? {
        return Err(AttributeError);
      }
      return Ok(Lower(action.value.s) == scaleAction);
    }
    return Ok(false);
  }

  /** `detect_pending_scale_actions(scale_action)` over the orchestrator's decoded operation list. */
  method DetectPendingScaleActions(operations: Json, nsUuid: Json, scaleAction: string) returns (r: Result<bool, Error>)
    ensures r == Pending(operations, nsUuid, scaleAction)
  {
    var list := Iterate(operations);
    if list.Err? {
      return Err(list.error);
    }
    var ops := list.value;
    ghost var vs := Verdicts(ops, nsUuid, scaleAction);
    var detected := false;
    var i := 0;
    while i < |ops|
      invariant 0 <= i <= |ops|
      invariant FirstDecisive(vs) == if detected then Ok(true) else FirstDecisive(vs[i..])
    {
      FirstDecisiveStep(vs, i);
      var verdict := ExamineOperation(ops[i], nsUuid, scaleAction);
      assert verdict == vs[i];
      if verdict.Err? {
        return Err(verdict.error);
      }
      if verdict.value {
        detected := true;
        break;
      }
      i := i + 1;
    }
    assert vs[i..] == [] || detected;
    return Ok(detected);
  }

  /** What `apply` does before it submits: the guards, in order. */
  function Admission(action: ScaleAction, vnfs: seq<VnfRecord>, operations: Json, scaleAction: string)
    : Outcome<Error>
  {
    match EdgeCount(vnfs)
    case Err(e) => Fail(e)
    case Ok(count) =>
      if !Allowed(count, scaleAction) then Fail(VnfScaleNotCompleted)
      else
        match Pending(operations, action.nsUuid, scaleAction)
        case Err(e) => Fail(e)
        case Ok(pending) => if pending then Fail(VnfScaleNotCompleted) else Pass
  }

  /** The outcome of `apply` and the request it submits, if any. */
  function ApplyResult(action: ScaleAction, vnfIndex: Json, scaleAction: string, vnfs: seq<VnfRecord>,
                       operations: Json, scaleStatus: int): (r: (Outcome<Error>, Option<NbiNs.ScaleRequest>))
    ensures r.0.Pass? ==> scaleStatus == 201 && r.1.Some?
    ensures r.1.Some? ==> r.1.value.scaleVnfType == (if scaleAction == "scale_out" then "SCALE_OUT" else "SCALE_IN")
  {
    match Admission(action, vnfs, operations, scaleAction)
    case Fail(e) => (Fail(e), None)
    case Pass =>
      (if scaleStatus == 201 then Pass else Fail(VnfScaleNotCompleted),
       Some(NbiNs.ScaleVnf(action.token, action.nsUuid, vnfIndex, action.scalingGroupName, scaleAction == "scale_out")))
  }

  /** What `apply` returns follows from the guards: a request goes out exactly when they pass. */
  lemma ApplyResultMeaning(action: ScaleAction, vnfIndex: Json, scaleAction: string, vnfs: seq<VnfRecord>,
                           operations: Json, scaleStatus: int)
    ensures var (r, submitted) := ApplyResult(action, vnfIndex, scaleAction, vnfs, operations, scaleStatus);
      && (submitted.Some? <==> Admission(action, vnfs, operations, scaleAction).Pass?)
      && (submitted.None? ==> r == Admission(action, vnfs, operations, scaleAction))
      && (submitted.Some? ==>
            submitted.value == NbiNs.ScaleVnf(action.token, action.nsUuid, vnfIndex, action.scalingGroupName,
                                              scaleAction == "scale_out"))
      && (submitted.Some? ==> (r.Pass? <==> scaleStatus == 201))
      && (r.Fail? && EdgeCount(vnfs).Ok? && Pending(operations, action.nsUuid, scaleAction).Ok? ==>
            r.error == VnfScaleNotCompleted)
  {
  }

  /**
   * `apply(vnf_index, scale_action)`: the scale request it submits, if any, and
   * its outcome for the orchestrator's reply status.
   */
  method Apply(action: ScaleAction, vnfIndex: Json, scaleAction: string, vnfs: seq<VnfRecord>,
               operations: Json, scaleStatus: int)
    returns (r: Outcome<Error>, submitted: Option<NbiNs.ScaleRequest>)
    ensures submitted.Some? <==> Admission(action, vnfs, operations, scaleAction).Pass?
    ensures submitted.None? ==> r == Admission(action, vnfs, operations, scaleAction)
    ensures submitted.Some? ==> (submitted.value ==
      NbiNs.ScaleVnf(action.token, action.nsUuid, vnfIndex, action.scalingGroupName, scaleAction == "scale_out"))
    ensures submitted.Some? ==> (r.Pass? <==> scaleStatus == 201)
    ensures r.Fail? && EdgeCount(vnfs).Ok? && Pending(operations, action.nsUuid, scaleAction).Ok? ==>
      r.error == VnfScaleNotCompleted
    ensures (r, submitted) == ApplyResult(action, vnfIndex, scaleAction, vnfs, operations, scaleStatus)
  {
    var scaleOut := scaleAction == "scale_out";
    submitted := None;
    var allowed := AllowScaleAction(vnfs, scaleAction);
    if allowed.Err? {
      r := Fail(allowed.error);
    } else if !allowed.value {
      r := Fail(VnfScaleNotCompleted);
    } else {
      var pending := DetectPendingScaleActions(operations, action.nsUuid, scaleAction);
      if pending.Err? {
        r := Fail(pending.error);
      } else if pending.value {
        r := Fail(VnfScaleNotCompleted);
      } else {
        var request := NbiNs.ScaleVnf(action.token, action.nsUuid, vnfIndex, action.scalingGroupName, scaleOut);
        submitted := Some(request);
        r := if scaleStatus != 201 then Fail(VnfScaleNotCompleted) else Pass;
      }
    }
    assert (r, submitted) == ApplyResult(action, vnfIndex, scaleAction, vnfs, operations, scaleStatus);
    ApplyResultMeaning(action, vnfIndex, scaleAction, vnfs, operations, scaleStatus);
  }

  /** A listed operation recording a PROCESSING scale of the service with the given `scaleVnfType`. */
  predicate RecordsScale(op: Json, nsUuid: Json, scaleVnfType: string) {
    && Index(op, "nsInstanceId") == Ok(nsUuid)
    && Index(op, "lcmOperationType") == Ok(JStr("scale"))
    && Index(op, "operationState") == Ok(JStr("PROCESSING"))
    && GetPath(op, ScaleTypePath, JNull) == Ok(JStr(scaleVnfType))
  }

  /**
   * While a submitted scale is still PROCESSING in the orchestrator, a second
   * request for the same direction is held back: the pending check finds it,
   * unless an earlier listed operation already made the check raise.
   */
  lemma SubmittedScaleBlocksRepeat(action: ScaleAction, vnfIndex: Json, scaleOut: bool,
                                   vnfs: seq<VnfRecord>, ops: seq<Json>, k: int)
    requires 0 <= k < |ops|
    requires RecordsScale(ops[k], action.nsUuid,
      NbiNs.ScaleVnf(action.token, action.nsUuid, vnfIndex, action.scalingGroupName, scaleOut).scaleVnfType)
    ensures Admission(action, vnfs, JList(ops), if scaleOut then "scale_out" else "scale_in").Fail?
  {
    NbiNs.ScaleTypeLowered(action.token, action.nsUuid, vnfIndex, action.scalingGroupName, scaleOut);
    var scaleAction := if scaleOut then "scale_out" else "scale_in";
    OperationVerdictMeaning(ops[k], action.nsUuid, scaleAction);
    IterateMembers(JList(ops));
    FirstDecisiveMeaning(Verdicts(ops, action.nsUuid, scaleAction));
  }

  /** An action other than `scale_out` and `scale_in` is never submitted. */
  lemma UnknownActionNeverSubmitted(action: ScaleAction, vnfs: seq<VnfRecord>, operations: Json, scaleAction: string)
    requires scaleAction != "scale_out" && scaleAction != "scale_in"
    ensures Admission(action, vnfs, operations, scaleAction).Fail?
  {
  }
}
