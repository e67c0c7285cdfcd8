/**
 * Discovery of the network interfaces of a vCDN service's vCaches from the VNF
 * records the orchestrator lists: the mid vCache (replica 0 of the mid VDU) and
 * the newest edge vCache replica (the greatest count-index of the edge VDU).
 */
module ActionUtils {
  import opened Wrappers
  import opened Exceptions
  import opened OsmRecords

  /** The interfaces of one VDU keyed by the network (`ns-vld-id`) they attach to. */
  type Interfaces = map<string, Interface>

  /** The `{"mid": ..., "edge": ...}` result; `None` where nothing was found. */
  datatype NetInterfaces = NetInterfaces(mid: Option<Interfaces>, edge: Option<Interfaces>)

  /** The VDU names `get_vcdn_net_interfaces` searches for unless told otherwise. */
  const DefaultMidName: string := "vCache-mid-vdu"
  const DefaultEdgeName: string := "vCache-edge-vdu"

  /** The VDU names of the vCDN descriptor: the FaaS variant searches for them by default, and the subscriber passes them. */
  const MidVduName: string := "vCache_mid_vdu"
  const EdgeVduName: string := "vCache_edge_vdu"

  /** The dictionary `format_vdu_interfaces` builds from the first `|list|` interfaces. */
  function InterfacesOf(list: seq<Interface>): Interfaces {
    if list == [] then map[]
    else
      var last := list[|list| - 1];
      var m := InterfacesOf(list[..|list| - 1]);
      if last.nsVldId.None? then m else m[last.nsVldId.value := last]
  }

  /**
   * An interface is kept under its `ns-vld-id`, interfaces without one are
   * skipped, and of several with the same id the last one is kept.
   */
  lemma {:induction false} InterfacesOfMeaning(list: seq<Interface>)
    ensures forall k :: k in InterfacesOf(list) <==> exists i :: 0 <= i < |list| && list[i].nsVldId == Some(k)
    ensures forall k :: k in InterfacesOf(list) ==> exists j :: (0 <= j < |list| && list[j].nsVldId == Some(k)
      && InterfacesOf(list)[k] == list[j] && forall l :: j < l < |list| ==> list[l].nsVldId != Some(k))
  {
    if list != [] {
      var init := list[..|list| - 1];
      InterfacesOfMeaning(init);
      forall k ensures k in InterfacesOf(list) <==> exists i :: 0 <= i < |list| && list[i].nsVldId == Some(k) {
        if k in InterfacesOf(list) && list[|list| - 1].nsVldId != Some(k) {
          var i :| 0 <= i < |init| && init[i].nsVldId == Some(k);
          assert list[i] == init[i];
        }
        if exists i :: 0 <= i < |list| && list[i].nsVldId == Some(k) {
          var i :| 0 <= i < |list| && list[i].nsVldId == Some(k);
          if i < |init| { assert init[i] == list[i]; }
        }
      }
      forall k | k in InterfacesOf(list)
        ensures exists j :: (0 <= j < |list| && list[j].nsVldId == Some(k)
          && InterfacesOf(list)[k] == list[j] && forall l :: j < l < |list| ==> list[l].nsVldId != Some(k))
      {
        if list[|list| - 1].nsVldId == Some(k) {
          assert InterfacesOf(list)[k] == list[|list| - 1];
        } else {
          var j :| 0 <= j < |init| && init[j].nsVldId == Some(k)
            && InterfacesOf(init)[k] == init[j] && forall l :: j < l < |init| ==> init[l].nsVldId != Some(k);
          assert list[j] == init[j];
          forall l | j < l < |list| ensures list[l].nsVldId != Some(k) {
            if l < |init| { assert list[l] == init[l]; }
          }
        }
      }
    }
  }

  /** `format_vdu_interfaces(interfaces_list)`. */
  method FormatVduInterfaces(list: seq<Interface>) returns (m: Interfaces)
    ensures m == InterfacesOf(list)
  {
    m := map[];
    var i := 0;
    while i < |list|
      invariant 0 <= i <= |list|
      invariant m == InterfacesOf(list[..i])
    {
      assert list[..i + 1][..i] == list[..i];
      var netType := list[i].nsVldId;
      if netType.Some? {
        m := m[netType.value := list[i]];
      }
      i := i + 1;
    }
    assert list[..i] == list;
  }

  /** The VDUs of a list of VNF records, record after record. */
  function AllVdus(vnfs: seq<VnfRecord>): seq<Vdu> {
    if vnfs == [] then [] else AllVdus(vnfs[..|vnfs| - 1]) + vnfs[|vnfs| - 1].vdur
  }

  /** Gathering distributes over a split of the record list, so the record order is kept. */
  lemma {:induction false} AllVdusAppend(a: seq<VnfRecord>, b: seq<VnfRecord>)
    ensures AllVdus(a + b) == AllVdus(a) + AllVdus(b)
  {
    if b == [] {
      assert a + b == a;
    } else {
      var init := b[..|b| - 1];
      assert (a + b)[..|a + b| - 1] == a + init;
      AllVdusAppend(a, init);
    }
  }

  /** A VDU is gathered iff some record lists it. */
  lemma {:induction false} AllVdusMembership(vnfs: seq<VnfRecord>, v: Vdu)
    ensures v in AllVdus(vnfs) <==> exists i :: 0 <= i < |vnfs| && v in vnfs[i].vdur
  {
    if vnfs != [] {
      var init := vnfs[..|vnfs| - 1];
      AllVdusMembership(init, v);
      if exists i :: 0 <= i < |vnfs| && v in vnfs[i].vdur {
        var i :| 0 <= i < |vnfs| && v in vnfs[i].vdur;
        if i < |init| { assert init[i] == vnfs[i]; }
      }
      if v in AllVdus(init) {
        var i :| 0 <= i < |init| && v in init[i].vdur;
        assert vnfs[i] == init[i];
      }
    }
  }

  /** `for vnf_instance in vnfs_list: vdus_list += vnf_instance.get("vdur", [])`. */
  method GatherVdus(vnfs: seq<VnfRecord>) returns (vdus: seq<Vdu>)
    ensures vdus == AllVdus(vnfs)
  {
    vdus := [];
    var i := 0;
    while i < |vnfs|
      invariant 0 <= i <= |vnfs|
      invariant vdus == AllVdus(vnfs[..i])
    {
      assert vnfs[..i + 1][..i] == vnfs[..i];
      vdus := vdus + vnfs[i].vdur;
      i := i + 1;
    }
    assert vnfs[..i] == vnfs;
  }

  /** The mid vCache test: the mid VDU name and count-index 0 (an absent count-index is not 0). */
  predicate IsMid(v: Vdu, midName: string) {
    v.vduIdRef == Some(midName) && v.countIndex == Some(0)
  }

  /** The interfaces of the last mid VDU, `None` when there is none. */
  function MidOf(vdus: seq<Vdu>, midName: string): Option<Interfaces> {
    if vdus == [] then None
    else if IsMid(vdus[|vdus| - 1], midName) then Some(InterfacesOf(vdus[|vdus| - 1].interfaces))
    else MidOf(vdus[..|vdus| - 1], midName)
  }

  /** The mid interfaces are those of the last VDU that passes the mid test, and absent iff none does. */
  lemma {:induction false} MidOfMeaning(vdus: seq<Vdu>, midName: string)
    ensures MidOf(vdus, midName).None? <==> forall i :: 0 <= i < |vdus| ==> !IsMid(vdus[i], midName)
    ensures MidOf(vdus, midName).Some? ==> exists j :: (0 <= j < |vdus| && IsMid(vdus[j], midName)
      && MidOf(vdus, midName) == Some(InterfacesOf(vdus[j].interfaces))
      && forall l :: j < l < |vdus| ==> !IsMid(vdus[l], midName))
  {
    if vdus != [] && !IsMid(vdus[|vdus| - 1], midName) {
      var init := vdus[..|vdus| - 1];
      MidOfMeaning(init, midName);
      assert forall i :: 0 <= i < |init| ==> init[i] == vdus[i];
    }
  }

  /**
   * The edge test `vdu['count-index'] >= minimum` on a VDU with the edge name:
   * an absent count-index cannot be compared with an integer (a TypeError).
   */
  function EdgeTest(v: Vdu, edgeName: string, minimum: int): (r: Result<bool, Error>)
    ensures r.Err? <==> v.vduIdRef == Some(edgeName) && v.countIndex.None?
    ensures r.Err? ==> r.error == TypeError
    ensures r == Ok(true) <==> v.vduIdRef == Some(edgeName) && v.countIndex.Some? && v.countIndex.value >= minimum
  {
    if v.vduIdRef != Some(edgeName) then Ok(false)
    else if v.countIndex.None? then Err(TypeError)
    else Ok(v.countIndex.value >= minimum)
  }

  /** An edge replica that passes the test with this count-index. */
  predicate IsEdge(v: Vdu, edgeName: string, minimum: int, k: int) {
    v.vduIdRef == Some(edgeName) && v.countIndex == Some(k) && k >= minimum
  }

  /** `edges_interfaces_all` after the scan: count-index to interfaces, the last VDU of an index winning. */
  function EdgesOf(vdus: seq<Vdu>, edgeName: string, minimum: int): Result<map<int, Interfaces>, Error> {
    if vdus == [] then Ok(map[])
    else
      var v := vdus[|vdus| - 1];
      match EdgesOf(vdus[..|vdus| - 1], edgeName, minimum)
      case Err(e) => Err(e)
      case Ok(m) =>
        match EdgeTest(v, edgeName, minimum)
        case Err(e) => Err(e)
        case Ok(hit) => if hit then Ok(m[v.countIndex.value := InterfacesOf(v.interfaces)]) else Ok(m)
  }

  /**
   * The scan fails iff some VDU with the edge name has no count-index; otherwise
   * its keys are the count-indexes of the edge replicas that pass the test, each
   * holding the interfaces of the last such replica.
   */
  lemma {:induction false} EdgesOfMeaning(vdus: seq<Vdu>, edgeName: string, minimum: int)
    ensures EdgesOf(vdus, edgeName, minimum).Err? <==>
      exists i :: 0 <= i < |vdus| && vdus[i].vduIdRef == Some(edgeName) && vdus[i].countIndex.None?
    ensures EdgesOf(vdus, edgeName, minimum).Err? ==> EdgesOf(vdus, edgeName, minimum).error == TypeError
    ensures EdgesOf(vdus, edgeName, minimum).Ok? ==> forall k :: k in EdgesOf(vdus, edgeName, minimum).value <==>
      exists i :: 0 <= i < |vdus| && IsEdge(vdus[i], edgeName, minimum, k)
    ensures EdgesOf(vdus, edgeName, minimum).Ok? ==> forall k :: k in EdgesOf(vdus, edgeName, minimum).value ==>
      exists j :: (0 <= j < |vdus| && IsEdge(vdus[j], edgeName, minimum, k)
        && EdgesOf(vdus, edgeName, minimum).value[k] == InterfacesOf(vdus[j].interfaces)
        && forall l :: j < l < |vdus| ==> !IsEdge(vdus[l], edgeName, minimum, k))
  {
    EdgesOfFails(vdus, edgeName, minimum);
    if EdgesOf(vdus, edgeName, minimum).Ok? {
      EdgesOfKeys(vdus, edgeName, minimum);
      EdgesOfValues(vdus, edgeName, minimum);
    }
  }

  /** The scan fails, with a TypeError, iff some VDU with the edge name has no count-index. */
  lemma {:induction false} EdgesOfFails(vdus: seq<Vdu>, edgeName: string, minimum: int)
    ensures EdgesOf(vdus, edgeName, minimum).Err? <==>
      exists i :: 0 <= i < |vdus| && vdus[i].vduIdRef == Some(edgeName) && vdus[i].countIndex.None?
    ensures EdgesOf(vdus, edgeName, minimum).Err? ==> EdgesOf(vdus, edgeName, minimum).error == TypeError
  {
    if vdus != [] {
      var init := vdus[..|vdus| - 1];
      EdgesOfFails(init, edgeName, minimum);
      assert forall i :: 0 <= i < |init| ==> init[i] == vdus[i];
    }
  }

  /** The keys of a successful scan are the count-indexes of the edge replicas that pass the test. */
  lemma {:induction false} EdgesOfKeys(vdus: seq<Vdu>, edgeName: string, minimum: int)
    requires EdgesOf(vdus, edgeName, minimum).Ok?
    ensures forall k :: k in EdgesOf(vdus, edgeName, minimum).value <==>
      exists i :: 0 <= i < |vdus| && IsEdge(vdus[i], edgeName, minimum, k)
  {
    if vdus != [] {
      var init := vdus[..|vdus| - 1];
      EdgesOfKeys(init, edgeName, minimum);
      var r := EdgesOf(vdus, edgeName, minimum);
      forall k ensures k in r.value <==> exists i :: 0 <= i < |vdus| && IsEdge(vdus[i], edgeName, minimum, k) {
        if exists i :: 0 <= i < |vdus| && IsEdge(vdus[i], edgeName, minimum, k) {
          var i :| 0 <= i < |vdus| && IsEdge(vdus[i], edgeName, minimum, k);
          if i < |init| { assert init[i] == vdus[i]; }
        }
        if exists i :: 0 <= i < |init| && IsEdge(init[i], edgeName, minimum, k) {
          var i :| 0 <= i < |init| && IsEdge(init[i], edgeName, minimum, k);
          assert init[i] == vdus[i];
        }
      }
    }
  }

  /** Each key of a successful scan holds the interfaces of the last edge replica with that count-index. */
  lemma {:induction false} EdgesOfValues(vdus: seq<Vdu>, edgeName: string, minimum: int)
    requires EdgesOf(vdus, edgeName, minimum).Ok?
    ensures forall k :: k in EdgesOf(vdus, edgeName, minimum).value ==>
      exists j :: (0 <= j < |vdus| && IsEdge(vdus[j], edgeName, minimum, k)
        && EdgesOf(vdus, edgeName, minimum).value[k] == InterfacesOf(vdus[j].interfaces)
        && forall l :: j < l < |vdus| ==> !IsEdge(vdus[l], edgeName, minimum, k))
  {
    if vdus != [] {
      var init := vdus[..|vdus| - 1];
      var v := vdus[|vdus| - 1];
      EdgesOfValues(init, edgeName, minimum);
      var r := EdgesOf(vdus, edgeName, minimum);
      var m := EdgesOf(init, edgeName, minimum).value;
      forall k | k in r.value
        ensures exists j :: (0 <= j < |vdus| && IsEdge(vdus[j], edgeName, minimum, k)
          && r.value[k] == InterfacesOf(vdus[j].interfaces)
          && forall l :: j < l < |vdus| ==> !IsEdge(vdus[l], edgeName, minimum, k))
      {
        if !IsEdge(v, edgeName, minimum, k) {
          var j :| 0 <= j < |init| && IsEdge(init[j], edgeName, minimum, k)
            && m[k] == InterfacesOf(init[j].interfaces)
            && forall l :: j < l < |init| ==> !IsEdge(init[l], edgeName, minimum, k);
          assert r.value[k] == m[k];
          assert init[j] == vdus[j];
          forall l | j < l < |vdus| ensures !IsEdge(vdus[l], edgeName, minimum, k) {
            if l < |init| { assert vdus[l] == init[l]; }
          }
        } else {
          assert r.value[k] == InterfacesOf(v.interfaces);
        }
      }
    }
  }


  /** The greatest count-index among the edge replicas that pass the test, `None` when there is none. */
  function MaxEdge(vdus: seq<Vdu>, edgeName: string, minimum: int): Option<int> {
    if vdus == [] then None
    else
      var v := vdus[|vdus| - 1];
      var rest := MaxEdge(vdus[..|vdus| - 1], edgeName, minimum);
      if v.vduIdRef == Some(edgeName) && v.countIndex.Some? && v.countIndex.value >= minimum
         && (rest.None? || rest.value < v.countIndex.value)
      then v.countIndex
      else rest
  }

  /** It is the count-index of some edge replica and no edge replica has a greater one. */
  lemma {:induction false} MaxEdgeMeaning(vdus: seq<Vdu>, edgeName: string, minimum: int)
    ensures MaxEdge(vdus, edgeName, minimum).None? <==> forall i, k :: 0 <= i < |vdus| ==> !IsEdge(vdus[i], edgeName, minimum, k)
    ensures MaxEdge(vdus, edgeName, minimum).Some? ==> var m := MaxEdge(vdus, edgeName, minimum).value;
      (exists j :: 0 <= j < |vdus| && IsEdge(vdus[j], edgeName, minimum, m))
      && forall j, k :: 0 <= j < |vdus| && IsEdge(vdus[j], edgeName, minimum, k) ==> k <= m
  {
    if vdus != [] {
      var init := vdus[..|vdus| - 1];
      MaxEdgeMeaning(init, edgeName, minimum);
      assert forall i :: 0 <= i < |init| ==> init[i] == vdus[i];
      var v := vdus[|vdus| - 1];
      if v.vduIdRef == Some(edgeName) && v.countIndex.Some? && v.countIndex.value >= minimum {
        assert IsEdge(vdus[|vdus| - 1], edgeName, minimum, v.countIndex.value);
      }
      if MaxEdge(init, edgeName, minimum).Some? {
        var j :| 0 <= j < |init| && IsEdge(init[j], edgeName, minimum, MaxEdge(init, edgeName, minimum).value);
        assert IsEdge(vdus[j], edgeName, minimum, MaxEdge(init, edgeName, minimum).value);
      }
    }
  }

  /** Only one count-index is an edge replica's and at least every edge replica's. */
  lemma MaxEdgeUnique(vdus: seq<Vdu>, edgeName: string, minimum: int, m: int)
    requires exists j :: 0 <= j < |vdus| && IsEdge(vdus[j], edgeName, minimum, m)
    requires forall j, k :: 0 <= j < |vdus| && IsEdge(vdus[j], edgeName, minimum, k) ==> k <= m
    ensures MaxEdge(vdus, edgeName, minimum) == Some(m)
  {
    MaxEdgeMeaning(vdus, edgeName, minimum);
  }

  /**
   * What `get_vcdn_net_interfaces` returns for the service's VNF records: a
   * TypeError for an edge-named VDU without count-index, a ValueError when
   * there is no edge replica, and otherwise the mid interfaces with the
   * interfaces and count-index of the newest edge replica.
   */
  function VcdnNetInterfaces(vnfs: seq<VnfRecord>, midName: string, edgeName: string): Result<(NetInterfaces, int), Error> {
    var vdus := AllVdus(vnfs);
    var edges := EdgesOf(vdus, edgeName, 0);
    if edges.Err? then Err(TypeError)
    else
      match MaxEdge(vdus, edgeName, 0)
      case None => Err(ValueError)
      case Some(ci) =>
        MaxEdgeMeaning(vdus, edgeName, 0);
        EdgesOfMeaning(vdus, edgeName, 0);
        Ok((NetInterfaces(MidOf(vdus, midName), Some(edges.value[ci])), ci))
  }

  /** The scan over the gathered VDUs: the mid interfaces and the edge replicas by count-index. */
  method ScanVdus(vdus: seq<Vdu>, midName: string, edgeName: string, minimum: int)
    returns (r: Result<(Option<Interfaces>, map<int, Interfaces>), Error>)
    ensures EdgesOf(vdus, edgeName, minimum).Err? ==> r == Err(TypeError)
    ensures EdgesOf(vdus, edgeName, minimum).Ok? ==> r == Ok((MidOf(vdus, midName), EdgesOf(vdus, edgeName, minimum).value))
  {
    var mid: Option<Interfaces> := None;
    var edges: map<int, Interfaces> := map[];
    var i := 0;
    while i < |vdus|
      invariant 0 <= i <= |vdus|
      invariant mid == MidOf(vdus[..i], midName)
      invariant EdgesOf(vdus[..i], edgeName, minimum) == Ok(edges)
    {
      var v := vdus[i];
      assert vdus[..i + 1][..i] == vdus[..i] && vdus[..i + 1][i] == v;
      if IsMid(v, midName) {
        var found := FormatVduInterfaces(v.interfaces);
        mid := Some(found);
      }
      if v.vduIdRef.Some? && v.vduIdRef.value == edgeName {
        if v.countIndex.None? {
          EdgesOfMeaning(vdus, edgeName, minimum);
          EdgesOfMeaning(vdus[..i + 1], edgeName, minimum);
          assert vdus[..i + 1][i] == vdus[i];
          return Err(TypeError);
        }
        if v.countIndex.value >= minimum {
          var found := FormatVduInterfaces(v.interfaces);
          edges := edges[v.countIndex.value := found];
        }
      }
      i := i + 1;
    }
    assert vdus[..i] == vdus;
    return Ok((mid, edges));
  }

  /** A set without members is the empty set. */
  lemma NoMembersIsEmpty(s: set<int>)
    requires forall x :: x !in s
    ensures s == {}
  {
    assert forall x :: x in s <==> x in {};
  }

  /** So a non-empty set has a member. */
  lemma NonEmptyHasMember(s: set<int>)
    requires s != {}
    ensures exists x :: x in s
  {
    if forall x :: x !in s {
      NoMembersIsEmpty(s);
    }
  }

  /** `max(...)` over a non-empty set of count-indexes. */
  method MaxKey(keys: set<int>) returns (m: int)
    requires keys != {}
    ensures m in keys && forall k :: k in keys ==> k <= m
  {
    var rest := keys;
    NonEmptyHasMember(rest);
    m :| m in rest;
    rest := rest - {m};
    while rest != {}
      invariant rest <= keys && m in keys
      invariant forall k :: k in keys && k !in rest ==> k <= m
      decreases |rest|
    {
      NonEmptyHasMember(rest);
      var k :| k in rest;
      if k > m {
        m := k;
      }
      rest := rest - {k};
    }
  }

  /**
   * `get_vcdn_net_interfaces(ns_uuid, mid_name, edge_name)` over the VNF records
   * of the service: the mid interfaces, and the interfaces and count-index of
   * the edge replica with the greatest count-index. With no edge replica the
   * `max` of an empty list raises a ValueError.
   */
  method GetVcdnNetInterfaces(vnfs: seq<VnfRecord>, midName: string, edgeName: string)
    returns (r: Result<(NetInterfaces, int), Error>)
    ensures var vdus := AllVdus(vnfs);
      (exists i :: 0 <= i < |vdus| && vdus[i].vduIdRef == Some(edgeName) && vdus[i].countIndex.None?) ==> r == Err(TypeError)
    ensures var vdus := AllVdus(vnfs);
      EdgesOf(vdus, edgeName, 0).Ok? && (forall i, k :: 0 <= i < |vdus| ==> !IsEdge(vdus[i], edgeName, 0, k)) ==> r == Err(ValueError)
    ensures r.Ok? ==> var vdus := AllVdus(vnfs); var ci := r.value.1;
      (exists j :: 0 <= j < |vdus| && IsEdge(vdus[j], edgeName, 0, ci))
      && (forall j, k :: 0 <= j < |vdus| && IsEdge(vdus[j], edgeName, 0, k) ==> k <= ci)
      && EdgesOf(vdus, edgeName, 0).Ok? && ci in EdgesOf(vdus, edgeName, 0).value
      && r.value.0 == NetInterfaces(MidOf(vdus, midName), Some(EdgesOf(vdus, edgeName, 0).value[ci]))
    ensures r == VcdnNetInterfaces(vnfs, midName, edgeName)
  {
    var vdus := GatherVdus(vnfs);
    EdgesOfMeaning(vdus, edgeName, 0);
    var scan := ScanVdus(vdus, midName, edgeName, 0);
    if scan.Err? {
      return Err(scan.error);
    }
    var (mid, edges) := scan.value;
    if edges.Keys == {} {
      forall i, k | 0 <= i < |vdus| ensures !IsEdge(vdus[i], edgeName, 0, k) {
        assert k !in edges;
      }
      MaxEdgeMeaning(vdus, edgeName, 0);
      return Err(ValueError);
    }
    var latest := MaxKey(edges.Keys);
    forall j, k | 0 <= j < |vdus| && IsEdge(vdus[j], edgeName, 0, k) ensures k <= latest {
      assert k in edges.Keys;
    }
    MaxEdgeUnique(vdus, edgeName, 0, latest);
    return Ok((NetInterfaces(mid, Some(edges[latest])), latest));
  }

  /**
   * `get_faas_vcdn_net_interfaces`: the same scan with the edge test
   * `count-index > 0`, but only the mid interfaces are returned; `edge` stays
   * `None`.
   */
  method GetFaasVcdnNetInterfaces(vnfs: seq<VnfRecord>, midName: string, edgeName: string)
    returns (r: Result<NetInterfaces, Error>)
    ensures var vdus := AllVdus(vnfs);
      r.Err? <==> exists i :: 0 <= i < |vdus| && vdus[i].vduIdRef == Some(edgeName) && vdus[i].countIndex.None?
    ensures r.Err? ==> r.error == TypeError
    ensures r.Ok? ==> r.value == NetInterfaces(MidOf(AllVdus(vnfs), midName), None)
    ensures r == FaasNetInterfaces(vnfs, midName, edgeName)
  {
    var vdus := GatherVdus(vnfs);
    EdgesOfMeaning(vdus, edgeName, 1);
    var scan := ScanVdus(vdus, midName, edgeName, 1);
    if scan.Err? {
      return Err(scan.error);
    }
    return Ok(NetInterfaces(scan.value.0, None));
  }

  /** What the FaaS discovery returns for the service's VNF records. */
  function FaasNetInterfaces(vnfs: seq<VnfRecord>, midName: string, edgeName: string): Result<NetInterfaces, Error> {
    if EdgesOf(AllVdus(vnfs), edgeName, 1).Err? then Err(TypeError)
    else Ok(NetInterfaces(MidOf(AllVdus(vnfs), midName), None))
  }

  /** `interfaces.get(net, {}).get('ip-address', None)` on a discovered side. */
  function IpAddressOn(side: Option<Interfaces>, net: string): Option<string> {
    if side.Some? && net in side.value then side.value[net].ipAddress else None
  }
}
