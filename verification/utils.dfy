/**
 * Helpers shared by the worker and the subscriber: the optimization-event
 * record, the ping command, FaaS event identifiers and the ledger's
 * freshness cutoff.
 */
module Utils {
  import opened Wrappers
  import opened Exceptions
  import opened Text
  import opened PyJson

  /** One `optimization_event` point: its tags and fields. */
  datatype EventRecord = EventRecord(
    measurement: string,
    time: int,
    vimType: Json,
    vimName: Json,
    nsUuid: Json,
    sourceOrigin: Json,
    nsName: Json,
    vnfName: string,
    metric: string,
    value: string)

  /** The actions whose event value is never taken from the intent. */
  predicate IsVnfScale(event: string) {
    event == "vnf_scale_out" || event == "vnf_scale_in"
  }

  /** The `value` field: "Not set" for VNF scaling, otherwise `str(execution.value)` defaulting to "Not set". */
  function Description(message: Json, event: string): Result<string, Error> {
    if IsVnfScale(event) then Ok("Not set")
    else
      match GetPath(message, ["execution", "value"], JStr("Not set"))
      case Err(e) => Err(e)
      case Ok(v) => Ok(PyStr(v))
  }

  /** `kafka_message.get('mano', {}).get(part, {})` for `vim`, `ns` and `vnf`. */
  function ManoPart(message: Json, part: string): Result<Json, Error> {
    GetPath(message, ["mano", part], JObject([]))
  }

  /**
   * `compose_optimization_event(message, event)` at time `now`, failing as the
   * code does: `.get` on a non-dictionary level, a missing `mano.vim.type` or a
   * missing `mano.ns.id`.
   */
  function ComposeOptimizationEvent(message: Json, event: string, now: int): (r: Result<EventRecord, Error>)
    ensures r.Ok? ==> r.value.measurement == "optimization_event" && r.value.metric == event && r.value.time == now
    ensures r.Ok? ==> Description(message, event) == Ok(r.value.value)
    ensures r.Ok? ==>
              && ManoPart(message, "vim").Ok?
              && Index(ManoPart(message, "vim").value, "type") == Ok(r.value.vimType)
              && Get(ManoPart(message, "vim").value, "name", JNull) == Ok(r.value.vimName)
              && Get(ManoPart(message, "vim").value, "tag", JStr("")) == Ok(r.value.sourceOrigin)
    ensures r.Ok? ==>
              && ManoPart(message, "ns").Ok?
              && Index(ManoPart(message, "ns").value, "id") == Ok(r.value.nsUuid)
              && Get(ManoPart(message, "ns").value, "nsd_name", JStr("")) == Ok(r.value.nsName)
    ensures r.Ok? ==>
              && ManoPart(message, "vnf").Ok?
              && var vnf := ManoPart(message, "vnf").value;
                 && Get(vnf, "vnfd_name", JStr("")).Ok? && Get(vnf, "index", JStr("")).Ok?
                 && r.value.vnfName == PyStr(Get(vnf, "vnfd_name", JStr("")).value) + "." + PyStr(Get(vnf, "index", JStr("")).value)
  {
    var vim := ManoPart(message, "vim");
    var ns := ManoPart(message, "ns");
    var vnf := ManoPart(message, "vnf");
    if vim.Err? then Err(vim.error)
    else if ns.Err? then Err(ns.error)
    else if vnf.Err? then Err(vnf.error)
    else
      var description := Description(message, event);
      if description.Err? then Err(description.error)
      else
        var vimType := Index(vim.value, "type");
        var vimName := Get(vim.value, "name", JNull);
        var nsUuid := Index(ns.value, "id");
        var origin := Get(vim.value, "tag", JStr(""));
        var nsName := Get(ns.value, "nsd_name", JStr(""));
        var vnfdName := Get(vnf.value, "vnfd_name", JStr(""));
        var index := Get(vnf.value, "index", JStr(""));
        if vimType.Err? then Err(vimType.error)
        else if vimName.Err? then Err(AttributeError)
        else if nsUuid.Err? then Err(nsUuid.error)
        else if origin.Err? then Err(AttributeError)
        else if nsName.Err? then Err(AttributeError)
        else if vnfdName.Err? then Err(AttributeError)
        else if index.Err? then Err(AttributeError)
        else
          Ok(EventRecord(
            "optimization_event", now, vimType.value, vimName.value, nsUuid.value,
            origin.value, nsName.value,
            PyStr(vnfdName.value) + "." + PyStr(index.value),
            event, description.value))
  }

  /**
   * An event is composed exactly when the three `mano` parts and the value
   * can be read, `vim` has a `type`, `ns` has an `id`, and `vnf` is a
   * dictionary.
   */
  lemma ComposeSucceeds(message: Json, event: string, now: int)
    ensures ComposeOptimizationEvent(message, event, now).Ok? <==>
      && ManoPart(message, "vim").Ok? && ManoPart(message, "ns").Ok? && ManoPart(message, "vnf").Ok?
      && Description(message, event).Ok?
      && Index(ManoPart(message, "vim").value, "type").Ok?
      && Index(ManoPart(message, "ns").value, "id").Ok?
      && ManoPart(message, "vnf").value.JObject?
  {
  }

  /**
   * Once the parts and the value are read, the first missing piece decides
   * the error: a `vim` or `ns` that is not a dictionary is a TypeError, a
   * missing `type` or `id` a KeyError, and a `vnf` that is not a dictionary an
   * AttributeError.
   */
  lemma ComposeErrors(message: Json, event: string, now: int)
    requires ManoPart(message, "vim").Ok? && ManoPart(message, "ns").Ok? && ManoPart(message, "vnf").Ok?
    requires Description(message, event).Ok?
    ensures var vim, ns, vnf := ManoPart(message, "vim").value, ManoPart(message, "ns").value, ManoPart(message, "vnf").value;
      var r := ComposeOptimizationEvent(message, event, now);
      && (!vim.JObject? ==> r == Err(TypeError))
      && (vim.JObject? && Lookup(vim.fields, "type").None? ==> r == Err(KeyError))
      && (Index(vim, "type").Ok? && !ns.JObject? ==> r == Err(TypeError))
      && (Index(vim, "type").Ok? && Index(ns, "id").Ok? && !vnf.JObject? ==> r == Err(AttributeError))
  {
  }

  /** For VNF scaling the value is "Not set" whatever the intent carries. */
  lemma ScaleEventsNotSet(message: Json, event: string, now: int)
    requires IsVnfScale(event)
    ensures ComposeOptimizationEvent(message, event, now).Ok? ==> ComposeOptimizationEvent(message, event, now).value.value == "Not set"
  {
  }

  /**
   * An intent with only `mano.vim.type` and `mano.ns.id` composes an event whose
   * VNF name is "." and, for any other action, whose value is "Not set".
   */
  function Minimal(vimType: Json, nsId: Json): Json {
    JObject([("mano", JObject([("vim", JObject([("type", vimType)])), ("ns", JObject([("id", nsId)]))]))])
  }

  lemma MinimalIntent(vimType: Json, nsId: Json, event: string, now: int)
    ensures ComposeOptimizationEvent(Minimal(vimType, nsId), event, now).Ok?
    ensures ComposeOptimizationEvent(Minimal(vimType, nsId), event, now).value.vnfName == "."
    ensures ComposeOptimizationEvent(Minimal(vimType, nsId), event, now).value.value == "Not set"
    ensures ComposeOptimizationEvent(Minimal(vimType, nsId), event, now).value.nsUuid == nsId
    ensures ComposeOptimizationEvent(Minimal(vimType, nsId), event, now).value.vimName == JNull
    ensures ComposeOptimizationEvent(Minimal(vimType, nsId), event, now).value.nsName == JStr("")
  {
    var message := Minimal(vimType, nsId);
    var vim := JObject([("type", vimType)]);
    var ns := JObject([("id", nsId)]);
    MinimalLookups(vimType, nsId, event);
    assert ComposeOptimizationEvent(message, event, now)
      == Ok(EventRecord("optimization_event", now, vimType, JNull, nsId, JStr(""), JStr(""), ".", event, "Not set"));
  }

  /** What each path of the event composition finds in the minimal intent. */
  lemma MinimalLookups(vimType: Json, nsId: Json, event: string)
    ensures ManoPart(Minimal(vimType, nsId), "vim") == Ok(JObject([("type", vimType)]))
    ensures ManoPart(Minimal(vimType, nsId), "ns") == Ok(JObject([("id", nsId)]))
    ensures ManoPart(Minimal(vimType, nsId), "vnf") == Ok(JObject([]))
    ensures Description(Minimal(vimType, nsId), event) == Ok("Not set")
    ensures Index(JObject([("type", vimType)]), "type") == Ok(vimType)
    ensures Get(JObject([("type", vimType)]), "name", JNull) == Ok(JNull)
    ensures Get(JObject([("type", vimType)]), "tag", JStr("")) == Ok(JStr(""))
    ensures Index(JObject([("id", nsId)]), "id") == Ok(nsId)
    ensures Get(JObject([("id", nsId)]), "nsd_name", JStr("")) == Ok(JStr(""))
    ensures Get(JObject([]), "vnfd_name", JStr("")) == Ok(JStr("")) && Get(JObject([]), "index", JStr("")) == Ok(JStr(""))
    ensures PyStr(JStr("")) + "." + PyStr(JStr("")) == "."
  {
    MinimalPaths(vimType, nsId, event);
    LookupSingle("type", vimType, "type");
    LookupSingle("type", vimType, "name");
    LookupSingle("type", vimType, "tag");
    LookupSingle("id", nsId, "id");
    LookupSingle("id", nsId, "nsd_name");
  }

  lemma MinimalPaths(vimType: Json, nsId: Json, event: string)
    ensures ManoPart(Minimal(vimType, nsId), "vim") == Ok(JObject([("type", vimType)]))
    ensures ManoPart(Minimal(vimType, nsId), "ns") == Ok(JObject([("id", nsId)]))
    ensures ManoPart(Minimal(vimType, nsId), "vnf") == Ok(JObject([]))
    ensures Description(Minimal(vimType, nsId), event) == Ok("Not set")
  {
    var message := Minimal(vimType, nsId);
    var vim, ns := JObject([("type", vimType)]), JObject([("id", nsId)]);
    var mano := JObject([("vim", vim), ("ns", ns)]);
    LookupSingle("mano", mano, "mano");
    LookupSingle("mano", mano, "execution");
    LookupPair("vim", vim, "ns", ns, "vim");
    LookupPair("vim", vim, "ns", ns, "ns");
    LookupPair("vim", vim, "ns", ns, "vnf");
    assert GetPath(message, ["mano", "vim"], JObject([])) == GetPath(mano, ["vim"], JObject([]));
    assert GetPath(message, ["mano", "ns"], JObject([])) == GetPath(mano, ["ns"], JObject([]));
    assert GetPath(message, ["mano", "vnf"], JObject([])) == GetPath(mano, ["vnf"], JObject([]));
    GetPathMissing(["value"], JStr("Not set"));
    assert GetPath(message, ["execution", "value"], JStr("Not set")) == GetPath(JObject([]), ["value"], JStr("Not set"));
  }

  /**
   * An intent whose `mano` parts and value can be read and whose `vim` has a
   * `type`, but whose `ns` dictionary has no `id`, cannot be recorded: a
   * KeyError.
   */
  lemma MissingNsIdFails(message: Json, event: string, now: int)
    requires ManoPart(message, "vim").Ok? && ManoPart(message, "ns").Ok? && ManoPart(message, "vnf").Ok?
    requires Description(message, event).Ok?
    requires Index(ManoPart(message, "vim").value, "type").Ok?
    requires ManoPart(message, "ns").value.JObject? && Lookup(ManoPart(message, "ns").value.fields, "id").None?
    ensures ComposeOptimizationEvent(message, event, now) == Err(KeyError)
  {
  }

  /** The ping count flag: `-n` on Windows, `-c` elsewhere (`host_type` is the lower-cased platform name). */
  function PingArgument(hostType: string): (arg: string)
    ensures arg == "n" <==> hostType == "win32"
    ensures arg == "c" <==> hostType != "win32"
  {
    if hostType == "win32" then "n" else "c"
  }

  /** The shell command `check_ping` runs for an address. */
  function PingCommand(hostType: string, ipv4: Option<string>): string {
    "ping -" + PingArgument(hostType) + " 1 " + Show(ipv4)
  }

  /** `check_ping`: the address is reachable iff the command exits with status 0. */
  function CheckPing(exitStatus: int): (reachable: bool)
    ensures reachable <==> exitStatus == 0
  {
    !(exitStatus != 0)
  }

  /** `str(uuid.uuid4()).replace('-', '')` for the text `raw` of the generated identifier. */
  function GenerateEventUuid(raw: string): (r: string)
    ensures '-' !in r
    ensures |r| <= |raw|
    ensures forall c :: c != '-' ==> multiset(r)[c] == multiset(raw)[c]
  {
    if raw == [] then []
    else
      assert raw == [raw[0]] + raw[1..];
      if raw[0] == '-' then GenerateEventUuid(raw[1..])
      else [raw[0]] + GenerateEventUuid(raw[1..])
  }

  /** The canonical text of a UUID: 36 characters with dashes exactly at positions 8, 13, 18 and 23. */
  predicate CanonicalUuidText(raw: string) {
    |raw| == 36 && forall i :: 0 <= i < 36 ==> (raw[i] == '-' <==> i in {8, 13, 18, 23})
  }

  function DashCount(s: string): nat {
    multiset(s)['-']
  }

  /** Removing the dashes of a canonical UUID text leaves its 32 hexadecimal digits. */
  lemma {:induction false} EventUuidLength(raw: string)
    requires CanonicalUuidText(raw)
    ensures |GenerateEventUuid(raw)| == 32
  {
    DashesRemoved(raw);
    DashesOfCanonical(raw);
  }

  lemma {:induction false} DashesRemoved(raw: string)
    ensures |GenerateEventUuid(raw)| == |raw| - DashCount(raw)
  {
    if raw != [] {
      assert raw == [raw[0]] + raw[1..];
      DashesRemoved(raw[1..]);
    }
  }

  lemma DashesOfCanonical(raw: string)
    requires CanonicalUuidText(raw)
    ensures DashCount(raw) == 4
  {
    DashesUpTo(raw, 0, 8, 0);
    DashesUpTo(raw, 8, 9, 1);
    DashesUpTo(raw, 9, 13, 0);
    DashesUpTo(raw, 13, 14, 1);
    DashesUpTo(raw, 14, 18, 0);
    DashesUpTo(raw, 18, 19, 1);
    DashesUpTo(raw, 19, 23, 0);
    DashesUpTo(raw, 23, 24, 1);
    DashesUpTo(raw, 24, 36, 0);
    assert raw[..36] == raw;
  }

  /** The dashes of `raw[..hi]` are those of `raw[..lo]` plus the `n` in `raw[lo..hi]`, a run of dashes or of digits. */
  lemma DashesUpTo(raw: string, lo: nat, hi: nat, n: nat)
    requires lo < hi <= |raw|
    requires n == 0 ==> forall i :: lo <= i < hi ==> raw[i] != '-'
    requires n != 0 ==> n == hi - lo == 1 && raw[lo] == '-'
    ensures multiset(raw[..hi])['-'] == multiset(raw[..lo])['-'] + n
  {
    assert raw[..hi] == raw[..lo] + raw[lo..hi];
    if n == 0 {
      assert '-' !in raw[lo..hi];
    } else {
      assert raw[lo..hi] == ['-'];
    }
  }

  /** Seconds in the freshness window the ledger query uses: 59 minutes, not an hour. */
  const FreshnessWindow: int := 59 * 60

  /** `get_one_hour_ago()` at time `now` (seconds). */
  function OneHourAgo(now: int): (cutoff: int)
    ensures cutoff == now - 3540
    ensures now - cutoff < 3600
  {
    now - FreshnessWindow
  }
}
