# mape-executor core, modelled in Dafny

This project models the scaling and life-cycle coordination logic of the
5G-MEDIA MAPE executor. The executor runs two consumer loops:

- **The worker** (`worker.py`). It takes the actions the cognitive optimiser
  plans and applies each approved one:
  - a VNF scale out or in through the orchestrator's northbound API, guarded
    by the scale admission rules of `actions/scale.py`;
  - a FaaS edge vCache spawn or terminate through the serverless bootstrap
    service, kept in a ledger of spawned instances (`plugins/faas_plugin.py`
    over `influx/queries.py`);
  - a vCE bitrate, or a vTranscoder profile, placement or spectator
    qualities, published on the configuration topic.

  It then writes an optimization event. Every exception is logged, so every
  message is handled.
- **The subscriber** (`osm_subscriber.py`). It follows the orchestrator's
  network-service topic:
  - After a scale-out or an instantiation of a vCDN service, it picks the
    newest edge vCache replica, pings it (at most 19 times) and configures it
    against the mid vCache (at most 10 or 9 attempts). It then registers the
    replica in the vDNS.
  - When a vCDN service terminates, it deletes the regular and the FaaS vDNS
    entries and drops the service's ledger points.

Every module matches one source file:

- `scale.dfy`, `action_utils.dfy`, `queries.dfy`, `faas_plugin.dfy`,
  `osm_subscriber.dfy` and `worker.dfy` hold the flows.
- `vdns.dfy`, `vcache.dfy`, `faas_action.dfy`, `vtranscoder.dfy`, `vce.dfy`,
  `nbi_ns.dfy`, `ns_polling.dfy` and `utils.dfy` hold the request and record
  builders.
- Shared modules hold:
  - Python's dictionary and conversion semantics (`json.dfy`, `text.dfy`);
  - the exception taxonomy (`exceptions.dfy`);
  - the settings constants (`settings.dfy`);
  - the fetched records (`records.dfy`);
  - the outward requests, publishes and writes, as one trace (`effects.dfy`).

The model keeps the source's form:

- **Flows that loop or mutate are methods with loop invariants.** Each method
  is proved equal to a specification function. Lemmas then prove that
  function's properties.
- **The ledger is a class.** `Queries.Ledger` holds a `seq` of points whose
  invariant is chronological order.
- **The vTranscoder action record is a class.** Its `action` map is updated
  in place.
- **Everything the executor receives from outside is an input.** This covers
  HTTP statuses, fetched lists, ping exit statuses, acknowledgements of a publish,
  uuid4 text, the clock and whether the time-series store answers. Every
  retry loop reads a sequence of such outcomes.

The worker's scale-in handler constructs the vDNS client with an argument
(`worker.py:100`), but the client's constructor takes none
(`actions/vnf_configuration/vdns.py:12`). Every scale-in the orchestrator
accepts therefore ends in the generic handler's logged `TypeError`
(`worker.py:111-112`). The vDNS entry is never deleted, and no event is
written. The model keeps this behaviour (`Worker.VnfScaleInStep`).

Where the code departs from the system's stated design, the model follows
the code:

- **Freshness window.** The ledger's "oldest entry" query uses a window of 59
  minutes (`utils.py:153`), although the helper's docstring says one hour
  (`utils.py:148`).
- **Empty ledger on scale-in.** A FaaS scale-in with no fresh ledger entry
  raises a bare `Exception` (`plugins/faas_plugin.py:108-109`). The model
  names this error `PlainException`.
- **Optimization events.** The worker writes an event only for the VNF
  scale-out, the two FaaS scales and the two vTranscoder profile/placement
  actions.
- **Subscriber fault isolation.** The subscriber's loop has no `try`
  (`osm_subscriber.py:43-70`). The termination handler also fetches the token
  and the NSD outside its `try` (`osm_subscriber.py:219-226`). An exception
  there, or an undecodable message, ends the subscriber (`OsmSubscriber.Run`).

## Model

| member | source | states |
|---|---|---|
| Text.ParseIntToString | actions/vnf_configuration/vdns.py:46 | the decimal text a counter is formatted with parses back to the same integer |
| Text.IntToStringInjective | actions/vnf_configuration/vdns.py:46 | two different counters never format to the same text |
| Text.Lower | actions/scale.py:121 | `str.lower` keeps the length and lower-cases each ASCII capital, position by position; other letters are kept as they are |
| PyJson.Get | worker.py:46 | `dict.get` returns the value or the default; on a non-dictionary it raises AttributeError |
| PyJson.Index | utils.py:121 | `d[key]` raises KeyError for a missing key and TypeError on a non-dictionary |
| PyJson.GetPathMissing | utils.py:106-108 | chained `.get(k, {})` on an empty dictionary yields the default |
| PyJson.Len | worker.py:240-242 | `len` is defined exactly on strings, lists and dictionaries (None, booleans, integers and floats raise TypeError), and is 0 iff the value is falsy |
| PyJson.PyInt | worker.py:158 | `int(x)` keeps integers, truncates floats toward zero, raises ValueError only on unparsable text and TypeError on None, lists and dictionaries |
| PyJson.Truncate | worker.py:158 | truncation toward zero lands within one unit of the float, on the side of zero |
| Text.ParseIntIgnoresSpaces | worker.py:158 | `int` of text ignores whitespace before and after the numeral |
| Text.ParseIntUnderscore | actions/scale.py:83 | `int` accepts a single underscore between digits and reads the numeral without it |
| Text.ParseIntGrouped | actions/scale.py:83 | a numeral of digits grouped by underscores parses to the number its digits spell |
| Text.ParseIntNegative | worker.py:158 | a minus sign before such a numeral negates it |
| PyJson.PyIntOfText | worker.py:158 | `int` of a decimal text gives back the integer it renders |
| PyJson.OfOption | actions/faas_action.py:72 | an optional address, placed in a payload, prints as the address or `None` |
| PyJson.Iterate | worker.py:189 | `tuple(x)` fails on None, booleans, integers and floats, keeps a list's items, and is empty iff the value is falsy |
| PyJson.IterateMembers | worker.py:189 | a string yields its characters; a dictionary yields each of its keys exactly once, and nothing else |
| PyJson.IterateAgreesWithLen | worker.py:189-242 | `tuple(x)` succeeds exactly where `len(x)` does, with as many items as `len` counts |
| PyJson.KeyOrder | worker.py:189 | a dictionary's keys are listed once each, and exactly the keys it has |
| PyJson.ReprPlainString | utils.py:117 | formatting a list or dictionary prints a member string without single quotes, backslashes or control characters as that string in single quotes |
| PyJson.ReprQuotedString | utils.py:117 | a member string holding a single quote, no double quote and otherwise plain characters prints between double quotes, as it is |
| Vdns.HostnameInjective | actions/vnf_configuration/vdns.py:46 | regular hostnames `cdn-uhd.cache{N}.5gmedia.lab` are equal iff their N are equal |
| Vdns.FaasHostnameInjective | actions/vnf_configuration/vdns.py:119 | FaaS hostnames `cdn-uhd.cache-faas-{N}.5gmedia.lab` are equal iff their N are equal |
| Vdns.RegularNeverFaas | actions/vnf_configuration/vdns.py:118-119 | no FaaS hostname equals any regular hostname |
| Vdns.AddDeleteAgree | actions/vnf_configuration/vdns.py:82-84 | a delete targets the hostname an add registered iff both use the same N; both go to `http://192.168.111.20:9999/dns` |
| Vdns.EndpointText | actions/vnf_configuration/vdns.py:43 | the vDNS endpoint is `http://192.168.111.20:9999/dns` |
| Vdns.RemovalsDisjoint | actions/vnf_configuration/vdns.py:84-119 | a regular delete never targets the hostname of a FaaS delete |
| Vcache.FqdnMatchesVdns | actions/vnf_configuration/vcache.py:56 | the vCache fqdn for N is the hostname the vDNS registers for N, and for no other counter |
| Vce.SetBitrate | actions/vnf_configuration/vce.py:36-51 | the message is keyed `vce`, holds exactly `mac` and `action`, carries the bitrate unchanged, and reports success iff the send is acknowledged |
| NbiNs.ScaleTypeLowered | nbiapi/ns.py:111-123 | the lower-cased scaleVnfType is `scale_out` for a scale-out and `scale_in` otherwise; scaleType is always `SCALE_VNF` |
| NbiNs.LowerScaleTypes | nbiapi/ns.py:111-113 | `SCALE_OUT` and `SCALE_IN` lower-case to the action names the pending test compares |
| Utils.ComposeOptimizationEvent | utils.py:95-134 | an event has measurement `optimization_event`, metric = the action and time = now; vim_type, vim_name and source_origin are `mano.vim`'s `type`, `name` and `tag`; ns_uuid and ns_name are `mano.ns`'s `id` and `nsd_name`; vnf_name is `vnfd_name` and `index` joined by a dot; the value follows the description rule |
| Utils.ComposeSucceeds | utils.py:106-128 | an event is composed exactly when the `mano` parts and the value can be read, `vim` has a `type`, `ns` has an `id` and `vnf` is a dictionary |
| Utils.ComposeErrors | utils.py:106-128 | a `vim` or `ns` that is not a dictionary raises TypeError, a missing `type` KeyError, and a `vnf` that is not a dictionary AttributeError |
| Utils.ScaleEventsNotSet | utils.py:111-114 | VNF scale events carry the value "Not set" |
| Utils.MinimalIntent | utils.py:116-133 | a message with only `mano.vim.type` and `mano.ns.id` composes: vnf_name ".", value "Not set", vim_name None, ns_name "" |
| Utils.MissingNsIdFails | utils.py:123 | when everything read before it succeeds, a `mano.ns` dictionary without `id` makes composing raise KeyError |
| Utils.GenerateEventUuid | utils.py:163 | the event id has no dash and keeps every other character of the uuid text |
| Utils.EventUuidLength | utils.py:163 | a canonical 36-character uuid4 text yields a 32-character id |
| Utils.DashesRemoved | utils.py:163 | the id is shorter than the uuid text by exactly its number of dashes |
| Queries.InsertByTime | influx/queries.py:25-40 | storing adds exactly one point and keeps all the others |
| Queries.InsertKeepsChronological | influx/queries.py:40 | a stored point joins the series in time order |
| Queries.LatestGoesLast | influx/queries.py:23-28 | a point stamped no earlier than every other is appended at the end |
| Queries.Drop | influx/queries.py:108 | dropping series by a tag removes exactly the points with that tag value |
| Queries.DropKeepsChronological | influx/queries.py:123 | dropping keeps the series in time order |
| Queries.Earliest | influx/queries.py:55 | the earliest selected point is a selected point of the ledger, and is absent iff none is selected |
| Queries.Latest | influx/queries.py:82 | the latest selected point is a selected point of the ledger, and is absent iff none is selected |
| Queries.EarliestIsOldest | influx/queries.py:55-56 | on an ordered ledger no selected point is older than the earliest |
| Queries.LatestIsNewest | influx/queries.py:82-83 | on an ordered ledger no selected point is newer than the latest |
| Queries.FirstOperation | influx/queries.py:43-68 | both values are None together, exactly when the store fails or no point of the service is newer than the cutoff |
| Queries.LastOperation | influx/queries.py:71-95 | the event id is None exactly when the store fails or the service has no point, and then the instance number is 0 |
| Queries.FirstOperationIsOldestFresh | influx/queries.py:55-64 | the first operation is the oldest point of the service newer than the cutoff |
| Queries.LastOperationIsNewest | influx/queries.py:82-91 | the last operation is the newest point of the service |
| Queries.OnlyFreshIsFirst | influx/queries.py:52-56 | a new point is the first operation when no older point of its service is fresh |
| Queries.StaleNeverFirst | influx/queries.py:55 | the first operation, when there is one, is newer than the cutoff |
| Queries.Ledger.StoreOperation | influx/queries.py:9-40 | a successful write inserts exactly the new point in time order, a failed one changes nothing; the ledger stays ordered |
| Queries.Ledger.DropSeries | influx/queries.py:107-110 | an accepted drop removes the tagged points, a refused or failed one changes nothing |
| Queries.Ledger.DeleteOperation | influx/queries.py:98-110 | it returns true iff the drop is accepted, and then no point with the event id remains; otherwise the ledger is unchanged |
| Queries.Ledger.DeleteOperationByNs | influx/queries.py:113-125 | it returns true iff the drop is accepted, and then no point of the service remains; otherwise the ledger is unchanged |
| Queries.StoreThenLast | influx/queries.py:79-91 | right after a store, the last operation of the service is the stored point |
| Queries.DropNsThenLast | influx/queries.py:113-125 | after dropping a service, its last operation is (None, 0) |
| Queries.DropEventThenFirst | influx/queries.py:98-110 | after dropping an event, it is never the first operation again |
| Queries.FirstInFirstOut | influx/queries.py:55-56 | of two fresh spawns, the older is the first operation, and after deleting it the newer is |
| ActionUtils.InterfacesOfMeaning | actions/utils.py:206-212 | the keys are exactly the interfaces' `ns-vld-id`s, and each maps to the last interface with that id |
| ActionUtils.FormatVduInterfaces | actions/utils.py:176-212 | the loop builds that keyed map |
| ActionUtils.AllVdusAppend | actions/utils.py:78-79 | gathering VDUs distributes over concatenated VNF lists |
| ActionUtils.AllVdusMembership | actions/utils.py:78-79 | a VDU is gathered iff some VNF record lists it |
| ActionUtils.GatherVdus | actions/utils.py:78-79 | the loop concatenates every record's `vdur` in order |
| ActionUtils.MidOfMeaning | actions/utils.py:84-87 | the mid interfaces are those of the last VDU with the mid name and count-index 0, and None if there is none |
| ActionUtils.EdgesOfMeaning | actions/utils.py:91-95 | edge collection fails iff some edge VDU has no index; otherwise its keys are the selected indices, each with the last such VDU's interfaces |
| ActionUtils.EdgesOfFails | actions/utils.py:91-93 | edge collection raises TypeError exactly when an edge-named VDU has no count-index |
| ActionUtils.EdgesOfKeys | actions/utils.py:94-95 | the collected indices are exactly those of the selected edge VDUs |
| ActionUtils.EdgesOfValues | actions/utils.py:94-95 | each collected index maps to the interfaces of the last VDU with that index |
| ActionUtils.MaxEdgeMeaning | actions/utils.py:98 | the maximum is absent iff no edge VDU is selected, and otherwise it is the largest selected index |
| ActionUtils.MaxEdgeUnique | actions/utils.py:98 | any selected index no smaller than all others is the maximum |
| ActionUtils.ScanVdus | actions/utils.py:82-95 | the VDU loop yields the mid interfaces and the edge map, or TypeError |
| ActionUtils.MaxKey | actions/utils.py:98 | `max` over a non-empty key set is a member no smaller than any other |
| ActionUtils.GetVcdnNetInterfaces | actions/utils.py:6-101 | it fails with TypeError on an index-less edge VDU and with ValueError when there is no edge VDU; otherwise it returns the newest edge replica's index and interfaces and the mid interfaces |
| ActionUtils.GetFaasVcdnNetInterfaces | actions/utils.py:104-173 | it fails only on an index-less edge VDU, and otherwise returns the mid interfaces with `edge` always None |
| NsPolling.InfoOf | faasapi/ns_polling.py:69-77 | an entry keeps the VNF name, and its `records` is 0 iff `vim_info` has no records or an empty list |
| NsPolling.InfoListPointwise | faasapi/ns_polling.py:68-79 | there is one entry per VNF, in input order, each the entry of its VNF |
| NsPolling.InfoListLength | faasapi/ns_polling.py:68-78 | there are as many entries as VNFs |
| NsPolling.InfoListAt | faasapi/ns_polling.py:68-78 | entry i describes VNF i |
| NsPolling.GetVnfsInfo | faasapi/ns_polling.py:27-79 | the loop returns the entry list, or the error reading `vnfs` raised |
| NsPolling.FirstIngressMeaning | faasapi/ns_polling.py:97-101 | the URL is the IngressUrl of the first VNF that has one, and None if none has |
| NsPolling.GetBootstrapIngressUrl | faasapi/ns_polling.py:81-102 | a status other than 200 gives None; otherwise it gives the first IngressUrl |
| FaasAction.SpawnFqdnIsFaasVdnsEntry | actions/faas_action.py:74 | the spawn fqdn for N is the hostname the FaaS vDNS delete removes for N, and never a regular hostname |
| FaasAction.SpawnPayload | actions/faas_action.py:65-78 | the spawn payload has operation `spawn_vcache`, the mid IP as origin, port "8080", the event id, the service and the FaaS fqdn |
| FaasAction.TerminatePayload | actions/faas_action.py:110-119 | the terminate payload has operation `terminate_vcache`, the new event id, the spawn id as `uuid`, and the spawn's fqdn |
| FaasAction.TranscoderTerminatePayload | actions/faas_action.py:170-192 | the transcoder terminate payload holds exactly `osm_ip`, `event_uuid`, `osm_ns`, `operation` and `uuid`; `uuid` is the spawn event id as text, and `osm_ns` and the endpoint are the spawn's |
| FaasAction.TranscoderPlacement | actions/faas_action.py:137-153 | `gpu` selects gpu_node "1" and the GPU descriptor, otherwise "0" and the CPU descriptor |
| FaasAction.SameEndpoint | actions/faas_action.py:63 | all four requests post to `{bootstrap_ingress_url}/handlerequest` |
| FaasAction.Action.constructor | actions/faas_action.py:24-35 | the action starts with its host, service and descriptor and no ingress URL |
| FaasAction.Action.SetBootstrapIngressUrl | actions/faas_action.py:37-38 | the ingress URL is replaced |
| FaasAction.Action.SpawnEdgeVcacheVnf | actions/faas_action.py:40-88 | the spawn request goes to the current ingress URL, with operation `spawn_vcache` and the given event id |
| FaasAction.Action.TerminateEdgeVcache | actions/faas_action.py:90-130 | the terminate request goes to the current ingress URL, with operation `terminate_vcache` and the spawn id as `uuid` |
| FaasAction.Action.SpawnTranscoder3dVnf | actions/faas_action.py:132-168 | the transcoder spawn goes to the current ingress URL, with operation `spawn_transcoder` and the given event id |
| FaasAction.Action.TerminateTranscoder3dVnf | actions/faas_action.py:170-192 | the transcoder terminate goes to the current ingress URL, with operation `terminate_transcoder` and the spawn event id, as text, as `uuid` |
| Vtranscoder.PlacementParams | actions/vnf_configuration/vtranscoder.py:120-127 | gpu_node is "0" iff the processor is `cpu` |
| Vtranscoder.Configuration.constructor | actions/vnf_configuration/vtranscoder.py:8-23 | the action holds exactly ns_name, vnf_name and the index as text |
| Vtranscoder.Configuration.SetTranscoderProfile | actions/vnf_configuration/vtranscoder.py:61-84 | empty qualities raise ValueError and publish nothing; otherwise action_params becomes the qualities in order, the action is published under `faas`, success iff acknowledged, and other keys persist |
| Vtranscoder.Configuration.ApplyPlacement | actions/vnf_configuration/vtranscoder.py:119-138 | the selector and anti-affinity keys are set, gpu_node is "0" iff cpu, the action is published, and other keys persist |
| Vtranscoder.Configuration.SetSpectatorQuality | actions/vnf_configuration/vtranscoder.py:152-178 | action_params becomes the placement annotation (cpu iff the flag is set), the action is published, and other keys persist |
| Scale.FirstNamed | actions/scale.py:52-58 | the scaling group is the first entry's name among entries that have one, absent iff none has |
| Scale.NamesOfFirst | actions/scale.py:52-58 | the collected names' head is that first name, and the list is empty iff no entry is named |
| Scale.FirstNamedAt | actions/scale.py:56-58 | a named entry preceded only by unnamed ones gives the scaling group |
| Scale.GetScalingGroupIfAny | actions/scale.py:29-62 | a status other than 200 raises VnfdUnexpectedStatusCode; no named entry raises ScalingGroupNotFound; otherwise the first name |
| Scale.NewAction | actions/scale.py:15-27 | construction fails exactly as the group lookup does, and otherwise holds the first name |
| Scale.EdgeCountMeaning | actions/scale.py:80-84 | the edge count is the `vdur` length of the last record with member index 2, and 1 without one |
| Scale.AllowScaleAction | actions/scale.py:64-91 | with the count being the `vdur` length of the last record whose member index is 2 (1 without one), scale_out is allowed iff the count is 1, scale_in iff it exceeds 1, and any other action never; an `int` error on a member index propagates |
| Scale.EdgeCountPrefixError | actions/scale.py:82-83 | once a member index fails to parse, the later records do not matter |
| Scale.OperationVerdictMeaning | actions/scale.py:110-124 | one operation matches iff its `nsInstanceId` is the service, its type is `scale`, its state PROCESSING and its `scaleVnfType` a string lower-casing to the action; a non-dictionary raises TypeError and a missing `nsInstanceId` KeyError |
| Scale.FirstDecisiveMeaning | actions/scale.py:110-126 | the loop yields False iff every verdict lets it go on; otherwise it yields the first verdict that stops it |
| Scale.FirstDecisiveStep | actions/scale.py:110-126 | one turn of the loop either goes on to the rest or ends with the current verdict |
| Scale.PendingMeaning | actions/scale.py:93-126 | over an operation list: nothing is pending iff every operation lets the loop go on; otherwise the result is the verdict of the first one that stops it |
| Scale.ExamineOperation | actions/scale.py:111-124 | the loop body computes the operation's verdict |
| Scale.DetectPendingScaleActions | actions/scale.py:93-126 | the loop returns the pending verdict: True at the first matching operation, False when none matches, or the exception iterating or reading an operation raises |
| Scale.ApplyResult | actions/scale.py:149-172 | success means a request was submitted and answered 201; the request's direction follows the action |
| Scale.ApplyResultMeaning | actions/scale.py:128-172 | a request is submitted iff both guards pass, with the index and direction of the action; without one the outcome is the guards' refusal or error |
| Scale.Apply | actions/scale.py:128-172 | a request is submitted iff both guards pass, with scale_out = (action == "scale_out"), and succeeds iff answered 201; a refusal raises VnfScaleNotCompleted, unless reading a member index or the operation list already raised |
| Scale.SubmittedScaleBlocksRepeat | actions/scale.py:110-124 | while a listed operation records a PROCESSING scale of the service in the same direction, that scale is not submitted again |
| Scale.UnknownActionNeverSubmitted | actions/scale.py:86-91 | an action other than scale_out or scale_in is never submitted |
| FaasPlugin.PollingIsBounded | plugins/faas_plugin.py:39-43 | replies after the 19th poll never matter |
| FaasPlugin.PollingMeaning | plugins/faas_plugin.py:39-43 | a found URL is the first non-None answer among the 19 polls |
| FaasPlugin.PollBootstrapIngressUrl | plugins/faas_plugin.py:38-43 | the loop polls until a URL is found or 19 attempts pass |
| FaasPlugin.StoreSpawn | plugins/faas_plugin.py:69-74 | the spawn outcome and ledger update happen in place, keeping the ledger ordered |
| FaasPlugin.ExecuteFaasVnfScaleOut | plugins/faas_plugin.py:18-74 | the method produces the scale-out outcome, request and ledger, keeping the ledger ordered |
| FaasPlugin.PlanScaleOut | plugins/faas_plugin.py:26-64 | the method computes the spawn plan |
| FaasPlugin.FindSpawnSource | plugins/faas_plugin.py:26-33 | the method resolves the service name and the mid address in source order |
| FaasPlugin.ScaleOutLedger | plugins/faas_plugin.py:73-74 | the ledger changes only after a spawn request, and stays ordered |
| FaasPlugin.ScaleOutOutcome | plugins/faas_plugin.py:66-74 | a request is sent iff a spawn is planned; the ledger gains only that spawn's point, and only on status 200 with a successful write; a 4xx or 5xx answer raises an HTTP error |
| FaasPlugin.SpawnOutcomeMeaning | plugins/faas_plugin.py:69-74 | a spawn stores its point only on status 200 and a successful write |
| FaasPlugin.ScaleOutPlanMeaning | plugins/faas_plugin.py:59-71 | the ordinal is the newest instance number + 1, the id is a dash-free uuid, the URL came from polling, and the fqdn is the FaaS vDNS hostname for the ordinal |
| FaasPlugin.NoIngressNoSpawn | plugins/faas_plugin.py:45-47 | without an ingress URL, no spawn is planned |
| FaasPlugin.ConsecutiveOrdinals | plugins/faas_plugin.py:59-61 | after a stored spawn, the next scale-out uses the next ordinal |
| FaasPlugin.DropSpawn | plugins/faas_plugin.py:117-121 | the terminate outcome and ledger delete happen in place, keeping the ledger ordered |
| FaasPlugin.ExecuteFaasVnfScaleIn | plugins/faas_plugin.py:77-121 | the method produces the scale-in outcome, request and ledger, keeping the ledger ordered |
| FaasPlugin.PlanScaleIn | plugins/faas_plugin.py:85-112 | the method computes the terminate plan |
| FaasPlugin.ScaleInLedger | plugins/faas_plugin.py:120-121 | the ledger changes only after a terminate request, only loses points, and stays ordered |
| FaasPlugin.ScaleInOutcome | plugins/faas_plugin.py:115-121 | a request is sent iff a terminate is planned; only the target spawn's points are removed, and only on status 200 with an accepted drop |
| FaasPlugin.ScaleInPlanMeaning | plugins/faas_plugin.py:104-118 | the target is the service's oldest point newer than now minus 59 minutes, and the request names its spawn id and FaaS fqdn with operation `terminate_vcache` |
| FaasPlugin.ScaleInTarget | plugins/faas_plugin.py:105-109 | a planned terminate needs a reachable ledger and uses the first operation |
| FaasPlugin.ScaleInUndoesScaleOut | plugins/faas_plugin.py:105-121 | a scale-in right after the only fresh scale-out targets that spawn and its fqdn |
| FaasPlugin.ScaleInFindsSpawn | plugins/faas_plugin.py:105-107 | that spawn's point is the first operation whatever the given name |
| FaasPlugin.SameOrdinalSameHostname | plugins/faas_plugin.py:117-118 | terminate and spawn with the same ordinal name the same fqdn |
| OsmSubscriber.IsVcdn | osm_subscriber.py:90 | a service is a vCDN iff its NSD name is a string starting with `faas_vm_vCDN`; a truthy non-string raises AttributeError |
| OsmSubscriber.NsdCheck | osm_subscriber.py:251-264 | the NSD test passes iff the record's `nsd-name-ref` has the vCDN prefix; a failed fetch propagates |
| OsmSubscriber.RetriesMeaning | osm_subscriber.py:307-316 | a retry loop makes at least one and at most k attempts, stops at the first success, and fails only after all k |
| OsmSubscriber.RetriesSettled | osm_subscriber.py:307-316 | once an attempt succeeded, a larger attempt limit changes nothing |
| OsmSubscriber.Reachabilities | utils.py:77 | a ping outcome is reachable iff its exit status is 0 |
| OsmSubscriber.PingEdgeVcacheIp | osm_subscriber.py:301-316 | the loop pings until `check_ping` reports the address reachable, at most 19 times |
| OsmSubscriber.PingsUntilReachable | osm_subscriber.py:307-314 | every ping runs the same command; all pings before the last exit non-zero; fewer than 19 pings means the last exited 0, and no ping follows one that exits 0 |
| OsmSubscriber.Completions | osm_subscriber.py:331-343 | an attempt completes iff its status is 200 |
| OsmSubscriber.ConfigureEdgeVcache | osm_subscriber.py:319-343 | it sends the vCache patch for N and returns true iff the status is 200 |
| OsmSubscriber.RetryEdgeVcacheConfiguration | osm_subscriber.py:123-128 | the configuration loop is the retry loop over the patch |
| OsmSubscriber.ConfigureVdns | osm_subscriber.py:346-357 | it registers hostname N with the edge user address, and fails with VdnsConfigurationFailed iff the status is not 200 |
| OsmSubscriber.ProvisionEdgeVcache | osm_subscriber.py:104-131 | a discovery failure sends nothing; otherwise ping, configure and register, completed iff the vDNS accepts |
| OsmSubscriber.ConfigurationGate | osm_subscriber.py:79-98 | configuration proceeds iff the state is COMPLETED, the NSD is a vCDN, and the event is the expected one |
| OsmSubscriber.ConfigureVcdnNsAfterScaleOut | osm_subscriber.py:73-137 | the handler follows the scale-out configuration step with 10 attempts |
| OsmSubscriber.ConfigureVcdnNsAfterInstantiation | osm_subscriber.py:140-204 | the handler follows the instantiation configuration step with 9 attempts |
| OsmSubscriber.CounterFollowsNewestReplica | osm_subscriber.py:105-109 | the counter is the newest edge replica's count-index + 1 |
| OsmSubscriber.ProvisionTraceShape | osm_subscriber.py:120-131 | the trace is pings, then patches, then exactly one vDNS registration whose hostname is the patch's fqdn |
| OsmSubscriber.ConfigurationStopsAtAcceptance | osm_subscriber.py:123-128 | patches stop at the first accepted one, and only a rejected patch is retried |
| OsmSubscriber.ConfigurationOnlyWhenAdmitted | osm_subscriber.py:79-131 | nothing is sent unless all three gates pass, the last request registers the newest replica's counter, and success means an accepted registration |
| OsmSubscriber.RegularDeletesMeaning | osm_subscriber.py:378-379 | deletions go N = 1, 2, … and stop at the first refusal, which raises VdnsConfigurationFailed |
| OsmSubscriber.RegularDeletesSettled | osm_subscriber.py:378-379 | after a refusal, a larger count changes nothing |
| OsmSubscriber.CleanVdnsFromRegularVnfs | osm_subscriber.py:360-381 | the cleanup deletes N = 1..count-index+1, or none when discovery fails |
| OsmSubscriber.FaasDeletes | osm_subscriber.py:395-402 | FaaS deletions cover N = 1..n, each once, in order |
| OsmSubscriber.CleanVdnsFromFaasVnfs | osm_subscriber.py:384-411 | every FaaS hostname is deleted, whatever the replies, and the service's points are dropped if the store accepts |
| OsmSubscriber.TerminationGate | osm_subscriber.py:213-234 | cleanup proceeds iff the state is PROCESSING, the NSD is a vCDN and the event is `terminate`; the NSD lookup escapes |
| OsmSubscriber.ConfigureVcdnNsAfterTermination | osm_subscriber.py:207-248 | the handler follows the termination step and settles the ledger drop |
| OsmSubscriber.TerminationOnlyWhenAdmitted | osm_subscriber.py:213-234 | nothing is sent or dropped unless all three gates pass |
| OsmSubscriber.TerminationRemovals | osm_subscriber.py:237-245 | after accepted regular deletes, the FaaS deletes follow for 1..n and the points are dropped iff n > 0 |
| OsmSubscriber.CleanupRemovals | osm_subscriber.py:237-245 | the same, for any statuses, count and instance number |
| OsmSubscriber.RefusedRemovalStops | osm_subscriber.py:236-248 | a refused regular delete is logged and skips the FaaS cleanup and the drop |
| OsmSubscriber.CleanupRefused | osm_subscriber.py:236-248 | the same, for any statuses, count and instance number |
| OsmSubscriber.TerminationRemovesEachEntryOnce | osm_subscriber.py:237-245 | termination sends only vDNS deletes, each hostname at most once |
| OsmSubscriber.CleanupDistinct | osm_subscriber.py:237-245 | the same, for any statuses, count and instance number |
| OsmSubscriber.TerminationForgetsService | osm_subscriber.py:404-406 | after an accepted drop, the service has no last operation, other services keep their points, and the ledger stays ordered |
| OsmSubscriber.OnlyTerminationTouchesLedger | osm_subscriber.py:50-70 | only a `terminate` message can drop points, and none adds any |
| OsmSubscriber.Dispatch | osm_subscriber.py:43-70 | the method routes `scaled`, `instantiated` and `terminate` to their handlers and ignores other keys |
| OsmSubscriber.RunMeaning | osm_subscriber.py:43-70 | the loop handles every message unless one raises, and then exactly those before it; the ledger only loses points and stays ordered |
| OsmSubscriber.StepKeepsLedger | osm_subscriber.py:43-70 | one message keeps the ledger ordered and never adds a point |
| OsmSubscriber.Serve | osm_subscriber.py:38-70 | the consumer loop follows the run |
| Worker.Recorded | worker.py:75-76 | an event is written, as the last effect, iff it could be composed; otherwise the exception is logged |
| Worker.VnfScaleOutStep | worker.py:56-83 | only a scale-out request and the event are sent; completion needs status 201 and is the request followed by the event as last effect |
| Worker.ApplyVnfScaleOut | worker.py:56-83 | the handler follows that step |
| Worker.VnfScaleInStep | worker.py:85-112 | scale-in never completes; a failed discovery sends nothing; only a scale-in request can be sent, and an accepted one ends in a logged TypeError because the vDNS client takes no argument |
| Worker.ApplyVnfScaleIn | worker.py:85-112 | the handler follows that step |
| Worker.FaasScaleOutStep | worker.py:114-130 | the event is written last, only on completion; the ledger changes only after a FaaS call and stays ordered |
| Worker.ApplyFaasScaleOut | worker.py:114-130 | the handler follows that step on the ledger |
| Worker.FaasScaleInStep | worker.py:132-149 | the same, and the ledger only loses points |
| Worker.ApplyFaasScaleIn | worker.py:132-149 | the handler follows that step on the ledger |
| Worker.VceStep | worker.py:151-177 | a negative bitrate is skipped with nothing published; a non-negative one publishes the vCE message, and completes iff acknowledged |
| Worker.ApplyVceBitrate | worker.py:151-177 | the handler follows that step |
| Worker.ProfileStep | worker.py:179-205 | the profile is published iff the qualities are non-empty; empty ones log ValueError; completion writes the event after an acknowledged publish |
| Worker.ApplyTranscoderProfile | worker.py:179-205 | the handler follows that step |
| Worker.PlacementStep | worker.py:207-234 | the placement is published once the targets are read; completion writes the event after an acknowledged publish |
| Worker.ApplyTranscoderPlacement | worker.py:207-234 | the handler follows that step |
| Worker.SpectatorsCheckMeaning | worker.py:240-245 | qualities pass iff they are a non-empty dictionary whose `clients` is present, not None and non-empty; a non-dictionary raises AttributeError |
| Worker.SpectatorsStep | worker.py:236-260 | the qualities are published iff they pass the validation, and the action completes iff the publish is acknowledged |
| Worker.ApplySpectatorQualities | worker.py:236-260 | the handler follows that step |
| Worker.ParseAction | worker.py:56-272 | a planning value selects an action iff it is that action's string |
| Worker.ParseActionText | worker.py:56-272 | each action's string selects that action |
| Worker.ActionStep | worker.py:56-272 | only a negative vCE bitrate is skipped; events are written last; only the FaaS scales touch the ledger, which stays ordered |
| Worker.HandlerStep | worker.py:56-260 | the same, for the handlers that do not touch the ledger |
| Worker.LedgerActionStep | worker.py:114-149 | the FaaS handlers keep the event last and the ledger ordered, and scale-in only removes points |
| Worker.IntentStep | worker.py:41-279 | a skipped message has no effect; only a FaaS scale changes the ledger, which stays ordered |
| Worker.PlannedHandler | worker.py:54-272 | an approved planned action runs its own handler |
| Worker.SkippedMeaning | worker.py:46-52 | a message is skipped iff planning is missing, the action is not approved, the planning is unknown or a no-op, or the bitrate is negative |
| Worker.PlannedEffects | worker.py:56-149 | a completed event-writing handler ends with its event, and a FaaS scale-in only removes points |
| Worker.ApplyAction | worker.py:56-272 | the method follows the action step on the ledger |
| Worker.ApplyHandler | worker.py:56-260 | the method follows the handler step |
| Worker.Dispatch | worker.py:42-279 | handling one message follows the intent step on the ledger |
| Worker.RunHandlesEach | worker.py:41-279 | every message is handled, in order, each from the ledger its predecessors left |
| Worker.RunKeepsLedger | worker.py:41-279 | the loop keeps the ledger ordered, and unchanged when no FaaS scale is planned |
| Worker.Serve | worker.py:36-279 | the consumer loop follows the run |

## Left out

- Kafka consumers and producers, their topics, and the publish calls are left out. Publishes appear as effects, and an acknowledgement as a boolean input.
- HTTP transport and credentials are left out: `httpclient`, `requests`, bearer tokens, `nbiapi/vnfd.py`, `Ns.get*` and `Ns.terminate`. Their replies are inputs. A failing collaborator is the error `CollaboratorFailure`.
- InfluxDB is left out: the client, query strings and `response.raw` positions. The ledger is a sequence of points with integer timestamps. A write or a drop that fails is an input.
- Sleeps and wall-clock timestamps are left out. Retry loops count attempts only, and the clock is an integer input.
- `os.system` ping execution is left out. The exit status is an oracle sequence.
- The YAML and JSON decoding of a message is left out. A delivery carries either the decoded value or the decoding error.
- `actions/vtranscoder_spectators.py` is not part of this model. Its publish is one `PublishSpectators` effect whose acknowledgement is an input.
- `actions/instantiate.py` and `actions/terminate.py` are not part of this model. They wrap a package that is not shown.
- The `ns_scale`, `ns_instantiate` and `ns_terminate` actions are no-ops in the code. They are modelled as skipped.
- The settings module is reduced to its default constants. Environment overrides and logging are left out.
- Worker.VnfScaleInStep: does not model the vDNS deletion and the event write after the vDNS client construction, because the `TypeError` at `worker.py:100` means the code never reaches them.
- Worker.VnfScaleOutStep: does not model a failing `write_points` of the optimization event. An event that could be composed is written.
- FaasAction.Action.SpawnEdgeVcacheVnf: the class function states the endpoint, the operation and the event id. The other payload fields are stated by `FaasAction.SpawnPayload` over the same builder.
- FaasAction.Action.TerminateEdgeVcache: the class function states the endpoint, the operation and the spawn id. The other payload fields are stated by `FaasAction.TerminatePayload` over the same builder.
- FaasAction.Action.SpawnTranscoder3dVnf: the class function states the endpoint, the operation and the event id. The placement fields are stated by `FaasAction.TranscoderPlacement` over the same builder.
- FaasAction.Action.TerminateTranscoder3dVnf: the class function states the endpoint, the operation and the spawn id. The whole payload is stated by `FaasAction.TranscoderTerminatePayload` over the same builder.
- Scale.AllowScaleAction: a record's `vdur` is a list of VDUs. A `vdur` of None, which makes `len` raise TypeError (`actions/scale.py:84`), is not modelled.
- ActionUtils.GetVcdnNetInterfaces: a VDU's `count-index` is an integer or absent. A non-integer index, which makes the `>= 0` comparison raise TypeError (`actions/utils.py:93`), is not modelled. Neither is a `vdur` of None (`actions/utils.py:79`) or a VDU entry that is not a dictionary.
- PyJson.PyInt: whitespace and digits are ASCII only. Unicode whitespace and non-ASCII decimal digits, which `int()` also accepts, are not modelled.
- PyJson.PyRepr: non-ASCII unprintable characters are not escaped. A float is printed from the text it was decoded from, not recomputed. NaN and infinities are not representable.
- Equality of decoded values is structural. Python's `1 == 1.0 == True` across numeric types, and dictionary equality regardless of key order, are not modelled.
- ActionUtils.GetVcdnNetInterfaces: models the edge map's string keys `str(count-index)` as integers. Two indices map to the same key iff they are equal, so the selection is the same.
