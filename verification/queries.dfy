/**
 * The FaaS operations ledger (the `faas_operations` measurement): one record
 * per spawned FaaS edge vCache, queried for the newest and the oldest spawn of
 * a network service and dropped by event or by service.
 */
module Queries {
  import opened Wrappers
  import opened Exceptions
  import opened PyJson

  /** A point of `faas_operations`: three tags, two fields and its timestamp (seconds). */
  datatype LedgerRecord = LedgerRecord(
    operationType: string,
    eventUuid: string,
    nsUuid: string,
    nsName: Json,
    instanceNumber: int,
    time: int)

  /** The two tags a series can be dropped by. */
  datatype Tag = EventUuidTag | NsUuidTag

  function TagValue(r: LedgerRecord, tag: Tag): string {
    match tag
    case EventUuidTag => r.eventUuid
    case NsUuidTag => r.nsUuid
  }

  /** What the database answers to a `DROP SERIES`: done, an error in the response, or no answer (the client raises). */
  datatype DbReply = Done | Rejected | Unreachable

  /** The store keeps its points in time order. */
  predicate Chronological(records: seq<LedgerRecord>) {
    forall i, j :: 0 <= i < j < |records| ==> records[i].time <= records[j].time
  }

  /** Writing a point: it goes after every point not later than it. */
  function InsertByTime(records: seq<LedgerRecord>, r: LedgerRecord): (out: seq<LedgerRecord>)
    ensures |out| == |records| + 1
    ensures multiset(out) == multiset(records) + multiset{r}
    ensures forall x :: x in out <==> x in records || x == r
  {
    if records == [] || records[|records| - 1].time <= r.time then records + [r]
    else
      var init := records[..|records| - 1];
      assert records == init + [records[|records| - 1]];
      InsertByTime(init, r) + [records[|records| - 1]]
  }

  /** Writing a point keeps the store in time order. */
  lemma {:induction false} InsertKeepsChronological(records: seq<LedgerRecord>, r: LedgerRecord)
    requires Chronological(records)
    ensures Chronological(InsertByTime(records, r))
  {
    if records != [] && records[|records| - 1].time > r.time {
      var init := records[..|records| - 1];
      var last := records[|records| - 1];
      InsertKeepsChronological(init, r);
      var mid := InsertByTime(init, r);
      forall i | 0 <= i < |mid| ensures mid[i].time <= last.time {
        assert mid[i] in mid;
        if mid[i] != r {
          assert mid[i] in init;
          var k :| 0 <= k < |init| && init[k] == mid[i];
          assert records[k] == mid[i];
        }
      }
      var out := mid + [last];
      assert InsertByTime(records, r) == out;
      forall i, j | 0 <= i < j < |out| ensures out[i].time <= out[j].time {
        if j < |mid| {
          assert out[i] == mid[i] && out[j] == mid[j];
        }
      }
    }
  }

  /** A point stamped no earlier than every stored point is appended at the end. */
  lemma LatestGoesLast(records: seq<LedgerRecord>, r: LedgerRecord)
    requires forall i :: 0 <= i < |records| ==> records[i].time <= r.time
    ensures InsertByTime(records, r) == records + [r]
  {
  }

  /** `DROP SERIES FROM faas_operations WHERE <tag>='<value>'`: every point carrying that tag value goes. */
  function Drop(records: seq<LedgerRecord>, tag: Tag, value: string): (out: seq<LedgerRecord>)
    ensures forall i :: 0 <= i < |out| ==> TagValue(out[i], tag) != value
    ensures forall x :: x in out <==> x in records && TagValue(x, tag) != value
    ensures |out| <= |records|
  {
    if records == [] then []
    else if TagValue(records[0], tag) == value then Drop(records[1..], tag, value)
    else [records[0]] + Drop(records[1..], tag, value)
  }

  /** Dropping points keeps the rest in time order. */
  lemma {:induction false} DropKeepsChronological(records: seq<LedgerRecord>, tag: Tag, value: string)
    requires Chronological(records)
    ensures Chronological(Drop(records, tag, value))
  {
    if records != [] {
      var rest := records[1..];
      assert Chronological(rest) by {
        forall i, j | 0 <= i < j < |rest| ensures rest[i].time <= rest[j].time {
          assert rest[i] == records[i + 1] && rest[j] == records[j + 1];
        }
      }
      DropKeepsChronological(rest, tag, value);
      var tail := Drop(rest, tag, value);
      if TagValue(records[0], tag) != value {
        forall j | 0 <= j < |tail| ensures records[0].time <= tail[j].time {
          assert tail[j] in rest;
          var k :| 0 <= k < |rest| && rest[k] == tail[j];
          assert records[k + 1] == tail[j];
        }
        ConsChronological(records[0], tail);
      }
    }
  }

  /** A point no later than every point of an ordered store can go in front of it. */
  lemma ConsChronological(x: LedgerRecord, tail: seq<LedgerRecord>)
    requires Chronological(tail)
    requires forall j :: 0 <= j < |tail| ==> x.time <= tail[j].time
    ensures Chronological([x] + tail)
  {
    var out := [x] + tail;
    forall i, j | 0 <= i < j < |out| ensures out[i].time <= out[j].time {
      assert out[j] == tail[j - 1];
      if i > 0 { assert out[i] == tail[i - 1]; }
    }
  }

  /** A record of the service `ns`, and newer than `cutoff` when one is given. */
  predicate Selected(r: LedgerRecord, ns: string, cutoff: Option<int>) {
    r.nsUuid == ns && (cutoff.Some? ==> r.time > cutoff.value)
  }

  /** The first selected record in store order. */
  function Earliest(records: seq<LedgerRecord>, ns: string, cutoff: Option<int>): (r: Option<LedgerRecord>)
    ensures r.Some? ==> r.value in records && Selected(r.value, ns, cutoff)
    ensures r.None? <==> forall i :: 0 <= i < |records| ==> !Selected(records[i], ns, cutoff)
  {
    if records == [] then None
    else if Selected(records[0], ns, cutoff) then Some(records[0])
    else
      var r := Earliest(records[1..], ns, cutoff);
      assert r.None? ==> forall i :: 1 <= i < |records| ==> records[i] == records[1..][i - 1];
      r
  }

  /** The last selected record in store order. */
  function Latest(records: seq<LedgerRecord>, ns: string, cutoff: Option<int>): (r: Option<LedgerRecord>)
    ensures r.Some? ==> r.value in records && Selected(r.value, ns, cutoff)
    ensures r.None? <==> forall i :: 0 <= i < |records| ==> !Selected(records[i], ns, cutoff)
  {
    if records == [] then None
    else if Selected(records[|records| - 1], ns, cutoff) then Some(records[|records| - 1])
    else Latest(records[..|records| - 1], ns, cutoff)
  }

  /** In a time-ordered store the first selected record is the oldest one. */
  lemma {:induction false} EarliestIsOldest(records: seq<LedgerRecord>, ns: string, cutoff: Option<int>)
    requires Chronological(records)
    requires Earliest(records, ns, cutoff).Some?
    ensures forall i :: 0 <= i < |records| && Selected(records[i], ns, cutoff) ==>
      Earliest(records, ns, cutoff).value.time <= records[i].time
  {
    if !Selected(records[0], ns, cutoff) {
      EarliestIsOldest(records[1..], ns, cutoff);
      forall i | 0 <= i < |records| && Selected(records[i], ns, cutoff)
        ensures Earliest(records, ns, cutoff).value.time <= records[i].time
      {
        assert i > 0 && records[i] == records[1..][i - 1];
      }
    }
  }

  /** In a time-ordered store the last selected record is the newest one. */
  lemma {:induction false} LatestIsNewest(records: seq<LedgerRecord>, ns: string, cutoff: Option<int>)
    requires Chronological(records)
    requires Latest(records, ns, cutoff).Some?
    ensures forall i :: 0 <= i < |records| && Selected(records[i], ns, cutoff) ==>
      records[i].time <= Latest(records, ns, cutoff).value.time
  {
    var init := records[..|records| - 1];
    if !Selected(records[|records| - 1], ns, cutoff) {
      LatestIsNewest(init, ns, cutoff);
      forall i | 0 <= i < |records| && Selected(records[i], ns, cutoff)
        ensures records[i].time <= Latest(records, ns, cutoff).value.time
      {
        assert i < |records| - 1 && records[i] == init[i];
      }
    } else {
      forall i | 0 <= i < |records| && Selected(records[i], ns, cutoff)
        ensures records[i].time <= Latest(records, ns, cutoff).value.time
      {
        if i < |records| - 1 {
          assert records[i].time <= records[|records| - 1].time;
        }
      }
    }
  }

  /**
   * `get_first_operation(ns_uuid)` with freshness cutoff `cutoff`: the event
   * uuid and instance number of the oldest record of the service newer than the
   * cutoff; both `None` when there is none or the database cannot be queried.
   */
  function FirstOperation(records: seq<LedgerRecord>, ns: string, cutoff: int, reachable: bool)
    : (r: (Option<string>, Option<int>))
    ensures r.0.Some? <==> r.1.Some?
    ensures r.0.None? <==> !reachable || forall i :: 0 <= i < |records| ==> !Selected(records[i], ns, Some(cutoff))
  {
    if !reachable then (None, None)
    else
      match Earliest(records, ns, Some(cutoff))
      case None => (None, None)
      case Some(rec) => (Some(rec.eventUuid), Some(rec.instanceNumber))
  }

  /**
   * `get_last_operation(ns_uuid)`: the event uuid and instance number of the
   * newest record of the service, with no time window; `None` and 0 when there
   * is none or the database cannot be queried.
   */
  function LastOperation(records: seq<LedgerRecord>, ns: string, reachable: bool): (r: (Option<string>, int))
    ensures r.0.None? <==> !reachable || forall i :: 0 <= i < |records| ==> records[i].nsUuid != ns
    ensures r.0.None? ==> r.1 == 0
  {
    if !reachable then (None, 0)
    else
      match Latest(records, ns, None)
      case None => (None, 0)
      case Some(rec) => (Some(rec.eventUuid), rec.instanceNumber)
  }

  /** The first operation is the oldest fresh record of the service. */
  lemma FirstOperationIsOldestFresh(records: seq<LedgerRecord>, ns: string, cutoff: int)
    requires Chronological(records)
    requires FirstOperation(records, ns, cutoff, true).0.Some?
    ensures exists k :: (0 <= k < |records| && records[k].nsUuid == ns && records[k].time > cutoff
      && FirstOperation(records, ns, cutoff, true) == (Some(records[k].eventUuid), Some(records[k].instanceNumber))
      && forall i :: 0 <= i < |records| && records[i].nsUuid == ns && records[i].time > cutoff ==> records[k].time <= records[i].time)
  {
    EarliestIsOldest(records, ns, Some(cutoff));
    var rec := Earliest(records, ns, Some(cutoff)).value;
    var k :| 0 <= k < |records| && records[k] == rec;
    assert forall i :: 0 <= i < |records| && records[i].nsUuid == ns && records[i].time > cutoff ==>
      Selected(records[i], ns, Some(cutoff));
  }

  /** The last operation is the newest record of the service. */
  lemma LastOperationIsNewest(records: seq<LedgerRecord>, ns: string)
    requires Chronological(records)
    requires LastOperation(records, ns, true).0.Some?
    ensures exists k :: (0 <= k < |records| && records[k].nsUuid == ns
      && LastOperation(records, ns, true) == (Some(records[k].eventUuid), records[k].instanceNumber)
      && forall i :: 0 <= i < |records| && records[i].nsUuid == ns ==> records[i].time <= records[k].time)
  {
    LatestIsNewest(records, ns, None);
    var rec := Latest(records, ns, None).value;
    var k :| 0 <= k < |records| && records[k] == rec;
    assert forall i :: 0 <= i < |records| && records[i].nsUuid == ns ==> Selected(records[i], ns, None);
  }

  /**
   * A point stored after everything else, when it is the only record of its
   * service newer than the cutoff, is what the next `get_first_operation`
   * reports.
   */
  lemma OnlyFreshIsFirst(records: seq<LedgerRecord>, rec: LedgerRecord, cutoff: int)
    requires forall i :: 0 <= i < |records| ==> records[i].time <= rec.time
    requires forall i :: 0 <= i < |records| && records[i].nsUuid == rec.nsUuid ==> records[i].time <= cutoff
    requires rec.time > cutoff
    ensures FirstOperation(InsertByTime(records, rec), rec.nsUuid, cutoff, true) == (Some(rec.eventUuid), Some(rec.instanceNumber))
  {
    LatestGoesLast(records, rec);
    var after := InsertByTime(records, rec);
    assert after[|records|] == rec;
    var first := Earliest(after, rec.nsUuid, Some(cutoff));
    assert first.Some?;
  }

  /** The first operation always comes from a record newer than the cutoff: a stale record is never picked. */
  lemma StaleNeverFirst(records: seq<LedgerRecord>, ns: string, cutoff: int)
    ensures FirstOperation(records, ns, cutoff, true).0.Some? ==>
      exists i :: 0 <= i < |records| && records[i].time > cutoff
        && FirstOperation(records, ns, cutoff, true).0 == Some(records[i].eventUuid)
  {
    if FirstOperation(records, ns, cutoff, true).0.Some? {
      var rec := Earliest(records, ns, Some(cutoff)).value;
      var i :| 0 <= i < |records| && records[i] == rec;
    }
  }

  /** The ledger store: a time-ordered sequence of points that the operations rewrite. */
  class Ledger {
    var records: seq<LedgerRecord>

    ghost predicate Valid()
      reads this
    {
      Chronological(records)
    }

    constructor ()
      ensures records == [] && Valid()
    {
      records := [];
    }

    /**
     * `store_operation`: one point stamped `now`; `written` is false when the
     * client cannot write, in which case the call raises and nothing is stored.
     */
    method StoreOperation(operationType: string, eventUuid: string, nsName: Json, nsUuid: string,
                          instanceNumber: int, now: int, written: bool) returns (r: Outcome<Error>)
      requires Valid()
      modifies this
      ensures Valid()
      ensures written ==> (r == Pass
        && records == InsertByTime(old(records), LedgerRecord(operationType, eventUuid, nsUuid, nsName, instanceNumber, now)))
      ensures !written ==> r == Fail(CollaboratorFailure) && records == old(records)
    {
      if !written {
        return Fail(CollaboratorFailure);
      }
      var point := LedgerRecord(operationType, eventUuid, nsUuid, nsName, instanceNumber, now);
      InsertKeepsChronological(records, point);
      records := InsertByTime(records, point);
      return Pass;
    }

    /** `delete_operation` and `delete_operation_by_ns`: true iff the response carries no error. */
    method DropSeries(tag: Tag, value: string, reply: DbReply) returns (r: Result<bool, Error>)
      requires Valid()
      modifies this
      ensures Valid()
      ensures reply == Done ==> r == Ok(true) && records == Drop(old(records), tag, value)
      ensures reply == Rejected ==> r == Ok(false) && records == old(records)
      ensures reply == Unreachable ==> r == Err(CollaboratorFailure) && records == old(records)
    {
      match reply
      case Unreachable =>
        return Err(CollaboratorFailure);
      case Rejected =>
        return Ok(false);
      case Done =>
        DropKeepsChronological(records, tag, value);
        records := Drop(records, tag, value);
        return Ok(true);
    }

    /** `delete_operation(event_uuid)`. */
    method DeleteOperation(eventUuid: string, reply: DbReply) returns (r: Result<bool, Error>)
      requires Valid()
      modifies this
      ensures Valid()
      ensures r.Ok? && r.value ==> records == Drop(old(records), EventUuidTag, eventUuid)
      ensures r.Ok? && r.value ==> forall i :: 0 <= i < |records| ==> records[i].eventUuid != eventUuid
      ensures !(r.Ok? && r.value) ==> records == old(records)
      ensures r.Ok? <==> reply != Unreachable
      ensures r.Err? ==> r.error == CollaboratorFailure
      ensures r == Ok(true) <==> reply == Done
    {
      r := DropSeries(EventUuidTag, eventUuid, reply);
    }

    /** `delete_operation_by_ns(ns_uuid)`. */
    method DeleteOperationByNs(nsUuid: string, reply: DbReply) returns (r: Result<bool, Error>)
      requires Valid()
      modifies this
      ensures Valid()
      ensures r.Ok? && r.value ==> records == Drop(old(records), NsUuidTag, nsUuid)
      ensures r.Ok? && r.value ==> forall i :: 0 <= i < |records| ==> records[i].nsUuid != nsUuid
      ensures !(r.Ok? && r.value) ==> records == old(records)
      ensures r.Ok? <==> reply != Unreachable
      ensures r.Err? ==> r.error == CollaboratorFailure
      ensures r == Ok(true) <==> reply == Done
    {
      r := DropSeries(NsUuidTag, nsUuid, reply);
    }
  }

  /** A spawn stored at a time no earlier than anything in the ledger is what the next `get_last_operation` reports. */
  lemma StoreThenLast(records: seq<LedgerRecord>, rec: LedgerRecord)
    requires forall i :: 0 <= i < |records| ==> records[i].time <= rec.time
    ensures LastOperation(InsertByTime(records, rec), rec.nsUuid, true) == (Some(rec.eventUuid), rec.instanceNumber)
  {
    LatestGoesLast(records, rec);
  }

  /** After the service's series are dropped, `get_last_operation` falls back to instance 0. */
  lemma DropNsThenLast(records: seq<LedgerRecord>, ns: string)
    ensures LastOperation(Drop(records, NsUuidTag, ns), ns, true) == (None, 0)
  {
  }

  /** After a spawn's series is dropped, it is never again the first operation. */
  lemma DropEventThenFirst(records: seq<LedgerRecord>, eventUuid: string, ns: string, cutoff: int)
    ensures FirstOperation(Drop(records, EventUuidTag, eventUuid), ns, cutoff, true).0 != Some(eventUuid)
  {
    var rest := Drop(records, EventUuidTag, eventUuid);
    if FirstOperation(rest, ns, cutoff, true).0.Some? {
      var rec := Earliest(rest, ns, Some(cutoff)).value;
      var k :| 0 <= k < |rest| && rest[k] == rec;
    }
  }

  /**
   * Spawns of one service are terminated first-in first-out: the first
   * operation is the earlier of two fresh spawns, and once its series is
   * dropped the later one comes next.
   */
  lemma FirstInFirstOut(a: LedgerRecord, b: LedgerRecord, cutoff: int)
    requires a.nsUuid == b.nsUuid && a.eventUuid != b.eventUuid
    requires cutoff < a.time <= b.time
    ensures FirstOperation(InsertByTime(InsertByTime([], a), b), a.nsUuid, cutoff, true)
      == (Some(a.eventUuid), Some(a.instanceNumber))
    ensures FirstOperation(Drop(InsertByTime(InsertByTime([], a), b), EventUuidTag, a.eventUuid), a.nsUuid, cutoff, true)
      == (Some(b.eventUuid), Some(b.instanceNumber))
  {
    TwoFreshSpawns(a, b);
    assert Earliest([a, b], a.nsUuid, Some(cutoff)) == Some(a);
    assert Earliest([b], a.nsUuid, Some(cutoff)) == Some(b);
  }

  /** Two points written in time order are stored in that order; dropping the first one's event leaves the second. */
  lemma TwoFreshSpawns(a: LedgerRecord, b: LedgerRecord)
    requires a.eventUuid != b.eventUuid && a.time <= b.time
    ensures InsertByTime(InsertByTime([], a), b) == [a, b]
    ensures Drop([a, b], EventUuidTag, a.eventUuid) == [b]
  {
    assert InsertByTime([], a) == [a];
    assert [a, b][1..] == [b] && [b][1..] == [];
  }
}
