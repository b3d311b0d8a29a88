/** `SyncStream` of `tap_zendesk_sell/streams/sync.py`: the Sync API session
    behind the `events` stream. The device UUID is resolved from the stream
    state, then the config, then freshly generated, and written back into
    the state. A session is started for it; batches of queue items are
    fetched until an empty one; every item is yielded as
    `{"data": ..., "meta": ...}`; each non-empty batch is acknowledged with
    its items' ack keys once all of them have been yielded. */
module Sync {
  import opened Values
  import opened Trace
  import opened Paging
  import opened SchemaMerge

  // ---------------------------------------------------------------------
  // Device UUID

  /** The stream's state dict, as `get_context_state(None)` hands it out:
      writes into it persist. */
  class ContextState {
    var entries: Record

    constructor(entries: Record)
      ensures this.entries == entries
    {
      this.entries := entries;
    }
  }

  /** The device UUID a call returns and the state entries it leaves. */
  datatype Resolution = Resolution(uuid: Value, entries: Record)

  /** Reference definition of `get_device_uuid`: a truthy state value wins
      and leaves the state alone; otherwise a truthy config value, otherwise
      the generated id, is written into the state and returned. */
  function ResolveDevice(entries: Record, config: Record, generated: string): (r: Resolution)
    ensures "device_uuid" in r.entries && r.entries["device_uuid"] == r.uuid
    ensures r.entries.Keys == entries.Keys + {"device_uuid"}
    ensures forall k :: k in entries && k != "device_uuid" ==> r.entries[k] == entries[k]
    ensures Truthy(Get(entries, "device_uuid")) ==> r.uuid == entries["device_uuid"] && r.entries == entries
    ensures !Truthy(Get(entries, "device_uuid")) && Truthy(Get(config, "device_uuid")) ==>
      r.uuid == config["device_uuid"]
    ensures !Truthy(Get(entries, "device_uuid")) && !Truthy(Get(config, "device_uuid")) ==>
      r.uuid == Str(generated)
  {
    if Truthy(Get(entries, "device_uuid")) then Resolution(entries["device_uuid"], entries)
    else if Truthy(Get(config, "device_uuid")) then
      Resolution(config["device_uuid"], entries["device_uuid" := config["device_uuid"]])
    else Resolution(Str(generated), entries["device_uuid" := Str(generated)])
  }

  /** Once resolved, the device UUID is stable: asking again, whatever id
      would be generated then, returns the same UUID and changes nothing,
      provided a generated id is never the empty string (`str(uuid.uuid4())`
      never is). */
  lemma ResolveStable(entries: Record, config: Record, generated: string, later: string)
    requires generated != ""
    ensures var r := ResolveDevice(entries, config, generated);
            ResolveDevice(r.entries, config, later) == r
  {
    var r := ResolveDevice(entries, config, generated);
    assert Truthy(r.uuid);
  }

  /** Repeating the resolution with the same generated id also changes
      nothing, even for an empty id. */
  lemma ResolveIdempotent(entries: Record, config: Record, generated: string)
    ensures var r := ResolveDevice(entries, config, generated);
            ResolveDevice(r.entries, config, generated) == r
  {
    var r := ResolveDevice(entries, config, generated);
    if !Truthy(Get(entries, "device_uuid")) && !Truthy(Get(config, "device_uuid")) && !Truthy(r.uuid) {
      assert r.entries["device_uuid" := Str(generated)] == r.entries;
    }
  }

  /** `get_device_uuid`; `generated` stands for `str(uuid.uuid4())`. */
  method GetDeviceUuid(state: ContextState, config: Record, generated: string) returns (uuid: Value)
    modifies state
    ensures uuid == ResolveDevice(old(state.entries), config, generated).uuid
    ensures state.entries == ResolveDevice(old(state.entries), config, generated).entries
  {
    if Truthy(Get(state.entries, "device_uuid")) {
      return state.entries["device_uuid"];
    }
    if Truthy(Get(config, "device_uuid")) {
      state.entries := state.entries["device_uuid" := config["device_uuid"]];
      return config["device_uuid"];
    }
    var deviceUuid := Str(generated);
    state.entries := state.entries["device_uuid" := deviceUuid];
    return deviceUuid;
  }

  // ---------------------------------------------------------------------
  // Queue items

  /** `item["meta"]["sync"]["ack_key"]`. */
  function AckKey(item: Record): Result<Value, Error> {
    if "meta" !in item then Err(KeyError("meta"))
    else match Lookup(item["meta"], "sync")
      case Err(e) => Err(e)
      case Ok(s) => Lookup(s, "ack_key")
  }

  /** The ack key is found exactly when "meta" holds a dict with a "sync"
      dict holding "ack_key"; a missing "meta" raises KeyError("meta"). */
  lemma AckKeyResult(item: Record)
    ensures "meta" !in item ==> AckKey(item) == Err(KeyError("meta"))
    ensures AckKey(item).Ok? <==>
      ("meta" in item && item["meta"].Obj? && "sync" in item["meta"].fields
       && item["meta"].fields["sync"].Obj? && "ack_key" in item["meta"].fields["sync"].fields)
    ensures AckKey(item).Ok? ==> AckKey(item).value == item["meta"].fields["sync"].fields["ack_key"]
  {
  }

  /** `{"data": item["data"], "meta": item["meta"]}`. */
  function Shape(item: Record): Result<Record, Error> {
    if "data" !in item then Err(KeyError("data"))
    else if "meta" !in item then Err(KeyError("meta"))
    else Ok(map["data" := item["data"], "meta" := item["meta"]])
  }

  /** Shaping keeps exactly "data" and "meta", raising KeyError for the
      first of them that is missing. */
  lemma ShapeResult(item: Record)
    ensures Shape(item).Ok? <==> "data" in item && "meta" in item
    ensures "data" !in item ==> Shape(item) == Err(KeyError("data"))
    ensures "data" in item && "meta" !in item ==> Shape(item) == Err(KeyError("meta"))
    ensures Shape(item).Ok? ==>
      Shape(item).value.Keys == {"data", "meta"}
      && Shape(item).value["data"] == item["data"] && Shape(item).value["meta"] == item["meta"]
  {
  }

  /** The shaped record carries the item's ack key. */
  lemma ShapeKeepsAckKey(item: Record)
    requires Shape(item).Ok?
    ensures AckKey(Shape(item).value) == AckKey(item)
  {
  }

  predicate ItemOk(item: Record) {
    AckKey(item).Ok? && Shape(item).Ok?
  }

  /** Every item of the batch processes. */
  predicate BatchOk(items: seq<Record>) {
    items == [] || (ItemOk(items[0]) && BatchOk(items[1..]))
  }

  lemma {:induction false} BatchOkEach(items: seq<Record>)
    ensures BatchOk(items) <==> forall j :: 0 <= j < |items| ==> ItemOk(items[j])
  {
    if items != [] {
      BatchOkEach(items[1..]);
      if forall j :: 0 <= j < |items| ==> ItemOk(items[j]) {
        forall j | 0 <= j < |items| - 1 ensures ItemOk(items[1..][j]) {
          assert items[1..][j] == items[j + 1];
        }
      }
      if BatchOk(items) {
        forall j | 1 <= j < |items| ensures ItemOk(items[j]) {
          assert items[j] == items[1..][j - 1];
        }
      }
    }
  }

  lemma {:induction false} BatchOkAppend(a: seq<Record>, b: seq<Record>)
    ensures BatchOk(a + b) <==> BatchOk(a) && BatchOk(b)
  {
    if a == [] {
      assert a + b == b;
    } else {
      assert (a + b)[0] == a[0];
      assert (a + b)[1..] == a[1..] + b;
      BatchOkAppend(a[1..], b);
    }
  }

  /** The ack keys of the items before the first one that raises, in item
      order: all of the batch's keys when no item raises. */
  function AckKeys(items: seq<Record>): seq<Value>
  {
    if items == [] || !ItemOk(items[0]) then [] else [AckKey(items[0]).value] + AckKeys(items[1..])
  }

  /** The records yielded for the items before the first one that raises,
      in item order. */
  function Shapes(items: seq<Record>): seq<Record>
  {
    if items == [] || !ItemOk(items[0]) then [] else [Shape(items[0]).value] + Shapes(items[1..])
  }

  lemma {:induction false} AckKeysIndex(items: seq<Record>)
    requires BatchOk(items)
    ensures |AckKeys(items)| == |items| && |Shapes(items)| == |items|
    ensures forall j :: 0 <= j < |items| ==>
      ItemOk(items[j]) && AckKeys(items)[j] == AckKey(items[j]).value && Shapes(items)[j] == Shape(items[j]).value
  {
    BatchOkEach(items);
    if items != [] {
      AckKeysIndex(items[1..]);
      forall j | 1 <= j < |items|
        ensures AckKeys(items)[j] == AckKey(items[j]).value
        ensures Shapes(items)[j] == Shape(items[j]).value
      {
        assert items[j] == items[1..][j - 1];
      }
    }
  }

  lemma {:induction false} ShapesAppend(a: seq<Record>, b: seq<Record>)
    requires BatchOk(a)
    ensures Shapes(a + b) == Shapes(a) + Shapes(b)
  {
    if a == [] {
      assert a + b == b;
    } else {
      assert (a + b)[0] == a[0];
      assert (a + b)[1..] == a[1..] + b;
      ShapesAppend(a[1..], b);
    }
  }

  // ---------------------------------------------------------------------
  // Reference definition of a session

  /** The per-item loop of one batch: each item's ack key is taken, then the
      shaped item is yielded; the first item that raises ends the generator. */
  function ItemEvents(items: seq<Record>): seq<Event> {
    if items == [] then []
    else match AckKey(items[0])
      case Err(e) => [Fail(e)]
      case Ok(_) =>
        match Shape(items[0])
        case Err(e) => [Fail(e)]
        case Ok(row) => [Yield(row)] + ItemEvents(items[1..])
  }

  /** One batch: its items, then one ack carrying their keys when the batch
      was non-empty and no item raised. */
  function BatchEvents(device: Value, items: seq<Record>): seq<Event> {
    ItemEvents(items) + if items != [] && BatchOk(items) then [SyncAck(device, AckKeys(items))] else []
  }

  /** Fetches `n`, `n+1`, ... of a session: fetch, process the batch, and
      stop after an empty batch or an item that raised. Batch `n` is
      `PageAt(batches, n)`, empty past the end of the oracle. */
  function Fetches(device: Value, sid: Value, batches: seq<seq<Record>>, n: nat): seq<Event>
    requires n >= 1
    decreases |batches| + 1 - n
  {
    var items := PageAt(batches, n);
    [SyncFetch(device, sid)] + BatchEvents(device, items)
    + if items == [] || !BatchOk(items) then [] else Fetches(device, sid, batches, n + 1)
  }

  /** Whether `start` returned a session with an "id". */
  predicate Started(session: Option<Record>) {
    session.Some? && "id" in session.value
  }

  /** The whole trace of `get_records` for the resolved device UUID. */
  function Session(device: Value, session: Option<Record>, batches: seq<seq<Record>>): seq<Event> {
    [SyncStart(device)] + if Started(session) then Fetches(device, session.value["id"], batches, 1) else []
  }

  // ---------------------------------------------------------------------
  // Properties of a session

  /** Without a usable session nothing is fetched, yielded or acknowledged. */
  lemma NoSession(device: Value, session: Option<Record>, batches: seq<seq<Record>>)
    requires !Started(session)
    ensures Session(device, session, batches) == [SyncStart(device)]
    ensures Rows(Session(device, session, batches)) == []
    ensures Acks(Session(device, session, batches)) == []
    ensures FetchCalls(Session(device, session, batches)) == []
  {
    assert Session(device, session, batches) == [SyncStart(device)] + [];
    CallAlone(SyncStart(device));
  }

  lemma {:induction false} ItemEventsAllOk(items: seq<Record>)
    requires BatchOk(items)
    ensures ItemEvents(items) == Yields(Shapes(items))
  {
    if items != [] {
      ItemEventsAllOk(items[1..]);
    }
  }

  lemma {:induction false} ItemEventsFailure(items: seq<Record>)
    ensures FailsOnlyLast(ItemEvents(items))
    ensures Acks(ItemEvents(items)) == []
    ensures BatchOk(items) ==> NoFail(ItemEvents(items))
    ensures !BatchOk(items) ==> ItemEvents(items) != [] && ItemEvents(items)[|ItemEvents(items)| - 1].Fail?
  {
    if items != [] {
      ItemEventsFailure(items[1..]);
      assert items == [items[0]] + items[1..];
      BatchOkAppend([items[0]], items[1..]);
      if ItemOk(items[0]) {
        var rest := ItemEvents(items[1..]);
        var head := [Yield(Shape(items[0]).value)];
        assert ItemEvents(items) == head + rest;
        assert NoFail(head);
        FailsOnlyLastAppend(head, rest);
        AcksAppend(head, rest);
        if BatchOk(items[1..]) {
          NoFailAppend(head, rest);
        }
      }
    }
  }

  /** One complete round of the loop: fetch a batch, yield its items, ack
      their keys. */
  function Round(device: Value, sid: Value, items: seq<Record>): seq<Event> {
    [SyncFetch(device, sid)] + ItemEvents(items) + [SyncAck(device, AckKeys(items))]
  }

  /** The last fetch of a session: its batch is empty or one of its items
      raises, and nothing is acknowledged. */
  lemma LastFetch(device: Value, sid: Value, batches: seq<seq<Record>>, n: nat)
    requires n >= 1
    requires PageAt(batches, n) == [] || !BatchOk(PageAt(batches, n))
    ensures Fetches(device, sid, batches, n) == [SyncFetch(device, sid)] + ItemEvents(PageAt(batches, n))
  {
    var items := PageAt(batches, n);
    assert BatchEvents(device, items) == ItemEvents(items) + [];
    assert Fetches(device, sid, batches, n) == [SyncFetch(device, sid)] + ItemEvents(items) + [];
  }

  /** A fetch of a non-empty batch whose items all process is a complete
      round, followed by the next fetches. */
  lemma RoundFetch(device: Value, sid: Value, batches: seq<seq<Record>>, n: nat)
    requires n >= 1 && PageAt(batches, n) != [] && BatchOk(PageAt(batches, n))
    ensures Fetches(device, sid, batches, n) == Round(device, sid, PageAt(batches, n)) + Fetches(device, sid, batches, n + 1)
  {
    var items := PageAt(batches, n);
    var head := [SyncFetch(device, sid)];
    var ack := [SyncAck(device, AckKeys(items))];
    assert Fetches(device, sid, batches, n) == head + (ItemEvents(items) + ack) + Fetches(device, sid, batches, n + 1);
    assert head + (ItemEvents(items) + ack) == Round(device, sid, items);
  }

  /** An empty batch ends the session with its fetch alone. */
  lemma EmptyBatchFetch(device: Value, sid: Value, batches: seq<seq<Record>>, n: nat)
    requires n >= 1 && PageAt(batches, n) == []
    ensures Fetches(device, sid, batches, n) == [SyncFetch(device, sid)]
    ensures DrainFrom(batches, n) == [] && FullFrom(batches, n) == 0
    ensures AcksFrom(device, batches, n) == []
  {
    LastFetch(device, sid, batches, n);
    assert [SyncFetch(device, sid)] + ItemEvents([]) == [SyncFetch(device, sid)];
  }

  /** A non-empty batch drained without a raise processes, and so do the
      batches after it. */
  lemma DrainedBatch(batches: seq<seq<Record>>, n: nat)
    requires n >= 1 && PageAt(batches, n) != [] && BatchOk(DrainFrom(batches, n))
    ensures BatchOk(PageAt(batches, n)) && BatchOk(DrainFrom(batches, n + 1))
  {
    FullPageDrain(batches, n);
    BatchOkAppend(PageAt(batches, n), DrainFrom(batches, n + 1));
  }

  lemma RoundRows(device: Value, sid: Value, items: seq<Record>)
    requires BatchOk(items)
    ensures Rows(Round(device, sid, items)) == Shapes(items)
  {
    var head := [SyncFetch(device, sid)];
    var ys := ItemEvents(items);
    var ack := [SyncAck(device, AckKeys(items))];
    assert Rows(ys) == Shapes(items) by {
      ItemEventsAllOk(items);
      YieldsOnlyRows(Shapes(items));
    }
    assert Rows(head) == [] && Rows(ack) == [] by {
      CallAlone(SyncFetch(device, sid));
      CallAlone(SyncAck(device, AckKeys(items)));
    }
    assert Rows(head + ys + ack) == Rows(head + ys) + Rows(ack) by { RowsAppend(head + ys, ack); }
    assert Rows(head + ys) == Rows(head) + Rows(ys) by { RowsAppend(head, ys); }
  }

  lemma RoundAcks(device: Value, sid: Value, items: seq<Record>)
    requires BatchOk(items)
    ensures Acks(Round(device, sid, items)) == [SyncAck(device, AckKeys(items))]
    ensures NoFail(Round(device, sid, items))
  {
    var head := [SyncFetch(device, sid)];
    var ys := ItemEvents(items);
    var ack := [SyncAck(device, AckKeys(items))];
    assert Acks(ys) == [] && NoFail(ys) by { ItemEventsFailure(items); }
    assert Acks(head) == [] && Acks(ack) == ack;
    assert NoFail(head) && NoFail(ack);
    assert Acks(head + ys + ack) == Acks(head + ys) + Acks(ack) by { AcksAppend(head + ys, ack); }
    assert Acks(head + ys) == Acks(head) + Acks(ys) by { AcksAppend(head, ys); }
    NoFailAppend(head, ys);
    NoFailAppend(head + ys, ack);
  }

  lemma RoundFetchCalls(device: Value, sid: Value, items: seq<Record>)
    requires BatchOk(items)
    ensures FetchCalls(Round(device, sid, items)) == [SyncFetch(device, sid)]
  {
    var head := [SyncFetch(device, sid)];
    var ys := ItemEvents(items);
    var ack := [SyncAck(device, AckKeys(items))];
    assert FetchCalls(ys) == [] by {
      ItemEventsAllOk(items);
      YieldsOnlyRows(Shapes(items));
    }
    assert FetchCalls(head) == head && FetchCalls(ack) == [] by {
      CallAlone(SyncFetch(device, sid));
      CallAlone(SyncAck(device, AckKeys(items)));
    }
    assert FetchCalls(head + ys + ack) == FetchCalls(head + ys) + FetchCalls(ack) by { FetchCallsAppend(head + ys, ack); }
    assert FetchCalls(head + ys) == FetchCalls(head) + FetchCalls(ys) by { FetchCallsAppend(head, ys); }
  }

  // Each property of the fetches is proved by induction on the fetch
  // number; the step over a complete round is a lemma of its own whose
  // `requires` is the property of the next fetches.

  /** The records yielded: the shaped items of the drained batches. */
  lemma FullBatchRows(device: Value, sid: Value, batches: seq<seq<Record>>, n: nat)
    requires n >= 1 && PageAt(batches, n) != [] && BatchOk(PageAt(batches, n))
    requires Rows(Fetches(device, sid, batches, n + 1)) == Shapes(DrainFrom(batches, n + 1))
    ensures Rows(Fetches(device, sid, batches, n)) == Shapes(DrainFrom(batches, n))
  {
    var items := PageAt(batches, n);
    var next := Fetches(device, sid, batches, n + 1);
    assert Fetches(device, sid, batches, n) == Round(device, sid, items) + next by { RoundFetch(device, sid, batches, n); }
    assert Rows(Round(device, sid, items) + next) == Shapes(items) + Rows(next) by {
      RowsAppend(Round(device, sid, items), next);
      RoundRows(device, sid, items);
    }
    assert DrainFrom(batches, n) == items + DrainFrom(batches, n + 1) by { FullPageDrain(batches, n); }
    ShapesAppend(items, DrainFrom(batches, n + 1));
  }

  lemma {:induction false} FetchesRows(device: Value, sid: Value, batches: seq<seq<Record>>, n: nat)
    requires n >= 1
    requires BatchOk(DrainFrom(batches, n))
    ensures Rows(Fetches(device, sid, batches, n)) == Shapes(DrainFrom(batches, n))
    decreases |batches| + 1 - n
  {
    if PageAt(batches, n) == [] {
      EmptyBatchFetch(device, sid, batches, n);
      CallAlone(SyncFetch(device, sid));
    } else {
      DrainedBatch(batches, n);
      assert Rows(Fetches(device, sid, batches, n + 1)) == Shapes(DrainFrom(batches, n + 1)) by {
        FetchesRows(device, sid, batches, n + 1);
      }
      FullBatchRows(device, sid, batches, n);
    }
  }

  /** The acknowledgements made from fetch `n` on when no item raises: one
      per non-empty batch, carrying that batch's keys. */
  function AcksFrom(device: Value, batches: seq<seq<Record>>, n: nat): seq<Event>
    requires n >= 1
    decreases |batches| + 1 - n
  {
    var items := PageAt(batches, n);
    if items == [] then [] else [SyncAck(device, AckKeys(items))] + AcksFrom(device, batches, n + 1)
  }

  lemma FullBatchAcks(device: Value, sid: Value, batches: seq<seq<Record>>, n: nat)
    requires n >= 1 && PageAt(batches, n) != [] && BatchOk(PageAt(batches, n))
    requires Acks(Fetches(device, sid, batches, n + 1)) == AcksFrom(device, batches, n + 1)
    ensures Acks(Fetches(device, sid, batches, n)) == AcksFrom(device, batches, n)
  {
    var items := PageAt(batches, n);
    var next := Fetches(device, sid, batches, n + 1);
    assert Fetches(device, sid, batches, n) == Round(device, sid, items) + next by { RoundFetch(device, sid, batches, n); }
    assert Acks(Round(device, sid, items) + next) == [SyncAck(device, AckKeys(items))] + Acks(next) by {
      AcksAppend(Round(device, sid, items), next);
      RoundAcks(device, sid, items);
    }
  }

  lemma {:induction false} FetchesAcks(device: Value, sid: Value, batches: seq<seq<Record>>, n: nat)
    requires n >= 1
    requires BatchOk(DrainFrom(batches, n))
    ensures Acks(Fetches(device, sid, batches, n)) == AcksFrom(device, batches, n)
    decreases |batches| + 1 - n
  {
    if PageAt(batches, n) == [] {
      EmptyBatchFetch(device, sid, batches, n);
      CallAlone(SyncFetch(device, sid));
    } else {
      DrainedBatch(batches, n);
      assert Acks(Fetches(device, sid, batches, n + 1)) == AcksFrom(device, batches, n + 1) by {
        FetchesAcks(device, sid, batches, n + 1);
      }
      FullBatchAcks(device, sid, batches, n);
    }
  }

  lemma FullBatchNoFail(device: Value, sid: Value, batches: seq<seq<Record>>, n: nat)
    requires n >= 1 && PageAt(batches, n) != [] && BatchOk(PageAt(batches, n))
    requires NoFail(Fetches(device, sid, batches, n + 1))
    ensures NoFail(Fetches(device, sid, batches, n))
  {
    var items := PageAt(batches, n);
    var next := Fetches(device, sid, batches, n + 1);
    assert Fetches(device, sid, batches, n) == Round(device, sid, items) + next by { RoundFetch(device, sid, batches, n); }
    assert NoFail(Round(device, sid, items)) by { RoundAcks(device, sid, items); }
    NoFailAppend(Round(device, sid, items), next);
  }

  lemma {:induction false} FetchesNoFail(device: Value, sid: Value, batches: seq<seq<Record>>, n: nat)
    requires n >= 1
    requires BatchOk(DrainFrom(batches, n))
    ensures NoFail(Fetches(device, sid, batches, n))
    decreases |batches| + 1 - n
  {
    if PageAt(batches, n) == [] {
      EmptyBatchFetch(device, sid, batches, n);
      CallAlone(SyncFetch(device, sid));
    } else {
      DrainedBatch(batches, n);
      assert NoFail(Fetches(device, sid, batches, n + 1)) by {
        FetchesNoFail(device, sid, batches, n + 1);
      }
      FullBatchNoFail(device, sid, batches, n);
    }
  }

  lemma FullBatchFetchCalls(device: Value, sid: Value, batches: seq<seq<Record>>, n: nat, count: nat)
    requires n >= 1 && PageAt(batches, n) != [] && BatchOk(PageAt(batches, n))
    requires count == FullFrom(batches, n) + 1
    requires FetchCalls(Fetches(device, sid, batches, n + 1)) == Copies(SyncFetch(device, sid), count - 1)
    ensures FetchCalls(Fetches(device, sid, batches, n)) == Copies(SyncFetch(device, sid), count)
  {
    var items := PageAt(batches, n);
    var next := Fetches(device, sid, batches, n + 1);
    assert Fetches(device, sid, batches, n) == Round(device, sid, items) + next by { RoundFetch(device, sid, batches, n); }
    assert FetchCalls(Round(device, sid, items) + next) == [SyncFetch(device, sid)] + FetchCalls(next) by {
      FetchCallsAppend(Round(device, sid, items), next);
      RoundFetchCalls(device, sid, items);
    }
  }

  lemma EmptyBatchFetchCalls(device: Value, sid: Value, batches: seq<seq<Record>>, n: nat)
    requires n >= 1 && PageAt(batches, n) == []
    ensures FullFrom(batches, n) == 0
    ensures FetchCalls(Fetches(device, sid, batches, n)) == Copies(SyncFetch(device, sid), 1)
  {
    EmptyBatchFetch(device, sid, batches, n);
    CallAlone(SyncFetch(device, sid));
    assert Copies(SyncFetch(device, sid), 1) == [SyncFetch(device, sid)] + [];
  }

  /** Fetch `n` and every fetch after it up to the first empty batch, one
      call per batch drained and one for the empty batch. */
  lemma {:induction false} FetchesFetchCalls(device: Value, sid: Value, batches: seq<seq<Record>>, n: nat, count: nat)
    requires n >= 1 && count == FullFrom(batches, n) + 1
    requires BatchOk(DrainFrom(batches, n))
    ensures FetchCalls(Fetches(device, sid, batches, n)) == Copies(SyncFetch(device, sid), count)
    decreases |batches| + 1 - n
  {
    if PageAt(batches, n) == [] {
      EmptyBatchFetchCalls(device, sid, batches, n);
    } else {
      DrainedBatch(batches, n);
      assert count - 1 == FullFrom(batches, n + 1) + 1 by { FullPageDrain(batches, n); }
      assert FetchCalls(Fetches(device, sid, batches, n + 1)) == Copies(SyncFetch(device, sid), count - 1) by {
        FetchesFetchCalls(device, sid, batches, n + 1, count - 1);
      }
      FullBatchFetchCalls(device, sid, batches, n, count);
    }
  }

  /** When no drained item raises: the records yielded are the shaped items
      of the batches before the first empty one, in fetch order; there is
      one ack per non-empty batch with exactly its keys; nothing raises. */
  lemma SessionOutput(device: Value, session: Option<Record>, batches: seq<seq<Record>>)
    requires Started(session) && BatchOk(Drain(batches))
    ensures Rows(Session(device, session, batches)) == Shapes(Drain(batches))
    ensures Acks(Session(device, session, batches)) == AcksFrom(device, batches, 1)
    ensures NoFail(Session(device, session, batches))
  {
    var head := [SyncStart(device)];
    var sid := session.value["id"];
    var rest := Fetches(device, sid, batches, 1);
    assert Session(device, session, batches) == head + rest;
    CallAlone(SyncStart(device));
    assert Rows(head + rest) == Shapes(Drain(batches)) by {
      FetchesRows(device, sid, batches, 1);
      RowsAppend(head, rest);
    }
    assert Acks(head + rest) == AcksFrom(device, batches, 1) by {
      FetchesAcks(device, sid, batches, 1);
      AcksAppend(head, rest);
    }
    assert NoFail(head + rest) by {
      FetchesNoFail(device, sid, batches, 1);
      NoFailAppend(head, rest);
    }
  }

  /** One fetch per batch before the first empty one, one more for the
      empty batch, each with the device and the id of the session. */
  lemma SessionFetches(device: Value, session: Option<Record>, batches: seq<seq<Record>>)
    requires Started(session) && BatchOk(Drain(batches))
    ensures FetchCalls(Session(device, session, batches))
      == Copies(SyncFetch(device, session.value["id"]), FullPages(batches) + 1)
  {
    var head := [SyncStart(device)];
    var sid := session.value["id"];
    var rest := Fetches(device, sid, batches, 1);
    assert Session(device, session, batches) == head + rest;
    assert FetchCalls(head) == [] by { CallAlone(SyncStart(device)); }
    assert FetchCalls(rest) == Copies(SyncFetch(device, sid), FullPages(batches) + 1) by {
      FetchesFetchCalls(device, sid, batches, 1, FullPages(batches) + 1);
    }
    FetchCallsAppend(head, rest);
  }

  /** The number of acks from fetch `n` on is the number of non-empty
      batches before the first empty one. */
  lemma {:induction false} AcksFromLength(device: Value, batches: seq<seq<Record>>, n: nat)
    requires n >= 1
    ensures |AcksFrom(device, batches, n)| == FullFrom(batches, n)
    decreases |batches| + 1 - n
  {
    if PageAt(batches, n) != [] {
      AcksFromFirst(device, batches, n);
      assert |AcksFrom(device, batches, n + 1)| == FullFrom(batches, n + 1) by {
        AcksFromLength(device, batches, n + 1);
      }
    }
  }

  /** The acks from a non-empty batch on start with that batch's ack. */
  lemma AcksFromFirst(device: Value, batches: seq<seq<Record>>, n: nat)
    requires n >= 1 && PageAt(batches, n) != []
    ensures n <= |batches| && PageAt(batches, n) == batches[n - 1]
    ensures AcksFrom(device, batches, n) == [SyncAck(device, AckKeys(batches[n - 1]))] + AcksFrom(device, batches, n + 1)
    ensures FullFrom(batches, n) == FullFrom(batches, n + 1) + 1
  {
  }

  /** The `j`-th ack from fetch `n` on acknowledges batch `n + j`, which is
      `batches[k]`. */
  lemma {:induction false} AcksFromAt(device: Value, batches: seq<seq<Record>>, n: nat, j: nat, k: nat)
    requires n >= 1 && k == n - 1 + j
    requires j < FullFrom(batches, n)
    ensures k < |batches|
    ensures j < |AcksFrom(device, batches, n)|
    ensures AcksFrom(device, batches, n)[j] == SyncAck(device, AckKeys(batches[k]))
    decreases j
  {
    assert PageAt(batches, n) != [];
    AcksFromFirst(device, batches, n);
    if j > 0 {
      AcksFromAt(device, batches, n + 1, j - 1, k);
    }
  }

  /** Every batch drained from fetch `n` on processes when their items do. */
  lemma {:induction false} DrainedBatchOk(batches: seq<seq<Record>>, n: nat, j: nat)
    requires n >= 1
    requires BatchOk(DrainFrom(batches, n))
    requires j < FullFrom(batches, n)
    ensures n - 1 + j < |batches| && BatchOk(batches[n - 1 + j])
    decreases j
  {
    assert PageAt(batches, n) != [];
    if j == 0 {
      assert n <= |batches| && PageAt(batches, n) == batches[n - 1];
      DrainedBatch(batches, n);
    } else {
      assert BatchOk(DrainFrom(batches, n + 1)) && j - 1 < FullFrom(batches, n + 1) by {
        DrainedBatch(batches, n);
        FullPageDrain(batches, n);
      }
      DrainedBatchOk(batches, n + 1, j - 1);
    }
  }

  /** `ack` acknowledges the whole of a batch whose items all process: one
      key per item, each item's ack key at the item's position. */
  predicate AcksBatch(ack: Event, device: Value, items: seq<Record>) {
    BatchOk(items) && ack == SyncAck(device, AckKeys(items))
    && |AckKeys(items)| == |items|
    && forall m :: 0 <= m < |items| ==> ItemOk(items[m]) && AckKeys(items)[m] == AckKey(items[m]).value
  }

  /** The ack of a batch whose items all process carries their keys. */
  lemma BatchAcked(device: Value, items: seq<Record>)
    requires BatchOk(items)
    ensures AcksBatch(SyncAck(device, AckKeys(items)), device, items)
  {
    AckKeysIndex(items);
  }

  /** The `j`-th ack of a session without a raise acknowledges batch `j`. */
  lemma DrainedAckAt(device: Value, batches: seq<seq<Record>>, j: nat)
    requires BatchOk(Drain(batches)) && j < FullPages(batches)
    ensures j < |batches| && j < |AcksFrom(device, batches, 1)|
    ensures AcksBatch(AcksFrom(device, batches, 1)[j], device, batches[j])
  {
    AcksFromAt(device, batches, 1, j, j);
    DrainedBatchOk(batches, 1, j);
    BatchAcked(device, batches[j]);
  }

  /** One ack per batch before the first empty one, the j-th carrying
      exactly the ack keys of batch j, which are its items' keys in order;
      no ack for the empty batch. */
  lemma SessionAcks(device: Value, session: Option<Record>, batches: seq<seq<Record>>)
    requires Started(session) && BatchOk(Drain(batches))
    ensures |Acks(Session(device, session, batches))| == FullPages(batches) <= |batches|
    ensures forall j :: 0 <= j < FullPages(batches) ==>
      AcksBatch(Acks(Session(device, session, batches))[j], device, batches[j])
  {
    var acks := Acks(Session(device, session, batches));
    assert acks == AcksFrom(device, batches, 1) by { SessionOutput(device, session, batches); }
    assert |acks| == FullPages(batches) by { AcksFromLength(device, batches, 1); }
    FullFromBounds(batches, 1);
    forall j | 0 <= j < FullPages(batches)
      ensures AcksBatch(acks[j], device, batches[j])
    {
      DrainedAckAt(device, batches, j);
    }
  }

  /** An item's exception, if any, is the last event of the fetches. */
  lemma LastFetchFailsOnlyLast(device: Value, sid: Value, batches: seq<seq<Record>>, n: nat)
    requires n >= 1
    requires PageAt(batches, n) == [] || !BatchOk(PageAt(batches, n))
    ensures FailsOnlyLast(Fetches(device, sid, batches, n))
  {
    var items := PageAt(batches, n);
    LastFetch(device, sid, batches, n);
    assert FailsOnlyLast(ItemEvents(items)) by { ItemEventsFailure(items); }
    CallAlone(SyncFetch(device, sid));
    FailsOnlyLastAppend([SyncFetch(device, sid)], ItemEvents(items));
  }

  lemma FullBatchFailsOnlyLast(device: Value, sid: Value, batches: seq<seq<Record>>, n: nat)
    requires n >= 1 && PageAt(batches, n) != [] && BatchOk(PageAt(batches, n))
    requires FailsOnlyLast(Fetches(device, sid, batches, n + 1))
    ensures FailsOnlyLast(Fetches(device, sid, batches, n))
  {
    var items := PageAt(batches, n);
    var next := Fetches(device, sid, batches, n + 1);
    assert Fetches(device, sid, batches, n) == Round(device, sid, items) + next by { RoundFetch(device, sid, batches, n); }
    assert NoFail(Round(device, sid, items)) by { RoundAcks(device, sid, items); }
    FailsOnlyLastAppend(Round(device, sid, items), next);
  }

  lemma {:induction false} FetchesFailure(device: Value, sid: Value, batches: seq<seq<Record>>, n: nat)
    requires n >= 1
    ensures FailsOnlyLast(Fetches(device, sid, batches, n))
    decreases |batches| + 1 - n
  {
    if PageAt(batches, n) == [] || !BatchOk(PageAt(batches, n)) {
      LastFetchFailsOnlyLast(device, sid, batches, n);
    } else {
      assert FailsOnlyLast(Fetches(device, sid, batches, n + 1)) by {
        FetchesFailure(device, sid, batches, n + 1);
      }
      FullBatchFailsOnlyLast(device, sid, batches, n);
    }
  }

  /** An exception, if any, is the last event of a session. */
  lemma SessionFailsOnlyLast(device: Value, session: Option<Record>, batches: seq<seq<Record>>)
    ensures FailsOnlyLast(Session(device, session, batches))
  {
    var head := [SyncStart(device)];
    CallAlone(SyncStart(device));
    if Started(session) {
      var rest := Fetches(device, session.value["id"], batches, 1);
      assert Session(device, session, batches) == head + rest;
      assert FailsOnlyLast(rest) by { FetchesFailure(device, session.value["id"], batches, 1); }
      FailsOnlyLastAppend(head, rest);
    } else {
      assert Session(device, session, batches) == head + [];
    }
  }

  /** Every acknowledgement in the trace comes right after the yields of
      the records that carry exactly its keys, in order. */
  predicate AckedAfterYields(t: seq<Event>) {
    forall i :: 0 <= i < |t| && t[i].SyncAck? ==>
      |t[i].keys| <= i && YieldsCarrying(t[i - |t[i].keys|..i], t[i].keys)
  }

  predicate YieldsCarrying(w: seq<Event>, keys: seq<Value>) {
    |w| == |keys| && forall j :: 0 <= j < |w| ==> w[j].Yield? && AckKey(w[j].row) == Ok(keys[j])
  }

  predicate NoAck(t: seq<Event>) {
    forall i :: 0 <= i < |t| ==> !t[i].SyncAck?
  }

  lemma AckedAfterYieldsAppend(a: seq<Event>, b: seq<Event>)
    requires AckedAfterYields(a) && AckedAfterYields(b)
    ensures AckedAfterYields(a + b)
  {
    var t := a + b;
    forall i | 0 <= i < |t| && t[i].SyncAck?
      ensures |t[i].keys| <= i && YieldsCarrying(t[i - |t[i].keys|..i], t[i].keys)
    {
      if i < |a| {
        assert t[i] == a[i];
        assert t[i - |t[i].keys|..i] == a[i - |a[i].keys|..i];
      } else {
        var k := i - |a|;
        assert t[i] == b[k];
        assert t[i - |t[i].keys|..i] == b[k - |b[k].keys|..k];
      }
    }
  }

  /** The yields of a processed batch carry exactly its ack keys. */
  lemma {:induction false} ItemsCarryKeys(items: seq<Record>)
    requires BatchOk(items)
    ensures YieldsCarrying(ItemEvents(items), AckKeys(items))
  {
    if items != [] {
      ItemsCarryKeys(items[1..]);
      var w := ItemEvents(items);
      var rest := ItemEvents(items[1..]);
      assert w == [Yield(Shape(items[0]).value)] + rest;
      ShapeKeepsAckKey(items[0]);
      forall j | 1 <= j < |w| ensures w[j].Yield? && AckKey(w[j].row) == Ok(AckKeys(items)[j]) {
        assert w[j] == rest[j - 1];
        assert AckKeys(items)[j] == AckKeys(items[1..])[j - 1];
      }
    }
  }

  /** An ack right after yields carrying its keys is acknowledged properly. */
  lemma AckAfterCarrying(ys: seq<Event>, ack: Event)
    requires ack.SyncAck? && YieldsCarrying(ys, ack.keys)
    ensures AckedAfterYields(ys + [ack])
  {
    var t := ys + [ack];
    assert t[|ys| - |ack.keys|..|ys|] == ys;
    forall i | 0 <= i < |t| && t[i].SyncAck?
      ensures |t[i].keys| <= i && YieldsCarrying(t[i - |t[i].keys|..i], t[i].keys)
    {
    }
  }

  lemma {:induction false} ItemEventsOnlyYieldOrFail(items: seq<Record>)
    ensures forall i :: 0 <= i < |ItemEvents(items)| ==> ItemEvents(items)[i].Yield? || ItemEvents(items)[i].Fail?
  {
    if items != [] {
      ItemEventsOnlyYieldOrFail(items[1..]);
    }
  }

  lemma RoundAckedAfterYields(device: Value, sid: Value, items: seq<Record>)
    requires BatchOk(items)
    ensures AckedAfterYields(Round(device, sid, items))
  {
    var head := [SyncFetch(device, sid)];
    var ys := ItemEvents(items);
    var ack := SyncAck(device, AckKeys(items));
    assert Round(device, sid, items) == head + (ys + [ack]);
    assert AckedAfterYields(head);
    assert AckedAfterYields(ys + [ack]) by {
      ItemsCarryKeys(items);
      AckAfterCarrying(ys, ack);
    }
    AckedAfterYieldsAppend(head, ys + [ack]);
  }

  lemma LastFetchAcked(device: Value, sid: Value, batches: seq<seq<Record>>, n: nat)
    requires n >= 1
    requires PageAt(batches, n) == [] || !BatchOk(PageAt(batches, n))
    ensures AckedAfterYields(Fetches(device, sid, batches, n))
  {
    var items := PageAt(batches, n);
    LastFetch(device, sid, batches, n);
    assert NoAck([SyncFetch(device, sid)] + ItemEvents(items)) by { ItemEventsOnlyYieldOrFail(items); }
  }

  lemma FullBatchAcked(device: Value, sid: Value, batches: seq<seq<Record>>, n: nat)
    requires n >= 1 && PageAt(batches, n) != [] && BatchOk(PageAt(batches, n))
    requires AckedAfterYields(Fetches(device, sid, batches, n + 1))
    ensures AckedAfterYields(Fetches(device, sid, batches, n))
  {
    var items := PageAt(batches, n);
    var next := Fetches(device, sid, batches, n + 1);
    assert Fetches(device, sid, batches, n) == Round(device, sid, items) + next by { RoundFetch(device, sid, batches, n); }
    assert AckedAfterYields(Round(device, sid, items)) by { RoundAckedAfterYields(device, sid, items); }
    AckedAfterYieldsAppend(Round(device, sid, items), next);
  }

  lemma {:induction false} FetchesAckedAfterYields(device: Value, sid: Value, batches: seq<seq<Record>>, n: nat)
    requires n >= 1
    ensures AckedAfterYields(Fetches(device, sid, batches, n))
    decreases |batches| + 1 - n
  {
    if PageAt(batches, n) == [] || !BatchOk(PageAt(batches, n)) {
      LastFetchAcked(device, sid, batches, n);
    } else {
      assert AckedAfterYields(Fetches(device, sid, batches, n + 1)) by {
        FetchesAckedAfterYields(device, sid, batches, n + 1);
      }
      FullBatchAcked(device, sid, batches, n);
    }
  }

  /** Acknowledge only after yielding: every ack of a session comes right
      after the yields of the records whose ack keys it carries, in order. */
  lemma SessionAckedAfterYields(device: Value, session: Option<Record>, batches: seq<seq<Record>>)
    ensures AckedAfterYields(Session(device, session, batches))
  {
    var head := [SyncStart(device)];
    assert AckedAfterYields(head);
    if Started(session) {
      var rest := Fetches(device, session.value["id"], batches, 1);
      assert Session(device, session, batches) == head + rest;
      assert AckedAfterYields(rest) by { FetchesAckedAfterYields(device, session.value["id"], batches, 1); }
      AckedAfterYieldsAppend(head, rest);
    } else {
      assert Session(device, session, batches) == head + [];
    }
  }

  /** A call of the session made with the device UUID, and a fetch with the
      session id as well. */
  predicate Identified(e: Event, device: Value, sid: Value) {
    (e.SyncStart? ==> e.device == device)
    && (e.SyncFetch? ==> e.device == device && e.session == sid)
    && (e.SyncAck? ==> e.device == device)
  }

  /** Every call of a session uses one device UUID, and every fetch the
      session id that `start` returned. */
  predicate SameIdentity(t: seq<Event>, device: Value, sid: Value) {
    forall i :: 0 <= i < |t| ==> Identified(t[i], device, sid)
  }

  lemma SameIdentityAppend(a: seq<Event>, b: seq<Event>, device: Value, sid: Value)
    requires SameIdentity(a, device, sid) && SameIdentity(b, device, sid)
    ensures SameIdentity(a + b, device, sid)
  {
    forall i | 0 <= i < |a + b| ensures Identified((a + b)[i], device, sid) {
      if i < |a| {
        assert (a + b)[i] == a[i];
      } else {
        assert (a + b)[i] == b[i - |a|];
      }
    }
  }

  lemma LastFetchIdentity(device: Value, sid: Value, batches: seq<seq<Record>>, n: nat)
    requires n >= 1
    requires PageAt(batches, n) == [] || !BatchOk(PageAt(batches, n))
    ensures SameIdentity(Fetches(device, sid, batches, n), device, sid)
  {
    var items := PageAt(batches, n);
    LastFetch(device, sid, batches, n);
    assert SameIdentity(ItemEvents(items), device, sid) by { ItemEventsOnlyYieldOrFail(items); }
    assert SameIdentity([SyncFetch(device, sid)], device, sid);
    SameIdentityAppend([SyncFetch(device, sid)], ItemEvents(items), device, sid);
  }

  lemma FullBatchIdentity(device: Value, sid: Value, batches: seq<seq<Record>>, n: nat)
    requires n >= 1 && PageAt(batches, n) != [] && BatchOk(PageAt(batches, n))
    requires SameIdentity(Fetches(device, sid, batches, n + 1), device, sid)
    ensures SameIdentity(Fetches(device, sid, batches, n), device, sid)
  {
    var items := PageAt(batches, n);
    var next := Fetches(device, sid, batches, n + 1);
    var head := [SyncFetch(device, sid)];
    var ys := ItemEvents(items);
    var ack := [SyncAck(device, AckKeys(items))];
    assert Fetches(device, sid, batches, n) == head + ys + ack + next by { RoundFetch(device, sid, batches, n); }
    assert SameIdentity(ys, device, sid) by { ItemEventsOnlyYieldOrFail(items); }
    assert SameIdentity(head, device, sid) && SameIdentity(ack, device, sid);
    SameIdentityAppend(head, ys, device, sid);
    SameIdentityAppend(head + ys, ack, device, sid);
    SameIdentityAppend(head + ys + ack, next, device, sid);
  }

  lemma {:induction false} FetchesIdentity(device: Value, sid: Value, batches: seq<seq<Record>>, n: nat)
    requires n >= 1
    ensures SameIdentity(Fetches(device, sid, batches, n), device, sid)
    decreases |batches| + 1 - n
  {
    if PageAt(batches, n) == [] || !BatchOk(PageAt(batches, n)) {
      LastFetchIdentity(device, sid, batches, n);
    } else {
      assert SameIdentity(Fetches(device, sid, batches, n + 1), device, sid) by {
        FetchesIdentity(device, sid, batches, n + 1);
      }
      FullBatchIdentity(device, sid, batches, n);
    }
  }

  /** Start, every fetch and every ack use the same device UUID, and every
      fetch uses the id of the session `start` returned. */
  lemma SessionIdentity(device: Value, session: Option<Record>, batches: seq<seq<Record>>)
    requires Started(session)
    ensures SameIdentity(Session(device, session, batches), device, session.value["id"])
  {
    var sid := session.value["id"];
    var head := [SyncStart(device)];
    var rest := Fetches(device, sid, batches, 1);
    assert Session(device, session, batches) == head + rest;
    assert SameIdentity(rest, device, sid) by { FetchesIdentity(device, sid, batches, 1); }
    assert SameIdentity(head, device, sid);
    SameIdentityAppend(head, rest, device, sid);
  }

  // ---------------------------------------------------------------------
  // The generator

  /** `for item in queue_items: ack_keys.append(...); yield {...}`: the
      per-item loop of one batch. `ok` tells whether every item processed;
      `ackKeys` are then the batch's keys in item order. */
  method ProcessItems(items: seq<Record>) returns (events: seq<Event>, ackKeys: seq<Value>, ok: bool)
    ensures events == ItemEvents(items)
    ensures ok <==> BatchOk(items)
    ensures ok ==> ackKeys == AckKeys(items)
  {
    events := [];
    ackKeys := [];
    var i := 0;
    while i < |items|
      invariant 0 <= i <= |items|
      invariant BatchOk(items[..i])
      invariant ackKeys == AckKeys(items[..i])
      invariant events == ItemEvents(items[..i])
    {
      var key := AckKey(items[i]);
      if key.Err? {
        ItemFailureEvents(items, i);
        events := events + [Fail(key.error)];
        ok := false;
        return;
      }
      ackKeys := ackKeys + [key.value];
      var shaped := Shape(items[i]);
      if shaped.Err? {
        ItemFailureEvents(items, i);
        events := events + [Fail(shaped.error)];
        ok := false;
        return;
      }
      ItemTaken(items, i);
      events := events + [Yield(shaped.value)];
      i := i + 1;
    }
    assert items[..|items|] == items;
    ok := true;
  }

  lemma {:induction false} ItemEventsAppend(a: seq<Record>, b: seq<Record>)
    requires BatchOk(a)
    ensures ItemEvents(a + b) == ItemEvents(a) + ItemEvents(b)
  {
    if a == [] {
      assert a + b == b;
    } else {
      assert (a + b)[0] == a[0];
      assert (a + b)[1..] == a[1..] + b;
      ItemEventsAppend(a[1..], b);
    }
  }

  lemma {:induction false} AckKeysSnoc(a: seq<Record>, item: Record)
    requires BatchOk(a) && ItemOk(item)
    ensures BatchOk(a + [item])
    ensures AckKeys(a + [item]) == AckKeys(a) + [AckKey(item).value]
  {
    BatchOkAppend(a, [item]);
    if a == [] {
      assert a + [item] == [item];
    } else {
      assert (a + [item])[0] == a[0];
      assert (a + [item])[1..] == a[1..] + [item];
      AckKeysSnoc(a[1..], item);
    }
  }

  /** Processing one more item extends the keys and the events by that item. */
  lemma ItemTaken(items: seq<Record>, i: nat)
    requires i < |items| && BatchOk(items[..i]) && ItemOk(items[i])
    ensures BatchOk(items[..i + 1])
    ensures AckKeys(items[..i + 1]) == AckKeys(items[..i]) + [AckKey(items[i]).value]
    ensures ItemEvents(items[..i + 1]) == ItemEvents(items[..i]) + [Yield(Shape(items[i]).value)]
  {
    assert items[..i + 1] == items[..i] + [items[i]];
    AckKeysSnoc(items[..i], items[i]);
    ItemEventsAppend(items[..i], [items[i]]);
  }

  /** The first item that raises ends the per-item events with its exception. */
  lemma ItemFailureEvents(items: seq<Record>, i: nat)
    requires i < |items| && BatchOk(items[..i]) && !ItemOk(items[i])
    ensures !BatchOk(items)
    ensures AckKey(items[i]).Err? ==>
      ItemEvents(items) == ItemEvents(items[..i]) + [Fail(AckKey(items[i]).error)]
    ensures AckKey(items[i]).Ok? ==>
      ItemEvents(items) == ItemEvents(items[..i]) + [Fail(Shape(items[i]).error)]
  {
    assert items == items[..i] + items[i..];
    ItemEventsAppend(items[..i], items[i..]);
    assert items[i..][0] == items[i];
    BatchOkAppend(items[..i], items[i..]);
  }

  /** One pass of the `while not finished` loop of `get_records`: `fetch`
      a batch with the device and the session id, yield its items and `ack`
      their keys when there are any. `more` is false when the batch was
      empty (the loop finishes) or an item raised (the generator ends). The
      device UUID is already resolved, so every `get_device_uuid` call
      returns it and leaves the state alone. */
  method FetchBatch(state: ContextState, config: Record, generated: string, ghost device: Value,
                    sid: Value, batches: seq<seq<Record>>, fetch: nat) returns (events: seq<Event>, more: bool)
    modifies state
    requires fetch >= 1
    requires ResolveDevice(state.entries, config, generated) == Resolution(device, state.entries)
    ensures state.entries == old(state.entries)
    ensures more <==> PageAt(batches, fetch) != [] && BatchOk(PageAt(batches, fetch))
    ensures more ==> events == Round(device, sid, PageAt(batches, fetch))
    ensures !more ==> events == [SyncFetch(device, sid)] + ItemEvents(PageAt(batches, fetch))
  {
    var d := GetDeviceUuid(state, config, generated);
    var queueItems := PageAt(batches, fetch);
    events := [SyncFetch(d, sid)];
    var yielded, ackKeys, ok := ProcessItems(queueItems);
    events := events + yielded;
    if !ok {
      return events, false;
    }
    if ackKeys != [] {
      d := GetDeviceUuid(state, config, generated);
      events := events + [SyncAck(d, ackKeys)];
    }
    if queueItems != [] {
      AckKeysIndex(queueItems);
    }
    more := queueItems != [];
  }

  /** After a complete round, the rest of the session is the next fetches. */
  lemma DrainRound(device: Value, sid: Value, batches: seq<seq<Record>>, fetch: nat,
                   events: seq<Event>, whole: seq<Event>)
    requires fetch >= 1 && PageAt(batches, fetch) != [] && BatchOk(PageAt(batches, fetch))
    requires events + Fetches(device, sid, batches, fetch) == whole
    ensures fetch <= |batches|
    ensures events + Round(device, sid, PageAt(batches, fetch)) + Fetches(device, sid, batches, fetch + 1) == whole
  {
    var round := Round(device, sid, PageAt(batches, fetch));
    var next := Fetches(device, sid, batches, fetch + 1);
    assert Fetches(device, sid, batches, fetch) == round + next by { RoundFetch(device, sid, batches, fetch); }
    assert events + (round + next) == events + round + next;
  }

  /** After the last fetch, nothing of the session is left. */
  lemma DrainLast(device: Value, sid: Value, batches: seq<seq<Record>>, fetch: nat,
                  events: seq<Event>, whole: seq<Event>)
    requires fetch >= 1 && (PageAt(batches, fetch) == [] || !BatchOk(PageAt(batches, fetch)))
    requires events + Fetches(device, sid, batches, fetch) == whole
    ensures events + ([SyncFetch(device, sid)] + ItemEvents(PageAt(batches, fetch))) == whole
  {
    LastFetch(device, sid, batches, fetch);
  }

  /** The `while not finished` loop of `get_records`, for a resolved
      device and the id of the started session. */
  method DrainQueue(state: ContextState, config: Record, generated: string, ghost device: Value,
                    sid: Value, batches: seq<seq<Record>>) returns (events: seq<Event>)
    modifies state
    requires ResolveDevice(state.entries, config, generated) == Resolution(device, state.entries)
    ensures state.entries == old(state.entries)
    ensures events == Fetches(device, sid, batches, 1)
  {
    ghost var whole := Fetches(device, sid, batches, 1);
    events := [];
    var finished := false;
    var fetch := 1;
    while !finished
      invariant state.entries == old(state.entries)
      invariant 1 <= fetch <= |batches| + 2
      invariant !finished ==> fetch <= |batches| + 1 && events + Fetches(device, sid, batches, fetch) == whole
      invariant finished ==> events == whole
      decreases |batches| + 2 - fetch
    {
      var round, more := FetchBatch(state, config, generated, device, sid, batches, fetch);
      if more {
        DrainRound(device, sid, batches, fetch, events, whole);
      } else {
        DrainLast(device, sid, batches, fetch, events, whole);
      }
      events := events + round;
      finished := !more;
      fetch := fetch + 1;
    }
  }

  /** `get_records`: resolve the device, `start` the session and, when it
      has an id, fetch, yield and ack one batch after another. Every call
      of `get_device_uuid` returns the device resolved by the first.
      `session` is what `start` returns; batch `n` is what the `n`-th
      `fetch` returns. */
  method GetRecords(state: ContextState, config: Record, session: Option<Record>,
                    batches: seq<seq<Record>>, generated: string) returns (trace: seq<Event>)
    modifies state
    ensures var res := ResolveDevice(old(state.entries), config, generated);
            trace == Session(res.uuid, session, batches) && state.entries == res.entries
  {
    var device := GetDeviceUuid(state, config, generated);
    trace := [SyncStart(device)];
    if session.None? || "id" !in session.value {
      return;
    }
    ResolveIdempotent(old(state.entries), config, generated);
    var events := DrainQueue(state, config, generated, device, session.value["id"], batches);
    trace := trace + events;
  }

  // ---------------------------------------------------------------------
  // Schema

  const DataPropertiesPath: seq<string> := ["properties", "data", "properties"]

  const Description := "Custom fields attached to an event."

  /** `schema`: when the discovered custom fields are non-empty,
      `base_schema["properties"]["data"]["properties"]["custom_fields"]`
      becomes their object schema; otherwise the base schema is returned as
      it is. */
  function Schema(base: Record, discovered: Record): (r: Result<Record, Error>)
    ensures discovered == map[] ==> r == Ok(base)
    ensures discovered != map[] ==> (r.Ok? <==> Descend(base, DataPropertiesPath).Ok?)
    ensures discovered != map[] && r.Err? ==> r.error == Descend(base, DataPropertiesPath).error
    ensures discovered != map[] && r.Ok? ==>
      Descend(r.value, DataPropertiesPath)
        == Ok(Descend(base, DataPropertiesPath).value["custom_fields" := CustomFieldsSchema(discovered, Description)])
      && r.value.Keys == base.Keys
      && forall k :: k in base && k != "properties" ==> r.value[k] == base[k]
  {
    MergeCustomFields(base, DataPropertiesPath, discovered, CustomFieldsSchema(discovered, Description))
  }
}
