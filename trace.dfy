/** The observable side effects of a stream's record generator, in the order
    they happen: calls into the CRM client, rows handed to the framework, and
    the exception that ends the generator, if any. */
module Trace {
  import opened Values

  datatype Event =
    /** `self.conn.<resource>.list(**params)`: one page request. */
    | List(resource: string, params: Record)
    /** The SDK's own paginated `request_records(context)`. */
    | RequestRecords(context: Record)
    /** `self.conn.sync.start(device)`. */
    | SyncStart(device: Value)
    /** `self.conn.sync.fetch(device, session)`. */
    | SyncFetch(device: Value, session: Value)
    /** `self.conn.sync.ack(device, keys)`. */
    | SyncAck(device: Value, keys: seq<Value>)
    /** `yield row`. */
    | Yield(row: Record)
    /** An exception escapes the generator; nothing follows it. */
    | Fail(error: Error)

  /** The rows yielded, in order. */
  function Rows(t: seq<Event>): (rows: seq<Record>)
    ensures |rows| <= |t|
  {
    if t == [] then []
    else (if t[0].Yield? then [t[0].row] else []) + Rows(t[1..])
  }

  /** The page requests made, in order. */
  function Requests(t: seq<Event>): (reqs: seq<Event>)
    ensures |reqs| <= |t|
  {
    if t == [] then []
    else (if t[0].List? then [t[0]] else []) + Requests(t[1..])
  }

  /** The sync acknowledgements made, in order. */
  function Acks(t: seq<Event>): (acks: seq<Event>)
    ensures |acks| <= |t|
  {
    if t == [] then []
    else (if t[0].SyncAck? then [t[0]] else []) + Acks(t[1..])
  }

  /** The sync fetches made, in order. */
  function FetchCalls(t: seq<Event>): (fetches: seq<Event>)
    ensures |fetches| <= |t|
  {
    if t == [] then []
    else (if t[0].SyncFetch? then [t[0]] else []) + FetchCalls(t[1..])
  }

  /** A trace that yields the given rows and does nothing else. */
  function Yields(rows: seq<Record>): (t: seq<Event>)
    ensures |t| == |rows|
    ensures forall i :: 0 <= i < |rows| ==> t[i] == Yield(rows[i])
  {
    if rows == [] then [] else [Yield(rows[0])] + Yields(rows[1..])
  }

  /** `count` copies of one call. */
  function Copies(call: Event, count: nat): (t: seq<Event>)
    ensures |t| == count
    ensures forall i :: 0 <= i < count ==> t[i] == call
  {
    if count == 0 then [] else [call] + Copies(call, count - 1)
  }

  lemma YieldsSnoc(rows: seq<Record>, row: Record)
    ensures Yields(rows + [row]) == Yields(rows) + [Yield(row)]
  {
    var a := Yields(rows + [row]);
    var b := Yields(rows) + [Yield(row)];
    assert |a| == |b|;
    forall i | 0 <= i < |a| ensures a[i] == b[i] {
      if i < |rows| {
        assert (rows + [row])[i] == rows[i];
      }
    }
  }

  /** An exception, if one is raised, is the last thing that happens. */
  predicate FailsOnlyLast(t: seq<Event>) {
    forall i :: 0 <= i < |t| - 1 ==> !t[i].Fail?
  }

  /** No exception is raised anywhere in the trace. */
  predicate NoFail(t: seq<Event>) {
    forall i :: 0 <= i < |t| ==> !t[i].Fail?
  }

  /** A trace free of exceptions followed by one whose exception comes last
      still raises only at the end, and ends as the second one does. */
  lemma FailsOnlyLastAppend(a: seq<Event>, b: seq<Event>)
    requires NoFail(a) && FailsOnlyLast(b)
    ensures FailsOnlyLast(a + b)
    ensures b != [] ==> (a + b)[|a + b| - 1] == b[|b| - 1]
  {
    forall i | 0 <= i < |a + b| - 1 ensures !(a + b)[i].Fail? {
      if i < |a| {
        assert (a + b)[i] == a[i];
      } else {
        assert (a + b)[i] == b[i - |a|];
      }
    }
  }

  lemma NoFailAppend(a: seq<Event>, b: seq<Event>)
    requires NoFail(a) && NoFail(b)
    ensures NoFail(a + b)
  {
    forall i | 0 <= i < |a + b| ensures !(a + b)[i].Fail? {
      if i < |a| {
        assert (a + b)[i] == a[i];
      } else {
        assert (a + b)[i] == b[i - |a|];
      }
    }
  }


  lemma {:induction false} RowsAppend(a: seq<Event>, b: seq<Event>)
    ensures Rows(a + b) == Rows(a) + Rows(b)
  {
    if a == [] {
      assert a + b == b;
    } else {
      assert (a + b)[0] == a[0];
      assert (a + b)[1..] == a[1..] + b;
      RowsAppend(a[1..], b);
    }
  }

  lemma {:induction false} RequestsAppend(a: seq<Event>, b: seq<Event>)
    ensures Requests(a + b) == Requests(a) + Requests(b)
  {
    if a == [] {
      assert a + b == b;
    } else {
      assert (a + b)[0] == a[0];
      assert (a + b)[1..] == a[1..] + b;
      RequestsAppend(a[1..], b);
    }
  }

  lemma {:induction false} AcksAppend(a: seq<Event>, b: seq<Event>)
    ensures Acks(a + b) == Acks(a) + Acks(b)
  {
    if a == [] {
      assert a + b == b;
    } else {
      assert (a + b)[0] == a[0];
      assert (a + b)[1..] == a[1..] + b;
      AcksAppend(a[1..], b);
    }
  }

  lemma {:induction false} FetchCallsAppend(a: seq<Event>, b: seq<Event>)
    ensures FetchCalls(a + b) == FetchCalls(a) + FetchCalls(b)
  {
    if a == [] {
      assert a + b == b;
    } else {
      assert (a + b)[0] == a[0];
      assert (a + b)[1..] == a[1..] + b;
      FetchCallsAppend(a[1..], b);
    }
  }

  /** Yielding rows is visible only as those rows: no request, no ack. */
  lemma {:induction false} YieldsOnlyRows(rows: seq<Record>)
    ensures Rows(Yields(rows)) == rows
    ensures Requests(Yields(rows)) == []
    ensures Acks(Yields(rows)) == []
    ensures FetchCalls(Yields(rows)) == []
    ensures NoFail(Yields(rows))
  {
    if rows != [] {
      var t := Yields(rows);
      assert t == [Yield(rows[0])] + Yields(rows[1..]);
      assert t[1..] == Yields(rows[1..]);
      YieldsOnlyRows(rows[1..]);
    }
  }

  /** A client call on its own. */
  lemma CallAlone(call: Event)
    requires !call.Yield? && !call.Fail?
    ensures Rows([call]) == []
    ensures Requests([call]) == (if call.List? then [call] else [])
    ensures Acks([call]) == (if call.SyncAck? then [call] else [])
    ensures FetchCalls([call]) == (if call.SyncFetch? then [call] else [])
    ensures NoFail([call]) && FailsOnlyLast([call])
  {
    assert [call][1..] == [];
  }

  /** A client call followed by yields. */
  lemma CallYields(call: Event, rows: seq<Record>)
    requires !call.Yield? && !call.Fail?
    ensures Rows([call] + Yields(rows)) == rows
    ensures Requests([call] + Yields(rows)) == (if call.List? then [call] else [])
    ensures Acks([call] + Yields(rows)) == (if call.SyncAck? then [call] else [])
    ensures FetchCalls([call] + Yields(rows)) == (if call.SyncFetch? then [call] else [])
    ensures NoFail([call] + Yields(rows))
  {
    YieldsOnlyRows(rows);
    assert ([call] + Yields(rows))[1..] == Yields(rows);
    NoFailAppend([call], Yields(rows));
  }

  /** A client call, then yields, then the rest of a trace: the yielded rows
      come before the rest's rows, the call is filed under its own kind only,
      and no exception is added. */
  lemma CallThenYields(call: Event, rows: seq<Record>, rest: seq<Event>)
    requires !call.Yield? && !call.Fail?
    ensures Rows([call] + Yields(rows) + rest) == rows + Rows(rest)
    ensures Requests([call] + Yields(rows) + rest) == (if call.List? then [call] else []) + Requests(rest)
    ensures Acks([call] + Yields(rows) + rest) == (if call.SyncAck? then [call] else []) + Acks(rest)
    ensures FetchCalls([call] + Yields(rows) + rest) == (if call.SyncFetch? then [call] else []) + FetchCalls(rest)
    ensures NoFail(rest) ==> NoFail([call] + Yields(rows) + rest)
    ensures FailsOnlyLast(rest) ==> FailsOnlyLast([call] + Yields(rows) + rest)
    ensures rest != [] ==> ([call] + Yields(rows) + rest)[|[call] + Yields(rows) + rest| - 1] == rest[|rest| - 1]
  {
    var head := [call] + Yields(rows);
    CallYields(call, rows);
    assert Rows(head + rest) == rows + Rows(rest) by {
      RowsAppend(head, rest);
    }
    assert Requests(head + rest) == Requests(head) + Requests(rest) by {
      RequestsAppend(head, rest);
    }
    assert Acks(head + rest) == Acks(head) + Acks(rest) by {
      AcksAppend(head, rest);
    }
    assert FetchCalls(head + rest) == FetchCalls(head) + FetchCalls(rest) by {
      FetchCallsAppend(head, rest);
    }
    if FailsOnlyLast(rest) {
      FailsOnlyLastAppend(head, rest);
    }
    if NoFail(rest) {
      NoFailAppend(head, rest);
    }
  }
}
