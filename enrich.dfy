/** How parent and child streams hand ids to each other: the parent's
    `get_child_context` puts the record's `id` under the child's key, and the
    child reads it back with `context.get(key)` and writes it into every row.
    Line items also move `id` to `line_item_id`. */
module Enrich {
  import opened Values
  import opened Paging

  /** `{key: record["id"]}`: KeyError when the record has no "id". */
  function ChildContext(record: Record, key: string): (r: Result<Record, Error>)
    ensures r.Ok? <==> "id" in record
    ensures r.Ok? ==> r.value.Keys == {key} && r.value[key] == record["id"]
    ensures r.Err? ==> r.error == KeyError("id")
  {
    if "id" in record then Ok(map[key := record["id"]]) else Err(KeyError("id"))
  }

  /** `context.get(key) if context else None`: None for a missing or empty
      context and for a missing key. */
  function ParentId(context: Option<Record>, key: string): (v: Value)
    ensures context.None? || key !in context.value ==> v == Null
    ensures context.Some? && key in context.value ==> v == context.value[key]
  {
    if context.Some? && context.value != map[] then Get(context.value, key) else Null
  }

  /** The child finds in the context its parent built exactly the parent's id. */
  lemma ChildContextRoundTrip(record: Record, key: string)
    requires "id" in record
    ensures ParentId(Some(ChildContext(record, key).value), key) == record["id"]
  {
  }

  /** `row[key] = v`, as a row step that never raises. */
  function Stamp(key: string, v: Value): RowStep {
    row => Ok(row[key := v])
  }

  /** The reference for a stamped page: each row with `key` set to `v`. */
  function Stamped(rows: seq<Record>, key: string, v: Value): (out: seq<Record>)
    ensures |out| == |rows|
    ensures forall i :: 0 <= i < |rows| ==>
      out[i].Keys == rows[i].Keys + {key} && out[i][key] == v
      && forall k :: k in rows[i] && k != key ==> out[i][k] == rows[i][k]
  {
    seq(|rows|, i requires 0 <= i < |rows| => rows[i][key := v])
  }

  /** Stamping never raises, and processes every row as `Stamped` says:
      same count, same order, every other field kept. */
  lemma StampRows(rows: seq<Record>, key: string, v: Value)
    ensures AllApply(Stamp(key, v), rows)
    ensures ApplyAll(Stamp(key, v), rows) == Stamped(rows, key, v)
  {
    ApplyAllIndex(Stamp(key, v), rows);
  }

  /** `row["line_item_id"] = row.pop("id"); row["order_id"] = order_id`:
      the pop raises KeyError when the row has no "id". */
  function LineItem(row: Record, orderId: Value): (r: Result<Record, Error>)
    ensures r.Ok? <==> "id" in row
    ensures r.Err? ==> r.error == KeyError("id")
    ensures r.Ok? ==> "id" !in r.value
    ensures r.Ok? ==> r.value.Keys == row.Keys - {"id"} + {"line_item_id", "order_id"}
    ensures r.Ok? ==> r.value["line_item_id"] == row["id"] && r.value["order_id"] == orderId
    ensures r.Ok? ==> forall k :: k in row && k !in {"id", "line_item_id", "order_id"} ==> r.value[k] == row[k]
  {
    if "id" !in row then Err(KeyError("id"))
    else
      var id := row["id"];
      var popped := row - {"id"};
      Ok(popped["line_item_id" := id]["order_id" := orderId])
  }

  function LineItemStep(orderId: Value): RowStep {
    row => LineItem(row, orderId)
  }

  /** A page of line items processes exactly when every row has an "id",
      and then each processed row is that row renamed and stamped. */
  lemma LineItemRows(rows: seq<Record>, orderId: Value)
    ensures AllApply(LineItemStep(orderId), rows) <==> forall r :: r in rows ==> "id" in r
    ensures AllApply(LineItemStep(orderId), rows) ==>
      forall i :: 0 <= i < |rows| ==> ApplyAll(LineItemStep(orderId), rows)[i] == LineItem(rows[i], orderId).value
  {
    if AllApply(LineItemStep(orderId), rows) {
      ApplyAllIndex(LineItemStep(orderId), rows);
    }
  }
}
