/** `tap_zendesk_sell/streams/orders.py`: `OrdersStream` (child context,
    pagination loop over `orders`) and its child `LineItemsStream`, which
    pages through an order's line items, renames each row's `id` to
    `line_item_id` and writes the order's id into it. Both loops use
    `while True` and `break`. */
module Orders {
  import opened Values
  import opened Trace
  import opened Paging
  import opened Enrich

  const Resource := "orders"

  /** The keyword arguments of every orders request besides `page`. */
  const ListParams: Record := map["per_page" := Int(100), "sort_by" := Str("id")]

  /** `get_child_context`: `{"order_id": record["id"]}`. */
  function GetChildContext(record: Record): (r: Result<Record, Error>)
    ensures r.Ok? <==> "id" in record
    ensures r.Ok? ==> r.value.Keys == {"order_id"} && r.value["order_id"] == record["id"]
    ensures r.Err? ==> r.error == KeyError("id")
  {
    ChildContext(record, "order_id")
  }

  /** `OrdersStream.get_records`: `self.list_data(self.conn.orders.list,
      per_page=100, page=page, sort_by="id")`, then `yield from data`, page
      after page until the first empty page. */
  method GetRecords(pages: seq<seq<Record>>) returns (trace: seq<Event>)
    ensures trace == Listing(Resource, ListParams, Keep, pages)
    ensures Rows(trace) == Drain(pages)
    ensures Requests(trace) == PageRequests(Resource, ListParams, 1, FullPages(pages) + 1)
    ensures NoFail(trace)
    ensures PageAt(pages, 1) == [] ==> trace == [List(Resource, PageParams(ListParams, 1))]
  {
    trace := PageUntilEmptyBreak(Resource, ListParams, Keep, pages);
    KeepListing(Resource, ListParams, pages);
    if PageAt(pages, 1) == [] {
      EmptyFirstPage(Resource, ListParams, Keep, pages);
    }
  }

  const LineItemsResource := "line_items"

  /** The keyword arguments of every line-items request besides `page`. */
  function LineItemParams(orderId: Value): (params: Record)
    ensures params.Keys == {"order_id", "per_page", "sort_by"}
    ensures params["order_id"] == orderId && params["per_page"] == Int(100)
    ensures params["sort_by"] == Str("updated_at")
  {
    map["order_id" := orderId, "per_page" := Int(100), "sort_by" := Str("updated_at")]
  }

  /** `LineItemsStream.get_records`: with `order_id = context.get("order_id")`,
      `self.list_data(self.conn.line_items.list, order_id=order_id,
      per_page=100, page=page, sort_by="updated_at")` page after page until
      the first empty page; each row gets `line_item_id` from `row.pop("id")`
      and `order_id` from the context before it is yielded. A None context
      raises AttributeError before the first request; a row without "id"
      raises KeyError and ends the generator. */
  method LineItemsRecords(context: Option<Record>, pages: seq<seq<Record>>) returns (trace: seq<Event>)
    ensures context.None? ==> trace == [Fail(AttributeError)]
    ensures context.Some? ==>
      trace == Listing(LineItemsResource, LineItemParams(Get(context.value, "order_id")),
                       LineItemStep(Get(context.value, "order_id")), pages)
    ensures FailsOnlyLast(trace)
    ensures context.Some? && (forall r :: r in Drain(pages) ==> "id" in r) ==>
      var orderId := Get(context.value, "order_id");
      |Rows(trace)| == |Drain(pages)|
      && (forall i :: 0 <= i < |Drain(pages)| ==> Rows(trace)[i] == LineItem(Drain(pages)[i], orderId).value)
      && Requests(trace) == PageRequests(LineItemsResource, LineItemParams(orderId), 1, FullPages(pages) + 1)
      && NoFail(trace)
    ensures context.Some? && (exists r :: r in Drain(pages) && "id" !in r) ==>
      trace != [] && trace[|trace| - 1].Fail?
  {
    if context.None? {
      trace := [Fail(AttributeError)];
      return;
    }
    var orderId := Get(context.value, "order_id");
    trace := PageUntilEmptyBreak(LineItemsResource, LineItemParams(orderId), LineItemStep(orderId), pages);
    LineItemRows(Drain(pages), orderId);
    ListingFailure(LineItemsResource, LineItemParams(orderId), LineItemStep(orderId), pages);
    if forall r :: r in Drain(pages) ==> "id" in r {
      ListingOutput(LineItemsResource, LineItemParams(orderId), LineItemStep(orderId), pages);
    }
  }
}
