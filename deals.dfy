/** `tap_zendesk_sell/streams/deals.py`: `DealsStream` (custom-field schema
    merge, child context, pagination loop over `deals`) and its child
    `AssociatedContacts`, which pages through a deal's associated contacts
    and writes the deal's id into every row. Both loops use a `finished` flag. */
module Deals {
  import opened Values
  import opened Trace
  import opened Paging
  import opened SchemaMerge
  import opened Enrich

  const Resource := "deals"

  /** The keyword arguments of every deals request besides `page`. */
  const ListParams: Record :=
    map["per_page" := Int(100), "sort_by" := Str("id"), "includes" := Str("associated_contacts")]

  const Description := "Custom fields attached to a deal."

  /** `schema`: when the discovered custom fields are non-empty,
      `base_schema["properties"]["custom_fields"]` becomes their object
      schema; otherwise the base schema is returned as it is. */
  function Schema(base: Record, discovered: Record): (r: Result<Record, Error>)
    ensures discovered == map[] ==> r == Ok(base)
    ensures discovered != map[] && "properties" !in base ==> r == Err(KeyError("properties"))
    ensures discovered != map[] && "properties" in base && !base["properties"].Obj? ==> r == Err(TypeError)
    ensures discovered != map[] && "properties" in base && base["properties"].Obj? ==>
      r.Ok? && r.value.Keys == base.Keys
      && r.value["properties"] == Obj(base["properties"].fields["custom_fields" := CustomFieldsSchema(discovered, Description)])
      && forall k :: k in base && k != "properties" ==> r.value[k] == base[k]
  {
    MergeCustomFields(base, ["properties"], discovered, CustomFieldsSchema(discovered, Description))
  }

  /** `get_child_context`: `{"deal_id": record["id"]}`. */
  function GetChildContext(record: Record): (r: Result<Record, Error>)
    ensures r.Ok? <==> "id" in record
    ensures r.Ok? ==> r.value.Keys == {"deal_id"} && r.value["deal_id"] == record["id"]
    ensures r.Err? ==> r.error == KeyError("id")
  {
    ChildContext(record, "deal_id")
  }

  /** `DealsStream.get_records`: `self.conn.deals.list(per_page=100,
      page=page, sort_by="id", includes="associated_contacts")`, then
      `yield from data`, page after page until the first empty page. */
  method GetRecords(pages: seq<seq<Record>>) returns (trace: seq<Event>)
    ensures trace == Listing(Resource, ListParams, Keep, pages)
    ensures Rows(trace) == Drain(pages)
    ensures Requests(trace) == PageRequests(Resource, ListParams, 1, FullPages(pages) + 1)
    ensures NoFail(trace)
    ensures PageAt(pages, 1) == [] ==> trace == [List(Resource, PageParams(ListParams, 1))]
  {
    trace := PageUntilEmpty(Resource, ListParams, Keep, pages);
    KeepListing(Resource, ListParams, pages);
    if PageAt(pages, 1) == [] {
      EmptyFirstPage(Resource, ListParams, Keep, pages);
    }
  }

  const AssociatedResource := "associated_contacts"

  /** The keyword arguments of every associated-contacts request besides `page`. */
  function AssociatedParams(dealId: Value): (params: Record)
    ensures params.Keys == {"deal_id", "per_page"}
    ensures params["deal_id"] == dealId && params["per_page"] == Int(100)
  {
    map["deal_id" := dealId, "per_page" := Int(100)]
  }

  /** `AssociatedContacts.get_records`: with `deal_id = context.get("deal_id")`,
      `self.conn.associated_contacts.list(deal_id=deal_id, page=page,
      per_page=100)` page after page until the first empty page, setting
      `row["deal_id"] = deal_id` on every row before yielding it. A None
      context raises AttributeError at the first `context.get`; a missing
      "deal_id" is passed on as None. */
  method AssociatedContactsRecords(context: Option<Record>, pages: seq<seq<Record>>) returns (trace: seq<Event>)
    ensures context.None? ==> trace == [Fail(AttributeError)]
    ensures context.Some? ==>
      var dealId := Get(context.value, "deal_id");
      trace == Listing(AssociatedResource, AssociatedParams(dealId), Stamp("deal_id", dealId), pages)
      && Rows(trace) == Stamped(Drain(pages), "deal_id", dealId)
      && Requests(trace) == PageRequests(AssociatedResource, AssociatedParams(dealId), 1, FullPages(pages) + 1)
      && NoFail(trace)
  {
    if context.None? {
      trace := [Fail(AttributeError)];
      return;
    }
    var dealId := Get(context.value, "deal_id");
    trace := PageUntilEmpty(AssociatedResource, AssociatedParams(dealId), Stamp("deal_id", dealId), pages);
    StampRows(Drain(pages), "deal_id", dealId);
    ListingOutput(AssociatedResource, AssociatedParams(dealId), Stamp("deal_id", dealId), pages);
  }
}
