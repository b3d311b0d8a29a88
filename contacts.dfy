/** `ContactsStream` of `tap_zendesk_sell/streams/contacts.py`: the custom-field
    schema merge and the page-number pagination loop over the `contacts`
    resource, written with a `finished` flag. */
module Contacts {
  import opened Values
  import opened Trace
  import opened Paging
  import opened SchemaMerge

  const Resource := "contacts"

  /** The keyword arguments of every request besides `page`. */
  const ListParams: Record := map["per_page" := Int(100), "sort_by" := Str("id")]

  const Description := "Custom fields attached to a contact."

  /** `schema`: when the discovered custom fields are non-empty,
      `base_schema["properties"]["custom_fields"]` becomes their object
      schema; otherwise the base schema is returned as it is. */
  function Schema(base: Record, discovered: Record): (r: Result<Record, Error>)
    ensures discovered == map[] ==> r == Ok(base)
    ensures discovered != map[] && "properties" !in base ==> r == Err(KeyError("properties"))
    ensures discovered != map[] && "properties" in base && !base["properties"].Obj? ==> r == Err(TypeError)
    ensures discovered != map[] && "properties" in base && base["properties"].Obj? ==>
      r.Ok? && r.value.Keys == base.Keys
      && r.value["properties"] == Obj(base["properties"].fields["custom_fields" := CustomFieldsSchema(discovered, Description)])
      && forall k :: k in base && k != "properties" ==> r.value[k] == base[k]
  {
    MergeCustomFields(base, ["properties"], discovered, CustomFieldsSchema(discovered, Description))
  }

  /** `get_records`: `self.list_data(self.conn.contacts.list, per_page=100, page=page,
      sort_by="id")`, then `yield from data`, page after page
      until the first empty page. */
  method GetRecords(pages: seq<seq<Record>>) returns (trace: seq<Event>)
    ensures trace == Listing(Resource, ListParams, Keep, pages)
    ensures Rows(trace) == Drain(pages)
    ensures Requests(trace) == PageRequests(Resource, ListParams, 1, FullPages(pages) + 1)
    ensures NoFail(trace)
    ensures PageAt(pages, 1) == [] ==> trace == [List(Resource, PageParams(ListParams, 1))]
  {
    trace := PageUntilEmpty(Resource, ListParams, Keep, pages);
    KeepListing(Resource, ListParams, pages);
    if PageAt(pages, 1) == [] {
      EmptyFirstPage(Resource, ListParams, Keep, pages);
    }
  }
}
