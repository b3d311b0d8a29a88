/** `VisitsStream` of `tap_zendesk_sell/streams/visits.py`: one page-number
    pagination loop over the `visits` resource, written with `while True` and `break`. */
module Visits {
  import opened Values
  import opened Trace
  import opened Paging

  const Resource := "visits"

  /** The keyword arguments of every request besides `page`. */
  const ListParams: Record := map["per_page" := Int(100), "sort_by" := Str("id")]

  /** `get_records`: `self.list_data(self.conn.visits.list, per_page=100,
      page=page, sort_by="id")`, then `yield from data`, page after page until
      the first empty page. */
  method GetRecords(pages: seq<seq<Record>>) returns (trace: seq<Event>)
    ensures trace == Listing(Resource, ListParams, Keep, pages)
    ensures Rows(trace) == Drain(pages)
    ensures Requests(trace) == PageRequests(Resource, ListParams, 1, FullPages(pages) + 1)
    ensures NoFail(trace)
    ensures PageAt(pages, 1) == [] ==> trace == [List(Resource, PageParams(ListParams, 1))]
  {
    trace := PageUntilEmptyBreak(Resource, ListParams, Keep, pages);
    KeepListing(Resource, ListParams, pages);
    if PageAt(pages, 1) == [] {
      EmptyFirstPage(Resource, ListParams, Keep, pages);
    }
  }
}
