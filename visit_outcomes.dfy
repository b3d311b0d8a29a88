/** `VisitOutcomesStream` of `tap_zendesk_sell/streams/visit_outcomes.py`: one page-number
    pagination loop over the `visit_outcomes` resource, written with `while True` and `break`. */
module VisitOutcomes {
  import opened Values
  import opened Trace
  import opened Paging

  const Resource := "visit_outcomes"

  /** The keyword arguments of every request besides `page`. */
  const ListParams: Record := map["per_page" := Int(200)]

  /** `get_records`: `self.list_data(self.conn.visit_outcomes.list,
      per_page=200, page=page)`, with no `sort_by`, then `yield from data`, page
      after page until the first empty page. */
  method GetRecords(pages: seq<seq<Record>>) returns (trace: seq<Event>)
    ensures trace == Listing(Resource, ListParams, Keep, pages)
    ensures Rows(trace) == Drain(pages)
    ensures Requests(trace) == PageRequests(Resource, ListParams, 1, FullPages(pages) + 1)
    ensures NoFail(trace)
    ensures PageAt(pages, 1) == [] ==> trace == [List(Resource, PageParams(ListParams, 1))]
  {
    trace := PageUntilEmptyBreak(Resource, ListParams, Keep, pages);
    KeepListing(Resource, ListParams, pages);
    if PageAt(pages, 1) == [] {
      EmptyFirstPage(Resource, ListParams, Keep, pages);
    }
  }
}
