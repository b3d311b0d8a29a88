/** `LossReasonsStream` of `tap_zendesk_sell/streams/loss_reasons.py`: one page-number
    pagination loop over the `loss_reasons` resource, written with a `finished` flag. */
module LossReasons {
  import opened Values
  import opened Trace
  import opened Paging

  const Resource := "loss_reasons"

  /** The keyword arguments of every request besides `page`. */
  const ListParams: Record := map["per_page" := Int(100), "sort_by" := Str("id")]

  /** `get_records`: `self.conn.loss_reasons.list(per_page=100, page=page,
      sort_by="id")`, then `for row in data: yield row`, page after page until
      the first empty page. */
  method GetRecords(pages: seq<seq<Record>>) returns (trace: seq<Event>)
    ensures trace == Listing(Resource, ListParams, Keep, pages)
    ensures Rows(trace) == Drain(pages)
    ensures Requests(trace) == PageRequests(Resource, ListParams, 1, FullPages(pages) + 1)
    ensures NoFail(trace)
    ensures PageAt(pages, 1) == [] ==> trace == [List(Resource, PageParams(ListParams, 1))]
  {
    trace := PageUntilEmpty(Resource, ListParams, Keep, pages);
    KeepListing(Resource, ListParams, pages);
    if PageAt(pages, 1) == [] {
      EmptyFirstPage(Resource, ListParams, Keep, pages);
    }
  }
}
