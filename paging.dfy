/** The page-number pagination loop every list stream of the
    `tap_zendesk_sell/streams/` package runs around its client call:
    start at page 1, request the page with fixed keyword arguments, stop at
    the first empty page, otherwise yield its rows and move to the next page.

    The source writes the loop two ways, with a `finished` flag and with
    `while True` / `break`; both are modelled below and both are proved to
    produce the trace `Listing` describes. Child streams post-process every row
    before yielding it; that post-processing is the `RowStep` argument, which
    each stream module defines. */
module Paging {
  import opened Values
  import opened Trace

  /** What a stream does to each row of a page before yielding it: the row
      to yield, or the exception its processing raises. */
  type RowStep = Record -> Result<Record, Error>

  /** Yield the row as the client returned it. */
  function Keep(row: Record): Result<Record, Error> {
    Ok(row)
  }

  function Apply(step: RowStep, row: Record): Result<Record, Error> {
    step(row)
  }

  /** Every row processes without raising. */
  predicate AllApply(step: RowStep, rows: seq<Record>) {
    rows == [] || (Apply(step, rows[0]).Ok? && AllApply(step, rows[1..]))
  }

  lemma {:induction false} AllApplyIndex(step: RowStep, rows: seq<Record>)
    ensures AllApply(step, rows) <==> forall i :: 0 <= i < |rows| ==> Apply(step, rows[i]).Ok?
  {
    if rows != [] {
      AllApplyIndex(step, rows[1..]);
      assert forall i :: 1 <= i < |rows| ==> rows[i] == rows[1..][i - 1];
    }
  }

  /** The processed rows, when no row fails. */
  function ApplyAll(step: RowStep, rows: seq<Record>): (out: seq<Record>)
    requires AllApply(step, rows)
    ensures |out| == |rows|
  {
    if rows == [] then [] else [Apply(step, rows[0]).value] + ApplyAll(step, rows[1..])
  }

  lemma {:induction false} ApplyAllIndex(step: RowStep, rows: seq<Record>)
    requires AllApply(step, rows)
    ensures forall i :: 0 <= i < |rows| ==> Apply(step, rows[i]).Ok? && ApplyAll(step, rows)[i] == Apply(step, rows[i]).value
  {
    AllApplyIndex(step, rows);
    if rows != [] {
      ApplyAllIndex(step, rows[1..]);
      assert Apply(step, rows[0]).Ok?;
      forall i | 1 <= i < |rows| ensures ApplyAll(step, rows)[i] == Apply(step, rows[i]).value {
        assert rows[i] == rows[1..][i - 1];
      }
    }
  }

  /** The client's answer for page number `n` (pages count from 1); the
      oracle answers with an empty page past its end. */
  function PageAt(pages: seq<seq<Record>>, n: nat): seq<Record> {
    if 1 <= n <= |pages| then pages[n - 1] else []
  }

  /** The keyword arguments of the request for page `n`. */
  function PageParams(fixed: Record, n: nat): Record {
    fixed["page" := Int(n)]
  }

  /** The per-row loop over one page: every processed row is yielded, and the
      first row whose processing raises ends the generator. */
  function RowEvents(step: RowStep, rows: seq<Record>): seq<Event> {
    if rows == [] then []
    else match Apply(step, rows[0])
      case Err(e) => [Fail(e)]
      case Ok(r) => [Yield(r)] + RowEvents(step, rows[1..])
  }

  /** Reference definition of the loop's trace from page `n` on: request
      page `n`; yield its processed rows; stop if it was empty or a row
      raised, otherwise continue with page `n + 1`. */
  function ListingFrom(resource: string, fixed: Record, step: RowStep, pages: seq<seq<Record>>, n: nat): seq<Event>
    requires n >= 1
    decreases |pages| + 1 - n
  {
    var page := PageAt(pages, n);
    [List(resource, PageParams(fixed, n))] + RowEvents(step, page)
    + if page == [] || !AllApply(step, page) then [] else ListingFrom(resource, fixed, step, pages, n + 1)
  }

  /** The trace of one run of the loop, starting at page 1. */
  function Listing(resource: string, fixed: Record, step: RowStep, pages: seq<seq<Record>>): seq<Event> {
    ListingFrom(resource, fixed, step, pages, 1)
  }

  /** The requests for `count` consecutive pages starting at page `n`. */
  function PageRequests(resource: string, fixed: Record, n: nat, count: nat): (reqs: seq<Event>)
    ensures |reqs| == count
    ensures forall i :: 0 <= i < count ==> reqs[i] == List(resource, PageParams(fixed, n + i))
    decreases count
  {
    if count == 0 then [] else [List(resource, PageParams(fixed, n))] + PageRequests(resource, fixed, n + 1, count - 1)
  }

  /** The rows of pages n, n+1, ... up to the first empty page, in order. */
  function DrainFrom(pages: seq<seq<Record>>, n: nat): seq<Record>
    requires n >= 1
    decreases |pages| + 1 - n
  {
    var page := PageAt(pages, n);
    if page == [] then [] else page + DrainFrom(pages, n + 1)
  }

  /** How many non-empty pages come from page n on before the first empty one. */
  function FullFrom(pages: seq<seq<Record>>, n: nat): nat
    requires n >= 1
    decreases |pages| + 1 - n
  {
    if PageAt(pages, n) == [] then 0 else 1 + FullFrom(pages, n + 1)
  }

  /** The rows of the pages before the first empty one. */
  function Drain(pages: seq<seq<Record>>): seq<Record> {
    DrainFrom(pages, 1)
  }

  /** The number of pages before the first empty one. */
  function FullPages(pages: seq<seq<Record>>): nat {
    FullFrom(pages, 1)
  }

  function Concat(pages: seq<seq<Record>>): seq<Record> {
    if pages == [] then [] else pages[0] + Concat(pages[1..])
  }

  // ---------------------------------------------------------------------
  // Properties of the specification


  lemma {:induction false} FullFromBounds(pages: seq<seq<Record>>, n: nat)
    requires 1 <= n <= |pages| + 1
    ensures n - 1 + FullFrom(pages, n) <= |pages|
    ensures forall i :: n - 1 <= i < n - 1 + FullFrom(pages, n) ==> pages[i] != []
    ensures PageAt(pages, n + FullFrom(pages, n)) == []
    decreases |pages| + 1 - n
  {
    if PageAt(pages, n) != [] {
      FullFromBounds(pages, n + 1);
    }
  }

  /** A non-empty page `n` is one of the oracle's pages; its rows come first
      in the drained rows, and it counts as one full page. */
  lemma FullPageDrain(pages: seq<seq<Record>>, n: nat)
    requires n >= 1 && PageAt(pages, n) != []
    ensures n <= |pages| && PageAt(pages, n) == pages[n - 1]
    ensures DrainFrom(pages, n) == pages[n - 1] + DrainFrom(pages, n + 1)
    ensures FullFrom(pages, n) == FullFrom(pages, n + 1) + 1
  {
  }

  /** The concatenation of pages i..j-1 starts with page i. */
  lemma ConcatFirst(pages: seq<seq<Record>>, i: nat, j: nat)
    requires i < j <= |pages|
    ensures Concat(pages[i..j]) == pages[i] + Concat(pages[i + 1..j])
  {
    assert pages[i..j][1..] == pages[i + 1..j];
  }

  /** An empty page `n` drains nothing, and no page lies between it and itself. */
  lemma EmptyPageDrain(pages: seq<seq<Record>>, n: nat, m: nat)
    requires 1 <= n && m == n - 1 + FullFrom(pages, n) <= |pages| && PageAt(pages, n) == []
    ensures DrainFrom(pages, n) == Concat(pages[n - 1..m])
  {
    assert pages[n - 1..m] == [];
  }

  /** A non-empty page `n` puts its rows in front of those drained after it,
      as it comes first in pages n..m. */
  lemma FullPageConcat(pages: seq<seq<Record>>, n: nat, m: nat)
    requires 1 <= n && PageAt(pages, n) != [] && m == n - 1 + FullFrom(pages, n) <= |pages|
    requires DrainFrom(pages, n + 1) == Concat(pages[n..m])
    ensures DrainFrom(pages, n) == Concat(pages[n - 1..m])
  {
    FullPageDrain(pages, n);
    ConcatFirst(pages, n - 1, m);
  }

  /** The drained rows from page `n` on are pages n..m concatenated, where
      page m+1 is the first empty one. */
  lemma {:induction false} DrainFromIsConcat(pages: seq<seq<Record>>, n: nat, m: nat)
    requires 1 <= n && m == n - 1 + FullFrom(pages, n) <= |pages|
    ensures DrainFrom(pages, n) == Concat(pages[n - 1..m])
    decreases |pages| + 1 - n
  {
    if PageAt(pages, n) == [] {
      EmptyPageDrain(pages, n, m);
    } else {
      assert m == n + 1 - 1 + FullFrom(pages, n + 1) by {
        FullPageDrain(pages, n);
      }
      DrainFromIsConcat(pages, n + 1, m);
      FullPageConcat(pages, n, m);
    }
  }







  /** Pages 1..k are non-empty, page k+1 is the first empty one, and the
      drained rows are exactly pages 1..k concatenated in order. */
  lemma DrainIsFullPages(pages: seq<seq<Record>>)
    ensures FullPages(pages) <= |pages|
    ensures forall i :: 0 <= i < FullPages(pages) ==> pages[i] != []
    ensures PageAt(pages, FullPages(pages) + 1) == []
    ensures Drain(pages) == Concat(pages[..FullPages(pages)])
  {
    FullFromBounds(pages, 1);
    DrainFromIsConcat(pages, 1, FullPages(pages));
    assert pages[0..FullPages(pages)] == pages[..FullPages(pages)];
  }

  lemma {:induction false} DrainFromIgnoresLaterPages(pages: seq<seq<Record>>, j: nat, later: seq<seq<Record>>, n: nat)
    requires j < |pages| && pages[j] == []
    requires 1 <= n <= j + 1
    ensures DrainFrom(pages[..j + 1] + later, n) == DrainFrom(pages, n)
    decreases j + 1 - n
  {
    assert PageAt(pages[..j + 1] + later, n) == PageAt(pages, n);
    if n <= j {
      DrainFromIgnoresLaterPages(pages, j, later, n + 1);
    }
  }

  /** Nothing after the first empty page is ever yielded: whatever follows an
      empty page, the drained rows are the same. */
  lemma DrainIgnoresLaterPages(pages: seq<seq<Record>>, j: nat, later: seq<seq<Record>>)
    requires j < |pages| && pages[j] == []
    ensures Drain(pages[..j + 1] + later) == Drain(pages)
  {
    DrainFromIgnoresLaterPages(pages, j, later, 1);
  }

  lemma {:induction false} AllApplyAppend(step: RowStep, a: seq<Record>, b: seq<Record>)
    ensures AllApply(step, a + b) <==> AllApply(step, a) && AllApply(step, b)
  {
    if a == [] {
      assert a + b == b;
    } else {
      assert (a + b)[0] == a[0];
      assert (a + b)[1..] == a[1..] + b;
      AllApplyAppend(step, a[1..], b);
    }
  }


  lemma {:induction false} ApplyAllAppend(step: RowStep, a: seq<Record>, b: seq<Record>)
    requires AllApply(step, a) && AllApply(step, b)
    ensures AllApply(step, a + b)
    ensures ApplyAll(step, a + b) == ApplyAll(step, a) + ApplyAll(step, b)
  {
    AllApplyAppend(step, a, b);
    if a == [] {
      assert a + b == b;
    } else {
      assert (a + b)[0] == a[0];
      assert (a + b)[1..] == a[1..] + b;
      ApplyAllAppend(step, a[1..], b);
    }
  }

  /** A page whose rows all process yields exactly the processed rows. */
  lemma {:induction false} RowEventsAllOk(step: RowStep, rows: seq<Record>)
    requires AllApply(step, rows)
    ensures RowEvents(step, rows) == Yields(ApplyAll(step, rows))
  {
    if rows != [] {
      assert Apply(step, rows[0]).Ok?;
      RowEventsAllOk(step, rows[1..]);
    }
  }

  lemma {:induction false} RowEventsAppend(step: RowStep, a: seq<Record>, b: seq<Record>)
    requires AllApply(step, a)
    ensures RowEvents(step, a + b) == RowEvents(step, a) + RowEvents(step, b)
  {
    if a == [] {
      assert a + b == b;
    } else {
      assert Apply(step, a[0]).Ok?;
      assert (a + b)[0] == a[0];
      assert (a + b)[1..] == a[1..] + b;
      RowEventsAppend(step, a[1..], b);
    }
  }

  /** A failing row ends the per-row loop, and only the last event can be a failure. */
  lemma {:induction false} RowEventsFailsOnlyLast(step: RowStep, rows: seq<Record>)
    ensures FailsOnlyLast(RowEvents(step, rows))
    ensures !AllApply(step, rows) ==> RowEvents(step, rows) != [] && RowEvents(step, rows)[|RowEvents(step, rows)| - 1].Fail?
    ensures AllApply(step, rows) ==> forall e :: e in RowEvents(step, rows) ==> e.Yield?
  {
    if rows != [] {
      RowEventsFailsOnlyLast(step, rows[1..]);
      assert rows == [rows[0]] + rows[1..];
      AllApplyAppend(step, [rows[0]], rows[1..]);
    }
  }

  /** One unfolding of the listing: the request for page `n`, that page's
      per-row events, and the rest of the listing when the page was full and
      every row processed. */
  lemma ListingFromUnfold(resource: string, fixed: Record, step: RowStep, pages: seq<seq<Record>>, n: nat)
    requires n >= 1
    ensures PageAt(pages, n) == [] || !AllApply(step, PageAt(pages, n)) ==>
      ListingFrom(resource, fixed, step, pages, n)
        == [List(resource, PageParams(fixed, n))] + RowEvents(step, PageAt(pages, n))
    ensures PageAt(pages, n) != [] && AllApply(step, PageAt(pages, n)) ==>
      n <= |pages| &&
      ListingFrom(resource, fixed, step, pages, n)
        == [List(resource, PageParams(fixed, n))] + RowEvents(step, PageAt(pages, n))
           + ListingFrom(resource, fixed, step, pages, n + 1)
  {
  }

  /** A page that is full and whose rows all process: its request, then the
      yields of its processed rows, then the listing from the next page. */
  lemma FullPageUnfold(resource: string, fixed: Record, step: RowStep, pages: seq<seq<Record>>, n: nat)
    requires n >= 1 && PageAt(pages, n) != [] && AllApply(step, PageAt(pages, n))
    ensures ListingFrom(resource, fixed, step, pages, n)
      == [List(resource, PageParams(fixed, n))] + Yields(ApplyAll(step, PageAt(pages, n))) + ListingFrom(resource, fixed, step, pages, n + 1)
  {
    RowEventsAllOk(step, PageAt(pages, n));
  }

  /** A full page whose rows all process yields its processed rows before
      the rows of the pages after it. */
  lemma FullPageRows(resource: string, fixed: Record, step: RowStep, pages: seq<seq<Record>>, n: nat)
    requires n >= 1 && PageAt(pages, n) != [] && AllApply(step, DrainFrom(pages, n))
    requires AllApply(step, DrainFrom(pages, n + 1))
    requires Rows(ListingFrom(resource, fixed, step, pages, n + 1)) == ApplyAll(step, DrainFrom(pages, n + 1))
    ensures Rows(ListingFrom(resource, fixed, step, pages, n)) == ApplyAll(step, DrainFrom(pages, n))
  {
    DrainFromTail(step, pages, n);
    FullPageUnfold(resource, fixed, step, pages, n);
    CallThenYields(List(resource, PageParams(fixed, n)), ApplyAll(step, PageAt(pages, n)), ListingFrom(resource, fixed, step, pages, n + 1));
  }

  /** An empty page yields nothing. */
  lemma EmptyPageRows(resource: string, fixed: Record, step: RowStep, pages: seq<seq<Record>>, n: nat)
    requires n >= 1 && PageAt(pages, n) == []
    ensures Rows(ListingFrom(resource, fixed, step, pages, n)) == ApplyAll(step, DrainFrom(pages, n))
  {
    EmptyPageStep(resource, fixed, step, pages, n);
    CallAlone(List(resource, PageParams(fixed, n)));
  }


  /** A full page whose rows all process adds its own request before those
      of the pages after it. */
  lemma FullPageRequests(resource: string, fixed: Record, step: RowStep, pages: seq<seq<Record>>, n: nat)
    requires n >= 1 && PageAt(pages, n) != [] && AllApply(step, PageAt(pages, n))
    requires Requests(ListingFrom(resource, fixed, step, pages, n + 1)) == PageRequests(resource, fixed, n + 1, FullFrom(pages, n + 1) + 1)
    ensures Requests(ListingFrom(resource, fixed, step, pages, n)) == PageRequests(resource, fixed, n, FullFrom(pages, n) + 1)
  {
    FullPageUnfold(resource, fixed, step, pages, n);
    CallThenYields(List(resource, PageParams(fixed, n)), ApplyAll(step, PageAt(pages, n)), ListingFrom(resource, fixed, step, pages, n + 1));
    FullPageDrain(pages, n);
  }

  /** An empty page's request is the only one. */
  lemma EmptyPageRequests(resource: string, fixed: Record, step: RowStep, pages: seq<seq<Record>>, n: nat)
    requires n >= 1 && PageAt(pages, n) == []
    ensures Requests(ListingFrom(resource, fixed, step, pages, n)) == PageRequests(resource, fixed, n, FullFrom(pages, n) + 1)
  {
    EmptyPageStep(resource, fixed, step, pages, n);
    CallAlone(List(resource, PageParams(fixed, n)));
  }


  /** A full page whose rows all process adds no acknowledgement. */
  lemma FullPageAcks(resource: string, fixed: Record, step: RowStep, pages: seq<seq<Record>>, n: nat)
    requires n >= 1 && PageAt(pages, n) != [] && AllApply(step, PageAt(pages, n))
    ensures Acks(ListingFrom(resource, fixed, step, pages, n)) == Acks(ListingFrom(resource, fixed, step, pages, n + 1))
  {
    FullPageUnfold(resource, fixed, step, pages, n);
    CallThenYields(List(resource, PageParams(fixed, n)), ApplyAll(step, PageAt(pages, n)), ListingFrom(resource, fixed, step, pages, n + 1));
  }

  /** A full page whose rows all process raises nothing. */
  lemma FullPageNoFail(resource: string, fixed: Record, step: RowStep, pages: seq<seq<Record>>, n: nat)
    requires n >= 1 && PageAt(pages, n) != [] && AllApply(step, PageAt(pages, n))
    ensures NoFail(ListingFrom(resource, fixed, step, pages, n + 1)) ==> NoFail(ListingFrom(resource, fixed, step, pages, n))
  {
    FullPageUnfold(resource, fixed, step, pages, n);
    CallThenYields(List(resource, PageParams(fixed, n)), ApplyAll(step, PageAt(pages, n)), ListingFrom(resource, fixed, step, pages, n + 1));
  }

  /** A full page whose rows all process raises nothing, so the listing
      ends as the listing from the next page does. */
  lemma FullPageFailsOnlyLast(resource: string, fixed: Record, step: RowStep, pages: seq<seq<Record>>, n: nat)
    requires n >= 1 && PageAt(pages, n) != [] && AllApply(step, PageAt(pages, n))
    ensures FailsOnlyLast(ListingFrom(resource, fixed, step, pages, n + 1)) ==> FailsOnlyLast(ListingFrom(resource, fixed, step, pages, n))
    ensures ListingFrom(resource, fixed, step, pages, n + 1) != [] && ListingFrom(resource, fixed, step, pages, n)[|ListingFrom(resource, fixed, step, pages, n)| - 1] == ListingFrom(resource, fixed, step, pages, n + 1)[|ListingFrom(resource, fixed, step, pages, n + 1)| - 1]
  {
    FullPageUnfold(resource, fixed, step, pages, n);
    ListingFromUnfold(resource, fixed, step, pages, n + 1);
    CallThenYields(List(resource, PageParams(fixed, n)), ApplyAll(step, PageAt(pages, n)), ListingFrom(resource, fixed, step, pages, n + 1));
  }

  /** An empty page: its request is the whole listing, and nothing is drained. */
  lemma EmptyPageStep(resource: string, fixed: Record, step: RowStep, pages: seq<seq<Record>>, n: nat)
    requires n >= 1 && PageAt(pages, n) == []
    ensures ListingFrom(resource, fixed, step, pages, n) == [List(resource, PageParams(fixed, n))]
    ensures DrainFrom(pages, n) == [] && FullFrom(pages, n) == 0
  {
    assert ListingFrom(resource, fixed, step, pages, n) == [List(resource, PageParams(fixed, n))] + [] + [];
  }

  /** A page on which some row raises: the listing ends with that exception. */
  lemma FailedPageStep(resource: string, fixed: Record, step: RowStep, pages: seq<seq<Record>>, n: nat)
    requires n >= 1 && !AllApply(step, PageAt(pages, n))
    ensures FailsOnlyLast(ListingFrom(resource, fixed, step, pages, n)) && ListingFrom(resource, fixed, step, pages, n)[|ListingFrom(resource, fixed, step, pages, n)| - 1].Fail?
  {
    var call := List(resource, PageParams(fixed, n));
    var rest := RowEvents(step, PageAt(pages, n));
    ListingFromUnfold(resource, fixed, step, pages, n);
    assert ListingFrom(resource, fixed, step, pages, n) == [call] + Yields([]) + rest;
    RowEventsFailsOnlyLast(step, PageAt(pages, n));
    CallThenYields(call, [], rest);
  }

  /** A full first page: the drained rows are that page's followed by the
      rest, and it counts as one full page. */
  lemma DrainFromTail(step: RowStep, pages: seq<seq<Record>>, n: nat)
    requires n >= 1 && PageAt(pages, n) != []
    ensures DrainFrom(pages, n) == PageAt(pages, n) + DrainFrom(pages, n + 1)
    ensures FullFrom(pages, n) == FullFrom(pages, n + 1) + 1
    ensures AllApply(step, DrainFrom(pages, n)) <==>
      AllApply(step, PageAt(pages, n)) && AllApply(step, DrainFrom(pages, n + 1))
    ensures AllApply(step, DrainFrom(pages, n)) ==>
      ApplyAll(step, DrainFrom(pages, n)) == ApplyAll(step, PageAt(pages, n)) + ApplyAll(step, DrainFrom(pages, n + 1))
  {
    AllApplyAppend(step, PageAt(pages, n), DrainFrom(pages, n + 1));
    if AllApply(step, DrainFrom(pages, n)) {
      ApplyAllAppend(step, PageAt(pages, n), DrainFrom(pages, n + 1));
    }
  }

  lemma {:induction false} ListingFromRows(resource: string, fixed: Record, step: RowStep, pages: seq<seq<Record>>, n: nat)
    requires n >= 1
    requires AllApply(step, DrainFrom(pages, n))
    ensures Rows(ListingFrom(resource, fixed, step, pages, n)) == ApplyAll(step, DrainFrom(pages, n))
    decreases |pages| + 1 - n
  {
    if PageAt(pages, n) == [] {
      EmptyPageRows(resource, fixed, step, pages, n);
    } else {
      assert AllApply(step, DrainFrom(pages, n + 1)) by {
        DrainFromTail(step, pages, n);
      }
      ListingFromRows(resource, fixed, step, pages, n + 1);
      FullPageRows(resource, fixed, step, pages, n);
    }
  }


  lemma {:induction false} ListingFromRequests(resource: string, fixed: Record, step: RowStep, pages: seq<seq<Record>>, n: nat)
    requires n >= 1
    requires AllApply(step, DrainFrom(pages, n))
    ensures Requests(ListingFrom(resource, fixed, step, pages, n)) == PageRequests(resource, fixed, n, FullFrom(pages, n) + 1)
    decreases |pages| + 1 - n
  {
    if PageAt(pages, n) == [] {
      EmptyPageRequests(resource, fixed, step, pages, n);
    } else {
      assert AllApply(step, PageAt(pages, n)) && AllApply(step, DrainFrom(pages, n + 1)) by {
        DrainFromTail(step, pages, n);
      }
      ListingFromRequests(resource, fixed, step, pages, n + 1);
      FullPageRequests(resource, fixed, step, pages, n);
    }
  }


  lemma {:induction false} ListingFromAcks(resource: string, fixed: Record, step: RowStep, pages: seq<seq<Record>>, n: nat)
    requires n >= 1
    requires AllApply(step, DrainFrom(pages, n))
    ensures Acks(ListingFrom(resource, fixed, step, pages, n)) == []
    decreases |pages| + 1 - n
  {
    if PageAt(pages, n) == [] {
      var call := List(resource, PageParams(fixed, n));
      assert ListingFrom(resource, fixed, step, pages, n) == [call] by {
        EmptyPageStep(resource, fixed, step, pages, n);
      }
      assert Acks([call]) == [] by {
        CallAlone(call);
      }
    } else {
      assert AllApply(step, PageAt(pages, n)) && AllApply(step, DrainFrom(pages, n + 1)) by {
        DrainFromTail(step, pages, n);
      }
      assert Acks(ListingFrom(resource, fixed, step, pages, n + 1)) == [] by {
        ListingFromAcks(resource, fixed, step, pages, n + 1);
      }
      FullPageAcks(resource, fixed, step, pages, n);
    }
  }

  lemma {:induction false} ListingFromNoFailure(resource: string, fixed: Record, step: RowStep, pages: seq<seq<Record>>, n: nat)
    requires n >= 1
    requires AllApply(step, DrainFrom(pages, n))
    ensures NoFail(ListingFrom(resource, fixed, step, pages, n))
    decreases |pages| + 1 - n
  {
    if PageAt(pages, n) == [] {
      var call := List(resource, PageParams(fixed, n));
      assert ListingFrom(resource, fixed, step, pages, n) == [call] by {
        EmptyPageStep(resource, fixed, step, pages, n);
      }
      assert NoFail([call]) by {
        CallAlone(call);
      }
    } else {
      assert AllApply(step, PageAt(pages, n)) && AllApply(step, DrainFrom(pages, n + 1)) by {
        DrainFromTail(step, pages, n);
      }
      assert NoFail(ListingFrom(resource, fixed, step, pages, n + 1)) by {
        ListingFromNoFailure(resource, fixed, step, pages, n + 1);
      }
      FullPageNoFail(resource, fixed, step, pages, n);
    }
  }

  /** For a run from page 1 whose drained rows all process: the rows yielded
      are the processed rows of pages 1..k in order, the requests are for
      pages 1, 2, ..., k+1 with the fixed keyword arguments, and nothing is
      raised or acknowledged. */
  lemma ListingOutput(resource: string, fixed: Record, step: RowStep, pages: seq<seq<Record>>)
    requires AllApply(step, Drain(pages))
    ensures Rows(Listing(resource, fixed, step, pages)) == ApplyAll(step, Drain(pages))
    ensures Requests(Listing(resource, fixed, step, pages)) == PageRequests(resource, fixed, 1, FullPages(pages) + 1)
    ensures Acks(Listing(resource, fixed, step, pages)) == []
    ensures NoFail(Listing(resource, fixed, step, pages))
  {
    ListingFromRows(resource, fixed, step, pages, 1);
    ListingFromRequests(resource, fixed, step, pages, 1);
    ListingFromAcks(resource, fixed, step, pages, 1);
    ListingFromNoFailure(resource, fixed, step, pages, 1);
  }

  /** An exception, if any, is the last event. */
  lemma {:induction false} ListingFromFailsOnlyLast(resource: string, fixed: Record, step: RowStep, pages: seq<seq<Record>>, n: nat)
    requires n >= 1
    ensures FailsOnlyLast(ListingFrom(resource, fixed, step, pages, n))
    decreases |pages| + 1 - n
  {
    if PageAt(pages, n) == [] {
      var call := List(resource, PageParams(fixed, n));
      assert ListingFrom(resource, fixed, step, pages, n) == [call] by {
        EmptyPageStep(resource, fixed, step, pages, n);
      }
      assert FailsOnlyLast([call]) by {
        CallAlone(call);
      }
    } else if AllApply(step, PageAt(pages, n)) {
      assert FailsOnlyLast(ListingFrom(resource, fixed, step, pages, n + 1)) by {
        ListingFromFailsOnlyLast(resource, fixed, step, pages, n + 1);
      }
      FullPageFailsOnlyLast(resource, fixed, step, pages, n);
    } else {
      FailedPageStep(resource, fixed, step, pages, n);
    }
  }


  /** When some drained row cannot be processed, the trace ends with an exception. */
  lemma {:induction false} ListingFromEndsInFailure(resource: string, fixed: Record, step: RowStep, pages: seq<seq<Record>>, n: nat)
    requires n >= 1
    requires !AllApply(step, DrainFrom(pages, n))
    ensures ListingFrom(resource, fixed, step, pages, n)[|ListingFrom(resource, fixed, step, pages, n)| - 1].Fail?
    decreases |pages| + 1 - n
  {
    if PageAt(pages, n) == [] {
      EmptyPageStep(resource, fixed, step, pages, n);
      assert false;
    } else if AllApply(step, PageAt(pages, n)) {
      assert !AllApply(step, DrainFrom(pages, n + 1)) by {
        DrainFromTail(step, pages, n);
      }
      assert ListingFrom(resource, fixed, step, pages, n + 1)[|ListingFrom(resource, fixed, step, pages, n + 1)| - 1].Fail? by {
        ListingFromEndsInFailure(resource, fixed, step, pages, n + 1);
      }
      FullPageFailsOnlyLast(resource, fixed, step, pages, n);
    } else {
      FailedPageStep(resource, fixed, step, pages, n);
    }
  }

  /** An exception, if any, is the last event of a run; when some row of the
      drained pages cannot be processed (a line item without "id"), the run
      does end with an exception. */
  lemma ListingFailure(resource: string, fixed: Record, step: RowStep, pages: seq<seq<Record>>)
    ensures FailsOnlyLast(Listing(resource, fixed, step, pages))
    ensures !AllApply(step, Drain(pages)) ==>
      Listing(resource, fixed, step, pages)[|Listing(resource, fixed, step, pages)| - 1].Fail?
  {
    ListingFromFailsOnlyLast(resource, fixed, step, pages, 1);
    if !AllApply(step, Drain(pages)) {
      ListingFromEndsInFailure(resource, fixed, step, pages, 1);
    }
  }

  lemma {:induction false} KeepAll(rows: seq<Record>)
    ensures AllApply(Keep, rows)
    ensures ApplyAll(Keep, rows) == rows
  {
    if rows != [] {
      KeepAll(rows[1..]);
      assert rows == [rows[0]] + rows[1..];
    }
  }

  /** A stream that yields the client's rows unchanged (`yield from data`,
      or `for row in data: yield row`) yields exactly the rows of pages
      1..k, requests exactly pages 1..k+1, and raises nothing. */
  lemma KeepListing(resource: string, fixed: Record, pages: seq<seq<Record>>)
    ensures Rows(Listing(resource, fixed, Keep, pages)) == Drain(pages)
    ensures Requests(Listing(resource, fixed, Keep, pages)) == PageRequests(resource, fixed, 1, FullPages(pages) + 1)
    ensures NoFail(Listing(resource, fixed, Keep, pages))
  {
    KeepAll(Drain(pages));
    ListingOutput(resource, fixed, Keep, pages);
  }

  /** An empty first page: one request and nothing else. */
  lemma EmptyFirstPage(resource: string, fixed: Record, step: RowStep, pages: seq<seq<Record>>)
    requires PageAt(pages, 1) == []
    ensures Listing(resource, fixed, step, pages) == [List(resource, PageParams(fixed, 1))]
  {
    assert RowEvents(step, PageAt(pages, 1)) == [];
    assert Listing(resource, fixed, step, pages) == [List(resource, PageParams(fixed, 1))] + [] + [];
  }

  // ---------------------------------------------------------------------
  // The two textual forms of the loop

  /** `for row in data: yield <processed row>`: the per-row loop over one
      page. `ok` tells whether every row processed; when one raises, the
      exception is the last event and the loop stops there. */
  method ProcessRows(step: RowStep, data: seq<Record>) returns (events: seq<Event>, ok: bool)
    ensures events == RowEvents(step, data)
    ensures ok <==> AllApply(step, data)
  {
    events := [];
    var i := 0;
    while i < |data|
      invariant 0 <= i <= |data|
      invariant AllApply(step, data[..i])
      invariant events == RowEvents(step, data[..i])
    {
      var processed := Apply(step, data[i]);
      if processed.Err? {
        RowFailureEvents(step, data, i);
        events := events + [Fail(processed.error)];
        ok := false;
        return;
      }
      RowStepTaken(step, data, i);
      events := events + [Yield(processed.value)];
      i := i + 1;
    }
    assert data[..|data|] == data;
    ok := true;
  }

  /** `finished = False; page = 1; while not finished: data = list(...);
      if not data: finished = True; for row in data: yield ...; page += 1` */
  method PageUntilEmpty(resource: string, fixed: Record, step: RowStep, pages: seq<seq<Record>>)
    returns (trace: seq<Event>)
    ensures trace == Listing(resource, fixed, step, pages)
  {
    ghost var whole := Listing(resource, fixed, step, pages);
    trace := [];
    var finished := false;
    var page := 1;
    while !finished
      invariant 1 <= page <= |pages| + 2
      invariant !finished ==> page <= |pages| + 1 && trace + ListingFrom(resource, fixed, step, pages, page) == whole
      invariant finished ==> trace == whole
      decreases |pages| + 2 - page
    {
      ghost var before := trace;
      var data := PageAt(pages, page);
      trace := trace + [List(resource, PageParams(fixed, page))];
      if data == [] {
        finished := true;
      }
      var events, ok := ProcessRows(step, data);
      trace := trace + events;
      if !ok {
        PageFailed(resource, fixed, step, pages, page, before, whole);
        return;
      }
      if data == [] {
        assert events == [];
        EmptyPageDone(resource, fixed, step, pages, page, before, whole);
        assert trace == before + [List(resource, PageParams(fixed, page))];
      } else {
        FullPageDone(resource, fixed, step, pages, page, before, whole);
      }
      page := page + 1;
    }
  }

  /** `page = 1; while True: data = list(...); if not data: break;
      for row in data: yield ...; page += 1` */
  method PageUntilEmptyBreak(resource: string, fixed: Record, step: RowStep, pages: seq<seq<Record>>)
    returns (trace: seq<Event>)
    ensures trace == Listing(resource, fixed, step, pages)
  {
    ghost var whole := Listing(resource, fixed, step, pages);
    trace := [];
    var page := 1;
    while true
      invariant 1 <= page <= |pages| + 1
      invariant trace + ListingFrom(resource, fixed, step, pages, page) == whole
      decreases |pages| + 1 - page
    {
      ghost var before := trace;
      var data := PageAt(pages, page);
      trace := trace + [List(resource, PageParams(fixed, page))];
      if data == [] {
        EmptyPageDone(resource, fixed, step, pages, page, before, whole);
        break;
      }
      var events, ok := ProcessRows(step, data);
      trace := trace + events;
      if !ok {
        PageFailed(resource, fixed, step, pages, page, before, whole);
        return;
      }
      FullPageDone(resource, fixed, step, pages, page, before, whole);
      page := page + 1;
    }
  }

  /** Processing one more row of a page extends the per-row events by that row's outcome. */
  lemma RowStepTaken(step: RowStep, data: seq<Record>, i: nat)
    requires i < |data| && AllApply(step, data[..i]) && Apply(step, data[i]).Ok?
    ensures AllApply(step, data[..i + 1])
    ensures RowEvents(step, data[..i + 1]) == RowEvents(step, data[..i]) + [Yield(Apply(step, data[i]).value)]
  {
    assert data[..i + 1] == data[..i] + [data[i]];
    RowEventsAppend(step, data[..i], [data[i]]);
    AllApplyAppend(step, data[..i], [data[i]]);
  }

  /** The first row that raises ends the per-row events with its exception. */
  lemma RowFailureEvents(step: RowStep, data: seq<Record>, i: nat)
    requires i < |data| && AllApply(step, data[..i]) && Apply(step, data[i]).Err?
    ensures !AllApply(step, data)
    ensures RowEvents(step, data) == RowEvents(step, data[..i]) + [Fail(Apply(step, data[i]).error)]
  {
    assert data == data[..i] + data[i..];
    RowEventsAppend(step, data[..i], data[i..]);
    assert data[i..][0] == data[i];
    AllApplyAppend(step, data[..i], data[i..]);
  }

  /** A page on which some row raises ends either loop: the trace is then the whole listing. */
  lemma PageFailed(resource: string, fixed: Record, step: RowStep, pages: seq<seq<Record>>,
                   page: nat, before: seq<Event>, whole: seq<Event>)
    requires 1 <= page && !AllApply(step, PageAt(pages, page))
    requires before + ListingFrom(resource, fixed, step, pages, page) == whole
    ensures before + [List(resource, PageParams(fixed, page))] + RowEvents(step, PageAt(pages, page)) == whole
  {
    var head := [List(resource, PageParams(fixed, page))];
    var mid := RowEvents(step, PageAt(pages, page));
    assert ListingFrom(resource, fixed, step, pages, page) == head + mid + [];
    AppendAssoc(before, head, mid, []);
  }

  /** An empty page ends either loop: its request completes the listing. */
  lemma EmptyPageDone(resource: string, fixed: Record, step: RowStep, pages: seq<seq<Record>>,
                      page: nat, before: seq<Event>, whole: seq<Event>)
    requires 1 <= page && PageAt(pages, page) == []
    requires before + ListingFrom(resource, fixed, step, pages, page) == whole
    ensures before + [List(resource, PageParams(fixed, page))] == whole
  {
    assert RowEvents(step, PageAt(pages, page)) == [];
    assert ListingFrom(resource, fixed, step, pages, page) == [List(resource, PageParams(fixed, page))] + [];
  }

  /** After a full page whose rows all processed, either loop is back at its
      invariant for the next page. */
  lemma FullPageDone(resource: string, fixed: Record, step: RowStep, pages: seq<seq<Record>>,
                     page: nat, before: seq<Event>, whole: seq<Event>)
    requires 1 <= page && PageAt(pages, page) != []
    requires AllApply(step, PageAt(pages, page))
    requires before + ListingFrom(resource, fixed, step, pages, page) == whole
    ensures page <= |pages|
    ensures before + [List(resource, PageParams(fixed, page))] + RowEvents(step, PageAt(pages, page))
        + ListingFrom(resource, fixed, step, pages, page + 1)
      == whole
  {
    var head := [List(resource, PageParams(fixed, page))];
    var mid := RowEvents(step, PageAt(pages, page));
    var next := ListingFrom(resource, fixed, step, pages, page + 1);
    assert ListingFrom(resource, fixed, step, pages, page) == head + mid + next;
    AppendAssoc(before, head, mid, next);
  }

  lemma AppendAssoc(a: seq<Event>, b: seq<Event>, c: seq<Event>, d: seq<Event>)
    ensures a + (b + c + d) == a + b + c + d
  {
  }
}
