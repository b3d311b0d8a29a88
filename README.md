# tap-zendesk-sell stream control flow, in Dafny

This project models the control flow that the stream classes of the Zendesk Sell
extraction tap wrap around the `basecrm` client. It covers four pieces:

- **Page-number pagination.** Every list stream of the `tap_zendesk_sell/streams/` package
  starts at page 1 and requests each page with fixed keyword arguments. It stops at the first
  empty page and otherwise yields the page's rows. The source writes this loop two ways: a
  `finished` flag (`Paging.PageUntilEmpty`) and `while True` / `break`
  (`Paging.PageUntilEmptyBreak`). Both methods are proved to produce the trace that the
  reference definition `Paging.Listing` describes. Each stream module (`Contacts`, `Deals`,
  `Leads`, `Users`, `LossReasons`, `Stages`, `Orders`, `Tasks`, `Visits`, `VisitOutcomes`)
  runs the loop its own file uses, with that file's resource name and request parameters.
- **Child-stream enrichment.** Child contexts are built from a parent's `id`. The associated
  contacts and line items streams write the parent id into each row, and line items also
  rename `id` to `line_item_id`. In `tap_zendesk_sell/streams.py`, a missing parent id means
  the stream is skipped, and the child URL is built from a path template, with a `ValueError`
  when the id is missing.
- **The Sync API session** of the events stream (`Sync`; its textual duplicate is `Events`).
  The device UUID comes from the stream state, then the config, then a freshly generated id,
  and is written back into the state. A session is started and batches are fetched until one
  is empty. Each item is yielded as `{"data", "meta"}`, and each non-empty batch is
  acknowledged with its items' ack keys after all of them have been yielded.
- **Custom-field schema merges.** `custom_fields` is set in the schema only when the
  discovered map is non-empty (`SchemaMerge`, and `Streams.MergeCreating` for the single-file
  revision, which creates `properties` when it is missing).

Every call into the CRM client is an oracle. Pages and sync batches are `seq<seq<Record>>`
that answer an empty page past their end. `start` returns an `Option<Record>`. The SDK's
`request_records` returns a `seq<Record>`. Records are `map<string, Value>`. What a generator
does is returned as a trace of `Trace.Event`s: requests, `start` / `fetch` / `ack` calls,
yields, and the exception that ends it. The stream state that `get_context_state(None)` hands
out is the class `Sync.ContextState`, and `get_device_uuid` writes into it in place.
`str(uuid.uuid4())` is the parameter `generated`.

`tap_zendesk_sell/streams.py` and the `tap_zendesk_sell/streams/` package are two revisions
of the same classes. Each is modelled as written. `Streams.SchemasAgree` states where their
schema merges agree and where they differ. The revisions also differ in the line items
stream: the package revision moves `id` to `line_item_id`, while `streams.py` keeps `id`.

## Model

| member | source | states |
|---|---|---|
| `Paging.PageUntilEmpty` | tap_zendesk_sell/streams/users.py:20-29 | the `finished`-flag loop produces exactly the trace of `Listing`: request page n, yield its processed rows, stop after the first empty page (or at a row that raises) |
| `Paging.PageUntilEmptyBreak` | tap_zendesk_sell/streams/orders.py:29-39 | the `while True`/`break` loop produces the same trace `Listing` describes |
| `Paging.ProcessRows` | tap_zendesk_sell/streams/loss_reasons.py:24-25 | the per-row loop yields every processed row in order; the first row that raises ends it with that exception, and `ok` says whether every row processed |
| `Paging.ListingOutput` | tap_zendesk_sell/streams/deals.py:43-54 | when the drained rows all process: the yielded rows are the processed rows of pages 1..k in order, the requests are exactly pages 1..k+1 with the fixed parameters, and nothing is acknowledged or raised |
| `Paging.DrainIsFullPages` | tap_zendesk_sell/streams/contacts.py:41-52 | pages 1..k are non-empty, page k+1 is empty, and the drained rows are pages 1..k concatenated in order |
| `Paging.DrainIgnoresLaterPages` | tap_zendesk_sell/streams/deals.py:46-54 | whatever follows an empty page never changes the drained rows |
| `Paging.KeepListing` | tap_zendesk_sell/streams/contacts.py:41-52 | a stream yielding rows unchanged yields exactly the drained rows, requests exactly pages 1..k+1, and raises nothing |
| `Paging.EmptyFirstPage` | tap_zendesk_sell/streams/users.py:25-27 | an empty first page gives one request and nothing else |
| `Paging.ListingFailure` | tap_zendesk_sell/streams/orders.py:60-66 | an exception can only be the last event, and a drained row that cannot be processed does end the run with one |
| `Contacts.Schema` | tap_zendesk_sell/streams/contacts.py:24-39 | empty discovered map: base schema unchanged; otherwise `properties.custom_fields` becomes the object schema typed `["object","null"]`, other keys untouched, KeyError/TypeError when `properties` is missing or not a dict |
| `Contacts.GetRecords` | tap_zendesk_sell/streams/contacts.py:41-52 | rows = pages 1..k in order, requests = pages 1..k+1 with `per_page=100, sort_by="id"`, no exception; empty first page gives exactly one request |
| `Deals.Schema` | tap_zendesk_sell/streams/deals.py:22-37 | as `Contacts.Schema`, with the deal description |
| `Deals.GetChildContext` | tap_zendesk_sell/streams/deals.py:39-41 | exactly `{"deal_id": record["id"]}`; KeyError("id") when the record has no id |
| `Deals.GetRecords` | tap_zendesk_sell/streams/deals.py:43-54 | rows = pages 1..k in order, requests = pages 1..k+1 with `per_page=100, sort_by="id", includes="associated_contacts"` |
| `Deals.AssociatedParams` | tap_zendesk_sell/streams/deals.py:70-72 | the request parameters are exactly the context's `deal_id` and `per_page=100` |
| `Deals.AssociatedContactsRecords` | tap_zendesk_sell/streams/deals.py:65-78 | a None context raises AttributeError before any request; otherwise every yielded row is the fetched row with `deal_id` set, same count and order, requests pages 1..k+1, no exception |
| `Orders.GetChildContext` | tap_zendesk_sell/streams/orders.py:23-27 | exactly `{"order_id": record["id"]}`; KeyError("id") when the record has no id |
| `Orders.GetRecords` | tap_zendesk_sell/streams/orders.py:29-39 | rows = pages 1..k in order, requests = pages 1..k+1 with `per_page=100, sort_by="id"` |
| `Orders.LineItemParams` | tap_zendesk_sell/streams/orders.py:54-60 | the request parameters are exactly the context's `order_id`, `per_page=100` and `sort_by="updated_at"` |
| `Orders.LineItemsRecords` | tap_zendesk_sell/streams/orders.py:50-67 | a None context raises AttributeError; when every drained row has an id, each yielded row is that row renamed and stamped, same count and order, pages 1..k+1 requested; a row without id ends the run with an exception |
| `Leads.Schema` | tap_zendesk_sell/streams/leads.py:24-39 | as `Contacts.Schema`, with the lead description |
| `Leads.GetRecords` | tap_zendesk_sell/streams/leads.py:41-52 | rows = pages 1..k in order, requests = pages 1..k+1 with `per_page=100, sort_by="id"` |
| `Users.GetRecords` | tap_zendesk_sell/streams/users.py:20-29 | rows = pages 1..k in order, requests = pages 1..k+1 with `per_page=100, sort_by="id"`; empty first page gives one request |
| `LossReasons.GetRecords` | tap_zendesk_sell/streams/loss_reasons.py:16-26 | rows = pages 1..k in order, requests = pages 1..k+1 with `per_page=100, sort_by="id"`; empty first page gives one request |
| `Stages.GetRecords` | tap_zendesk_sell/streams/stages.py:14-24 | rows = pages 1..k in order, requests = pages 1..k+1 with `per_page=100, sort_by="id"`; empty first page gives one request |
| `Tasks.GetRecords` | tap_zendesk_sell/streams/tasks.py:23-33 | rows = pages 1..k in order, requests = pages 1..k+1 with `per_page=100, sort_by="updated_at"`; empty first page gives one request |
| `Visits.GetRecords` | tap_zendesk_sell/streams/visits.py:23-33 | rows = pages 1..k in order, requests = pages 1..k+1 with `per_page=100, sort_by="id"`; empty first page gives one request |
| `VisitOutcomes.GetRecords` | tap_zendesk_sell/streams/visit_outcomes.py:23-33 | rows = pages 1..k in order, requests = pages 1..k+1 with `per_page=200` and no `sort_by`; empty first page gives one request |
| `Enrich.ChildContext` | tap_zendesk_sell/streams/deals.py:39-41 | a single-key map holding the record's id under the child's key, or KeyError("id") |
| `Enrich.ParentId` | tap_zendesk_sell/streams.py:217 | None for a missing or empty context and for a missing key, otherwise the context's value |
| `Enrich.ChildContextRoundTrip` | tap_zendesk_sell/streams.py:199-217 | the child reads back from its parent's context exactly the parent record's id |
| `Enrich.StampRows` | tap_zendesk_sell/streams/deals.py:75-77 | stamping never raises; each row gets the key set to the parent id, every other field kept, same count and order |
| `Enrich.LineItem` | tap_zendesk_sell/streams/orders.py:64-65 | no `id` key remains, `line_item_id` is the old `id`, `order_id` is the context's value, other fields kept; KeyError("id") when the row has no id |
| `Enrich.LineItemRows` | tap_zendesk_sell/streams/orders.py:63-66 | a page processes exactly when every row has an id, and then each processed row is that row renamed and stamped |
| `SchemaMerge.SetIn` | tap_zendesk_sell/streams/sync.py:26 | nested assignment succeeds exactly when every dict on the path exists; the dict at the end gains the key, and the top-level keys are kept |
| `SchemaMerge.SetInFrame` | tap_zendesk_sell/streams/sync.py:26-30 | at every level of the path only the next key (and at the end only `custom_fields`) changes |
| `SchemaMerge.SetInIdempotent` | tap_zendesk_sell/streams/contacts.py:33-38 | assigning the same custom-field schema twice is the same as assigning it once |
| `SchemaMerge.CustomFieldsSchema` | tap_zendesk_sell/streams/sync.py:26-30 | the object schema has exactly `properties`, `description` and `type`, with the discovered map and type `["object","null"]` |
| `SchemaMerge.MergeCustomFields` | tap_zendesk_sell/streams/sync.py:25-30 | the schema changes only when the discovered map is non-empty, and then only at the path's `custom_fields`; errors as the path lookup raises |
| `Sync.ResolveDevice` | tap_zendesk_sell/streams/sync.py:33-47 | a truthy state value is returned with the state unchanged; else a truthy config value, else the generated id, is written to state and returned; afterwards state's `device_uuid` equals the result and no other entry changed |
| `Sync.ResolveStable` | tap_zendesk_sell/streams/sync.py:39-47 | once resolved, asking again returns the same id and changes nothing, whatever id would be generated |
| `Sync.ResolveIdempotent` | tap_zendesk_sell/streams/sync.py:39-47 | repeating the resolution with the same generated id changes nothing |
| `Sync.GetDeviceUuid` | tap_zendesk_sell/streams/sync.py:33-47 | returns the resolved id and leaves the state as `ResolveDevice` says |
| `Sync.AckKeyResult` | tap_zendesk_sell/streams/sync.py:61 | `item["meta"]["sync"]["ack_key"]` is found exactly when each step is a dict holding the next key |
| `Sync.ShapeResult` | tap_zendesk_sell/streams/sync.py:62 | the yielded record has exactly `data` and `meta` copied from the item; KeyError for the first missing one |
| `Sync.ProcessItems` | tap_zendesk_sell/streams/sync.py:59-62 | the per-item loop yields the shaped items in order and, when none raises, collects exactly their ack keys in item order |
| `Sync.FetchBatch` | tap_zendesk_sell/streams/sync.py:56-64 | one pass: a fetch with the resolved device and session id, the batch's yields, then one ack with its keys iff the batch was non-empty; state unchanged |
| `Sync.DrainQueue` | tap_zendesk_sell/streams/sync.py:55-64 | the `while not finished` loop produces exactly the fetches of the reference definition, state unchanged |
| `Sync.GetRecords` | tap_zendesk_sell/streams/sync.py:49-64 | the trace is the reference session for the device resolved at the first call, and the state is left as that resolution says |
| `Sync.NoSession` | tap_zendesk_sell/streams/sync.py:51-54 | a None session or one without `"id"` gives only the start call: no fetch, no ack, no record |
| `Sync.SessionOutput` | tap_zendesk_sell/streams/sync.py:55-62 | the yielded records are the shaped items of the batches before the first empty one, in fetch order, and nothing raises |
| `Sync.SessionAcks` | tap_zendesk_sell/streams/sync.py:59-64 | when no drained item raises: one ack per batch before the first empty one and none for the empty batch; the j-th ack acknowledges batch j, carrying one key per item, each item's `ack_key` at the item's position |
| `Sync.SessionFetches` | tap_zendesk_sell/streams/sync.py:55-58 | when no drained item raises: exactly k+1 fetches, one per batch before the first empty one and one for the empty batch, each with the resolved device and the id `start` returned |
| `Sync.SessionAckedAfterYields` | tap_zendesk_sell/streams/sync.py:59-64 | every ack comes right after the yields of the records whose ack keys it carries, in order |
| `Sync.SessionFailsOnlyLast` | tap_zendesk_sell/streams/sync.py:60-62 | an exception from an item can only be the last event of the session |
| `Sync.SessionIdentity` | tap_zendesk_sell/streams/sync.py:51-64 | start, every fetch and every ack use one device id, and every fetch uses the session id `start` returned |
| `Sync.Schema` | tap_zendesk_sell/streams/sync.py:20-31 | `data.properties.custom_fields` becomes the object schema typed `["object","null"]` only when the discovered map is non-empty; otherwise the schema is unchanged |
| `Events.InitSchema` | tap_zendesk_sell/streams/events.py:22-29 | `data.properties.custom_fields` becomes `{"properties": map}` only when the map is non-empty; otherwise the schema is kept |
| `Events.GetDeviceUuid` | tap_zendesk_sell/streams/events.py:31-45 | the same state > config > generated precedence, written back into state |
| `Events.GetRecords` | tap_zendesk_sell/streams/events.py:47-62 | the same session trace as the sync stream, so every property proved of `Sync.Session` holds for it |
| `Render.IntTextRoundTrip` | tap_zendesk_sell/streams.py:244 | the decimal text an integer id is rendered with reads back as that id |
| `Render.Format` | tap_zendesk_sell/streams.py:244 | the formatted path is the template's prefix, the id's text, then the suffix |
| `Streams.AccountsUrlParams` | tap_zendesk_sell/streams.py:69-87 | always the empty map, whatever the context and page token |
| `Streams.MergeCreating` | tap_zendesk_sell/streams.py:138-148 | empty map: schema unchanged; otherwise `properties` is created if missing, `custom_fields` becomes the object schema typed `["object","null"]`, every other property and key is untouched; TypeError only when `properties` is not a dict |
| `Streams.MergeCreatingIdempotent` | tap_zendesk_sell/streams.py:187-197 | merging into an already-merged schema changes nothing |
| `Streams.ContactsSchema` | tap_zendesk_sell/streams.py:138-148 | empty map: schema unchanged; otherwise it fails only when `properties` is not a dict, and `properties.custom_fields` becomes the object schema described as "Custom fields attached to a contact." |
| `Streams.DealsSchema` | tap_zendesk_sell/streams.py:187-197 | as `ContactsSchema`, described as "Custom fields attached to a deal." |
| `Streams.LeadsSchema` | tap_zendesk_sell/streams.py:309-319 | as `ContactsSchema`, described as "Custom fields attached to a lead." |
| `Streams.SchemasAgree` | tap_zendesk_sell/streams.py:310-319 | with `properties` present both revisions give the same schema; without it the package revision raises KeyError and this one creates `properties` |
| `Streams.ContactsChildContext` | tap_zendesk_sell/streams.py:150-154 | exactly `{"contact_id": record["id"]}`; KeyError("id") otherwise |
| `Streams.DealsChildContext` | tap_zendesk_sell/streams.py:199-203 | exactly `{"deal_id": record["id"]}`, the same as the package revision |
| `Streams.OrdersChildContext` | tap_zendesk_sell/streams.py:349-353 | exactly `{"order_id": record["id"]}`, the same as the package revision |
| `Streams.StampEach` | tap_zendesk_sell/streams.py:225-227 | one `request_records` call, then every fetched record yielded with the parent id set, in order |
| `Streams.ChildRecords` | tap_zendesk_sell/streams.py:215-227 | no parent id: no request and no record; otherwise the records keep count, order and other fields and all carry the parent id; nothing raises |
| `Streams.AssociatedContactsRecords` | tap_zendesk_sell/streams.py:215-227 | as `ChildRecords` under `deal_id` |
| `Streams.LineItemsRecords` | tap_zendesk_sell/streams.py:365-375 | as `ChildRecords` under `order_id` |
| `Streams.ContextUrl` | tap_zendesk_sell/streams.py:240-244 | ValueError exactly when the parent id is absent; otherwise `url_base`, the path prefix, the id's text and the path suffix, in that order |
| `Streams.AssociatedContactsUrl` | tap_zendesk_sell/streams.py:229-244 | ValueError("deal_id is required in context") without an id, else `url_base + "/deals/" + str(id) + "/associated_contacts"` |
| `Streams.LineItemsUrl` | tap_zendesk_sell/streams.py:377-392 | ValueError("order_id is required in context") without an id, else `url_base + "/orders/" + str(id) + "/line_items"` |
| `Streams.ChildContextUrl` | tap_zendesk_sell/streams.py:199-244 | the URL built from a parent's child context holds the parent's integer id in decimal |
| `Streams.ContextUrlInjective` | tap_zendesk_sell/streams.py:240-244 | distinct integer parent ids give distinct URLs |
| `Streams.EventsUrlParams` | tap_zendesk_sell/streams.py:255-276 | `device_uuid` is added exactly when the config value is truthy, and every inherited parameter is kept |

## Left out

- The `basecrm` client and its connection setup (`tap_zendesk_sell/client.py`) are network I/O. Every `self.conn.*` call is an oracle argument, and `list_data`, which no file here defines, is taken to call the given client function with the given keyword arguments.
- Retries: the `backoff` decorators are library code driven by timing.
- The single-call `list_data` wrappers (products, lead and deal sources, unqualified reasons, pipelines, notes, tags, text messages) and the accounts stream's `get_records`: one client call each, with no loop and nothing to state.
- Custom-field discovery (`_update_schema`, `_build_custom_field_schema`) is not part of this model. Its result is the `discovered` argument.
- `uuid.uuid4()` is randomness. The generated id is the `generated` string argument.
- The SDK's `request_records` pagination in `tap_zendesk_sell/streams.py` is an oracle sequence of records. Its one call is one trace event.
- Generator laziness: a trace assumes the consumer drains the generator. A consumer that stops early sees a prefix of it.
- In-place mutation of rows and schema dicts is modelled as returning new values, so aliasing between a yielded row and the client's page is not captured.
- Configuration, CLI and stream discovery (`tap_zendesk_sell/tap.py`), the static schema declarations, logging, the ad-hoc search script and the SDK test harness are framework wiring.
- Values are JSON-like without floats. Python's `str()` is modelled for None, booleans, integers and strings only.
- Streams.ContextUrl: requires the parent id to be None or a scalar, because the Python `str()` of a list or dict id is not modelled.
- Streams.AssociatedContactsUrl: requires a scalar parent id, for the same reason as `ContextUrl`.
- Streams.LineItemsUrl: requires a scalar parent id, for the same reason as `ContextUrl`.
- Sync.ResolveStable: requires a non-empty generated id, which `str(uuid.uuid4())` always is.
