/** The single-file revision of the stream classes,
    `tap_zendesk_sell/streams.py`: the accounts stream without pagination
    parameters; contacts, deals and leads schemas that create
    "properties" when it is missing; the child contexts of contacts, deals
    and orders; the associated-contacts and line-items streams, which
    stamp the parent id onto the SDK's own records and build their URL from
    it; and the events stream's URL parameters. */
module Streams {
  import opened Values
  import opened Trace
  import opened SchemaMerge
  import opened Enrich
  import opened Render
  import Contacts
  import Deals
  import Leads
  import Orders

  // ---------------------------------------------------------------------
  // Accounts

  /** `AccountsStream.get_url_params`: `/accounts/self` is not paginated, so
      no parameter is sent whatever the context and the page token. */
  function AccountsUrlParams(context: Option<Record>, nextPageToken: Option<int>): (params: Record)
    ensures params == map[]
  {
    map[]
  }

  // ---------------------------------------------------------------------
  // Custom-field schemas

  /** `if custom_fields_properties: if "properties" not in base_schema:
      base_schema["properties"] = {}; base_schema["properties"]["custom_fields"] = {...}`. */
  function MergeCreating(base: Record, fields: Record, description: string): (r: Result<Record, Error>)
    ensures fields == map[] ==> r == Ok(base)
    ensures fields != map[] ==> (r.Ok? <==> ("properties" !in base || base["properties"].Obj?))
    ensures r.Err? ==> r.error == TypeError
    ensures fields != map[] && r.Ok? ==>
      r.value.Keys == base.Keys + {"properties"}
      && (forall k :: k in base && k != "properties" ==> r.value[k] == base[k])
      && r.value["properties"].Obj?
      && var before := if "properties" in base then base["properties"].fields else map[];
         r.value["properties"].fields.Keys == before.Keys + {"custom_fields"}
         && r.value["properties"].fields["custom_fields"] == CustomFieldsSchema(fields, description)
         && forall k :: k in before && k != "custom_fields" ==> r.value["properties"].fields[k] == before[k]
  {
    if fields == map[] then Ok(base)
    else
      var withProperties := if "properties" in base then base else base["properties" := Obj(map[])];
      assert ["properties"][1..] == [];
      MergeCustomFields(withProperties, ["properties"], fields, CustomFieldsSchema(fields, description))
  }

  /** Applying the schema merge to its own result changes nothing. */
  lemma MergeCreatingIdempotent(base: Record, fields: Record, description: string)
    requires MergeCreating(base, fields, description).Ok?
    ensures MergeCreating(MergeCreating(base, fields, description).value, fields, description)
            == MergeCreating(base, fields, description)
  {
    var r := MergeCreating(base, fields, description).value;
    if fields != map[] {
      var p := r["properties"].fields;
      assert p["custom_fields" := CustomFieldsSchema(fields, description)] == p;
      assert r["properties" := Obj(p)] == r;
    }
  }

  /** `ContactsStream.schema`. */
  function ContactsSchema(base: Record, discovered: Record): (r: Result<Record, Error>)
    ensures discovered == map[] ==> r == Ok(base)
    ensures discovered != map[] ==> (r.Ok? <==> ("properties" !in base || base["properties"].Obj?))
    ensures discovered != map[] && r.Ok? ==>
      "properties" in r.value && r.value["properties"].Obj? && "custom_fields" in r.value["properties"].fields
      && r.value["properties"].fields["custom_fields"]
         == CustomFieldsSchema(discovered, "Custom fields attached to a contact.")
  {
    MergeCreating(base, discovered, Contacts.Description)
  }

  /** `DealsStream.schema`. */
  function DealsSchema(base: Record, discovered: Record): (r: Result<Record, Error>)
    ensures discovered == map[] ==> r == Ok(base)
    ensures discovered != map[] ==> (r.Ok? <==> ("properties" !in base || base["properties"].Obj?))
    ensures discovered != map[] && r.Ok? ==>
      "properties" in r.value && r.value["properties"].Obj? && "custom_fields" in r.value["properties"].fields
      && r.value["properties"].fields["custom_fields"]
         == CustomFieldsSchema(discovered, "Custom fields attached to a deal.")
  {
    MergeCreating(base, discovered, Deals.Description)
  }

  /** `LeadsStream.schema`. */
  function LeadsSchema(base: Record, discovered: Record): (r: Result<Record, Error>)
    ensures discovered == map[] ==> r == Ok(base)
    ensures discovered != map[] ==> (r.Ok? <==> ("properties" !in base || base["properties"].Obj?))
    ensures discovered != map[] && r.Ok? ==>
      "properties" in r.value && r.value["properties"].Obj? && "custom_fields" in r.value["properties"].fields
      && r.value["properties"].fields["custom_fields"]
         == CustomFieldsSchema(discovered, "Custom fields attached to a lead.")
  {
    MergeCreating(base, discovered, Leads.Description)
  }

  /** Where the base schema has a "properties" dict, the revised schemas
      are the per-file streams' schemas; where it has none, the per-file
      streams raise KeyError and the revised ones create it. */
  lemma SchemasAgree(base: Record, discovered: Record)
    ensures "properties" in base ==>
      ContactsSchema(base, discovered) == Contacts.Schema(base, discovered)
      && DealsSchema(base, discovered) == Deals.Schema(base, discovered)
      && LeadsSchema(base, discovered) == Leads.Schema(base, discovered)
    ensures "properties" !in base && discovered != map[] ==>
      Contacts.Schema(base, discovered) == Err(KeyError("properties")) && ContactsSchema(base, discovered).Ok?
      && Deals.Schema(base, discovered) == Err(KeyError("properties")) && DealsSchema(base, discovered).Ok?
      && Leads.Schema(base, discovered) == Err(KeyError("properties")) && LeadsSchema(base, discovered).Ok?
  {
  }

  // ---------------------------------------------------------------------
  // Child contexts

  /** `ContactsStream.get_child_context`: `{"contact_id": record["id"]}`. */
  function ContactsChildContext(record: Record): (r: Result<Record, Error>)
    ensures r.Ok? <==> "id" in record
    ensures r.Ok? ==> r.value.Keys == {"contact_id"} && r.value["contact_id"] == record["id"]
    ensures r.Err? ==> r.error == KeyError("id")
  {
    ChildContext(record, "contact_id")
  }

  /** `DealsStream.get_child_context`: as in the per-file deals stream. */
  function DealsChildContext(record: Record): (r: Result<Record, Error>)
    ensures r == Deals.GetChildContext(record)
    ensures r.Ok? <==> "id" in record
    ensures r.Ok? ==> r.value.Keys == {"deal_id"} && r.value["deal_id"] == record["id"]
  {
    ChildContext(record, "deal_id")
  }

  /** `OrdersStream.get_child_context`: as in the per-file orders stream. */
  function OrdersChildContext(record: Record): (r: Result<Record, Error>)
    ensures r == Orders.GetChildContext(record)
    ensures r.Ok? <==> "id" in record
    ensures r.Ok? ==> r.value.Keys == {"order_id"} && r.value["order_id"] == record["id"]
  {
    ChildContext(record, "order_id")
  }

  // ---------------------------------------------------------------------
  // Child streams over `request_records`

  /** `for record in super().request_records(context): record[key] = id;
      yield record`, where `fetched` are the records the SDK's
      `request_records` produces for the context. */
  method StampEach(context: Record, fetched: seq<Record>, key: string, id: Value) returns (trace: seq<Event>)
    ensures trace == [RequestRecords(context)] + Yields(Stamped(fetched, key, id))
  {
    trace := [RequestRecords(context)];
    var i := 0;
    while i < |fetched|
      invariant 0 <= i <= |fetched|
      invariant trace == [RequestRecords(context)] + Yields(Stamped(fetched[..i], key, id))
    {
      var record := fetched[i][key := id];
      StampedSnoc(fetched, i, key, id);
      YieldsSnoc(Stamped(fetched[..i], key, id), record);
      trace := trace + [Yield(record)];
      i := i + 1;
    }
    assert fetched[..|fetched|] == fetched;
  }

  lemma StampedSnoc(rows: seq<Record>, i: nat, key: string, v: Value)
    requires i < |rows|
    ensures Stamped(rows[..i + 1], key, v) == Stamped(rows[..i], key, v) + [rows[i][key := v]]
  {
    var a := Stamped(rows[..i + 1], key, v);
    var b := Stamped(rows[..i], key, v) + [rows[i][key := v]];
    assert |a| == |b|;
    forall j | 0 <= j < |a| ensures a[j] == b[j] {
      assert rows[..i + 1][j] == rows[j];
      if j < i {
        assert rows[..i][j] == rows[j];
      }
    }
  }

  /** The shared shape of both child streams' `get_records`: nothing at all
      when the context gives no parent id, otherwise one `request_records`
      call whose records are each yielded with the parent id set. */
  method ChildRecords(context: Option<Record>, fetched: seq<Record>, key: string) returns (trace: seq<Event>)
    ensures ParentId(context, key) == Null ==> trace == []
    ensures ParentId(context, key) != Null ==>
      context.Some? && trace == [RequestRecords(context.value)] + Yields(Stamped(fetched, key, ParentId(context, key)))
    ensures Rows(trace) == if ParentId(context, key) == Null then [] else Stamped(fetched, key, ParentId(context, key))
    ensures NoFail(trace)
  {
    var parentId := ParentId(context, key);
    if parentId == Null {
      return [];
    }
    trace := StampEach(context.value, fetched, key, parentId);
    ChildTraceFacts(context.value, Stamped(fetched, key, parentId));
  }

  lemma ChildTraceFacts(context: Record, rows: seq<Record>)
    ensures Rows([RequestRecords(context)] + Yields(rows)) == rows
    ensures NoFail([RequestRecords(context)] + Yields(rows))
  {
    YieldsOnlyRows(rows);
    RowsAppend([RequestRecords(context)], Yields(rows));
    assert Rows([RequestRecords(context)]) == [];
    forall e | e in [RequestRecords(context)] + Yields(rows) ensures !e.Fail? {
      if e in Yields(rows) {
        var k :| 0 <= k < |Yields(rows)| && Yields(rows)[k] == e;
      }
    }
  }

  /** `AssociatedContacts.get_records`. */
  method AssociatedContactsRecords(context: Option<Record>, fetched: seq<Record>) returns (trace: seq<Event>)
    ensures ParentId(context, "deal_id") == Null ==> trace == []
    ensures ParentId(context, "deal_id") != Null ==>
      context.Some? && trace == [RequestRecords(context.value)] + Yields(Stamped(fetched, "deal_id", ParentId(context, "deal_id")))
    ensures Rows(trace) == if ParentId(context, "deal_id") == Null then [] else Stamped(fetched, "deal_id", ParentId(context, "deal_id"))
    ensures NoFail(trace)
  {
    trace := ChildRecords(context, fetched, "deal_id");
  }

  /** `LineItemsStream.get_records`: unlike the per-file line-items stream,
      the revision keeps each record's "id" and only adds "order_id". */
  method LineItemsRecords(context: Option<Record>, fetched: seq<Record>) returns (trace: seq<Event>)
    ensures ParentId(context, "order_id") == Null ==> trace == []
    ensures ParentId(context, "order_id") != Null ==>
      context.Some? && trace == [RequestRecords(context.value)] + Yields(Stamped(fetched, "order_id", ParentId(context, "order_id")))
    ensures Rows(trace) == if ParentId(context, "order_id") == Null then [] else Stamped(fetched, "order_id", ParentId(context, "order_id"))
    ensures NoFail(trace)
  {
    trace := ChildRecords(context, fetched, "order_id");
  }

  // ---------------------------------------------------------------------
  // Child stream URLs

  const AssociatedContactsPath := Template("/deals/", "deal_id", "/associated_contacts")
  const LineItemsPath := Template("/orders/", "order_id", "/line_items")

  /** The message of the ValueError a child stream's `get_url` raises. */
  function Required(field: string): string {
    field + " is required in context"
  }

  /** The shared shape of both child streams' `get_url`: ValueError
      "<field> is required in context" without a parent id, otherwise
      `url_base + path.format(<field>=id)`. The id is rendered with `str()`. */
  function ContextUrl(urlBase: string, path: Template, context: Option<Record>): (r: Result<string, Error>)
    requires ParentId(context, path.field) == Null || Scalar(ParentId(context, path.field))
    ensures r.Err? <==> ParentId(context, path.field) == Null
    ensures r.Err? ==> r.error == ValueError(Required(path.field))
    ensures r.Ok? ==>
      var b := |urlBase| + |path.before|;
      |r.value| == b + |Text(ParentId(context, path.field))| + |path.after|
      && r.value[..|urlBase|] == urlBase
      && r.value[|urlBase|..b] == path.before
      && r.value[b..|r.value| - |path.after|] == Text(ParentId(context, path.field))
      && r.value[|r.value| - |path.after|..] == path.after
  {
    var id := ParentId(context, path.field);
    if id == Null then Err(ValueError(Required(path.field)))
    else
      var s := Format(path, id);
      var u := urlBase + s;
      assert u[|urlBase|..] == s;
      Ok(u)
  }

  /** `AssociatedContacts.get_url`. */
  function AssociatedContactsUrl(urlBase: string, context: Option<Record>): (r: Result<string, Error>)
    requires ParentId(context, "deal_id") == Null || Scalar(ParentId(context, "deal_id"))
    ensures r.Err? <==> ParentId(context, "deal_id") == Null
    ensures r.Err? ==> r.error == ValueError(Required("deal_id"))
    ensures r.Ok? ==> r.value == urlBase + "/deals/" + Text(ParentId(context, "deal_id")) + "/associated_contacts"
  {
    ContextUrl(urlBase, AssociatedContactsPath, context)
  }

  /** `LineItemsStream.get_url`. */
  function LineItemsUrl(urlBase: string, context: Option<Record>): (r: Result<string, Error>)
    requires ParentId(context, "order_id") == Null || Scalar(ParentId(context, "order_id"))
    ensures r.Err? <==> ParentId(context, "order_id") == Null
    ensures r.Err? ==> r.error == ValueError(Required("order_id"))
    ensures r.Ok? ==> r.value == urlBase + "/orders/" + Text(ParentId(context, "order_id")) + "/line_items"
  {
    ContextUrl(urlBase, LineItemsPath, context)
  }

  /** The URL a child stream builds from its parent's context: the parent
      record's integer id, in decimal, between the path's two halves. */
  lemma ChildContextUrl(urlBase: string, record: Record, i: int)
    requires "id" in record && record["id"] == Int(i)
    ensures AssociatedContactsUrl(urlBase, Some(DealsChildContext(record).value))
            == Ok(urlBase + "/deals/" + IntText(i) + "/associated_contacts")
    ensures LineItemsUrl(urlBase, Some(OrdersChildContext(record).value))
            == Ok(urlBase + "/orders/" + IntText(i) + "/line_items")
  {
    ChildContextRoundTrip(record, "deal_id");
    ChildContextRoundTrip(record, "order_id");
  }

  /** Different integer parent ids give different URLs, so no two parents
      share a child request. */
  lemma ContextUrlInjective(urlBase: string, path: Template, i: int, j: int)
    requires ContextUrl(urlBase, path, Some(map[path.field := Int(i)]))
             == ContextUrl(urlBase, path, Some(map[path.field := Int(j)]))
    ensures i == j
  {
    var ci := Some(map[path.field := Int(i)]);
    var cj := Some(map[path.field := Int(j)]);
    assert ParentId(ci, path.field) == Int(i);
    assert ParentId(cj, path.field) == Int(j);
    var u := ContextUrl(urlBase, path, ci).value;
    var b := |urlBase| + |path.before|;
    assert Text(Int(i)) == u[b..|u| - |path.after|] == Text(Int(j));
    IntTextInjective(i, j);
  }

  // ---------------------------------------------------------------------
  // Events

  /** `EventsStream.get_url_params`: the SDK's parameters, with
      "device_uuid" added from the config when it is truthy there. Only the
      config is consulted, never the stream state. */
  function EventsUrlParams(inherited: Record, config: Record): (params: Record)
    ensures Truthy(Get(config, "device_uuid")) ==>
      params.Keys == inherited.Keys + {"device_uuid"} && params["device_uuid"] == config["device_uuid"]
    ensures !Truthy(Get(config, "device_uuid")) ==> params == inherited
    ensures forall k :: k in inherited && k != "device_uuid" ==> k in params && params[k] == inherited[k]
  {
    var deviceUuid := Get(config, "device_uuid");
    if Truthy(deviceUuid) then inherited["device_uuid" := deviceUuid] else inherited
  }
}
