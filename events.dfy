/** `EventsStream` of `tap_zendesk_sell/streams/events.py`: the older form
    of the Sync API stream. Its device UUID resolution and its session loop
    are the same as `SyncStream`'s; its constructor puts the discovered
    custom fields into the event schema as a bare `{"properties": ...}`
    object, without a description or a type. */
module Events {
  import opened Values
  import opened Trace
  import opened SchemaMerge
  import Sync

  /** `__init__`: when the discovered custom fields are non-empty,
      `self._schema["properties"]["data"]["properties"]["custom_fields"]`
      becomes `{"properties": fields}`; otherwise the schema is kept. The
      lookups raise as `Descend` says when the schema lacks the path. */
  function InitSchema(schema: Record, discovered: Record): (r: Result<Record, Error>)
    ensures discovered == map[] ==> r == Ok(schema)
    ensures discovered != map[] ==> (r.Ok? <==> Descend(schema, Sync.DataPropertiesPath).Ok?)
    ensures discovered != map[] && r.Err? ==> r.error == Descend(schema, Sync.DataPropertiesPath).error
    ensures discovered != map[] && r.Ok? ==>
      Descend(r.value, Sync.DataPropertiesPath)
        == Ok(Descend(schema, Sync.DataPropertiesPath).value["custom_fields" := Obj(map["properties" := Obj(discovered)])])
      && r.value.Keys == schema.Keys
      && forall k :: k in schema && k != "properties" ==> r.value[k] == schema[k]
  {
    MergeCustomFields(schema, Sync.DataPropertiesPath, discovered, Obj(map["properties" := Obj(discovered)]))
  }

  /** `get_device_uuid`: state, then config, then a generated id, written
      back into the state. */
  method GetDeviceUuid(state: Sync.ContextState, config: Record, generated: string) returns (uuid: Value)
    modifies state
    ensures uuid == Sync.ResolveDevice(old(state.entries), config, generated).uuid
    ensures state.entries == Sync.ResolveDevice(old(state.entries), config, generated).entries
  {
    uuid := Sync.GetDeviceUuid(state, config, generated);
  }

  /** `get_records`: the same session loop as the sync stream's. */
  method GetRecords(state: Sync.ContextState, config: Record, session: Option<Record>,
                    batches: seq<seq<Record>>, generated: string) returns (trace: seq<Event>)
    modifies state
    ensures var res := Sync.ResolveDevice(old(state.entries), config, generated);
            trace == Sync.Session(res.uuid, session, batches) && state.entries == res.entries
  {
    trace := Sync.GetRecords(state, config, session, batches, generated);
  }
}
