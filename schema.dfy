/** Nested assignment into a JSON schema held as nested dicts, as in
    `base_schema["properties"]["data"]["properties"]["custom_fields"] = v`:
    every key on the path is subscripted in turn (KeyError when it is
    missing, TypeError when the value reached is not a dict), then the last
    dict gets the new entry. The custom-field merges of every stream are
    built from it. */
module SchemaMerge {
  import opened Values

  /** The dict reached by subscripting `root` with each key of `path` in turn. */
  function Descend(root: Record, path: seq<string>): (r: Result<Record, Error>)
    ensures path == [] ==> r == Ok(root)
    ensures path != [] && path[0] !in root ==> r == Err(KeyError(path[0]))
    ensures path != [] && path[0] in root && !root[path[0]].Obj? ==> r == Err(TypeError)
    decreases |path|
  {
    if path == [] then Ok(root)
    else if path[0] !in root then Err(KeyError(path[0]))
    else match root[path[0]]
      case Obj(child) => Descend(child, path[1..])
      case _ => Err(TypeError)
  }

  /** `root[path[0]]...[path[k-1]][key] = v`, returning the updated root. */
  function SetIn(root: Record, path: seq<string>, key: string, v: Value): (r: Result<Record, Error>)
    ensures r.Ok? <==> Descend(root, path).Ok?
    ensures r.Err? ==> r.error == Descend(root, path).error
    ensures r.Ok? ==> Descend(r.value, path) == Ok(Descend(root, path).value[key := v])
    ensures r.Ok? && path != [] ==> r.value.Keys == root.Keys
    ensures r.Ok? && path != [] ==> forall k :: k in root && k != path[0] ==> r.value[k] == root[k]
    decreases |path|
  {
    if path == [] then Ok(root[key := v])
    else if path[0] !in root then Err(KeyError(path[0]))
    else match root[path[0]]
      case Obj(child) =>
        (match SetIn(child, path[1..], key, v)
         case Ok(c) => Ok(root[path[0] := Obj(c)])
         case Err(e) => Err(e))
      case _ => Err(TypeError)
  }

  /** Along the path, the assignment leaves every entry it does not pass
      through as it was: at each level only the next key on the path, and
      at the end only `key`, change. */
  lemma {:induction false} SetInFrame(root: Record, path: seq<string>, key: string, v: Value, i: nat)
    requires SetIn(root, path, key, v).Ok?
    requires i <= |path|
    ensures Descend(root, path[..i]).Ok? && Descend(SetIn(root, path, key, v).value, path[..i]).Ok?
    ensures var before := Descend(root, path[..i]).value;
            var after := Descend(SetIn(root, path, key, v).value, path[..i]).value;
            var changed := if i < |path| then path[i] else key;
            after.Keys == before.Keys + {changed}
            && forall k :: k in before && k != changed ==> after[k] == before[k]
    decreases i
  {
    var r := SetIn(root, path, key, v).value;
    if i == 0 {
      assert path[..0] == [];
    } else {
      var child := root[path[0]].fields;
      var c := SetIn(child, path[1..], key, v).value;
      assert r == root[path[0] := Obj(c)];
      SetInFrame(child, path[1..], key, v, i - 1);
      assert path[..i][0] == path[0];
      assert path[..i][1..] == path[1..][..i - 1];
      assert i < |path| ==> path[i] == path[1..][i - 1];
    }
  }

  /** Assigning the same value twice is the same as assigning it once. */
  lemma {:induction false} SetInIdempotent(root: Record, path: seq<string>, key: string, v: Value)
    requires SetIn(root, path, key, v).Ok?
    ensures SetIn(SetIn(root, path, key, v).value, path, key, v) == SetIn(root, path, key, v)
    decreases |path|
  {
    var r := SetIn(root, path, key, v).value;
    if path == [] {
      assert r[key := v] == r;
    } else {
      var child := root[path[0]].fields;
      var c := SetIn(child, path[1..], key, v).value;
      SetInIdempotent(child, path[1..], key, v);
      assert r[path[0]] == Obj(c);
      assert r[path[0] := Obj(c)] == r;
    }
  }

  /** The object schema a stream gives the discovered custom fields:
      `{"properties": fields, "description": description, "type": ["object", "null"]}`. */
  function CustomFieldsSchema(fields: Record, description: string): (s: Value)
    ensures s.Obj? && s.fields.Keys == {"properties", "description", "type"}
    ensures s.fields["properties"] == Obj(fields)
    ensures s.fields["type"] == Arr([Str("object"), Str("null")])
  {
    Obj(map["properties" := Obj(fields), "description" := Str(description),
            "type" := Arr([Str("object"), Str("null")])])
  }

  /** `if fields: <path>["custom_fields"] = entry`: the schema is changed only
      when the discovered map is non-empty. */
  function MergeCustomFields(base: Record, path: seq<string>, fields: Record, entry: Value): (r: Result<Record, Error>)
    ensures fields == map[] ==> r == Ok(base)
    ensures fields != map[] ==> (r.Ok? <==> Descend(base, path).Ok?)
    ensures fields != map[] && r.Err? ==> r.error == Descend(base, path).error
    ensures fields != map[] && r.Ok? ==>
      Descend(r.value, path) == Ok(Descend(base, path).value["custom_fields" := entry])
  {
    if fields == map[] then Ok(base) else SetIn(base, path, "custom_fields", entry)
  }
}
