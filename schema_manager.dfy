/** The schema editor: pure transforms of the working schema and the component
    state that applies them and writes change-log entries. */
module SchemaManager {
  import opened Wrappers
  import opened Json
  import opened SchemaTypes
  import opened SchemaApi

  /** The property `handleAddProperty` appends: unnamed, string-typed, optional. */
  const BlankProperty := PropertyDefinition("", StringType, false, None, None)

  /** `Partial<PropertyDefinition>`: the fields to overwrite are the `Some` ones. */
  datatype PropertyUpdate = PropertyUpdate(
    name: Option<string>,
    propertyType: Option<PropertyType>,
    required: Option<bool>,
    description: Option<string>,
    defaultValue: Option<Value>)

  const NoUpdate := PropertyUpdate(None, None, None, None, None)

  function Override<T>(current: T, update: Option<T>): T {
    match update
    case None => current
    case Some(v) => v
  }

  /** Spreading an update over a property: fields present in the update win,
      the others keep their value. */
  function ApplyUpdate(p: PropertyDefinition, u: PropertyUpdate): (r: PropertyDefinition)
    ensures u.name.None? ==> r.name == p.name
    ensures u.name.Some? ==> r.name == u.name.value
    ensures u.propertyType.None? ==> r.propertyType == p.propertyType
    ensures u.propertyType.Some? ==> r.propertyType == u.propertyType.value
    ensures u.required.None? ==> r.required == p.required
    ensures u.required.Some? ==> r.required == u.required.value
    ensures u.description.Some? ==> r.description == u.description
    ensures u.description.None? ==> r.description == p.description
    ensures u.defaultValue.Some? ==> r.defaultValue == u.defaultValue
    ensures u.defaultValue.None? ==> r.defaultValue == p.defaultValue
  {
    PropertyDefinition(
      Override(p.name, u.name),
      Override(p.propertyType, u.propertyType),
      Override(p.required, u.required),
      if u.description.Some? then u.description else p.description,
      if u.defaultValue.Some? then u.defaultValue else p.defaultValue)
  }

  /** Applying the same update again changes nothing more. */
  lemma ApplyUpdateIdempotent(p: PropertyDefinition, u: PropertyUpdate)
    ensures ApplyUpdate(ApplyUpdate(p, u), u) == ApplyUpdate(p, u)
  {
  }

  /** Rewrites the property list of every node schema of `nodeType` with `f`,
      leaving each node schema's type and every other node schema as it was. */
  function MapMatching(schemas: seq<NodeSchema>, nodeType: string, f: seq<PropertyDefinition> -> seq<PropertyDefinition>): (r: seq<NodeSchema>)
    ensures |r| == |schemas|
    ensures forall i :: 0 <= i < |r| ==> r[i].nodeType == schemas[i].nodeType
    ensures forall i :: 0 <= i < |r| && schemas[i].nodeType != nodeType ==> r[i] == schemas[i]
    ensures forall i :: 0 <= i < |r| && schemas[i].nodeType == nodeType ==> r[i].properties == f(schemas[i].properties)
  {
    seq(|schemas|, i requires 0 <= i < |schemas| =>
      if schemas[i].nodeType == nodeType then schemas[i].(properties := f(schemas[i].properties)) else schemas[i])
  }

  /** The schema `handleAddProperty` computes: every node schema of
      `nodeType` gains `BlankProperty` at its end; all others are untouched. */
  function AddProperty(schema: GraphSchema, nodeType: string): (r: GraphSchema)
    ensures |r.nodeSchemas| == |schema.nodeSchemas|
    ensures forall i :: 0 <= i < |r.nodeSchemas| ==> r.nodeSchemas[i].nodeType == schema.nodeSchemas[i].nodeType
    ensures forall i :: 0 <= i < |r.nodeSchemas| && schema.nodeSchemas[i].nodeType != nodeType ==>
              r.nodeSchemas[i] == schema.nodeSchemas[i]
    ensures forall i :: 0 <= i < |r.nodeSchemas| && schema.nodeSchemas[i].nodeType == nodeType ==>
              var before, after := schema.nodeSchemas[i].properties, r.nodeSchemas[i].properties;
              |after| == |before| + 1 && after[..|before|] == before && after[|before|] == BlankProperty
  {
    GraphSchema(MapMatching(schema.nodeSchemas, nodeType, ps => ps + [BlankProperty]))
  }

  /** The property list with the update applied to the element at `index`
      only. */
  function UpdateAt(properties: seq<PropertyDefinition>, index: int, u: PropertyUpdate): (r: seq<PropertyDefinition>)
    ensures |r| == |properties|
    ensures forall i :: 0 <= i < |r| && i != index ==> r[i] == properties[i]
    ensures 0 <= index < |r| ==> r[index] == ApplyUpdate(properties[index], u)
  {
    seq(|properties|, i requires 0 <= i < |properties| =>
      if i == index then ApplyUpdate(properties[i], u) else properties[i])
  }

  /** The schema `handleUpdateProperty` computes: on every node schema of
      `nodeType` the property at `index` takes the fields given in the update;
      every other property and node schema is identical. */
  function UpdateProperty(schema: GraphSchema, nodeType: string, index: int, u: PropertyUpdate): (r: GraphSchema)
    ensures |r.nodeSchemas| == |schema.nodeSchemas|
    ensures forall i :: 0 <= i < |r.nodeSchemas| ==> r.nodeSchemas[i].nodeType == schema.nodeSchemas[i].nodeType
    ensures forall i :: 0 <= i < |r.nodeSchemas| && schema.nodeSchemas[i].nodeType != nodeType ==>
              r.nodeSchemas[i] == schema.nodeSchemas[i]
    ensures forall i :: 0 <= i < |r.nodeSchemas| && schema.nodeSchemas[i].nodeType == nodeType ==>
              var before, after := schema.nodeSchemas[i].properties, r.nodeSchemas[i].properties;
              |after| == |before| &&
              (forall k :: 0 <= k < |after| && k != index ==> after[k] == before[k]) &&
              (0 <= index < |after| ==> after[index] == ApplyUpdate(before[index], u))
  {
    GraphSchema(MapMatching(schema.nodeSchemas, nodeType, ps => UpdateAt(ps, index, u)))
  }

  /** An index that is out of range on every node schema of `nodeType`
      leaves the schema as it was. */
  lemma UpdateOutOfRangeIsNoOp(schema: GraphSchema, nodeType: string, index: int, u: PropertyUpdate)
    requires forall i :: 0 <= i < |schema.nodeSchemas| && schema.nodeSchemas[i].nodeType == nodeType ==>
               !(0 <= index < |schema.nodeSchemas[i].properties|)
    ensures UpdateProperty(schema, nodeType, index, u) == schema
  {
    var r := UpdateProperty(schema, nodeType, index, u);
    forall i | 0 <= i < |schema.nodeSchemas|
      ensures r.nodeSchemas[i] == schema.nodeSchemas[i]
    {
      if schema.nodeSchemas[i].nodeType == nodeType {
        assert r.nodeSchemas[i].properties == schema.nodeSchemas[i].properties;
      }
    }
  }

  /** An update that names no field leaves the schema as it was. */
  lemma EmptyUpdateIsNoOp(schema: GraphSchema, nodeType: string, index: int)
    ensures UpdateProperty(schema, nodeType, index, NoUpdate) == schema
  {
    var r := UpdateProperty(schema, nodeType, index, NoUpdate);
    forall i | 0 <= i < |schema.nodeSchemas|
      ensures r.nodeSchemas[i] == schema.nodeSchemas[i]
    {
      if schema.nodeSchemas[i].nodeType == nodeType {
        assert r.nodeSchemas[i].properties == schema.nodeSchemas[i].properties;
      }
    }
  }

  /** The schema `handleDeleteProperty` computes: every node schema of
      `nodeType` loses the property at `index` when there is one, the others
      keeping their order; all other node schemas are untouched. */
  function DeleteProperty(schema: GraphSchema, nodeType: string, index: int): (r: GraphSchema)
    ensures |r.nodeSchemas| == |schema.nodeSchemas|
    ensures forall i :: 0 <= i < |r.nodeSchemas| ==> r.nodeSchemas[i].nodeType == schema.nodeSchemas[i].nodeType
    ensures forall i :: 0 <= i < |r.nodeSchemas| && schema.nodeSchemas[i].nodeType != nodeType ==>
              r.nodeSchemas[i] == schema.nodeSchemas[i]
    ensures forall i :: 0 <= i < |r.nodeSchemas| && schema.nodeSchemas[i].nodeType == nodeType ==>
              var before, after := schema.nodeSchemas[i].properties, r.nodeSchemas[i].properties;
              if 0 <= index < |before| then after == before[..index] + before[index + 1..] else after == before
  {
    GraphSchema(MapMatching(schema.nodeSchemas, nodeType, ps => JsArray.WithoutIndex(ps, index)))
  }

  /** Deleting the property just added restores the schema, when every node
      schema of `nodeType` had `n` properties. */
  lemma DeleteUndoesAdd(schema: GraphSchema, nodeType: string, n: nat)
    requires forall i :: 0 <= i < |schema.nodeSchemas| && schema.nodeSchemas[i].nodeType == nodeType ==>
               |schema.nodeSchemas[i].properties| == n
    ensures DeleteProperty(AddProperty(schema, nodeType), nodeType, n) == schema
  {
    var added := AddProperty(schema, nodeType);
    var r := DeleteProperty(added, nodeType, n);
    forall i | 0 <= i < |schema.nodeSchemas|
      ensures r.nodeSchemas[i] == schema.nodeSchemas[i]
    {
      if schema.nodeSchemas[i].nodeType == nodeType {
        var ps := added.nodeSchemas[i].properties;
        assert r.nodeSchemas[i].properties == ps[..n] + ps[n + 1..];
        assert ps[..n] == schema.nodeSchemas[i].properties;
      }
    }
  }

  /** The name `handleDeleteProperty` reads before deleting: the name of the
      property at `index` in the FIRST node schema of
      `nodeType`, absent when there is none or the index is out of range. */
  function DeletedPropertyName(schema: GraphSchema, nodeType: string, index: int): (r: Option<string>)
    ensures (forall k :: 0 <= k < |schema.nodeSchemas| ==> schema.nodeSchemas[k].nodeType != nodeType) ==> r.None?
    ensures forall k :: JsArray.IsFirst(schema.nodeSchemas, HasNodeType(nodeType), k) ==>
              (r.Some? <==> 0 <= index < |schema.nodeSchemas[k].properties|) &&
              (r.Some? ==> r.value == schema.nodeSchemas[k].properties[index].name)
  {
    match GetNodeSchema(schema, nodeType) {
      case None => None
      case Some(ns) =>
        if 0 <= index < |ns.properties| then Some(ns.properties[index].name) else None
    }
  }

  const AddSuffix := " 노드에 새 프로퍼티 추가"
  const DeleteInfix := " 노드에서 프로퍼티 \""
  const DeleteSuffix := "\" 삭제"
  const UnknownName := "알 수 없음"

  /** The add entry's description: the node type, then the fixed text. */
  function AddDescription(nodeType: string): (r: string)
    ensures |r| == |nodeType| + |AddSuffix|
    ensures r[..|nodeType|] == nodeType && r[|nodeType|..] == AddSuffix
  {
    nodeType + AddSuffix
  }

  /** The name a delete description quotes: an absent or empty property name
      is shown as unknown, any other name as itself. */
  function ShownName(propertyName: Option<string>): (r: string)
    ensures r != ""
    ensures propertyName.Some? && propertyName.value != "" ==> r == propertyName.value
    ensures propertyName.None? || propertyName.value == "" ==> r == UnknownName
  {
    if propertyName.Some? && propertyName.value != "" then propertyName.value else UnknownName
  }

  /** The delete entry's description: the node type, then the shown name in
      quotes between the fixed texts. */
  function DeleteDescription(nodeType: string, propertyName: Option<string>): (r: string)
    ensures var n, k := |nodeType|, |nodeType| + |DeleteInfix|;
            && |r| == k + |ShownName(propertyName)| + |DeleteSuffix|
            && r[..n] == nodeType
            && r[n..k] == DeleteInfix
            && r[k..k + |ShownName(propertyName)|] == ShownName(propertyName)
            && r[k + |ShownName(propertyName)|..] == DeleteSuffix
  {
    var r := nodeType + DeleteInfix + ShownName(propertyName) + DeleteSuffix;
    assert r == nodeType + (DeleteInfix + (ShownName(propertyName) + DeleteSuffix));
    r
  }

  /** The log entry `handleAddProperty` writes: action add for that node
      type, with no property name. */
  function AddLog(nodeType: string): (r: ChangeLogInput)
    ensures r.action == Add && r.nodeType == nodeType
    ensures r.propertyName == None && r.changedBy == None
    ensures r.description == AddDescription(nodeType)
  {
    ChangeLogInput(nodeType, Add, None, AddDescription(nodeType), None)
  }

  /** The log entry `handleDeleteProperty` writes: action delete for that
      node type, naming the property read before the deletion. */
  function DeleteLog(schema: GraphSchema, nodeType: string, index: int): (r: ChangeLogInput)
    ensures r.action == Delete && r.nodeType == nodeType
    ensures r.propertyName == DeletedPropertyName(schema, nodeType, index)
    ensures r.changedBy == None
    ensures r.description == DeleteDescription(nodeType, r.propertyName)
  {
    var name := DeletedPropertyName(schema, nodeType, index);
    ChangeLogInput(nodeType, Delete, name, DeleteDescription(nodeType, name), None)
  }

  /** The log entry `handleSaveSchema` writes: action save for node type
      `all`, with no property name. */
  function SaveLog(): (r: ChangeLogInput)
    ensures r.action == Save && r.nodeType == "all"
    ensures r.propertyName == None && r.changedBy == None
    ensures r.description == "전체 스키마 저장"
  {
    ChangeLogInput("all", Save, None, "전체 스키마 저장", None)
  }

  /** The state of the schema editor: the working schema (`None` until it is
      loaded), the loading flag, the change log as last read, and the store
      the log is written to. */
  class SchemaManagerState {
    var schema: Option<GraphSchema>
    var loading: bool
    var changeLogs: seq<SchemaChangeLog>
    const store: ChangeLogStore

    /** The shown log, like the store, never exceeds `Capacity` entries. */
    predicate Valid()
      reads this, store
    {
      store.Valid() && |changeLogs| <= Capacity
    }

    constructor (store: ChangeLogStore)
      requires store.Valid()
      ensures this.store == store && Valid()
      ensures schema == None && loading && changeLogs == []
    {
      this.store := store;
      schema := None;
      loading := true;
      changeLogs := [];
    }

    /** `loadSchema`, with the fetched schema as a parameter (`None`: the
        fetch failed and the working schema stays as it was). */
    method LoadSchema(fetched: Option<GraphSchema>)
      modifies this`schema, this`loading
      ensures schema == if fetched.Some? then fetched else old(schema)
      ensures !loading
    {
      loading := true;
      if fetched.Some? {
        schema := fetched;
      }
      loading := false;
    }

    /** `loadChangeLogs`: the shown log becomes the stored one. */
    method LoadChangeLogs()
      requires Valid()
      modifies this`changeLogs
      ensures Valid()
      ensures changeLogs == store.Logs()
    {
      changeLogs := store.GetSchemaChangeLogs();
    }

    /** `handleAddProperty`: with a loaded schema, appends a blank property to
        every node schema of `nodeType`, then logs an add entry and reloads
        the log; without one, nothing happens. */
    method HandleAddProperty(nodeType: string, id: string, timestamp: int)
      requires Valid()
      modifies this`schema, this`changeLogs, store
      ensures Valid()
      ensures old(schema).None? ==> schema == old(schema) && changeLogs == old(changeLogs) && store.slot == old(store.slot)
      ensures old(schema).Some? ==>
                && schema == Some(AddProperty(old(schema).value, nodeType))
                && store.Logs() == PushBounded(old(store.Logs()), Stamp(AddLog(nodeType), id, timestamp))
                && changeLogs == store.Logs()
    {
      if schema.None? {
        return;
      }
      schema := Some(AddProperty(schema.value, nodeType));
      store.AddSchemaChangeLog(AddLog(nodeType), id, timestamp);
      LoadChangeLogs();
    }

    /** `handleUpdateProperty`: with a loaded schema, overwrites the given
        fields of the property at `index` of every node schema of `nodeType`.
        It writes no log entry. */
    method HandleUpdateProperty(nodeType: string, index: int, u: PropertyUpdate)
      requires Valid()
      modifies this`schema
      ensures Valid()
      ensures schema == if old(schema).None? then old(schema) else Some(UpdateProperty(old(schema).value, nodeType, index, u))
      ensures changeLogs == old(changeLogs) && store.slot == old(store.slot)
    {
      if schema.None? {
        return;
      }
      schema := Some(UpdateProperty(schema.value, nodeType, index, u));
    }

    /** `handleDeleteProperty`: with a loaded schema, removes the property at
        `index` from every node schema of `nodeType`, then logs a delete entry
        naming the property it read beforehand and reloads the log. The entry
        is written even when the index matched nothing. */
    method HandleDeleteProperty(nodeType: string, index: int, id: string, timestamp: int)
      requires Valid()
      modifies this`schema, this`changeLogs, store
      ensures Valid()
      ensures old(schema).None? ==> schema == old(schema) && changeLogs == old(changeLogs) && store.slot == old(store.slot)
      ensures old(schema).Some? ==>
                && schema == Some(DeleteProperty(old(schema).value, nodeType, index))
                && store.Logs() == PushBounded(old(store.Logs()), Stamp(DeleteLog(old(schema).value, nodeType, index), id, timestamp))
                && changeLogs == store.Logs()
    {
      if schema.None? {
        return;
      }
      var entry := DeleteLog(schema.value, nodeType, index);
      schema := Some(DeleteProperty(schema.value, nodeType, index));
      store.AddSchemaChangeLog(entry, id, timestamp);
      LoadChangeLogs();
    }

    /** `handleSaveSchema`: with a loaded schema, hands it to `updateSchema`
        (returned as `written`); only when that succeeds (`saved`) is a save
        entry logged and the log reloaded. The working schema never changes. */
    method HandleSaveSchema(saved: bool, id: string, timestamp: int) returns (written: Option<GraphSchema>)
      requires Valid()
      modifies this`changeLogs, store
      ensures Valid()
      ensures written == schema
      ensures written.Some? && saved ==>
                store.Logs() == PushBounded(old(store.Logs()), Stamp(SaveLog(), id, timestamp)) && changeLogs == store.Logs()
      ensures !(written.Some? && saved) ==> changeLogs == old(changeLogs) && store.slot == old(store.slot)
    {
      if schema.None? {
        return None;
      }
      written := schema;
      if saved {
        store.AddSchemaChangeLog(SaveLog(), id, timestamp);
        LoadChangeLogs();
      }
    }
  }
}
