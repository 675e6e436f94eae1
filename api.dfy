/** The schema service: node-schema lookup and the bounded change log. */
module SchemaApi {
  import opened Wrappers
  import opened JsArray
  import opened SchemaTypes

  /** The change log keeps at most this many entries. */
  const Capacity: nat := 100

  function Min(a: int, b: int): int {
    if a <= b then a else b
  }

  /** Selects node schemas by exact (case-sensitive) node type. */
  function HasNodeType(nodeType: string): (r: NodeSchema -> bool)
    ensures forall ns :: r(ns) <==> ns.nodeType == nodeType
  {
    (ns: NodeSchema) => ns.nodeType == nodeType
  }

  /** `getNodeSchema`: the first node schema of the fetched schema whose node
      type equals `nodeType` exactly, or `None` (the source's `null`). */
  function GetNodeSchema(schema: GraphSchema, nodeType: string): (r: Option<NodeSchema>)
    ensures r.None? <==> forall i :: 0 <= i < |schema.nodeSchemas| ==> schema.nodeSchemas[i].nodeType != nodeType
    ensures r.Some? ==> r.value.nodeType == nodeType
    ensures r.Some? ==> exists i :: 0 <= i < |schema.nodeSchemas| && schema.nodeSchemas[i] == r.value &&
                          forall j :: 0 <= j < i ==> schema.nodeSchemas[j].nodeType != nodeType
  {
    var r := Find(schema.nodeSchemas, HasNodeType(nodeType));
    assert r.Some? ==> exists i :: IsFirst(schema.nodeSchemas, HasNodeType(nodeType), i) && schema.nodeSchemas[i] == r.value;
    r
  }

  /** The stored log after `addSchemaChangeLog(entry)`: `entry` first, then
      the previous entries in order, cut to the `Capacity` newest. */
  function PushBounded(logs: seq<SchemaChangeLog>, entry: SchemaChangeLog): (r: seq<SchemaChangeLog>)
    ensures |r| == Min(|logs| + 1, Capacity)
    ensures r[0] == entry
    ensures forall i :: 1 <= i < |r| ==> r[i] == logs[i - 1]
  {
    var all := [entry] + logs;
    all[..Min(|all|, Capacity)]
  }

  /** The stored log after adding `entries` one after the other, oldest first. */
  function PushAll(logs: seq<SchemaChangeLog>, entries: seq<SchemaChangeLog>): seq<SchemaChangeLog>
    decreases |entries|
  {
    if entries == [] then logs
    else PushAll(PushBounded(logs, entries[0]), entries[1..])
  }

  /** After any number of additions the log holds the `Capacity` most recent
      entries, newest first: position `i` holds the `i`-th most recently
      added entry, and past the added ones come the older stored entries. */
  lemma {:induction false} PushAllKeepsMostRecent(logs: seq<SchemaChangeLog>, entries: seq<SchemaChangeLog>)
    requires |logs| <= Capacity
    ensures |PushAll(logs, entries)| == Min(|entries| + |logs|, Capacity)
    ensures forall i :: 0 <= i < |PushAll(logs, entries)| ==>
              PushAll(logs, entries)[i] == if i < |entries| then entries[|entries| - 1 - i] else logs[i - |entries|]
    decreases |entries|
  {
    if entries != [] {
      var next := PushBounded(logs, entries[0]);
      var rest := entries[1..];
      PushAllKeepsMostRecent(next, rest);
      var r := PushAll(logs, entries);
      assert r == PushAll(next, rest);
      forall i | 0 <= i < |r|
        ensures r[i] == if i < |entries| then entries[|entries| - 1 - i] else logs[i - |entries|]
      {
        if i < |rest| {
          assert entries[|entries| - 1 - i] == rest[|rest| - 1 - i];
        } else {
          assert r[i] == next[i - |rest|];
        }
      }
    }
  }

  /** Starting from an empty log, adding at least `Capacity` entries keeps
      exactly the `Capacity` last ones, newest first. */
  lemma LogBound(entries: seq<SchemaChangeLog>)
    requires |entries| >= Capacity
    ensures |PushAll([], entries)| == Capacity
    ensures forall i :: 0 <= i < Capacity ==> PushAll([], entries)[i] == entries[|entries| - 1 - i]
  {
    PushAllKeepsMostRecent([], entries);
  }

  /** The `localStorage` slot `schema_change_logs`, holding the serialised
      log, or nothing before the first entry is written. */
  class ChangeLogStore {
    var slot: Option<seq<SchemaChangeLog>>

    /** The log as `getSchemaChangeLogs` reads it: nothing stored reads as []. */
    function Logs(): (r: seq<SchemaChangeLog>)
      reads this
      ensures slot.None? ==> r == []
      ensures slot.Some? ==> r == slot.value
    {
      match slot
      case None => []
      case Some(logs) => logs
    }

    /** The store never holds more than `Capacity` entries. */
    predicate Valid()
      reads this
    {
      |Logs()| <= Capacity
    }

    constructor ()
      ensures slot == None && Valid()
    {
      slot := None;
    }

    /** `getSchemaChangeLogs`. */
    method GetSchemaChangeLogs() returns (logs: seq<SchemaChangeLog>)
      ensures slot.None? ==> logs == []
      ensures slot.Some? ==> logs == slot.value
    {
      match slot
      case None => logs := [];
      case Some(stored) => logs := stored;
    }

    /** `addSchemaChangeLog`: stamps the entry with the given id and
        timestamp, puts it in front of the stored entries and writes back the
        `Capacity` newest. */
    method AddSchemaChangeLog(log: ChangeLogInput, id: string, timestamp: int)
      modifies this
      ensures Valid()
      ensures slot == Some(PushBounded(old(Logs()), Stamp(log, id, timestamp)))
    {
      var logs := GetSchemaChangeLogs();
      var newLog := Stamp(log, id, timestamp);
      logs := [newLog] + logs;
      var recentLogs := logs[..Min(|logs|, Capacity)];
      slot := Some(recentLogs);
    }
  }
}

/** The graph service: mapping suggestion. */
module GraphApi {
  import opened Wrappers
  import opened Ascii
  import opened JsArray
  import opened SchemaTypes
  import opened SchemaApi

  /** Selects schema properties whose name equals `prop` ignoring case. */
  function NameMatches(prop: string): (r: PropertyDefinition -> bool)
    ensures forall p :: r(p) <==> EqualsIgnoreCase(p.name, prop)
  {
    (p: PropertyDefinition) => EqualsIgnoreCase(p.name, prop)
  }

  /** The target suggested for one uploaded property: the matched property's
      name, falling back to `prop` when that name is empty. It is the name of the first schema property matching `prop` ignoring
      case, and `prop` itself when none matches. */
  function SuggestTarget(properties: seq<PropertyDefinition>, prop: string): (r: string)
    ensures forall j :: IsFirst(properties, NameMatches(prop), j) ==> r == properties[j].name
    ensures (forall j :: 0 <= j < |properties| ==> !EqualsIgnoreCase(properties[j].name, prop)) ==> r == prop
    ensures EqualsIgnoreCase(r, prop)
  {
    match FindIndex(properties, NameMatches(prop)) {
      case None => prop
      case Some(k) =>
        var matched := properties[k];
        assert matched.name == "" ==> prop == "" by {
          EqualsIgnoreCaseEmpty(matched.name, prop);
        }
        if matched.name != "" then matched.name else prop
    }
  }

  /** `suggestMappings`: one mapping per uploaded property name, in order,
      each for `nodeType`; nothing when the schema has no such node type. */
  function SuggestMappings(schema: GraphSchema, uploadedProperties: seq<string>, nodeType: string): (r: seq<PropertyMapping>)
    ensures GetNodeSchema(schema, nodeType).None? ==> r == []
    ensures GetNodeSchema(schema, nodeType).Some? ==> |r| == |uploadedProperties|
    ensures forall i :: 0 <= i < |r| ==> r[i].sourceProperty == uploadedProperties[i] && r[i].nodeType == nodeType
  {
    match GetNodeSchema(schema, nodeType) {
      case None => []
      case Some(ns) =>
        seq(|uploadedProperties|, i requires 0 <= i < |uploadedProperties| =>
          PropertyMapping(uploadedProperties[i], SuggestTarget(ns.properties, uploadedProperties[i]), nodeType))
    }
  }

  /** A property with a case-insensitive match is mapped to the name of the
      first matching property, in schema order. */
  lemma SuggestedTargetIsFirstMatch(schema: GraphSchema, uploadedProperties: seq<string>, nodeType: string, ns: NodeSchema, i: int, j: int)
    requires GetNodeSchema(schema, nodeType) == Some(ns)
    requires 0 <= i < |uploadedProperties|
    requires 0 <= j < |ns.properties| && EqualsIgnoreCase(ns.properties[j].name, uploadedProperties[i])
    requires forall k :: 0 <= k < j ==> !EqualsIgnoreCase(ns.properties[k].name, uploadedProperties[i])
    ensures SuggestMappings(schema, uploadedProperties, nodeType)[i].targetProperty == ns.properties[j].name
  {
    assert IsFirst(ns.properties, NameMatches(uploadedProperties[i]), j);
  }

  /** A property with no case-insensitive match keeps its own name as target. */
  lemma UnmatchedTargetIsSource(schema: GraphSchema, uploadedProperties: seq<string>, nodeType: string, ns: NodeSchema, i: int)
    requires GetNodeSchema(schema, nodeType) == Some(ns)
    requires 0 <= i < |uploadedProperties|
    requires forall k :: 0 <= k < |ns.properties| ==> !EqualsIgnoreCase(ns.properties[k].name, uploadedProperties[i])
    ensures SuggestMappings(schema, uploadedProperties, nodeType)[i].targetProperty == uploadedProperties[i]
  {
  }

  /** The same uploaded name gets the same suggestion wherever it occurs. */
  lemma DuplicateNamesGetEqualMappings(schema: GraphSchema, uploadedProperties: seq<string>, nodeType: string, i: int, j: int)
    requires 0 <= i < |uploadedProperties| && 0 <= j < |uploadedProperties|
    requires uploadedProperties[i] == uploadedProperties[j]
    requires GetNodeSchema(schema, nodeType).Some?
    ensures SuggestMappings(schema, uploadedProperties, nodeType)[i] == SuggestMappings(schema, uploadedProperties, nodeType)[j]
  {
  }

  /** Suggesting for a concatenation is suggesting for each part. */
  lemma SuggestMappingsAppend(schema: GraphSchema, a: seq<string>, b: seq<string>, nodeType: string)
    ensures SuggestMappings(schema, a + b, nodeType) == SuggestMappings(schema, a, nodeType) + SuggestMappings(schema, b, nodeType)
  {
  }
}
