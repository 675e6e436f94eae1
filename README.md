# Graph schema tool: schema editing and property mapping

A model of the schema-editing and property-mapping layer of a browser tool for
a graph database. It covers four parts:

- **Schema service** (`SchemaApi`). It looks up a node schema by node type,
  and it keeps a change log capped at 100 entries, newest first, in a
  browser storage slot.
- **Mapping suggestion** (`GraphApi`). For each property name of an uploaded
  file, it proposes the first schema property whose name matches ignoring
  case. When nothing matches, it proposes the uploaded name itself.
- **Schema editor** (`SchemaManager`). It adds, updates and deletes a
  property at an index on every node schema of a node type, and saves the
  schema. Every edit except update writes a change-log entry.
- **Uploader** (`GraphUploader`). It builds mappings from the first
  uploaded node's keys and edits one field of one mapping at a time. It
  sends nothing unless there is data and at least one mapping, and it
  clears its state after a successful upload.

The record shapes of `src/types/schema.ts` and `src/types/graph.ts` are
datatypes in `SchemaTypes` and `GraphTypes`. `Json.Value` stands for
TypeScript's `any`. A `Record<string, any>` is an ordered list of entries,
so that the order `Object.keys` reports is part of the value. Helper modules:

- `Wrappers` holds `Option`, for `undefined` and `null`.
- `Ascii` holds the lower-casing.
- `JsArray` holds `find`, `findIndex` and the `filter` by index.

Pure computations are functions with contracts. The component state lives in
three classes:

- `SchemaApi.ChangeLogStore` holds the storage slot.
- `SchemaManager.SchemaManagerState` holds the editor's schema, loading flag
  and shown log. It shares the store object.
- `GraphUploader.GraphUploaderState` holds the uploader's file, data, node
  type, mappings, node-type list and property-name list.

Each handler is a method whose `ensures` gives the whole new state in terms
of the old one and the pure functions.

Collaborators become parameters:

- The schema fetch is `fetched: Option<GraphSchema>`, where `None` means the
  fetch failed. `getSchema` returns a fixed fixture, so the model passes the
  snapshot in.
- The outcomes of `updateSchema` and `uploadGraph` are the booleans `saved`
  and `uploaded`.
- The log id and timestamp (`Date.now()`, `Math.random()`) are the
  parameters `id` and `timestamp`.
- The parsed file content is `parsed`.

`type` is a Dafny keyword, so `PropertyDefinition.type` is `propertyType` and
a relationship's `type` is `relType`.

Notes on what the code does:

- The upload gate checks only for missing data and an empty mapping list.
  It does not check for an empty node list (`src/components/GraphUploader/GraphUploader.tsx:103`).
  `GenerateMappings` leaves the mappings alone for data without nodes, so an
  earlier file's mappings can be sent along with a later file that has no
  nodes.
- `uploadGraph` passes the data and mappings on unchanged. It applies no
  mapping, drops no key and converts no type (`src/services/api.ts:121-132`).
  So `HandleUpload` returns exactly `UploadRequest(data, mappings)`.
- `updateSchema` rejects nothing. In particular it does not check for
  duplicate property names (`src/services/api.ts:68-76`).
- A property whose matched schema name is empty falls back to the uploaded
  name (`matched?.name || prop`). The model keeps that branch. `SuggestTarget`
  proves it still yields the first match's name, because only an empty
  uploaded name can match an empty schema name.

## Model

| member | source | states |
|---|---|---|
| JsArray.FindIndex | src/services/api.ts:144-146 | the index returned is the first whose element satisfies the predicate; none is returned exactly when no element does |
| JsArray.Find | src/services/api.ts:114 | `find` returns the element at the first satisfying index, and nothing exactly when no element satisfies the predicate |
| JsArray.WithoutIndex | src/components/SchemaManager/SchemaManager.tsx:102 | filtering out index `index` gives the slices before and after it joined, and the input unchanged when the index is out of range |
| JsArray.WithoutIndexKeepsOrder | src/components/SchemaManager/SchemaManager.tsx:102 | after a valid removal the length drops by one, and survivor `i` is input element `i` or `i + 1`, in order |
| Ascii.LowerChar | src/services/api.ts:145 | a lowered character is never an upper-case letter; it is the input or that letter 32 code points on |
| Ascii.EqualsIgnoreCase | src/services/api.ts:145 | two names match ignoring case exactly when they have the same length and agree character by character once lowered |
| Ascii.Lower | src/services/api.ts:145 | lowering keeps the length and lowers each character |
| Ascii.EqualsIgnoreCaseEmpty | src/services/api.ts:149 | only the empty name equals the empty name ignoring case |
| Ascii.CaseVariantsMatch | src/services/api.ts:145 | names of equal length that differ only in letter case match |
| Json.Keys | src/components/GraphUploader/GraphUploader.tsx:78 | `Object.keys` lists the entry keys in order, and exactly the keys present |
| GraphTypes.PropertyKeys | src/components/GraphUploader/GraphUploader.tsx:78 | a node's keys are its property names in order, one per property |
| SchemaTypes.PropertyTypeName | src/types/schema.ts:2 | every property type is written as one of the six names `string`, `number`, `boolean`, `date`, `array`, `object` |
| SchemaTypes.ParsePropertyType | src/types/schema.ts:2 | exactly the six names read as a property type, and each reads as the type written that way |
| SchemaTypes.PropertyTypeRoundTrip | src/types/schema.ts:2 | writing a property type and reading it back gives the same type |
| SchemaTypes.ChangeActionName | src/types/schema.ts:33 | every action is written as one of `add`, `update`, `delete`, `save` |
| SchemaTypes.ParseChangeAction | src/types/schema.ts:33 | exactly the four names read as an action, and each reads as the action written that way |
| SchemaTypes.ChangeActionRoundTrip | src/types/schema.ts:33 | writing an action and reading it back gives the same action |
| SchemaTypes.Stamp | src/services/api.ts:100-104 | the stamped entry carries the given id and timestamp and every field the caller supplied, unchanged |
| SchemaApi.HasNodeType | src/services/api.ts:114 | the selector accepts exactly the node schemas whose node type equals the argument, case-sensitively |
| SchemaApi.GetNodeSchema | src/services/api.ts:112-115 | the result is the first node schema whose node type equals the argument exactly, and nothing exactly when none does |
| SchemaApi.PushBounded | src/services/api.ts:99-108 | after adding, the new entry is at index 0, the previous entries follow in order, and the length is min(old + 1, 100) |
| SchemaApi.PushAllKeepsMostRecent | src/services/api.ts:105-107 | after any run of additions, position `i` holds the `i`-th most recent entry, older stored entries come after, and the length is min(added + stored, 100) |
| SchemaApi.LogBound | src/services/api.ts:106-107 | from an empty store, adding 100 or more entries keeps exactly the last 100, newest first |
| SchemaApi.ChangeLogStore.Logs | src/services/api.ts:85-86 | an empty slot reads as the empty log; a filled slot reads as what it holds |
| SchemaApi.ChangeLogStore.constructor | src/services/api.ts:85-86 | a new store has nothing in its slot |
| SchemaApi.ChangeLogStore.GetSchemaChangeLogs | src/services/api.ts:79-87 | an empty slot reads as the empty log; otherwise the stored log is returned |
| SchemaApi.ChangeLogStore.AddSchemaChangeLog | src/services/api.ts:90-109 | the slot holds the stamped entry in front of the previous log, cut to 100, and the store stays within 100 |
| GraphApi.NameMatches | src/services/api.ts:144-146 | the matcher accepts exactly the schema properties whose name equals the uploaded name ignoring case |
| GraphApi.SuggestTarget | src/services/api.ts:144-149 | the target is the name of the first schema property matching ignoring case; with no match it is the uploaded name; it always matches the uploaded name ignoring case |
| GraphApi.SuggestMappings | src/services/api.ts:135-153 | with no schema for the node type there are no mappings; otherwise one per uploaded name, with source `i` equal to name `i`, each for the given node type |
| GraphApi.SuggestedTargetIsFirstMatch | src/services/api.ts:144-149 | a name with a case-insensitive match is mapped to the first matching schema property's name |
| GraphApi.UnmatchedTargetIsSource | src/services/api.ts:149 | a name with no case-insensitive match is mapped to itself |
| GraphApi.DuplicateNamesGetEqualMappings | src/services/api.ts:143-152 | repeated uploaded names get identical mappings |
| GraphApi.SuggestMappingsAppend | src/services/api.ts:143 | suggesting for a concatenation is concatenating the suggestions, so order is kept |
| SchemaManager.ApplyUpdate | src/components/SchemaManager/SchemaManager.tsx:80 | the fields given in the update take its values; the others keep theirs |
| SchemaManager.ApplyUpdateIdempotent | src/components/SchemaManager/SchemaManager.tsx:80 | applying an update twice equals applying it once |
| SchemaManager.MapMatching | src/components/SchemaManager/SchemaManager.tsx:43-53 | node schemas of the given type get transformed properties and keep their type; the others are identical; the count is kept |
| SchemaManager.AddProperty | src/components/SchemaManager/SchemaManager.tsx:41-54 | each node schema of the type gains exactly one blank string-typed optional property at its end; the others and the count are unchanged |
| SchemaManager.UpdateAt | src/components/SchemaManager/SchemaManager.tsx:79-81 | only the property at the index changes, and it takes the update; the length is kept |
| SchemaManager.UpdateProperty | src/components/SchemaManager/SchemaManager.tsx:73-85 | on node schemas of the type, only the property at the index takes the update; every other property and node schema is identical |
| SchemaManager.UpdateOutOfRangeIsNoOp | src/components/SchemaManager/SchemaManager.tsx:79-80 | an index out of range on every node schema of the type changes nothing |
| SchemaManager.EmptyUpdateIsNoOp | src/components/SchemaManager/SchemaManager.tsx:79-80 | an update naming no field changes nothing |
| SchemaManager.DeleteProperty | src/components/SchemaManager/SchemaManager.tsx:96-106 | on node schemas of the type, a valid index is removed and the rest keep their order; an invalid one changes nothing; other node schemas are identical |
| SchemaManager.DeleteUndoesAdd | src/components/SchemaManager/SchemaManager.tsx:96-106 | deleting the property just added restores the schema |
| SchemaManager.DeletedPropertyName | src/components/SchemaManager/SchemaManager.tsx:92-94 | the logged name is the one at the index in the first node schema of the type; it is absent when there is no such schema or the index is out of its range |
| SchemaManager.AddDescription | src/components/SchemaManager/SchemaManager.tsx:61 | the add description is the node type followed by the fixed add text |
| SchemaManager.ShownName | src/components/SchemaManager/SchemaManager.tsx:114 | a present, non-empty property name is shown as itself; an absent or empty one as the unknown-name text; never empty |
| SchemaManager.DeleteDescription | src/components/SchemaManager/SchemaManager.tsx:114 | the delete description is the node type, the fixed text, the shown name in quotes, and the fixed closing text |
| SchemaManager.AddLog | src/components/SchemaManager/SchemaManager.tsx:58-62 | the add entry has action add, the given node type, no property name, no author, and the add description |
| SchemaManager.DeleteLog | src/components/SchemaManager/SchemaManager.tsx:110-115 | the delete entry has action delete, the given node type, the property name read before deleting, no author, and the delete description for that name |
| SchemaManager.SaveLog | src/components/SchemaManager/SchemaManager.tsx:126-130 | the save entry has action save, node type `all`, no property name, no author, and the fixed save description |
| SchemaManager.SchemaManagerState.constructor | src/components/SchemaManager/SchemaManager.tsx:7-9 | the editor starts with no schema, loading, and an empty shown log |
| SchemaManager.SchemaManagerState.LoadSchema | src/components/SchemaManager/SchemaManager.tsx:17-27 | a fetched schema replaces the working one, a failed fetch keeps it, and loading ends |
| SchemaManager.SchemaManagerState.LoadChangeLogs | src/components/SchemaManager/SchemaManager.tsx:29-36 | the shown log becomes the stored log |
| SchemaManager.SchemaManagerState.HandleAddProperty | src/components/SchemaManager/SchemaManager.tsx:38-64 | without a schema nothing changes; otherwise the schema becomes AddProperty's result and one add entry with no property name is pushed and shown |
| SchemaManager.SchemaManagerState.HandleUpdateProperty | src/components/SchemaManager/SchemaManager.tsx:66-87 | without a schema nothing changes; otherwise the schema becomes UpdateProperty's result and no log entry is written |
| SchemaManager.SchemaManagerState.HandleDeleteProperty | src/components/SchemaManager/SchemaManager.tsx:89-117 | without a schema nothing changes; otherwise the schema becomes DeleteProperty's result and a delete entry naming the property read beforehand is pushed and shown |
| SchemaManager.SchemaManagerState.HandleSaveSchema | src/components/SchemaManager/SchemaManager.tsx:119-138 | the working schema is handed to the store; a save entry for node type `all` is pushed only when the write succeeded; without a schema or on failure the log is unchanged |
| GraphUploader.SchemaPropertyNames | src/components/GraphUploader/GraphUploader.tsx:29-41 | the names are those of the node type's schema properties, in order; they are empty when the fetch failed or the type is unknown |
| GraphUploader.NodeTypes | src/components/GraphUploader/GraphUploader.tsx:43-50 | the offered types are the node schemas' types in order, and exactly the types the lookup finds |
| GraphUploader.FirstNodeKeys | src/components/GraphUploader/GraphUploader.tsx:76-78 | the names asked for are the first node's property keys, in order |
| GraphUploader.FirstNodeKeysIgnoreLaterNodes | src/components/GraphUploader/GraphUploader.tsx:77 | appending nodes changes nothing about the names asked for |
| GraphUploader.ChangeMapping | src/components/GraphUploader/GraphUploader.tsx:96-98 | only the chosen field of the mapping at the index takes the value; the length, its other fields and every other mapping are unchanged |
| GraphUploader.ChangeMappingUndo | src/components/GraphUploader/GraphUploader.tsx:96-98 | writing back the previous value restores the mappings |
| GraphUploader.TargetOptions | src/components/GraphUploader/GraphUploader.tsx:198-203 | the options are "" first and then the schema property names; a value is an option exactly when it is "" or one of those names |
| GraphUploader.UniverseScenario | src/services/api.ts:143-152 | for node type `universe` with `name` and `title`, suggesting for `Name` and `Extra` gives targets `name` and `Extra`; clearing the second leaves it "" |
| GraphUploader.GraphUploaderState.constructor | src/components/GraphUploader/GraphUploader.tsx:8-13 | the uploader starts with no file, no data, node type `Story` and empty lists |
| GraphUploader.GraphUploaderState.LoadSchemaProperties | src/components/GraphUploader/GraphUploader.tsx:29-41 | the shown names become SchemaPropertyNames for the current node type |
| GraphUploader.GraphUploaderState.LoadNodeTypes | src/components/GraphUploader/GraphUploader.tsx:43-50 | a fetched schema replaces the type list; a failed fetch keeps it |
| GraphUploader.GraphUploaderState.SelectFile | src/components/GraphUploader/GraphUploader.tsx:52-71 | no file changes nothing; a file is remembered, and its data replaces the old data only when it parsed |
| GraphUploader.GraphUploaderState.SetNodeType | src/components/GraphUploader/GraphUploader.tsx:154 | the chosen node type becomes current |
| GraphUploader.GraphUploaderState.GenerateMappings | src/components/GraphUploader/GraphUploader.tsx:73-89 | without data, without nodes or on a failed fetch the mappings stay; otherwise they become the suggestions for the first node's keys |
| GraphUploader.GraphUploaderState.HandleMappingChange | src/components/GraphUploader/GraphUploader.tsx:91-100 | the mappings become ChangeMapping's result |
| GraphUploader.GraphUploaderState.SelectTarget | src/components/GraphUploader/GraphUploader.tsx:191-204 | the chosen row's target becomes "" or a schema property name |
| GraphUploader.GraphUploaderState.HandleUpload | src/components/GraphUploader/GraphUploader.tsx:102-119 | nothing is sent exactly when there is no data or no mapping; otherwise data and mappings go out unchanged; success clears file, data and mappings; failure keeps them |

## Left out

- Rendering, hooks and `useEffect` re-triggering are left out. They are the
  user interface. A handler is modelled as a method that runs to completion,
  so the `async` interleaving between handlers is not modelled.
- `alert` and `console` calls are left out. They have no effect on state.
- `localStorage` and the JSON serialisation of the log are left out. The
  storage slot is a field holding the entries themselves. A corrupt stored
  value that would make `JSON.parse` throw is not modelled.
- Id and timestamp generation (`Date.now()`, `Math.random()`) is left out.
  They are parameters, and nothing is proved about their uniqueness.
- `getSchema`, and the mock data it returns, is left out. The fetched schema
  is a parameter. In the source, saving does not change what later fetches
  return.
- `updateSchema` and `uploadGraph` are logging stubs. Only their success or
  failure is a parameter.
- File reading (`FileReader`, `JSON.parse`) is left out. Only its result is a
  parameter of `SelectFile`.
- `Object.keys` puts integer-like keys first in ascending order. The model
  takes the entry order as the key order.
- The metadata editor, the image uploader, login, tab switching and the
  `metadataApi` and `imageApi` mocks are not part of this model. They are
  forms over mock data and I/O.
- The `showLogs` toggle of the schema editor is left out. It is display state.
- Ascii.Lower: lowers only the ASCII letters A-Z, not all Unicode letters as
  JavaScript's `toLowerCase` does.
- SchemaManager.ApplyUpdate: an update field is either absent or has a value.
  A field that is present but `undefined`, which the spread would copy, is
  not modelled because the editor never passes one.
- GraphTypes.GraphMetadata: JavaScript numbers are `real` here, with no
  floating-point rounding. The same holds for `Json.Number`.
- SelectFile: the parsed file content is assumed to have the
  `UploadedGraphData` shape, with distinct keys in every object. The source
  casts the result of `JSON.parse` without checking it. So a file holding
  `null` clears the data, and a file holding `{}` is stored and makes mapping
  generation throw before its error handling. Neither case is modelled, and
  nothing in the model forbids an entry list with a repeated key, which
  `Object.keys` never reports.
