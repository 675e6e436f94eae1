/** The graph uploader: loading the selected node type's property names,
    generating and editing mappings, and the upload gate. */
module GraphUploader {
  import opened Wrappers
  import opened Ascii
  import opened GraphTypes
  import opened SchemaTypes
  import opened SchemaApi
  import opened GraphApi
  import JsArray

  /** A selected file; only its name is observable here. */
  datatype FileHandle = FileHandle(name: string)

  /** The field of a mapping the editor may change. */
  datatype MappingField = SourceField | TargetField

  /** What `uploadGraph` is given: the data and the mappings, unmodified. */
  datatype UploadRequest = UploadRequest(data: UploadedGraphData, mappings: seq<PropertyMapping>)

  /** The property names `loadSchemaProperties` shows: those of the node
      schema of `nodeType`, in order, or none when the fetch failed
      (`fetched` is `None`) or the node type is unknown. */
  function SchemaPropertyNames(fetched: Option<GraphSchema>, nodeType: string): (r: seq<string>)
    ensures fetched.None? ==> r == []
    ensures fetched.Some? && GetNodeSchema(fetched.value, nodeType).None? ==> r == []
    ensures fetched.Some? && GetNodeSchema(fetched.value, nodeType).Some? ==>
              var ps := GetNodeSchema(fetched.value, nodeType).value.properties;
              |r| == |ps| && forall i :: 0 <= i < |r| ==> r[i] == ps[i].name
  {
    if fetched.None? then []
    else match GetNodeSchema(fetched.value, nodeType) {
      case None => []
      case Some(ns) => seq(|ns.properties|, i requires 0 <= i < |ns.properties| => ns.properties[i].name)
    }
  }

  /** The node types `loadNodeTypes` offers, in schema order. */
  function NodeTypes(schema: GraphSchema): (r: seq<string>)
    ensures |r| == |schema.nodeSchemas|
    ensures forall i :: 0 <= i < |r| ==> r[i] == schema.nodeSchemas[i].nodeType
    ensures forall t :: t in r <==> GetNodeSchema(schema, t).Some?
  {
    var r := seq(|schema.nodeSchemas|, i requires 0 <= i < |schema.nodeSchemas| => schema.nodeSchemas[i].nodeType);
    assert forall t :: GetNodeSchema(schema, t).Some? ==> t in r by {
      forall t | GetNodeSchema(schema, t).Some? ensures t in r {
        var i :| 0 <= i < |schema.nodeSchemas| && schema.nodeSchemas[i].nodeType == t;
        assert r[i] == t;
      }
    }
    r
  }

  /** The names `generateMappings` asks suggestions for: the property keys of
      the first node only, in their order. */
  function FirstNodeKeys(data: UploadedGraphData): (r: seq<string>)
    requires |data.nodes| > 0
    ensures |r| == |data.nodes[0].properties|
    ensures forall i :: 0 <= i < |r| ==> r[i] == data.nodes[0].properties[i].0
  {
    PropertyKeys(data.nodes[0])
  }

  /** Later nodes do not influence the names asked for. */
  lemma FirstNodeKeysIgnoreLaterNodes(data: UploadedGraphData, more: seq<GraphNode>)
    requires |data.nodes| > 0
    ensures FirstNodeKeys(data.(nodes := data.nodes + more)) == FirstNodeKeys(data)
  {
    assert (data.nodes + more)[0] == data.nodes[0];
  }

  function Field(m: PropertyMapping, field: MappingField): string {
    match field
    case SourceField => m.sourceProperty
    case TargetField => m.targetProperty
  }

  /** The mappings after the editor writes `value` into one field of row
      `index`: only `field` of mapping `index` changes; the length, the other fields
      and every other mapping stay. */
  function ChangeMapping(mappings: seq<PropertyMapping>, index: int, field: MappingField, value: string): (r: seq<PropertyMapping>)
    ensures |r| == |mappings|
    ensures forall i :: 0 <= i < |r| && i != index ==> r[i] == mappings[i]
    ensures 0 <= index < |r| ==>
              && Field(r[index], field) == value
              && r[index].nodeType == mappings[index].nodeType
              && (field == SourceField ==> r[index].targetProperty == mappings[index].targetProperty)
              && (field == TargetField ==> r[index].sourceProperty == mappings[index].sourceProperty)
  {
    seq(|mappings|, i requires 0 <= i < |mappings| =>
      if i != index then mappings[i]
      else match field
        case SourceField => mappings[i].(sourceProperty := value)
        case TargetField => mappings[i].(targetProperty := value))
  }

  /** Writing back the previous value undoes a change. */
  lemma ChangeMappingUndo(mappings: seq<PropertyMapping>, index: int, field: MappingField, value: string)
    requires 0 <= index < |mappings|
    ensures ChangeMapping(ChangeMapping(mappings, index, field, value), index, field, Field(mappings[index], field)) == mappings
  {
    var r := ChangeMapping(ChangeMapping(mappings, index, field, value), index, field, Field(mappings[index], field));
    assert forall i :: 0 <= i < |mappings| ==> r[i] == mappings[i];
  }

  /** The options of the target selector: "" (do not map) first, then the
      schema property names in order. */
  function TargetOptions(schemaProperties: seq<string>): (r: seq<string>)
    ensures |r| == |schemaProperties| + 1 && r[0] == ""
    ensures forall v :: v in r <==> v == "" || v in schemaProperties
  {
    [""] + schemaProperties
  }

  /** The state of the uploader component. */
  class GraphUploaderState {
    var selectedFile: Option<FileHandle>
    var uploadedData: Option<UploadedGraphData>
    var nodeType: string
    var mappings: seq<PropertyMapping>
    var availableNodeTypes: seq<string>
    var schemaProperties: seq<string>

    constructor ()
      ensures selectedFile == None && uploadedData == None && nodeType == "Story"
      ensures mappings == [] && availableNodeTypes == [] && schemaProperties == []
    {
      selectedFile := None;
      uploadedData := None;
      nodeType := "Story";
      mappings := [];
      availableNodeTypes := [];
      schemaProperties := [];
    }

    /** `loadSchemaProperties`, with the fetched schema as a parameter
        (`None`: the fetch failed). */
    method LoadSchemaProperties(fetched: Option<GraphSchema>)
      modifies this`schemaProperties
      ensures schemaProperties == SchemaPropertyNames(fetched, nodeType)
    {
      if fetched.None? {
        schemaProperties := [];
        return;
      }
      var nodeSchema := GetNodeSchema(fetched.value, nodeType);
      if nodeSchema.Some? {
        var ps := nodeSchema.value.properties;
        schemaProperties := seq(|ps|, i requires 0 <= i < |ps| => ps[i].name);
      } else {
        schemaProperties := [];
      }
    }

    /** `loadNodeTypes`; a failed fetch leaves the list as it was. */
    method LoadNodeTypes(fetched: Option<GraphSchema>)
      modifies this`availableNodeTypes
      ensures availableNodeTypes == if fetched.Some? then NodeTypes(fetched.value) else old(availableNodeTypes)
    {
      if fetched.Some? {
        availableNodeTypes := NodeTypes(fetched.value);
      }
    }

    /** The state effect of `handleFileSelect`: no file selects nothing;
        otherwise the file is remembered, and the data replaced when its
        content parsed (`parsed`), kept when it did not. */
    method SelectFile(file: Option<FileHandle>, parsed: Option<UploadedGraphData>)
      modifies this`selectedFile, this`uploadedData
      ensures file.None? ==> selectedFile == old(selectedFile) && uploadedData == old(uploadedData)
      ensures file.Some? ==> selectedFile == file && uploadedData == if parsed.Some? then parsed else old(uploadedData)
    {
      if file.None? {
        return;
      }
      selectedFile := file;
      if parsed.Some? {
        uploadedData := parsed;
      }
    }

    /** Choosing a node type in the selector. */
    method SetNodeType(t: string)
      modifies this`nodeType
      ensures nodeType == t
    {
      nodeType := t;
    }

    /** `generateMappings`: without data or without nodes nothing happens;
        otherwise the mappings become the suggestions for the first node's
        keys, unless the schema fetch failed (`fetched` is `None`). */
    method GenerateMappings(fetched: Option<GraphSchema>)
      modifies this`mappings
      ensures uploadedData.None? || |uploadedData.value.nodes| == 0 || fetched.None? ==> mappings == old(mappings)
      ensures uploadedData.Some? && |uploadedData.value.nodes| > 0 && fetched.Some? ==>
                mappings == SuggestMappings(fetched.value, FirstNodeKeys(uploadedData.value), nodeType)
    {
      if uploadedData.None? || |uploadedData.value.nodes| == 0 {
        return;
      }
      var uploadedProperties := FirstNodeKeys(uploadedData.value);
      if fetched.Some? {
        mappings := SuggestMappings(fetched.value, uploadedProperties, nodeType);
      }
    }

    /** `handleMappingChange`. */
    method HandleMappingChange(index: int, field: MappingField, value: string)
      modifies this`mappings
      ensures mappings == ChangeMapping(old(mappings), index, field, value)
    {
      mappings := ChangeMapping(mappings, index, field, value);
    }

    /** The target selector of row `index`: the user picks option `option`
        of `TargetOptions(schemaProperties)`, so the new target is "" or one
        of the schema property names. */
    method SelectTarget(index: int, option: nat)
      requires option < |TargetOptions(schemaProperties)|
      modifies this`mappings
      ensures mappings == ChangeMapping(old(mappings), index, TargetField, TargetOptions(schemaProperties)[option])
      ensures 0 <= index < |mappings| ==> mappings[index].targetProperty == "" || mappings[index].targetProperty in schemaProperties
    {
      var value := TargetOptions(schemaProperties)[option];
      HandleMappingChange(index, TargetField, value);
    }

    /** `handleUpload`: without data or with no mappings nothing is sent;
        otherwise the data and mappings are sent as they are (`request`), and
        when the upload succeeds (`uploaded`) file, data and mappings are
        cleared; when it fails they stay. */
    method HandleUpload(uploaded: bool) returns (request: Option<UploadRequest>)
      modifies this`selectedFile, this`uploadedData, this`mappings
      ensures request.None? <==> old(uploadedData).None? || |old(mappings)| == 0
      ensures request.Some? ==> request.value == UploadRequest(old(uploadedData).value, old(mappings))
      ensures request.Some? && uploaded ==> selectedFile == None && uploadedData == None && mappings == []
      ensures !(request.Some? && uploaded) ==>
                selectedFile == old(selectedFile) && uploadedData == old(uploadedData) && mappings == old(mappings)
    {
      if uploadedData.None? || |mappings| == 0 {
        return None;
      }
      request := Some(UploadRequest(uploadedData.value, mappings));
      if uploaded {
        selectedFile := None;
        uploadedData := None;
        mappings := [];
      }
    }
  }

  /** A worked case: node type `universe` with properties `name` and `title`;
      the uploaded names `Name` and `Extra` map to `name` and (no match)
      `Extra`; clearing the second target leaves it unmapped. */
  lemma UniverseScenario()
    ensures
      var prop := (n: string) => PropertyDefinition(n, StringType, true, None, None);
      var schema := GraphSchema([NodeSchema("universe", [prop("name"), prop("title")])]);
      var suggested := SuggestMappings(schema, ["Name", "Extra"], "universe");
      && suggested == [PropertyMapping("Name", "name", "universe"), PropertyMapping("Extra", "Extra", "universe")]
      && ChangeMapping(suggested, 1, TargetField, "") == [PropertyMapping("Name", "name", "universe"), PropertyMapping("Extra", "", "universe")]
  {
    var prop := (n: string) => PropertyDefinition(n, StringType, true, None, None);
    var ps := [prop("name"), prop("title")];
    var schema := GraphSchema([NodeSchema("universe", ps)]);
    CaseVariantsMatch("name", "Name");
    assert JsArray.IsFirst(ps, NameMatches("Name"), 0);
    assert Lower("Extra") == "extra";
    assert Lower("name") == "name" && Lower("title") == "title";
    assert forall k :: 0 <= k < |ps| ==> !EqualsIgnoreCase(ps[k].name, "Extra");
  }
}
