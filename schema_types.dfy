/** The schema document, property mappings and change-log entries. */
module SchemaTypes {
  import opened Wrappers
  import opened Json

  /** The closed set of property types. */
  datatype PropertyType = StringType | NumberType | BooleanType | DateType | ArrayType | ObjectType

  /** The string each property type is written as (the option values of the
      schema editor's type selector). */
  function PropertyTypeName(t: PropertyType): (r: string)
    ensures r in {"string", "number", "boolean", "date", "array", "object"}
  {
    match t
    case StringType => "string"
    case NumberType => "number"
    case BooleanType => "boolean"
    case DateType => "date"
    case ArrayType => "array"
    case ObjectType => "object"
  }

  /** Reads a property type from its name; any other string is no type. */
  function ParsePropertyType(s: string): (r: Option<PropertyType>)
    ensures r.Some? <==> s in {"string", "number", "boolean", "date", "array", "object"}
    ensures r.Some? ==> PropertyTypeName(r.value) == s
  {
    if s == "string" then Some(StringType)
    else if s == "number" then Some(NumberType)
    else if s == "boolean" then Some(BooleanType)
    else if s == "date" then Some(DateType)
    else if s == "array" then Some(ArrayType)
    else if s == "object" then Some(ObjectType)
    else None
  }

  /** Every property type survives being written out and read back. */
  lemma PropertyTypeRoundTrip(t: PropertyType)
    ensures ParsePropertyType(PropertyTypeName(t)) == Some(t)
  {
  }

  /** One property of a node schema. `type` is `propertyType` here, `type`
      being a Dafny keyword. Name, type and required flag are always there;
      description and default value are optional. */
  datatype PropertyDefinition = PropertyDefinition(
    name: string,
    propertyType: PropertyType,
    required: bool,
    description: Option<string>,
    defaultValue: Option<Value>)

  /** A node type and its ordered property list. */
  datatype NodeSchema = NodeSchema(nodeType: string, properties: seq<PropertyDefinition>)

  /** The whole schema: an ordered list of node schemas. */
  datatype GraphSchema = GraphSchema(nodeSchemas: seq<NodeSchema>)

  /** A correspondence from an uploaded property to a schema property. */
  datatype PropertyMapping = PropertyMapping(
    sourceProperty: string,
    targetProperty: string,
    nodeType: string)

  /** The kinds of schema change a log entry records. */
  datatype ChangeAction = Add | Update | Delete | Save

  function ChangeActionName(a: ChangeAction): (r: string)
    ensures r in {"add", "update", "delete", "save"}
  {
    match a
    case Add => "add"
    case Update => "update"
    case Delete => "delete"
    case Save => "save"
  }

  function ParseChangeAction(s: string): (r: Option<ChangeAction>)
    ensures r.Some? <==> s in {"add", "update", "delete", "save"}
    ensures r.Some? ==> ChangeActionName(r.value) == s
  {
    if s == "add" then Some(Add)
    else if s == "update" then Some(Update)
    else if s == "delete" then Some(Delete)
    else if s == "save" then Some(Save)
    else None
  }

  lemma ChangeActionRoundTrip(a: ChangeAction)
    ensures ParseChangeAction(ChangeActionName(a)) == Some(a)
  {
  }

  /** One entry of the schema change log. */
  datatype SchemaChangeLog = SchemaChangeLog(
    id: string,
    timestamp: int,
    nodeType: string,
    action: ChangeAction,
    propertyName: Option<string>,
    description: string,
    changedBy: Option<string>)

  /** What a caller hands to the log: an entry without its id and timestamp
      (`Omit<SchemaChangeLog, 'id' | 'timestamp'>`). */
  datatype ChangeLogInput = ChangeLogInput(
    nodeType: string,
    action: ChangeAction,
    propertyName: Option<string>,
    description: string,
    changedBy: Option<string>)

  /** Stamping a caller's entry: it keeps every field the caller gave
      and gains the fresh id and timestamp. */
  function Stamp(log: ChangeLogInput, id: string, timestamp: int): (r: SchemaChangeLog)
    ensures r.id == id && r.timestamp == timestamp
    ensures ChangeLogInput(r.nodeType, r.action, r.propertyName, r.description, r.changedBy) == log
  {
    SchemaChangeLog(id, timestamp, log.nodeType, log.action, log.propertyName, log.description, log.changedBy)
  }
}
