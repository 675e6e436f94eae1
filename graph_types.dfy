/** The record shapes of uploaded graph files and of metadata documents. */
module GraphTypes {
  import opened Wrappers
  import opened Json

  /** A node of an uploaded file: an optional id, its labels and its
      properties, a string-keyed record kept in key order. */
  datatype GraphNode = GraphNode(
    id: Option<string>,
    labels: seq<string>,
    properties: seq<(string, Value)>)

  /** A relationship of an uploaded file. The source's field `type` is
      `relType` here, `type` being a Dafny keyword. */
  datatype Relationship = Relationship(
    source: string,
    target: string,
    relType: string,
    properties: Option<seq<(string, Value)>>)

  /** The parsed content of an uploaded file: the nodes are required, the
      relationships optional. */
  datatype UploadedGraphData = UploadedGraphData(
    nodes: seq<GraphNode>,
    relationships: Option<seq<Relationship>>)

  /** A metadata document: `id` and `title` are required, every other field
      optional. Field names are the source's own. */
  datatype GraphMetadata = GraphMetadata(
    id: string,
    title: string,
    universe: Option<string>,
    description: Option<string>,
    createdAt: Option<string>,
    updatedAt: Option<string>,
    name: Option<string>,
    created_at: Option<real>,
    detail_description: Option<string>,
    play_time: Option<string>,
    protagonist_desc: Option<string>,
    protagonist_name: Option<string>,
    representative_image: Option<string>,
    setting: Option<string>,
    synopsis: Option<string>,
    twisted_synopsis: Option<string>,
    universe_id: Option<string>)

  /** The node's property names in order, as `Object.keys` lists them. */
  function PropertyKeys(node: GraphNode): (r: seq<string>)
    ensures |r| == |node.properties|
    ensures forall i :: 0 <= i < |r| ==> r[i] == node.properties[i].0
  {
    Keys(node.properties)
  }
}
