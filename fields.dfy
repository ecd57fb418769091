/** The Milvus collection schema of `internal/rag/uploader/indexer/field`:
    the default field list and `NewFields`, which copies a field list (or
    the default one when none is given) into schema fields. */
module Fields {
  import opened Common

  /** The `entity.FieldType` values the schema uses. */
  datatype FieldType = VarChar | Json | FloatVector

  /** `FieldConfig`; `typeParams` is a nil-able map. */
  datatype FieldConfig = FieldConfig(
    name: string, dataType: FieldType, primaryKey: bool, autoID: bool, typeParams: Option<map<string, string>>)

  /** `entity.Field`, reduced to the members `NewFields` sets. */
  datatype Field = Field(
    name: string, dataType: FieldType, primaryKey: bool, autoID: bool, typeParams: Option<map<string, string>>)

  /** `DefaultConfig`, given the configured `gemini.dim` string: four fields
      named id, content, metadata and vector, in that order; "id" alone is
      the primary key and alone has AutoID; the vector's "dim" parameter is
      the configured dimension. */
  function DefaultConfig(dim: string): (cfg: seq<FieldConfig>)
    ensures |cfg| == 4
    ensures cfg[0].name == "id" && cfg[1].name == "content" && cfg[2].name == "metadata" && cfg[3].name == "vector"
    ensures forall i :: 0 <= i < |cfg| ==> (cfg[i].primaryKey <==> cfg[i].name == "id")
    ensures forall i :: 0 <= i < |cfg| ==> (cfg[i].autoID <==> cfg[i].name == "id")
    ensures cfg[3].dataType == FloatVector && cfg[3].typeParams == Some(map["dim" := dim])
  {
    [ FieldConfig("id", VarChar, true, true, Some(map["max_length" := "128"])),
      FieldConfig("content", VarChar, false, false, Some(map["max_length" := "4096"])),
      FieldConfig("metadata", Json, false, false, None),
      FieldConfig("vector", FloatVector, false, false, Some(map["dim" := dim])) ]
  }

  /** One schema field copied from its configuration. */
  function FieldOf(c: FieldConfig): (r: Field)
  {
    Field(c.name, c.dataType, c.primaryKey, c.autoID, c.typeParams)
  }

  /** The schema fields for a field list, one per entry, in order. */
  function FieldsOf(cfg: seq<FieldConfig>): (r: seq<Field>)
  {
    seq(|cfg|, i requires 0 <= i < |cfg| => FieldOf(cfg[i]))
  }

  /** `NewFields`: a nil list is replaced by the default one; any other
      list, even an empty one, is used as given. The fields come out one
      per entry, in order, each copying all five members. */
  method NewFields(cfg: Option<seq<FieldConfig>>, dim: string) returns (fields: seq<Field>)
    ensures var used := if cfg.None? then DefaultConfig(dim) else cfg.value;
      && |fields| == |used|
      && forall i :: 0 <= i < |used| ==>
           && fields[i].name == used[i].name && fields[i].dataType == used[i].dataType
           && fields[i].primaryKey == used[i].primaryKey && fields[i].autoID == used[i].autoID
           && fields[i].typeParams == used[i].typeParams
    ensures fields == FieldsOf(if cfg.None? then DefaultConfig(dim) else cfg.value)
  {
    var c := cfg;
    if c.None? {
      c := Some(DefaultConfig(dim));
    }
    fields := [];
    for i := 0 to |c.value|
      invariant |fields| == i
      invariant forall k :: 0 <= k < i ==> fields[k] == FieldOf(c.value[k])
    {
      var e := c.value[i];
      var f := Field(e.name, e.dataType, e.primaryKey, e.autoID, e.typeParams);
      fields := fields + [f];
    }
  }
}
