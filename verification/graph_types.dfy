/** The value shapes that cross the graph-database client's boundary: what the
    driver hands back (raw values, which may wrap integers, temporal values,
    nodes and relationships) and what the client hands on (plain JSON-like
    values), together with the node and relationship shapes the client
    promises its callers. */
module GraphTypes {
  import opened Wrappers

  /** The six temporal kinds the client recognises. */
  datatype TemporalKind = Date | DateTime | Time | LocalTime | LocalDateTime | Duration

  /** A temporal value of the driver; its fields are opaque to the client. */
  datatype Temporal = Temporal(kind: TemporalKind, components: seq<int>)

  /** A value as it arrives from the driver or from the caller. The first four
      constructors are driver wrappers; the rest are ordinary JavaScript
      values. JavaScript numbers are modelled as reals. */
  datatype RawValue =
    | RInteger(integer: int)
    | RTemporal(temporal: Temporal)
    | RNode(identity: int, labels: seq<string>, properties: map<string, RawValue>)
    | RRelationship(identity: int, relType: string, properties: map<string, RawValue>,
                    start: int, end: int)
    | RArray(items: seq<RawValue>)
    | RObject(fields: map<string, RawValue>)
    | RNull
    | RUndefined
    | RBoolean(boolean: bool)
    | RNumber(number: real)
    | RString(str: string)

  /** A plain value: what the client returns, with no driver wrapper left. */
  datatype PlainValue =
    | PArray(items: seq<PlainValue>)
    | PObject(fields: map<string, PlainValue>)
    | PNull
    | PUndefined
    | PBoolean(boolean: bool)
    | PNumber(number: real)
    | PString(str: string)

  /** The driver-defined conversions the client relies on: `Integer.toNumber`
      (lossy above 2^53), `Integer.toString` and the temporal `toString`. */
  datatype Conversions = Conversions(
    integerToNumber: int -> real,
    integerToString: int -> string,
    temporalToString: Temporal -> string)

  /** A normalised node, as the client's callers see it. */
  datatype Node = Node(id: string, labels: seq<string>, properties: map<string, PlainValue>)

  /** A normalised relationship, as the client's callers see it. */
  datatype Relationship = Relationship(
    id: string, relType: string, properties: map<string, PlainValue>,
    startNodeId: string, endNodeId: string)

  /** A list of strings as a plain array of strings. */
  function StringArray(ss: seq<string>): (r: PlainValue)
    ensures r.PArray? && |r.items| == |ss|
    ensures forall i :: 0 <= i < |ss| ==> r.items[i] == PString(ss[i])
  {
    PArray(seq(|ss|, i requires 0 <= i < |ss| => PString(ss[i])))
  }

  /** Reads a plain array of strings back into a list of strings. */
  function ReadStringArray(p: PlainValue): (r: Option<seq<string>>)
    ensures r.Some? <==> p.PArray? && forall i :: 0 <= i < |p.items| ==> p.items[i].PString?
    ensures r.Some? ==> StringArray(r.value) == p
  {
    if p.PArray? && forall i :: 0 <= i < |p.items| ==> p.items[i].PString? then
      var ss := seq(|p.items|, i requires 0 <= i < |p.items| => p.items[i].str);
      assert StringArray(ss).items == p.items;
      Some(ss)
    else
      None
  }

  /** The plain object `{id, labels, properties}` that stands for a node. */
  function NodeObject(n: Node): PlainValue {
    PObject(map["id" := PString(n.id),
                "labels" := StringArray(n.labels),
                "properties" := PObject(n.properties)])
  }

  /** The plain object `{id, type, properties, startNodeId, endNodeId}` that
      stands for a relationship. */
  function RelationshipObject(r: Relationship): PlainValue {
    PObject(map["id" := PString(r.id),
                "type" := PString(r.relType),
                "properties" := PObject(r.properties),
                "startNodeId" := PString(r.startNodeId),
                "endNodeId" := PString(r.endNodeId)])
  }

  /** Reads a plain value as a node: it must be an object with exactly the
      keys `id`, `labels`, `properties`, of the right kinds. */
  function ReadNode(p: PlainValue): (r: Option<Node>)
    ensures r.Some? ==> NodeObject(r.value) == p
  {
    if p.PObject? && p.fields.Keys == {"id", "labels", "properties"}
       && p.fields["id"].PString? && p.fields["properties"].PObject?
    then
      match ReadStringArray(p.fields["labels"])
      case None => None
      case Some(labels) =>
        var n := Node(p.fields["id"].str, labels, p.fields["properties"].fields);
        assert NodeObject(n).fields == p.fields;
        Some(n)
    else
      None
  }

  /** Reads a plain value as a relationship: an object with exactly the five
      relationship keys, of the right kinds. */
  function ReadRelationship(p: PlainValue): (r: Option<Relationship>)
    ensures r.Some? ==> RelationshipObject(r.value) == p
  {
    if p.PObject? && p.fields.Keys == {"id", "type", "properties", "startNodeId", "endNodeId"}
       && p.fields["id"].PString? && p.fields["type"].PString?
       && p.fields["properties"].PObject?
       && p.fields["startNodeId"].PString? && p.fields["endNodeId"].PString?
    then
      var r := Relationship(p.fields["id"].str, p.fields["type"].str,
                            p.fields["properties"].fields,
                            p.fields["startNodeId"].str, p.fields["endNodeId"].str);
      assert RelationshipObject(r).fields == p.fields;
      Some(r)
    else
      None
  }

  /** A node survives being written as a plain object and read back. */
  lemma NodeRoundTrip(n: Node)
    ensures ReadNode(NodeObject(n)) == Some(n)
  {
    var p := NodeObject(n);
    assert p.fields.Keys == {"id", "labels", "properties"};
    assert ReadStringArray(StringArray(n.labels)).Some?;
    var ls := ReadStringArray(StringArray(n.labels)).value;
    assert ls == n.labels;
  }

  /** A relationship survives being written as a plain object and read back. */
  lemma RelationshipRoundTrip(r: Relationship)
    ensures ReadRelationship(RelationshipObject(r)) == Some(r)
  {
    var p := RelationshipObject(r);
    assert p.fields.Keys == {"id", "type", "properties", "startNodeId", "endNodeId"};
  }
}
