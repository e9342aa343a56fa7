/** The query texts the graph-database client builds: the label string of
    `createNode` and `findNodes`, and the three fixed query templates. Labels
    and the relationship type are written into the text as given, without
    escaping; property values only ever travel as the `$properties`
    parameter. */
module CypherText {
  import opened Wrappers

  /** The label string: each label prefixed with ":", concatenated in order. */
  function LabelsString(labels: seq<string>): (r: string)
    ensures labels == [] <==> r == ""
    ensures labels != [] ==> r[0] == ':'
  {
    if labels == [] then "" else ":" + labels[0] + LabelsString(labels[1..])
  }

  /** The label string of a concatenation is the concatenation of the label
      strings: labels appear in input order. */
  lemma {:induction false} LabelsStringAppend(a: seq<string>, b: seq<string>)
    ensures LabelsString(a + b) == LabelsString(a) + LabelsString(b)
  {
    if a != [] {
      assert (a + b)[1..] == a[1..] + b;
      LabelsStringAppend(a[1..], b);
    } else {
      assert a + b == b;
    }
  }

  /** Length of the run of `s` before its first ':' (all of `s` if none). */
  function ColonFree(s: string): (n: nat)
    ensures n <= |s|
    ensures forall i :: 0 <= i < n ==> s[i] != ':'
    ensures n < |s| ==> s[n] == ':'
  {
    if s == [] || s[0] == ':' then 0 else 1 + ColonFree(s[1..])
  }

  /** Splits a label string back into its labels: `:A:B` gives `["A", "B"]`;
      a string not starting with ':' is no label string. */
  function ParseLabels(s: string): (r: Option<seq<string>>)
    ensures s == "" ==> r == Some([])
    decreases |s|
  {
    if s == [] then Some([])
    else if s[0] != ':' then None
    else
      var n := ColonFree(s[1..]);
      match ParseLabels(s[1 + n..])
      case None => None
      case Some(rest) => Some([s[1..1 + n]] + rest)
  }

  /** No label contains the separator ':'. */
  predicate ColonFreeLabels(labels: seq<string>) {
    forall i :: 0 <= i < |labels| ==> ':' !in labels[i]
  }

  /** Labels without ':' are recovered exactly from their label string. */
  lemma {:induction false} ParseLabelsString(labels: seq<string>)
    requires ColonFreeLabels(labels)
    ensures ParseLabels(LabelsString(labels)) == Some(labels)
  {
    if labels != [] {
      var s := LabelsString(labels);
      var tail := LabelsString(labels[1..]);
      assert s[1..] == labels[0] + tail;
      var l := labels[0];
      assert ColonFree(s[1..]) == |l| by {
        assert forall i :: 0 <= i < |l| ==> s[1..][i] == l[i];
        assert |l| < |s[1..]| ==> s[1..][|l|] == ':';
      }
      assert s[1..1 + |l|] == l;
      assert s[1 + |l|..] == tail;
      assert ColonFreeLabels(labels[1..]) by {
        forall i | 0 <= i < |labels[1..]|
          ensures ':' !in labels[1..][i]
        {
          assert labels[1..][i] == labels[i + 1];
        }
      }
      ParseLabelsString(labels[1..]);
      assert [l] + labels[1..] == labels;
    }
  }

  /** Without escaping, the label string does not determine the labels: one
      label holding ':' reads the same as two labels. */
  lemma LabelsStringAmbiguous()
    ensures LabelsString(["Person:Admin"]) == LabelsString(["Person", "Admin"])
  {
  }

  /** The query of `createNode`; the properties are the `$properties`
      parameter. */
  function CreateNodeQuery(labels: seq<string>): string {
    "\n      CREATE (n" + LabelsString(labels) + " $properties)\n      RETURN n\n    "
  }

  /** The query of `findNodes`: every requested property must equal the
      node's. */
  function FindNodesQuery(labels: seq<string>): string {
    "\n      MATCH (n" + LabelsString(labels) + ")"
    + "\n      WHERE ALL(key IN keys($properties) WHERE n[key] = $properties[key])"
    + "\n      RETURN n\n    "
  }

  /** The query of `createRelationship`, with the type written in. */
  function CreateRelationshipQuery(relType: string): string {
    "\n      MATCH (a), (b)"
    + "\n      WHERE id(a) = toInteger($startNodeId) AND id(b) = toInteger($endNodeId)"
    + "\n      CREATE (a)-[r:" + relType + " $properties]->(b)"
    + "\n      RETURN a, r, b\n    "
  }

  /** The `createNode` query is the label string between a fixed opening
      and a fixed closing, so the labels are the only part that varies. */
  lemma CreateNodeQueryEmbedsLabels(labels: seq<string>)
    ensures var q := CreateNodeQuery(labels);
      && q[..16] == "\n      CREATE (n"
      && q[16..16 + |LabelsString(labels)|] == LabelsString(labels)
      && q[16 + |LabelsString(labels)|..] == " $properties)\n      RETURN n\n    "
  {
    var ls := LabelsString(labels);
    var q := "\n      CREATE (n" + ls + " $properties)\n      RETURN n\n    ";
    assert q[..16] == "\n      CREATE (n" && q[16..16 + |ls|] == ls;
    assert q[16 + |ls|..] == " $properties)\n      RETURN n\n    ";
  }

  /** The `findNodes` query is the label string between a fixed opening and
      a fixed closing, so the labels are the only part that varies. */
  lemma FindNodesQueryEmbedsLabels(labels: seq<string>)
    ensures var q := FindNodesQuery(labels);
      && q[..15] == "\n      MATCH (n"
      && q[15..15 + |LabelsString(labels)|] == LabelsString(labels)
      && q[15 + |LabelsString(labels)|..] == ")"
           + "\n      WHERE ALL(key IN keys($properties) WHERE n[key] = $properties[key])"
           + "\n      RETURN n\n    "
  {
    var ls := LabelsString(labels);
    var closing := ")"
      + "\n      WHERE ALL(key IN keys($properties) WHERE n[key] = $properties[key])"
      + "\n      RETURN n\n    ";
    ThreeParts("\n      MATCH (n", ls, closing);
    assert FindNodesQuery(labels) == "\n      MATCH (n" + ls + closing;
  }

  /** A concatenation of three strings splits back into its parts. */
  lemma ThreeParts(a: string, b: string, c: string)
    ensures (a + b + c)[..|a|] == a
    ensures (a + b + c)[|a|..|a| + |b|] == b
    ensures (a + b + c)[|a| + |b|..] == c
  {
  }
}
