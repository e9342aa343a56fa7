/** Normalisation of driver values into plain values (`transformValue` and
    `transformProperties` of the graph-database client): a single recursive
    dispatch over the closed set of value kinds. */
module Normalize {
  import opened Wrappers
  import opened GraphTypes

  /** `transformValue`: integers become numbers, temporal values their
      strings, nodes and relationships their plain-object shapes (with their
      properties normalised), arrays are mapped element-wise, objects key-wise
      over exactly their own keys, and every other value passes through. */
  function TransformValue(cv: Conversions, v: RawValue): (r: PlainValue)
    ensures v.RInteger? ==> r == PNumber(cv.integerToNumber(v.integer))
    ensures v.RTemporal? ==> r == PString(cv.temporalToString(v.temporal))
    ensures v.RNode? ==> r.PObject? && ReadNode(r).Some?
    ensures v.RRelationship? ==> r.PObject? && ReadRelationship(r).Some?
    ensures v.RArray? <==> r.PArray?
    ensures v.RArray? ==>
      && |r.items| == |v.items|
      && forall i :: 0 <= i < |v.items| ==> r.items[i] == TransformValue(cv, v.items[i])
    ensures v.RObject? ==>
      && r.PObject? && r.fields.Keys == v.fields.Keys
      && forall k :: k in v.fields ==> r.fields[k] == TransformValue(cv, v.fields[k])
    ensures IsScalar(v) ==> ToRaw(r) == v
  {
    match v
    case RInteger(n) => PNumber(cv.integerToNumber(n))
    case RTemporal(t) => PString(cv.temporalToString(t))
    case RNode(identity, labels, props) =>
      var n := Node(cv.integerToString(identity), labels,
                    map k | k in props :: TransformValue(cv, props[k]));
      NodeRoundTrip(n);
      NodeObject(n)
    case RRelationship(identity, relType, props, start, end) =>
      var rel := Relationship(cv.integerToString(identity), relType,
                              map k | k in props :: TransformValue(cv, props[k]),
                              cv.integerToString(start), cv.integerToString(end));
      RelationshipRoundTrip(rel);
      RelationshipObject(rel)
    case RArray(items) =>
      PArray(seq(|items|, i requires 0 <= i < |items| => TransformValue(cv, items[i])))
    case RObject(fields) =>
      PObject(map k | k in fields :: TransformValue(cv, fields[k]))
    case RNull => PNull
    case RUndefined => PUndefined
    case RBoolean(b) => PBoolean(b)
    case RNumber(x) => PNumber(x)
    case RString(s) => PString(s)
  }

  /** `transformProperties`: every own key kept, every value normalised. It is
      the object case of `transformValue` seen from outside, and a property
      map that is already plain comes back unchanged. */
  function TransformProperties(cv: Conversions, props: map<string, RawValue>): (r: map<string, PlainValue>)
    ensures r.Keys == props.Keys
    ensures forall k :: k in props ==> r[k] == TransformValue(cv, props[k])
    ensures TransformValue(cv, RObject(props)) == PObject(r)
    ensures (forall k :: k in props ==> IsPlain(props[k])) ==>
              forall k :: k in props ==> ToRaw(r[k]) == props[k]
  {
    var r := map k | k in props :: TransformValue(cv, props[k]);
    assert forall k :: k in props && IsPlain(props[k]) ==> ToRaw(r[k]) == props[k] by {
      forall k | k in props && IsPlain(props[k])
        ensures ToRaw(r[k]) == props[k]
      {
        TransformUnchangedIffPlain(cv, props[k]);
      }
    }
    r
  }

  /** The values that are neither a driver wrapper nor a container. */
  predicate IsScalar(v: RawValue) {
    v.RNull? || v.RUndefined? || v.RBoolean? || v.RNumber? || v.RString?
  }

  /** A plain value seen again as a JavaScript value, e.g. when a caller feeds
      a normalised result back into the client. */
  function ToRaw(p: PlainValue): (r: RawValue)
    ensures IsPlain(r)
  {
    match p
    case PArray(items) =>
      RArray(seq(|items|, i requires 0 <= i < |items| => ToRaw(items[i])))
    case PObject(fields) =>
      RObject(map k | k in fields :: ToRaw(fields[k]))
    case PNull => RNull
    case PUndefined => RUndefined
    case PBoolean(b) => RBoolean(b)
    case PNumber(x) => RNumber(x)
    case PString(s) => RString(s)
  }

  /** No driver wrapper occurs anywhere inside `v`. */
  predicate IsPlain(v: RawValue) {
    match v
    case RInteger(_) => false
    case RTemporal(_) => false
    case RNode(_, _, _) => false
    case RRelationship(_, _, _, _, _) => false
    case RArray(items) => forall i :: 0 <= i < |items| ==> IsPlain(items[i])
    case RObject(fields) => forall k :: k in fields ==> IsPlain(fields[k])
    case _ => true
  }

  /** Normalising a value that is already plain gives back that value. */
  lemma {:induction false} TransformFixesPlain(cv: Conversions, p: PlainValue)
    ensures TransformValue(cv, ToRaw(p)) == p
  {
    match p
    case PArray(items) =>
      var t := TransformValue(cv, ToRaw(p));
      forall i | 0 <= i < |items|
        ensures t.items[i] == items[i]
      {
        TransformFixesPlain(cv, items[i]);
      }
    case PObject(fields) =>
      var t := TransformValue(cv, ToRaw(p));
      forall k | k in fields
        ensures t.fields[k] == fields[k]
      {
        TransformFixesPlain(cv, fields[k]);
      }
    case _ =>
  }

  /** Normalising twice is normalising once. */
  lemma NormalizeIdempotent(cv: Conversions, v: RawValue)
    ensures TransformValue(cv, ToRaw(TransformValue(cv, v))) == TransformValue(cv, v)
  {
    TransformFixesPlain(cv, TransformValue(cv, v));
  }

  /** Normalisation leaves a value unchanged exactly when it holds no driver
      wrapper anywhere. Values here are built from arrays, plain objects and
      scalars; a typed array or other class instance is only its own keys. */
  lemma {:induction false} TransformUnchangedIffPlain(cv: Conversions, v: RawValue)
    ensures ToRaw(TransformValue(cv, v)) == v <==> IsPlain(v)
  {
    if IsPlain(v) {
      match v
      case RArray(items) =>
        var t := ToRaw(TransformValue(cv, v));
        forall i | 0 <= i < |items|
          ensures t.items[i] == items[i]
        {
          TransformUnchangedIffPlain(cv, items[i]);
        }
      case RObject(fields) =>
        var t := ToRaw(TransformValue(cv, v));
        forall k | k in fields
          ensures t.fields[k] == fields[k]
        {
          TransformUnchangedIffPlain(cv, fields[k]);
        }
      case _ =>
    }
  }

  /** A node is normalised to the `{id, labels, properties}` object holding
      its identity as a string, its labels unchanged and its properties
      normalised. */
  lemma NodeNormalized(cv: Conversions, identity: int, labels: seq<string>, props: map<string, RawValue>)
    ensures ReadNode(TransformValue(cv, RNode(identity, labels, props)))
         == Some(Node(cv.integerToString(identity), labels, TransformProperties(cv, props)))
  {
    NodeRoundTrip(Node(cv.integerToString(identity), labels, TransformProperties(cv, props)));
  }

  /** A relationship is normalised to the five-key object holding its
      identity, type, normalised properties and endpoint identities. */
  lemma RelationshipNormalized(cv: Conversions, identity: int, relType: string,
                               props: map<string, RawValue>, start: int, end: int)
    ensures ReadRelationship(TransformValue(cv, RRelationship(identity, relType, props, start, end)))
         == Some(Relationship(cv.integerToString(identity), relType, TransformProperties(cv, props),
                              cv.integerToString(start), cv.integerToString(end)))
  {
    RelationshipRoundTrip(Relationship(cv.integerToString(identity), relType,
                                       TransformProperties(cv, props),
                                       cv.integerToString(start), cv.integerToString(end)));
  }
}
