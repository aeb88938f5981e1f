/**
 * Python values as they flow through the serializers and through the
 * JSON blobs: scalars, lists, tuples, dictionaries keyed by text, and
 * objects (anything with a `__dict__`, such as a protocol-buffer message),
 * seen as their attribute dictionary.
 */
module Values {
  import opened Text

  datatype Value =
    | Null
    | Bool(b: bool)
    | Int(i: int)
    | Str(s: string)
    | List(items: seq<Value>)
    | Tuple(elems: seq<Value>)
    | Dict(entries: map<string, Value>)
    | Object(attrs: map<string, Value>)

  /** A value JSON can hold: no object and no tuple anywhere inside it. */
  predicate Plain(v: Value)
  {
    match v
    case Object(_) => false
    case Tuple(_) => false
    case List(items) => forall i :: 0 <= i < |items| ==> Plain(items[i])
    case Dict(entries) => forall k :: k in entries ==> Plain(entries[k])
    case _ => true
  }

  /** The attribute names `serialize_message` keeps: those not starting with `_`. */
  function PublicNames(attrs: map<string, Value>): set<string>
  {
    set k | k in attrs && !StartsWith(k, "_")
  }

  /**
   * utils.py:50-58, `serialize_message`: an object becomes a dictionary of
   * its public attributes, a list or tuple a list, a dictionary a
   * dictionary, each member serialized in turn; anything else is returned
   * as it is.
   */
  function SerializeMessage(v: Value): (r: Value)
    ensures v.Object? ==> r.Dict? && r.entries.Keys == PublicNames(v.attrs)
    ensures v.List? ==> r.List? && |r.items| == |v.items|
    ensures v.Tuple? ==> r.List? && |r.items| == |v.elems|
    ensures v.Dict? ==> r.Dict? && r.entries.Keys == v.entries.Keys
    ensures !v.Object? && !v.List? && !v.Tuple? && !v.Dict? ==> r == v
    decreases v, 1
  {
    match v
    case Object(attrs) =>
      Dict(map k | k in PublicNames(attrs) :: SerializeMessage(attrs[k]))
    case List(items) => List(SerializeEach(items))
    case Tuple(elems) => List(SerializeEach(elems))
    case Dict(entries) => Dict(map k | k in entries :: SerializeMessage(entries[k]))
    case _ => v
  }

  /** The element-wise serialization of a list or tuple, in order. */
  function SerializeEach(s: seq<Value>): (r: seq<Value>)
    ensures |r| == |s|
    ensures forall i :: 0 <= i < |s| ==> r[i] == SerializeMessage(s[i])
    decreases s, 0
  {
    if |s| == 0 then [] else [SerializeMessage(s[0])] + SerializeEach(s[1..])
  }

  /** Serialization leaves a JSON-shaped value exactly as it is. */
  lemma {:induction false} SerializePlainIsIdentity(v: Value)
    requires Plain(v)
    ensures SerializeMessage(v) == v
    decreases v, 1
  {
    match v
    case List(items) =>
      SerializeEachPlainIsIdentity(items);
    case Dict(entries) =>
      forall k | k in entries ensures SerializeMessage(entries[k]) == entries[k] {
        SerializePlainIsIdentity(entries[k]);
      }
    case _ =>
  }

  lemma {:induction false} SerializeEachPlainIsIdentity(s: seq<Value>)
    requires forall i :: 0 <= i < |s| ==> Plain(s[i])
    ensures SerializeEach(s) == s
    decreases s, 0
  {
    forall i | 0 <= i < |s| ensures SerializeMessage(s[i]) == s[i] {
      SerializePlainIsIdentity(s[i]);
    }
  }

  /** Serialization yields a value JSON can hold: no object and no tuple is left anywhere inside. */
  lemma {:induction false} SerializeIsPlain(v: Value)
    ensures Plain(SerializeMessage(v))
    decreases v, 1
  {
    match v
    case Object(attrs) =>
      forall k | k in PublicNames(attrs) ensures Plain(SerializeMessage(attrs[k])) {
        SerializeIsPlain(attrs[k]);
      }
    case List(items) =>
      SerializeEachIsPlain(items);
    case Tuple(elems) =>
      SerializeEachIsPlain(elems);
    case Dict(entries) =>
      forall k | k in entries ensures Plain(SerializeMessage(entries[k])) {
        SerializeIsPlain(entries[k]);
      }
    case _ =>
  }

  lemma {:induction false} SerializeEachIsPlain(s: seq<Value>)
    ensures forall i :: 0 <= i < |s| ==> Plain(SerializeEach(s)[i])
    decreases s, 0
  {
    forall i | 0 <= i < |s| ensures Plain(SerializeEach(s)[i]) {
      SerializeIsPlain(s[i]);
    }
  }

  /** Serializing twice is serializing once. */
  lemma SerializeIsIdempotent(v: Value)
    ensures SerializeMessage(SerializeMessage(v)) == SerializeMessage(v)
  {
    SerializeIsPlain(v);
    SerializePlainIsIdentity(SerializeMessage(v));
  }

  /** Each public attribute of an object is serialized under its own name. */
  lemma SerializeObjectAttribute(attrs: map<string, Value>, k: string)
    requires k in attrs && !StartsWith(k, "_")
    ensures k in SerializeMessage(Object(attrs)).entries
    ensures SerializeMessage(Object(attrs)).entries[k] == SerializeMessage(attrs[k])
  {
  }
}
