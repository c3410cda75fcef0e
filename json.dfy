/** What jsonify does with the values of a response envelope (app.py:81-85
    and 128-133; it runs inside the endpoints' `try`). The json module
    encodes str, int, float, bool, list, dict, None and tuples, and Flask's
    default hook converts dates, Decimal and UUID objects. Any other object
    raises TypeError("Object of type T is not JSON serializable"), and the
    endpoint's `except Exception` (app.py:87-91, 135-139) answers with that
    text. Normalisation only looks at the top level of a record, so a list or
    dict that holds such an object still fails here. */
module Json {
  import opened Text
  import opened Records

  /** The type names of the objects outside the JSON types that the encoder
      converts instead of rejecting. */
  const ConvertedTypes: set<string> := {"NoneType", "tuple", "date", "datetime", "Decimal", "UUID"}

  /** The text of the TypeError raised for an object of the named type. */
  function TypeErrorText(typeName: string): string {
    "Object of type " + typeName + " is not JSON serializable"
  }

  /** Encoding v raises TypeError with message m: m is the error text of an
      object somewhere in v (itself included) that the encoder cannot convert.
      An object with tolist() is never converted: only the normaliser calls
      tolist(), and only at the top level. */
  predicate Rejects(v: Value, m: string)
    decreases v
  {
    match v
    case List(items) => exists k :: 0 <= k < |items| && Rejects(items[k], m)
    case Dict(entries) => exists k :: 0 <= k < |entries| && Rejects(entries[k].1, m)
    case NumericBuffer(typeName, _) => m == TypeErrorText(typeName)
    case Other(typeName, _) => typeName !in ConvertedTypes && m == TypeErrorText(typeName)
    case _ => false
  }

  /** jsonify succeeds on v. */
  ghost predicate Encodable(v: Value) {
    forall m :: !Rejects(v, m)
  }

  /** The error jsonify raises on v, if any. When several objects are
      rejected, this is the first in insertion order. */
  function Rejection(v: Value): (r: Option<string>)
    ensures r.Some? ==> Rejects(v, r.value)
    ensures r.None? ==> Encodable(v)
    decreases v, if v.Dict? then |v.entries| + 1 else 0
  {
    match v
    case List(items) => ItemsRejection(items, 0)
    case Dict(entries) => EntriesRejection(v, 0)
    case NumericBuffer(typeName, _) => Some(TypeErrorText(typeName))
    case Other(typeName, _) =>
      if typeName in ConvertedTypes then None else Some(TypeErrorText(typeName))
    case _ => None
  }

  /** The first rejection among items[k..]. */
  function ItemsRejection(items: seq<Value>, k: nat): (r: Option<string>)
    requires k <= |items|
    ensures r.Some? ==> exists j ::
      && k <= j < |items|
      && Rejects(items[j], r.value)
      && (forall i, m :: k <= i < j ==> !Rejects(items[i], m))
    ensures r.None? ==> forall j, m :: k <= j < |items| ==> !Rejects(items[j], m)
    decreases items, |items| - k
  {
    if k == |items| then None
    else match Rejection(items[k])
      case Some(m) => Some(m)
      case None => ItemsRejection(items, k + 1)
  }

  /** The first rejection among the values of the entries k.. of the dict d. */
  function EntriesRejection(d: Value, k: nat): (r: Option<string>)
    requires d.Dict? && k <= |d.entries|
    ensures r.Some? ==> exists j ::
      && k <= j < |d.entries|
      && Rejects(d.entries[j].1, r.value)
      && (forall i, m :: k <= i < j ==> !Rejects(d.entries[i].1, m))
    ensures r.None? ==> forall j, m :: k <= j < |d.entries| ==> !Rejects(d.entries[j].1, m)
    decreases d, |d.entries| - k
  {
    if k == |d.entries| then None
    else match Rejection(d.entries[k].1)
      case Some(m) => Some(m)
      case None => EntriesRejection(d, k + 1)
  }

  /** A value of a JSON type that holds nothing: str, int, float or bool. */
  predicate IsScalar(v: Value) {
    v.Str? || v.Int? || v.Num? || v.Bool?
  }

  /** A field value with nothing nested in it that normalisation leaves
      alone: a scalar, an object other than a list or dict, or an array whose
      tolist() gives scalars. */
  predicate IsFlat(v: Value) {
    match v
    case List(_) => false
    case Dict(_) => false
    case NumericBuffer(_, items) => forall j :: 0 <= j < |items| ==> IsScalar(items[j])
    case _ => true
  }

  /** A flat field, once normalised, holds nothing jsonify rejects. */
  lemma FlatValueEncodes(key: string, v: Value, m: string)
    requires IsFlat(v)
    ensures !Rejects(NormalizeValue(key, v), m)
  {
    if !v.NumericBuffer? {
      assert IsScalar(NormalizeValue(key, v));
    } else {
      forall j | 0 <= j < |v.listForm|
        ensures !Rejects(v.listForm[j], m)
      {
        assert IsScalar(v.listForm[j]);
      }
    }
  }

  /** No message is raised for a normalised record whose fields are flat. */
  lemma FlatRecordRejectsNothing(d: Entries, m: string)
    requires forall i :: 0 <= i < |d| ==> IsFlat(d[i].1)
    ensures !Rejects(Dict(Normalized(d)), m)
  {
    var n := Normalized(d);
    forall k | 0 <= k < |n|
      ensures !Rejects(n[k].1, m)
    {
      assert n[k].1 == NormalizeValue(d[k].0, d[k].1);
      FlatValueEncodes(d[k].0, d[k].1, m);
    }
  }

  /** Normalisation takes care of every object at the top level of a record:
      a record whose fields hold nothing nested is always encoded. */
  lemma FlatRecordEncodes(d: Entries)
    requires forall i :: 0 <= i < |d| ==> IsFlat(d[i].1)
    ensures Encodable(Dict(Normalized(d)))
  {
    forall m
      ensures !Rejects(Dict(Normalized(d)), m)
    {
      FlatRecordRejectsNothing(d, m);
    }
  }

  /** The TypeError text for a numpy array. */
  lemma NdarrayErrorText()
    ensures TypeErrorText("ndarray") == "Object of type ndarray is not JSON serializable"
  {
  }

  /** A field holding a dict of arrays (an `audio` column decoded to
      {"array": ndarray, "sampling_rate": int}) passes normalisation
      unchanged, and jsonify then rejects the array. */
  lemma NestedArrayRejected()
    ensures var record := [("audio", Dict([("array", NumericBuffer("ndarray", [Num(0)])), ("sampling_rate", Int(16000))]))];
      && Normalized(record) == record
      && Rejects(Dict(Normalized(record)), TypeErrorText("ndarray"))
      && !Encodable(Dict(Normalized(record)))
  {
    var audio := Dict([("array", NumericBuffer("ndarray", [Num(0)])), ("sampling_rate", Int(16000))]);
    var record := [("audio", audio)];
    assert NormalizeValue("audio", audio) == audio;
    assert Normalized(record) == record;
    assert Rejects(audio.entries[0].1, TypeErrorText("ndarray"));
    assert Rejects(audio, TypeErrorText("ndarray"));
  }
}
