/** Records as the dataset library hands them out, and the normalisation both
    web endpoints apply before a record is sent as JSON (app.py, the loops in
    api_load_dataset and api_get_example). */
module Records {
  import opened Text

  /** A field value of a dataset record. Python's run-time type decides how a
      value is treated, so each of the types the normaliser tells apart is one
      variant. */
  datatype Value =
    | Str(s: string)
    /** a Python int (bool is kept apart, though Python counts it as an int) */
    | Int(i: int)
    /** a Python float, kept as its IEEE-754 bit pattern and never interpreted */
    | Num(bits: bv64)
    | Bool(b: bool)
    | List(items: seq<Value>)
    /** a nested dict, its entries in insertion order */
    | Dict(entries: seq<(string, Value)>)
    /** a numpy-style array: an object with a tolist() method, carrying the
        name of its type and what tolist() returns */
    | NumericBuffer(typeName: string, listForm: seq<Value>)
    /** any other object (None, a tuple, a date, ...), carrying the name of
        its type and str() of it */
    | Other(typeName: string, repr: string)

  /** The entries of a Python dict, in insertion order. */
  type Entries = seq<(string, Value)>

  function Keys(d: Entries): (ks: seq<string>)
    ensures |ks| == |d| && forall i :: 0 <= i < |d| ==> ks[i] == d[i].0
  {
    if d == [] then [] else [d[0].0] + Keys(d[1..])
  }

  predicate DistinctKeys(d: Entries) {
    forall i, j :: 0 <= i < j < |d| ==> d[i].0 != d[j].0
  }

  /** A Python dict: no key occurs twice. */
  type Record = d: Entries | DistinctKeys(d) witness []

  /** d[key], with None standing for the KeyError. */
  function Get(d: Entries, key: string): (r: Option<Value>)
    ensures r.None? <==> key !in Keys(d)
    ensures r.Some? ==> exists i :: 0 <= i < |d| && d[i] == (key, r.value)
  {
    if d == [] then None
    else if d[0].0 == key then Some(d[0].1)
    else Get(d[1..], key)
  }

  /** The dict after `d[key] = v`: an existing key keeps its place and gets
      the new value, a new key is appended at the end. */
  function Put(d: Entries, key: string, v: Value): (r: Entries)
    ensures key in Keys(d) ==> Keys(r) == Keys(d)
    ensures key !in Keys(d) ==> r == d + [(key, v)]
  {
    if d == [] then [(key, v)]
    else if d[0].0 == key then [(key, v)] + d[1..]
    else
      assert Keys(d) == [d[0].0] + Keys(d[1..]);
      [d[0]] + Put(d[1..], key, v)
  }

  /** After `d[key] = v`, d[key] is v. */
  lemma {:induction false} PutGetSame(d: Entries, key: string, v: Value)
    ensures Get(Put(d, key, v), key) == Some(v)
  {
    if d != [] && d[0].0 != key {
      var r := Put(d, key, v);
      assert r[1..] == Put(d[1..], key, v);
      PutGetSame(d[1..], key, v);
    }
  }

  /** After `d[key] = v`, every other key reads as before. */
  lemma {:induction false} PutGetOther(d: Entries, key: string, v: Value, other: string)
    requires other != key
    ensures Get(Put(d, key, v), other) == Get(d, other)
  {
    if d != [] {
      var r := Put(d, key, v);
      if d[0].0 == key {
        assert r[1..] == d[1..];
      } else {
        assert r[1..] == Put(d[1..], key, v);
        PutGetOther(d[1..], key, v, other);
      }
    }
  }

  /** The field names whose string values are shown exactly as they are. */
  const MessageFields: seq<string> := ["content", "message", "text", "prompt", "completion"]

  /** isinstance(value, (int, float, bool, str, list, dict)) */
  predicate IsJsonNative(v: Value) {
    v.Str? || v.Int? || v.Num? || v.Bool? || v.List? || v.Dict?
  }

  /** The value stored under key in the JSON-safe copy of a record. The three
      rules are tried in the order app.py writes them; ensures clauses state
      the outcome for each kind of value. */
  function NormalizeValue(key: string, value: Value): (r: Value)
    // an allow-listed field holding a string is copied exactly
    ensures key in MessageFields && value.Str? ==> r == value
    // an object with tolist() becomes its list form, allow-listed name or not
    ensures value.NumericBuffer? ==> r == List(value.listForm)
    // a value of a JSON type is left alone, whatever its field is called
    ensures IsJsonNative(value) ==> r == value
    // anything else becomes str() of it, also under "content" and the like
    ensures value.Other? ==> r == Str(value.repr)
    // the result's own type is a JSON type (what a list or dict holds is
    // not looked at)
    ensures IsJsonNative(r)
  {
    if key in MessageFields && value.Str? then value
    else if value.NumericBuffer? then List(value.listForm)
    else if !IsJsonNative(value) then Str(value.repr)
    else value
  }

  /** The field name plays no part in the outcome: a string is kept by the
      pass-through rule whenever the allow-list rule does not apply. */
  lemma NormalizeValueIgnoresKey(k1: string, k2: string, v: Value)
    ensures NormalizeValue(k1, v) == NormalizeValue(k2, v)
  {
  }

  /** The JSON-safe copy of a record: every field normalised, in place. */
  function Normalized(d: Entries): (n: Entries)
    ensures |n| == |d|
    ensures forall i :: 0 <= i < |d| ==> n[i] == (d[i].0, NormalizeValue(d[i].0, d[i].1))
  {
    if d == [] then []
    else
      var last := d[|d| - 1];
      Normalized(d[..|d| - 1]) + [(last.0, NormalizeValue(last.0, last.1))]
  }

  /** The copy has exactly the record's keys in the record's order, so it is
      again a dict. */
  lemma NormalizedKeys(d: Entries)
    ensures Keys(Normalized(d)) == Keys(d)
    ensures DistinctKeys(d) ==> DistinctKeys(Normalized(d))
  {
  }

  /** Looking a field up in the copy gives the normalised value of the field. */
  lemma {:induction false} NormalizedGet(d: Entries, key: string)
    ensures Get(Normalized(d), key) ==
      match Get(d, key)
      case None => None
      case Some(v) => Some(NormalizeValue(key, v))
  {
    if d != [] {
      var n := Normalized(d);
      assert n[1..] == Normalized(d[1..]);
      NormalizedGet(d[1..], key);
    }
  }

  /** An allow-listed text field reads back exactly as it was: no trimming,
      no escaping. */
  lemma MessageFieldVerbatim(d: Entries, key: string, text: string)
    requires key in MessageFields && Get(d, key) == Some(Str(text))
    ensures Get(Normalized(d), key) == Some(Str(text))
  {
    NormalizedGet(d, key);
  }

  /** Normalising an already normalised record changes nothing. */
  lemma {:induction false} NormalizedIdempotent(d: Entries)
    ensures Normalized(Normalized(d)) == Normalized(d)
  {
    var n := Normalized(d);
    var nn := Normalized(n);
    forall i | 0 <= i < |d| ensures nn[i] == n[i] {
      assert NormalizeValue(n[i].0, n[i].1) == n[i].1;
    }
  }

  /** A text field with a newline and an integer label both come out as
      they went in. */
  lemma TextAndLabelExample()
    ensures Normalized([("text", Str("Hello\nworld")), ("label", Int(1))])
         == [("text", Str("Hello\nworld")), ("label", Int(1))]
  {
  }

  /** Under "content", only a string is taken verbatim: an int stays an int,
      an array becomes its list, and None becomes the string "None". */
  lemma ContentRuleNeedsString()
    ensures NormalizeValue("content", Int(42)) == Int(42)
    ensures NormalizeValue("content", NumericBuffer("ndarray", [Int(1), Int(2)])) == List([Int(1), Int(2)])
    ensures NormalizeValue("content", Other("NoneType", "None")) == Str("None")
  {
  }

  /** One turn of the key-by-key loop: assigning the next field's
      normalised value to the copy of the fields before it gives the copy of
      one more field, which is again a dict. */
  lemma NormalizedStep(d: Record, i: nat)
    requires i < |d|
    ensures Put(Normalized(d[..i]), d[i].0, NormalizeValue(d[i].0, d[i].1)) == Normalized(d[..i + 1])
    ensures DistinctKeys(Normalized(d[..i + 1]))
  {
    var (key, value) := d[i];
    assert key !in Keys(Normalized(d[..i])) by {
      NormalizedKeys(d[..i]);
    }
    assert d[..i + 1][..i] == d[..i];
    assert DistinctKeys(d[..i + 1]);
    NormalizedKeys(d[..i + 1]);
  }

  /** The loop of app.py that builds serializable_example key by key. */
  method NormalizeRecord(example: Record) returns (serializable: Record)
    ensures serializable == Normalized(example)
  {
    serializable := [];
    var i := 0;
    while i < |example|
      invariant 0 <= i <= |example|
      invariant serializable == Normalized(example[..i])
    {
      var (key, value) := example[i];
      var converted: Value;
      if key in MessageFields && value.Str? {
        converted := value;
      } else if value.NumericBuffer? {
        converted := List(value.listForm);
      } else {
        converted := if !IsJsonNative(value) then Str(value.repr) else value;
      }
      assert converted == NormalizeValue(key, value);
      NormalizedStep(example, i);
      serializable := Put(serializable, key, converted);
      i := i + 1;
    }
    assert example[..i] == example;
  }
}
