/** JSON values as Python's `json` module hands them to the program, and the
    few dict operations the handlers and drivers use on them. */
module Json {
  import opened Wrappers

  /** A decoded JSON value. An object is a Python dict: its bindings in
      insertion order. Numbers are ints or floats; floats are modelled as reals. */
  datatype Json =
    | JNull
    | JBool(b: bool)
    | JInt(i: int)
    | JFloat(f: real)
    | JStr(s: string)
    | JArr(items: seq<Json>)
    | JObj(fields: seq<(string, Json)>)

  /** `d[key]` for a dict given by its bindings: the first binding of `key`, if any. */
  function Lookup(fields: seq<(string, Json)>, key: string): (r: Option<Json>)
    ensures r.None? <==> forall i :: 0 <= i < |fields| ==> fields[i].0 != key
    ensures r.Some? ==> exists i :: 0 <= i < |fields| && fields[i] == (key, r.value)
  {
    if fields == [] then None
    else if fields[0].0 == key then Some(fields[0].1)
    else
      var r := Lookup(fields[1..], key);
      assert forall i :: 1 <= i < |fields| ==> fields[i] == fields[1..][i - 1];
      r
  }

  /** The binding at `i` is the one `Lookup` finds when no earlier binding has the key. */
  lemma {:induction false} LookupFirst(fields: seq<(string, Json)>, key: string, i: nat)
    requires i < |fields| && fields[i].0 == key
    requires forall j :: 0 <= j < i ==> fields[j].0 != key
    ensures Lookup(fields, key) == Some(fields[i].1)
  {
    if i > 0 {
      assert fields[0].0 != key;
      LookupFirst(fields[1..], key, i - 1);
    }
  }

  /** Lookups in dict displays with two to five distinct keys: each key
      finds its own value. */
  lemma LookupTwo(k0: string, v0: Json, k1: string, v1: Json)
    requires k0 != k1
    ensures var f := [(k0, v0), (k1, v1)];
      Lookup(f, k0) == Some(v0) && Lookup(f, k1) == Some(v1)
  {
    var f := [(k0, v0), (k1, v1)];
    assert f[1..] == [(k1, v1)];
  }

  lemma LookupThree(k0: string, v0: Json, k1: string, v1: Json, k2: string, v2: Json)
    requires k0 != k1 && k0 != k2 && k1 != k2
    ensures var f := [(k0, v0), (k1, v1), (k2, v2)];
      Lookup(f, k0) == Some(v0) && Lookup(f, k1) == Some(v1) && Lookup(f, k2) == Some(v2)
  {
    var rest := [(k1, v1), (k2, v2)];
    LookupTwo(k1, v1, k2, v2);
    var f := [(k0, v0), (k1, v1), (k2, v2)];
    assert f[1..] == rest;
  }

  lemma LookupFour(k0: string, v0: Json, k1: string, v1: Json, k2: string, v2: Json, k3: string, v3: Json)
    requires k0 != k1 && k0 != k2 && k0 != k3 && k1 != k2 && k1 != k3 && k2 != k3
    ensures var f := [(k0, v0), (k1, v1), (k2, v2), (k3, v3)];
      Lookup(f, k0) == Some(v0) && Lookup(f, k1) == Some(v1) && Lookup(f, k2) == Some(v2)
      && Lookup(f, k3) == Some(v3)
  {
    var rest := [(k1, v1), (k2, v2), (k3, v3)];
    LookupThree(k1, v1, k2, v2, k3, v3);
    var f := [(k0, v0), (k1, v1), (k2, v2), (k3, v3)];
    assert f[1..] == rest;
  }

  lemma LookupFive(k0: string, v0: Json, k1: string, v1: Json, k2: string, v2: Json, k3: string, v3: Json,
                   k4: string, v4: Json)
    requires k0 != k1 && k0 != k2 && k0 != k3 && k0 != k4 && k1 != k2 && k1 != k3 && k1 != k4
    requires k2 != k3 && k2 != k4 && k3 != k4
    ensures var f := [(k0, v0), (k1, v1), (k2, v2), (k3, v3), (k4, v4)];
      Lookup(f, k0) == Some(v0) && Lookup(f, k1) == Some(v1) && Lookup(f, k2) == Some(v2)
      && Lookup(f, k3) == Some(v3) && Lookup(f, k4) == Some(v4)
  {
    var rest := [(k1, v1), (k2, v2), (k3, v3), (k4, v4)];
    LookupFour(k1, v1, k2, v2, k3, v3, k4, v4);
    var f := [(k0, v0), (k1, v1), (k2, v2), (k3, v3), (k4, v4)];
    assert f[1..] == rest;
  }

  /** Python's `type(j).__name__`. */
  function TypeName(j: Json): string {
    match j
    case JNull => "NoneType"
    case JBool(_) => "bool"
    case JInt(_) => "int"
    case JFloat(_) => "float"
    case JStr(_) => "str"
    case JArr(_) => "list"
    case JObj(_) => "dict"
  }

  /** Python's `obj.get(key, default)`: only a dict has `get`; anything else
      raises AttributeError. */
  function Get(obj: Json, key: string, default: Json): (r: Result<Json>)
    ensures r.Failure? <==> !obj.JObj?
    ensures r.Failure? ==> r.error == "'" + TypeName(obj) + "' object has no attribute 'get'"
    ensures obj.JObj? && Lookup(obj.fields, key).None? ==> r == Success(default)
    ensures obj.JObj? && Lookup(obj.fields, key).Some? ==> r == Success(Lookup(obj.fields, key).value)
  {
    if !obj.JObj? then Failure("'" + TypeName(obj) + "' object has no attribute 'get'")
    else match Lookup(obj.fields, key)
      case Some(v) => Success(v)
      case None => Success(default)
  }

  /** The value bound to `key` in a dict, or null when it is absent or `j`
      is not a dict: what `resp.get(key)` yields once `resp` is known to be a dict. */
  function Field(j: Json, key: string): Json {
    if j.JObj? then
      match Lookup(j.fields, key)
      case Some(v) => v
      case None => JNull
    else JNull
  }

  /** Python's `not j`: the values whose truth value is false. */
  predicate IsFalsy(j: Json) {
    match j
    case JNull => true
    case JBool(b) => !b
    case JInt(i) => i == 0
    case JFloat(f) => f == 0.0
    case JStr(s) => s == ""
    case JArr(items) => items == []
    case JObj(fields) => fields == []
  }

  /** A list of Python ints as JSON, the form a dataset item travels in. */
  function IntsJson(xs: seq<int>): (j: Json)
    ensures j.JArr? && |j.items| == |xs|
    ensures forall i :: 0 <= i < |xs| ==> j.items[i] == JInt(xs[i])
  {
    JArr(seq(|xs|, i requires 0 <= i < |xs| => JInt(xs[i])))
  }
}
