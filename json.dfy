/** The values `JSON.parse` produces, and the JavaScript operations on them
    that the core relies on: property lookup and truthiness. */
module Json {
  import opened Wrappers

  /** A parsed JSON value. An object lists its own properties once each, in
      the order JavaScript enumerates them. */
  datatype Value =
    | Null
    | Bool(b: bool)
    | Num(n: real)
    | Str(s: string)
    | Arr(items: seq<Value>)
    | Obj(members: seq<(string, Value)>)

  /** A value that may be `undefined` (None). */
  type Field = Option<Value>

  /** The property names of an object, in order. */
  function Keys(members: seq<(string, Value)>): (r: seq<string>)
    ensures |r| == |members|
    ensures forall i :: 0 <= i < |members| ==> r[i] == members[i].0
  {
    seq(|members|, i requires 0 <= i < |members| => members[i].0)
  }

  /** `obj[key]`: the value of the first property named `key`, or `undefined`. */
  function Get(members: seq<(string, Value)>, key: string): Field
  {
    if |members| == 0 then None
    else if members[0].0 == key then Some(members[0].1)
    else Get(members[1..], key)
  }

  /** A lookup finds a value exactly when some property carries the key, and
      then it is the value of the first such property. */
  lemma {:induction false} GetFindsFirst(members: seq<(string, Value)>, key: string)
    ensures Get(members, key).Some? <==> key in Keys(members)
    ensures Get(members, key).Some? ==>
              exists i :: 0 <= i < |members| && members[i] == (key, Get(members, key).value)
                          && key !in Keys(members[..i])
  {
    if |members| == 0 {
    } else if members[0].0 == key {
      assert members[..0] == [];
      assert members[0] == (key, Get(members, key).value);
    } else {
      GetFindsFirst(members[1..], key);
      assert Keys(members) == [members[0].0] + Keys(members[1..]);
      var r := Get(members[1..], key);
      if r.Some? {
        var i :| 0 <= i < |members[1..]| && members[1..][i] == (key, r.value)
                 && key !in Keys(members[1..][..i]);
        assert members[1..][..i] == members[1..i + 1];
        assert Keys(members[..i + 1]) == [members[0].0] + Keys(members[1..][..i]);
        assert members[i + 1] == (key, r.value);
      }
    }
  }

  /** `v.key` on a value that is not null or undefined. Only objects carry
      the property names the core reads; every other kind yields `undefined`. */
  function Property(v: Value, key: string): (r: Field)
    ensures r.Some? ==> v.Obj?
  {
    if v.Obj? then Get(v.members, key) else None
  }

  /** JavaScript truthiness: `undefined`, `null`, `false`, `0` and `""` are falsy. */
  predicate Truthy(f: Field)
  {
    match f
    case None => false
    case Some(Null) => false
    case Some(Bool(b)) => b
    case Some(Num(n)) => n != 0.0
    case Some(Str(s)) => s != ""
    case Some(Arr(_)) => true
    case Some(Obj(_)) => true
  }

  /** `typeof v === "object"`: true of null, arrays and objects. */
  predicate IsObjectType(v: Value)
  {
    v.Null? || v.Arr? || v.Obj?
  }

  /** No property name occurs twice. */
  predicate DistinctKeys(members: seq<(string, Value)>)
  {
    forall i, j :: 0 <= i < j < |members| ==> members[i].0 != members[j].0
  }
}
