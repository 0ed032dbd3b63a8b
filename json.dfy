/**
 * JSON values as Python sees them after `json.loads`: objects are dictionaries,
 * numbers with a fraction or exponent are floats. A float carries both its value
 * and the text `str()` gives for it, which the model does not compute.
 */
module Json {
  import opened Wrappers

  datatype Json =
    | JNull
    | JBool(b: bool)
    | JInt(i: int)
    | JFloat(x: real, text: string)
    | JStr(s: string)
    | JArr(items: seq<Json>)
    | JObj(members: seq<(string, Json)>)

  /** `key in d`. */
  predicate Has(members: seq<(string, Json)>, key: string) {
    exists k :: 0 <= k < |members| && members[k].0 == key
  }

  /** `d.get(key)`: the value of the last member with that key (a repeated key keeps its last value). */
  function Get(members: seq<(string, Json)>, key: string): (r: Option<Json>)
    ensures r.Some? <==> Has(members, key)
    ensures r.Some? ==> (key, r.value) in members
  {
    if members == [] then None
    else
      var last := members[|members| - 1];
      if last.0 == key then Some(last.1)
      else
        var r := Get(members[..|members| - 1], key);
        assert Has(members, key) ==> Has(members[..|members| - 1], key) by {
          if Has(members, key) {
            var k :| 0 <= k < |members| && members[k].0 == key;
            assert k < |members| - 1;
            assert members[..|members| - 1][k].0 == key;
          }
        }
        r
  }

  /** `d.pop(key, None)`: the dictionary without that key; the other members keep their order. */
  function Without(members: seq<(string, Json)>, key: string): (r: seq<(string, Json)>)
    ensures !Has(r, key)
    ensures forall m :: m in r <==> m in members && m.0 != key
  {
    if members == [] then []
    else
      var rest := Without(members[..|members| - 1], key);
      var last := members[|members| - 1];
      assert forall m :: m in members <==> m in members[..|members| - 1] || m == last;
      if last.0 == key then rest else rest + [last]
  }

  /** Removing a key leaves every other key's value as it was. */
  lemma {:induction false} GetWithout(members: seq<(string, Json)>, key: string, other: string)
    requires other != key
    ensures Get(Without(members, key), other) == Get(members, other)
  {
    if members != [] {
      var init := members[..|members| - 1];
      var last := members[|members| - 1];
      GetWithout(init, key, other);
      if last.0 != key {
        assert (Without(members, key) + [])[..|Without(members, key)| - 1] == Without(init, key);
      }
    }
  }

  /** Python truthiness: `None`, `False`, zero, and empty text, lists and dictionaries are false. */
  predicate Truthy(j: Json) {
    match j
    case JNull => false
    case JBool(b) => b
    case JInt(i) => i != 0
    case JFloat(x, _) => x != 0.0
    case JStr(s) => s != ""
    case JArr(items) => items != []
    case JObj(members) => members != []
  }
}
