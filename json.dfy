/** The JSON trees that Go's encoding/json produces for the configuration
    structs. Objects keep their members in emission order (struct field
    declaration order), so an object is a sequence of (key, value) pairs. */
module Json {

  datatype Option<+T> = None | Some(value: T)

  datatype Json =
    | JBool(b: bool)
    | JInt(n: int)
    | JString(s: string)
    | JArray(items: seq<Json>)
    | JObject(fields: seq<(string, Json)>)

  /** The member names of an object, in order. */
  function Keys(fields: seq<(string, Json)>): (ks: seq<string>)
    ensures |ks| == |fields|
    ensures forall i :: 0 <= i < |fields| ==> ks[i] == fields[i].0
  {
    seq(|fields|, i requires 0 <= i < |fields| => fields[i].0)
  }

  /** The member values of an object, in order. */
  function Values(fields: seq<(string, Json)>): (vs: seq<Json>)
    ensures |vs| == |fields|
    ensures forall i :: 0 <= i < |fields| ==> vs[i] == fields[i].1
  {
    seq(|fields|, i requires 0 <= i < |fields| => fields[i].1)
  }

  /** An object whose members are `keys` paired with `values`. */
  function Object(keys: seq<string>, values: seq<Json>): (j: Json)
    requires |keys| == |values|
    ensures j.JObject? && Keys(j.fields) == keys && Values(j.fields) == values
  {
    JObject(seq(|keys|, i requires 0 <= i < |keys| => (keys[i], values[i])))
  }

  /** An object is the object of its own member names and values. */
  lemma ObjectOfMembers(fields: seq<(string, Json)>)
    ensures Object(Keys(fields), Values(fields)) == JObject(fields)
  {
    assert Object(Keys(fields), Values(fields)).fields == fields;
  }

  /** No name occurs twice. */
  predicate Distinct(ks: seq<string>)
  {
    forall i, j :: 0 <= i < j < |ks| ==> ks[i] != ks[j]
  }

  /** The value of the first member named `key`, as a JSON reader sees it. */
  function Lookup(fields: seq<(string, Json)>, key: string): Option<Json>
  {
    if |fields| == 0 then None
    else if fields[0].0 == key then Some(fields[0].1)
    else Lookup(fields[1..], key)
  }

  /** A lookup finds a member exactly when the name is one of the object's
      names, and what it finds is a member carrying that name. */
  lemma {:induction false} LookupFinds(fields: seq<(string, Json)>, key: string)
    ensures Lookup(fields, key).None? <==> key !in Keys(fields)
    ensures Lookup(fields, key).Some? ==> (key, Lookup(fields, key).value) in fields
  {
    if |fields| > 0 {
      assert Keys(fields) == [fields[0].0] + Keys(fields[1..]);
      LookupFinds(fields[1..], key);
      if fields[0].0 != key && Lookup(fields, key).Some? {
        assert fields == [fields[0]] + fields[1..];
      }
    }
  }

  /** Concatenating two name lists without duplicates and without a shared
      name gives a list without duplicates. */
  lemma DistinctConcat(a: seq<string>, b: seq<string>)
    requires Distinct(a) && Distinct(b)
    requires forall i, j :: 0 <= i < |a| && 0 <= j < |b| ==> a[i] != b[j]
    ensures Distinct(a + b)
  {
    var ab := a + b;
    forall i, j | 0 <= i < j < |ab| ensures ab[i] != ab[j] {
      if j < |a| {
        assert ab[i] == a[i] && ab[j] == a[j];
      } else if i >= |a| {
        assert ab[i] == b[i - |a|] && ab[j] == b[j - |a|];
      } else {
        assert ab[i] == a[i] && ab[j] == b[j - |a|];
      }
    }
  }

  /** With pairwise distinct member names, looking up the k-th name finds
      the k-th value. */
  lemma {:induction false} LookupAt(fields: seq<(string, Json)>, k: nat)
    requires Distinct(Keys(fields))
    requires k < |fields|
    ensures Lookup(fields, fields[k].0) == Some(fields[k].1)
  {
    if k > 0 {
      assert fields[0].0 != fields[k].0 by {
        assert Keys(fields)[0] != Keys(fields)[k];
      }
      var rest := fields[1..];
      assert Distinct(Keys(rest)) by {
        forall i, j | 0 <= i < j < |rest| ensures Keys(rest)[i] != Keys(rest)[j] {
          assert Keys(fields)[i + 1] != Keys(fields)[j + 1];
        }
      }
      LookupAt(rest, k - 1);
    }
  }
}
