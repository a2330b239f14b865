/**
 * An abstract JSON token, standing for Newtonsoft's JToken. Objects keep
 * their properties in document order, as a JObject does.
 */
module Json {
  import opened Wrappers

  datatype Json =
    | JNull
    | JBool(b: bool)
    | JNumber(literal: string)   // the number's text; no arithmetic is done on it
    | JString(s: string)
    | JArray(items: seq<Json>)
    | JObject(properties: seq<Property>)

  datatype Property = Property(name: string, value: Json)

  /** A JObject never holds two properties with the same name. */
  predicate DistinctNames(properties: seq<Property>) {
    forall i, j :: 0 <= i < j < |properties| ==> properties[i].name != properties[j].name
  }

  predicate HasProperty(properties: seq<Property>, name: string) {
    exists i :: 0 <= i < |properties| && properties[i].name == name
  }

  /** JObject.TryGetValue: the value of the property called `name`, if there is one. */
  function TryGetValue(properties: seq<Property>, name: string): (r: Option<Json>)
    ensures r.None? <==> !HasProperty(properties, name)
    ensures r.Some? ==> exists i :: 0 <= i < |properties| && properties[i] == Property(name, r.value)
  {
    if |properties| == 0 then None
    else if properties[0].name == name then Some(properties[0].value)
    else
      var r := TryGetValue(properties[1..], name);
      assert forall i :: 0 < i < |properties| ==> properties[i] == properties[1..][i - 1];
      r
  }

  /** In a well-formed object, looking up a property's name yields that property's value. */
  lemma {:induction false} TryGetValueAt(properties: seq<Property>, i: nat)
    requires DistinctNames(properties)
    requires i < |properties|
    ensures TryGetValue(properties, properties[i].name) == Some(properties[i].value)
  {
    if i > 0 {
      assert properties[0].name != properties[i].name;
      TryGetValueAt(properties[1..], i - 1);
    }
  }
}
