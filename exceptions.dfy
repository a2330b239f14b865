/**
 * GraphQLException: the failure raised for a response that carries errors.
 * Its message joins the errors' messages; it keeps the errors and the raw
 * response, and lists every top-level response property in Exception.Data.
 */
module Exceptions {
  import opened Wrappers
  import opened Json
  import opened Strings
  import opened Errors

  /** string.Join writes a null element as the empty string. */
  function MessageText(error: GraphQLError): string {
    match error.message
    case Some(m) => m
    case None => ""
  }

  /**
   * The messages the exception text is built from (GraphQLException.cs:49):
   * each error's message in enumeration order, or none for a null sequence.
   */
  function Messages(errors: Option<seq<GraphQLError>>): (r: seq<string>)
    ensures errors.None? ==> r == []
    ensures errors.Some? ==> |r| == |errors.value|
    ensures errors.Some? ==> forall i :: 0 <= i < |r| ==> r[i] == MessageText(errors.value[i])
  {
    match errors
    case None => []
    case Some(es) => seq(|es|, i requires 0 <= i < |es| => MessageText(es[i]))
  }

  /**
   * The exception message: the messages joined by the platform's newline.
   * Null or no errors give the empty message; one error gives exactly its
   * message, with no separator.
   */
  function ExceptionMessage(newLine: string, errors: Option<seq<GraphQLError>>): (r: string)
    ensures errors.None? || errors == Some([]) ==> r == ""
    ensures errors.Some? && |errors.value| == 1 ==> r == MessageText(errors.value[0])
  {
    Join(newLine, Messages(errors))
  }

  /**
   * Every error's message occurs in the exception message at its position
   * in enumeration order, each followed by a newline except the last one.
   */
  lemma {:induction false} MessageListsErrorsInOrder(newLine: string, errors: seq<GraphQLError>, i: nat)
    requires i < |errors|
    ensures var message := ExceptionMessage(newLine, Some(errors));
      var start := Offset(newLine, Messages(Some(errors)), i);
      var end := start + |MessageText(errors[i])|;
      && end <= |message|
      && message[start..end] == MessageText(errors[i])
      && (i + 1 < |errors| ==> end + |newLine| <= |message| && message[end..end + |newLine|] == newLine)
  {
    JoinPartAt(newLine, Messages(Some(errors)), i);
  }

  /** The message is as long as the messages plus one newline between each pair. */
  lemma MessageLength(newLine: string, errors: seq<GraphQLError>)
    requires |errors| > 0
    ensures |ExceptionMessage(newLine, Some(errors))| ==
      TotalLength(Messages(Some(errors))) + (|errors| - 1) * |newLine|
  {
    JoinLength(newLine, Messages(Some(errors)));
  }

  /**
   * A key of Exception.Data. The constructor uses each response property's
   * value token as a key, and the Data dictionary compares keys with
   * `Equals`. A JValue (null, boolean, number, string) overrides `Equals` with
   * value equality, so two equal primitive values are one key. A JObject or
   * JArray keeps reference equality, and every property owns its own value
   * token, so the position of its property stands for the reference.
   */
  datatype DataKey =
    | Value(token: Json)
    | Instance(position: nat, token: Json)

  /** An entry of Exception.Data: the key and the property name stored under it. */
  datatype DataEntry = DataEntry(key: DataKey, value: string)

  predicate IsPrimitive(token: Json) {
    !token.JArray? && !token.JObject?
  }

  /** The Data key for the value of property j of a response. */
  function KeyOf(properties: seq<Property>, j: nat): (k: DataKey)
    requires j < |properties|
    ensures IsPrimitive(properties[j].value) <==> k.Value?
    ensures k.token == properties[j].value
    ensures k.Instance? ==> k.position == j
  {
    var token := properties[j].value;
    if IsPrimitive(token) then Value(token) else Instance(j, token)
  }

  /** A prefix of the response gives its properties the same keys. */
  lemma KeysOfPrefix(properties: seq<Property>, n: nat)
    requires n <= |properties|
    ensures forall m :: 0 <= m < n ==> KeyOf(properties[..n], m) == KeyOf(properties, m)
  {
  }

  /** `Data[key]`: the value stored under an equal key, or null. */
  function Find(data: seq<DataEntry>, key: DataKey): Option<string> {
    if data == [] then None
    else if data[0].key == key then Some(data[0].value)
    else Find(data[1..], key)
  }

  /** No two entries of Data have equal keys: no later entry repeats an earlier one's key. */
  predicate DistinctKeys(data: seq<DataEntry>) {
    data == [] || (Find(data[1..], data[0].key).None? && DistinctKeys(data[1..]))
  }

  /**
   * The indexer's setter `Data[key] = value`: the entry with an equal key
   * gets the new value; without one, a new entry is appended.
   */
  function Assign(data: seq<DataEntry>, key: DataKey, value: string): (r: seq<DataEntry>)
    ensures Find(data, key).Some? ==> |r| == |data|
    ensures Find(data, key).None? ==> |r| == |data| + 1
  {
    if data == [] then [DataEntry(key, value)]
    else if data[0].key == key then [DataEntry(key, value)] + data[1..]
    else [data[0]] + Assign(data[1..], key, value)
  }

  /** After `Data[key] = value`, looking up key gives value and every other key is unaffected. */
  lemma {:induction false} AssignThenFind(data: seq<DataEntry>, key: DataKey, value: string, other: DataKey)
    ensures Find(Assign(data, key, value), other) == if other == key then Some(value) else Find(data, other)
  {
    if data != [] && data[0].key != key {
      AssignThenFind(data[1..], key, value, other);
      assert Assign(data, key, value)[1..] == Assign(data[1..], key, value);
    }
  }

  /** Assigning a key Data does not hold appends one entry at the end. */
  lemma {:induction false} AssignNewKeyAppends(data: seq<DataEntry>, key: DataKey, value: string)
    requires Find(data, key).None?
    ensures Assign(data, key, value) == data + [DataEntry(key, value)]
  {
    if data != [] {
      AssignNewKeyAppends(data[1..], key, value);
      assert data == [data[0]] + data[1..];
    }
  }

  /** Assigning never creates a second entry for a key. */
  lemma {:induction false} AssignKeepsKeysDistinct(data: seq<DataEntry>, key: DataKey, value: string)
    requires DistinctKeys(data)
    ensures DistinctKeys(Assign(data, key, value))
  {
    if data != [] && data[0].key != key {
      var rest := Assign(data[1..], key, value);
      AssignKeepsKeysDistinct(data[1..], key, value);
      AssignThenFind(data[1..], key, value, data[0].key);
      assert ([data[0]] + rest)[1..] == rest;
    } else if data != [] {
      assert ([DataEntry(key, value)] + data[1..])[1..] == data[1..];
    }
  }

  /** The Data entries after the constructor's loop has run over `properties`, in order. */
  function Filled(properties: seq<Property>): (r: seq<DataEntry>)
    ensures DistinctKeys(r)
    decreases |properties|
  {
    if properties == [] then []
    else
      var n := |properties| - 1;
      var before := Filled(properties[..n]);
      AssignKeepsKeysDistinct(before, KeyOf(properties, n), properties[n].name);
      Assign(before, KeyOf(properties, n), properties[n].name)
  }

  /** The Data entries a GraphQLException gets for its response; none for a null response. */
  function DataFor(jsonResponse: Option<seq<Property>>): seq<DataEntry> {
    match jsonResponse
    case None => []
    case Some(properties) => Filled(properties)
  }

  /** The last property at or after j whose value is the same key as property j's. */
  function LastWithSameKey(properties: seq<Property>, j: nat): (l: nat)
    requires j < |properties|
    ensures j <= l < |properties| && KeyOf(properties, l) == KeyOf(properties, j)
    ensures forall m :: l < m < |properties| ==> KeyOf(properties, m) != KeyOf(properties, j)
    decreases |properties|
  {
    var n := |properties| - 1;
    if KeyOf(properties, n) == KeyOf(properties, j) then n
    else
      KeysOfPrefix(properties, n);
      LastWithSameKey(properties[..n], j)
  }

  /**
   * Every property's value is a key of Data, mapped to the name of the last
   * property whose value is the same key (a later equal primitive value
   * overwrites the name); an object or array value maps to its own name.
   */
  lemma {:induction false} FilledMapsToLastName(properties: seq<Property>, j: nat)
    requires j < |properties|
    ensures Find(Filled(properties), KeyOf(properties, j)) == Some(properties[LastWithSameKey(properties, j)].name)
    ensures !IsPrimitive(properties[j].value) ==> Find(Filled(properties), KeyOf(properties, j)) == Some(properties[j].name)
    decreases |properties|
  {
    var n := |properties| - 1;
    var prefix := properties[..n];
    var key := KeyOf(properties, j);
    assert Filled(properties) == Assign(Filled(prefix), KeyOf(properties, n), properties[n].name);
    AssignThenFind(Filled(prefix), KeyOf(properties, n), properties[n].name, key);
    if KeyOf(properties, n) != key {
      KeysOfPrefix(properties, n);
      FilledMapsToLastName(prefix, j);
      var l := LastWithSameKey(prefix, j);
      assert LastWithSameKey(properties, j) == l;
      assert prefix[l] == properties[l];
    }
  }

  /** Data holds no key that is not the value of some property. */
  lemma {:induction false} FilledKeysComeFromProperties(properties: seq<Property>, key: DataKey)
    requires forall j :: 0 <= j < |properties| ==> KeyOf(properties, j) != key
    ensures Find(Filled(properties), key) == None
    decreases |properties|
  {
    if properties != [] {
      var n := |properties| - 1;
      KeysOfPrefix(properties, n);
      FilledKeysComeFromProperties(properties[..n], key);
      AssignThenFind(Filled(properties[..n]), KeyOf(properties, n), properties[n].name, key);
    }
  }

  /**
   * When no two property values are the same key (no equal primitive
   * values), Data has one entry per property, value to name, in order.
   */
  lemma {:induction false} DistinctValuesGiveOneEntryEach(properties: seq<Property>)
    requires forall a, b :: 0 <= a < b < |properties| ==> KeyOf(properties, a) != KeyOf(properties, b)
    ensures |Filled(properties)| == |properties|
    ensures forall j :: 0 <= j < |properties| ==>
      Filled(properties)[j] == DataEntry(KeyOf(properties, j), properties[j].name)
    decreases |properties|
  {
    if properties != [] {
      var n := |properties| - 1;
      var prefix := properties[..n];
      KeysOfPrefix(properties, n);
      DistinctValuesGiveOneEntryEach(prefix);
      FilledKeysComeFromProperties(prefix, KeyOf(properties, n));
      AssignNewKeyAppends(Filled(prefix), KeyOf(properties, n), properties[n].name);
      assert Filled(properties) == Filled(prefix) + [DataEntry(KeyOf(properties, n), properties[n].name)];
    }
  }

  /**
   * A container followed by two equal primitive values, as in
   * `{"errors": {...}, "data": null, "extensions": null}`: the two values are
   * one key, so Data has two entries and the value maps to the later name.
   */
  lemma EqualPrimitivesShareAnEntry(names: seq<string>, errorObject: seq<Property>, token: Json)
    requires |names| == 3 && IsPrimitive(token)
    ensures var response := [Property(names[0], JObject(errorObject)), Property(names[1], token), Property(names[2], token)];
      Filled(response) == [DataEntry(Instance(0, JObject(errorObject)), names[0]), DataEntry(Value(token), names[2])]
  {
    var response := [Property(names[0], JObject(errorObject)), Property(names[1], token), Property(names[2], token)];
    var first := [DataEntry(Instance(0, JObject(errorObject)), names[0])];
    assert response[..1][..0] == [];
    assert Filled(response[..1]) == first;
    assert response[..2][..1] == response[..1];
    AssignNewKeyAppends(first, Value(token), names[1]);
    var second := first + [DataEntry(Value(token), names[1])];
    assert Filled(response[..2]) == second;
    assert response[..3] == response;
    assert Assign(second, Value(token), names[2]) == [second[0]] + Assign(second[1..], Value(token), names[2]);
  }

  class GraphQLException {
    const message: string
    const graphQLErrors: Option<seq<GraphQLError>>
    const jsonResponse: Option<seq<Property>>
    var data: seq<DataEntry>

    /** GraphQLException(IEnumerable<GraphQLError>, JObject). */
    constructor FromErrors(errors: Option<seq<GraphQLError>>, jsonResponse: Option<seq<Property>>, newLine: string)
      ensures message == ExceptionMessage(newLine, errors)
      ensures graphQLErrors == errors && this.jsonResponse == jsonResponse
      ensures data == DataFor(jsonResponse)
    {
      message := ExceptionMessage(newLine, errors);
      graphQLErrors := errors;
      this.jsonResponse := jsonResponse;
      data := [];
      new;
      FillData(jsonResponse);
    }

    /** GraphQLException(GraphQLError, JObject): the sequence constructor on a one-element array. */
    constructor FromError(error: GraphQLError, jsonResponse: Option<seq<Property>>, newLine: string)
      ensures message == ExceptionMessage(newLine, Some([error]))
      ensures message == MessageText(error)
      ensures graphQLErrors == Some([error]) && this.jsonResponse == jsonResponse
      ensures data == DataFor(jsonResponse)
    {
      message := ExceptionMessage(newLine, Some([error]));
      graphQLErrors := Some([error]);
      this.jsonResponse := jsonResponse;
      data := [];
      new;
      FillData(jsonResponse);
    }

    /**
     * The constructor's loop over the response's properties, assigning
     * Data[value] = name for each in order (GraphQLException.cs:53-57).
     */
    method FillData(jsonResponse: Option<seq<Property>>)
      requires data == []
      modifies this
      ensures data == DataFor(jsonResponse)
    {
      if jsonResponse.Some? {
        var properties := jsonResponse.value;
        var i := 0;
        while i < |properties|
          invariant 0 <= i <= |properties|
          invariant data == Filled(properties[..i])
        {
          assert properties[..i + 1][..i] == properties[..i];
          data := Assign(data, KeyOf(properties, i), properties[i].name);
          i := i + 1;
        }
        assert properties[..i] == properties;
      }
    }
  }
}
