/** GraphQLRequest: the operation name, query text and variables of one request. */
module Requests {
  import opened Wrappers
  import opened Json
  import opened Strings

  /** Wire names given by the [JsonProperty] attributes. */
  const OperationNameFieldName: string := "operationName"
  const QueryFieldName: string := "query"
  const VariablesFieldName: string := "variables"

  class GraphQLRequest {
    var operationName: Option<string>
    var query: Option<string>
    /** IDictionary<string, JToken>, as its entries in enumeration order; stored as given. */
    var variables: Option<seq<Property>>

    /** The setters never store a blank string. */
    ghost predicate Valid()
      reads this
    {
      IsNormalised(operationName) && IsNormalised(query)
    }

    constructor ()
      ensures Valid()
      ensures operationName == None && query == None && variables == None
    {
      operationName, query, variables := None, None, None;
    }

    /** The OperationName setter: blank input is stored as null. */
    method SetOperationName(value: Option<string>)
      requires Valid()
      modifies this
      ensures Valid()
      ensures operationName == NotNullOrWhiteSpace(value)
      ensures value == old(operationName) ==> operationName == old(operationName)
      ensures query == old(query) && variables == old(variables)
    {
      operationName := NotNullOrWhiteSpace(value);
      if value == old(operationName) {
        NormalisedIsFixpoint(value);
      }
    }

    /** The Query setter: blank input is stored as null. */
    method SetQuery(value: Option<string>)
      requires Valid()
      modifies this
      ensures Valid()
      ensures query == NotNullOrWhiteSpace(value)
      ensures value == old(query) ==> query == old(query)
      ensures operationName == old(operationName) && variables == old(variables)
    {
      query := NotNullOrWhiteSpace(value);
      if value == old(query) {
        NormalisedIsFixpoint(value);
      }
    }

    /** The Variables setter: an auto-property, no normalisation. */
    method SetVariables(value: Option<seq<Property>>)
      requires Valid()
      modifies this
      ensures Valid()
      ensures variables == value
      ensures operationName == old(operationName) && query == old(query)
    {
      variables := value;
    }
  }

  /**
   * A request serialized through its [JsonProperty] attributes with
   * NullValueHandling.Ignore: a property appears exactly when its value is
   * non-null, in declaration order, under its wire name.
   */
  function SerializeRequest(operationName: Option<string>, query: Option<string>, variables: Option<seq<Property>>): (r: seq<Property>)
    ensures DistinctNames(r)
    ensures TryGetValue(r, OperationNameFieldName) ==
      (if operationName.Some? then Some(JString(operationName.value)) else None)
    ensures TryGetValue(r, QueryFieldName) ==
      (if query.Some? then Some(JString(query.value)) else None)
    ensures TryGetValue(r, VariablesFieldName) ==
      (if variables.Some? then Some(JObject(variables.value)) else None)
    ensures forall i :: 0 <= i < |r| ==> r[i].name in {OperationNameFieldName, QueryFieldName, VariablesFieldName}
  {
    var r :=
      (if operationName.Some? then [Property(OperationNameFieldName, JString(operationName.value))] else [])
      + (if query.Some? then [Property(QueryFieldName, JString(query.value))] else [])
      + (if variables.Some? then [Property(VariablesFieldName, JObject(variables.value))] else []);
    assert variables.Some? ==> r[|r| - 1] == Property(VariablesFieldName, JObject(variables.value));
    r
  }
}
