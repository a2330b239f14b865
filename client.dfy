/**
 * GraphQLHttpClient: builds the request payload, sends it, classifies the
 * JSON response and owns (or borrows) the HttpClient it sends through.
 * The HTTP exchange itself is a parameter, `transport`, from the payload to
 * the reply; decoding an error object (`ToObject<GraphQLError>`) is the
 * parameter `decodeError`; Environment.NewLine is the parameter `newLine`.
 */
module Client {
  import opened Wrappers
  import opened Json
  import opened Strings
  import opened Errors
  import opened Requests
  import opened Exceptions

  /** GraphQLResponse's field names. */
  const DataFieldName: string := "data"
  const ErrorsFieldName: string := "errors"

  // ---------------------------------------------------------------------------
  // Payload construction

  /** The payload handed to the serializer: a Dictionary<string, JToken>. */
  class PayloadDictionary {
    var entries: map<string, Json>

    constructor ()
      ensures entries == map[]
    {
      entries := map[];
    }

    /** The indexer's setter: adds the key or overwrites its value. */
    method Set(key: string, value: Json)
      modifies this
      ensures entries == old(entries)[key := value]
    {
      entries := entries[key := value];
    }

    method Clear()
      modifies this
      ensures entries == map[]
    {
      entries := map[];
    }
  }

  /** TryNotNullOrEmpty on the variables dictionary: neither null nor empty. */
  predicate HasVariables(variables: Option<seq<Property>>): (r: bool)
    ensures r <==> variables != None && variables != Some([])
  {
    variables.Some? && |variables.value| > 0
  }

  /** The keys FillPayloadDictionary writes for a request. */
  function WrittenKeys(operationName: Option<string>, query: Option<string>, variables: Option<seq<Property>>): set<string> {
    (if !IsNullOrWhiteSpace(operationName) then {OperationNameFieldName} else {})
    + (if !IsNullOrWhiteSpace(query) then {QueryFieldName} else {})
    + (if HasVariables(variables) then {VariablesFieldName} else {})
  }

  /**
   * The dictionary after FillPayloadDictionary: the request's non-blank
   * strings and non-empty variables are written; nothing is removed and
   * every other key keeps the value it had.
   */
  function FilledPayload(before: map<string, Json>, operationName: Option<string>, query: Option<string>, variables: Option<seq<Property>>): (r: map<string, Json>)
    ensures r.Keys == before.Keys + WrittenKeys(operationName, query, variables)
    ensures !IsNullOrWhiteSpace(operationName) ==> r[OperationNameFieldName] == JString(operationName.value)
    ensures !IsNullOrWhiteSpace(query) ==> r[QueryFieldName] == JString(query.value)
    ensures HasVariables(variables) ==> r[VariablesFieldName] == JObject(variables.value)
    ensures forall k :: k in before && k !in WrittenKeys(operationName, query, variables) ==> r[k] == before[k]
  {
    var withName :=
      if !IsNullOrWhiteSpace(operationName) then before[OperationNameFieldName := JString(operationName.value)] else before;
    var withQuery :=
      if !IsNullOrWhiteSpace(query) then withName[QueryFieldName := JString(query.value)] else withName;
    if HasVariables(variables) then withQuery[VariablesFieldName := JObject(variables.value)] else withQuery
  }

  /** The value a payload holds under `key`, as a lookup result. */
  function Lookup(payload: map<string, Json>, key: string): Option<Json> {
    if key in payload then Some(payload[key]) else None
  }

  /**
   * Filled into an empty dictionary, the payload of a request whose strings
   * are normalised holds exactly what the request's own serialization holds
   * under each wire name, except that an empty variables dictionary is left
   * out; and it holds nothing else.
   */
  lemma FreshPayloadMatchesSerialization(operationName: Option<string>, query: Option<string>, variables: Option<seq<Property>>)
    requires IsNormalised(operationName) && IsNormalised(query)
    ensures var payload := FilledPayload(map[], operationName, query, variables);
      var json := SerializeRequest(operationName, query, variables);
      && Lookup(payload, OperationNameFieldName) == TryGetValue(json, OperationNameFieldName)
      && Lookup(payload, QueryFieldName) == TryGetValue(json, QueryFieldName)
      && (Lookup(payload, VariablesFieldName) == TryGetValue(json, VariablesFieldName) || variables == Some([]))
      && payload.Keys <= {OperationNameFieldName, QueryFieldName, VariablesFieldName}
  {
    assert operationName.Some? <==> !IsNullOrWhiteSpace(operationName);
    assert query.Some? <==> !IsNullOrWhiteSpace(query);
  }

  /** Which IPooledObjectPolicy the payload pool uses. */
  datatype PoolPolicy =
    | DefaultPolicy    // DefaultPooledObjectPolicy: Return keeps the dictionary as it is
    | ClearingPolicy   // PayloadPoolPolicy: Return clears the dictionary

  /**
   * The process-wide payload pool, used by one request at a time. Used
   * sequentially, an ObjectPool never holds more than the one dictionary
   * that the last request gave back, so one slot models it.
   */
  class PayloadPool {
    const policy: PoolPolicy
    var retained: PayloadDictionary?

    /** With the clearing policy, a pooled dictionary is always empty. */
    ghost predicate Valid()
      reads this, retained
    {
      policy == ClearingPolicy ==> PooledEntries() == map[]
    }

    constructor (policy: PoolPolicy)
      ensures Valid()
      ensures this.policy == policy && retained == null
    {
      this.policy := policy;
      retained := null;
    }

    /** What the next Get hands out: the retained dictionary, or a new empty one. */
    function PooledEntries(): map<string, Json>
      reads this, retained
    {
      if retained == null then map[] else retained.entries
    }

    /** The contents a dictionary has after Return under this pool's policy. */
    function ReturnedEntries(entries: map<string, Json>): (r: map<string, Json>)
      ensures policy == ClearingPolicy ==> r == map[]
      ensures policy == DefaultPolicy ==> r == entries
    {
      if policy == ClearingPolicy then map[] else entries
    }

    method Get() returns (d: PayloadDictionary)
      modifies this
      ensures retained == null
      ensures old(retained) != null ==> d == old(retained)
      ensures old(retained) == null ==> fresh(d)
      ensures d.entries == old(PooledEntries())
    {
      if retained != null {
        d := retained;
        retained := null;
      } else {
        d := new PayloadDictionary();
      }
    }

    method Return(d: PayloadDictionary)
      requires retained == null
      modifies this, d
      ensures Valid()
      ensures retained == d
      ensures d.entries == ReturnedEntries(old(d.entries))
    {
      if policy == ClearingPolicy {
        d.Clear();
      }
      retained := d;
    }
  }

  // ---------------------------------------------------------------------------
  // Response classification

  /** What JObject.LoadAsync makes of the response body. */
  datatype ResponseBody = NotAnObject | Object(properties: seq<Property>)

  /** The HTTP reply: whether the status is a success, and the body. */
  datatype HttpReply = HttpReply(isSuccessStatusCode: bool, body: ResponseBody)

  /** How ProcessHttpResponse ends. */
  datatype Processed =
    | ReturnToken(token: Option<Json>)                              // the data token, or null
    | ThrowGraphQL(error: GraphQLError, jsonResponse: seq<Property>) // new GraphQLException(error, jsonResponse)
    | ThrowNullReference                                            // `(errorToken as JObject)` was null
    | ThrowHttpRequest                                              // EnsureSuccessStatusCode
    | ThrowJsonReader                                               // the body is not a JSON object

  /** ProcessHttpResponse: status check, then `errors` before `data`. */
  function ProcessHttpResponse(reply: HttpReply, decodeError: seq<Property> -> GraphQLError): (r: Processed)
    ensures !reply.isSuccessStatusCode ==> r == ThrowHttpRequest
    ensures reply.isSuccessStatusCode && reply.body.NotAnObject? ==> r == ThrowJsonReader
    ensures reply.isSuccessStatusCode && reply.body.Object? ==>
      (r.ReturnToken? <==> !HasProperty(reply.body.properties, ErrorsFieldName))
    ensures r.ThrowGraphQL? ==> reply.body.Object? && r.jsonResponse == reply.body.properties
  {
    if !reply.isSuccessStatusCode then ThrowHttpRequest
    else match reply.body
      case NotAnObject => ThrowJsonReader
      case Object(jsonResponse) =>
        match TryGetValue(jsonResponse, ErrorsFieldName)
        case Some(errorToken) =>
          (match errorToken
           case JObject(errorProperties) => ThrowGraphQL(decodeError(errorProperties), jsonResponse)
           case _ => ThrowNullReference)
        case None => ReturnToken(TryGetValue(jsonResponse, DataFieldName))
  }

  /**
   * An `errors` object fails the call with one decoded error and the whole
   * response, whether or not `data` is present; the exception's message is
   * that error's message.
   */
  lemma ErrorObjectRaisesOneError(jsonResponse: seq<Property>, i: nat, decodeError: seq<Property> -> GraphQLError, newLine: string)
    requires DistinctNames(jsonResponse) && i < |jsonResponse|
    requires jsonResponse[i].name == ErrorsFieldName && jsonResponse[i].value.JObject?
    ensures var error := decodeError(jsonResponse[i].value.properties);
      && ProcessHttpResponse(HttpReply(true, Object(jsonResponse)), decodeError) == ThrowGraphQL(error, jsonResponse)
      && ExceptionMessage(newLine, Some([error])) == MessageText(error)
  {
    TryGetValueAt(jsonResponse, i);
  }

  /**
   * An `errors` value that is not an object (a list, as section 7.1 of the
   * GraphQL specification has it, or a string, or null) makes the
   * `as JObject` cast yield null, and the call fails with a null dereference
   * instead of a GraphQLException.
   */
  lemma NonObjectErrorsDereferenceNull(jsonResponse: seq<Property>, i: nat, decodeError: seq<Property> -> GraphQLError)
    requires DistinctNames(jsonResponse) && i < |jsonResponse|
    requires jsonResponse[i].name == ErrorsFieldName && !jsonResponse[i].value.JObject?
    ensures ProcessHttpResponse(HttpReply(true, Object(jsonResponse)), decodeError) == ThrowNullReference
  {
    TryGetValueAt(jsonResponse, i);
  }

  /** Without `errors`, the `data` value is returned exactly as it is. */
  lemma DataReturnedUnchanged(jsonResponse: seq<Property>, i: nat, decodeError: seq<Property> -> GraphQLError)
    requires DistinctNames(jsonResponse) && i < |jsonResponse|
    requires !HasProperty(jsonResponse, ErrorsFieldName) && jsonResponse[i].name == DataFieldName
    ensures ProcessHttpResponse(HttpReply(true, Object(jsonResponse)), decodeError) == ReturnToken(Some(jsonResponse[i].value))
  {
    TryGetValueAt(jsonResponse, i);
  }

  /** With neither `errors` nor `data`, the result is null and nothing is thrown. */
  lemma NeitherGivesNull(jsonResponse: seq<Property>, decodeError: seq<Property> -> GraphQLError)
    requires !HasProperty(jsonResponse, ErrorsFieldName) && !HasProperty(jsonResponse, DataFieldName)
    ensures ProcessHttpResponse(HttpReply(true, Object(jsonResponse)), decodeError) == ReturnToken(None)
  {
  }

  // ---------------------------------------------------------------------------
  // The client

  class HttpMessageHandler {
  }

  /** The inner HttpClient; only its disposal is observed. */
  class HttpClient {
    const handler: HttpMessageHandler
    const disposeHandler: bool
    var disposeCalls: nat

    constructor (handler: HttpMessageHandler, disposeHandler: bool)
      ensures this.handler == handler && this.disposeHandler == disposeHandler && disposeCalls == 0
    {
      this.handler, this.disposeHandler, disposeCalls := handler, disposeHandler, 0;
    }

    method Dispose()
      modifies this
      ensures disposeCalls == old(disposeCalls) + 1
    {
      disposeCalls := disposeCalls + 1;
    }
  }

  /** How a call of PostQuery ends. */
  datatype Fault =
    | ArgumentNull                           // ArgumentNullException for a null request
    | HttpRequestFailed                      // HttpRequestException from EnsureSuccessStatusCode
    | JsonReaderFailed                       // the body is not a JSON object
    | NullReference                          // NullReferenceException from a non-object `errors`
    | GraphQLFailure(exception: GraphQLException)

  datatype Completion = Returned(token: Option<Json>) | Threw(fault: Fault)

  /** The completion matches the classification of the reply. */
  predicate Completes(completion: Completion, processed: Processed, newLine: string) {
    match processed
    case ReturnToken(token) => completion == Returned(token)
    case ThrowNullReference => completion == Threw(NullReference)
    case ThrowHttpRequest => completion == Threw(HttpRequestFailed)
    case ThrowJsonReader => completion == Threw(JsonReaderFailed)
    case ThrowGraphQL(error, jsonResponse) =>
      && completion.Threw? && completion.fault.GraphQLFailure?
      && completion.fault.exception.graphQLErrors == Some([error])
      && completion.fault.exception.jsonResponse == Some(jsonResponse)
      && completion.fault.exception.message == MessageText(error)
  }

  class GraphQLHttpClient {
    const httpClient: HttpClient
    /** Fixed at construction: whether this client owns httpClient. */
    const disposeClient: bool
    var disposedValue: bool
    /** How many times this client has called httpClient.Dispose(). */
    ghost var innerDisposals: nat

    /** The inner client has been released once if this client owns it and was disposed, never otherwise. */
    ghost predicate Valid()
      reads this
    {
      innerDisposals == if disposedValue && disposeClient then 1 else 0
    }

    /** GraphQLHttpClient(HttpClient httpClient, bool noDispose = false). */
    constructor (httpClient: HttpClient, noDispose: bool)
      ensures Valid()
      ensures this.httpClient == httpClient && disposeClient == !noDispose && !disposedValue
    {
      this.httpClient, disposeClient := httpClient, !noDispose;
      disposedValue := false;
      innerDisposals := 0;
    }

    /** GraphQLHttpClient(HttpMessageHandler messageHandler, bool noDispose = false). */
    constructor FromHandler(messageHandler: HttpMessageHandler, noDispose: bool)
      ensures Valid()
      ensures fresh(httpClient) && httpClient.handler == messageHandler
      ensures httpClient.disposeHandler == !noDispose && httpClient.disposeCalls == 0
      ensures disposeClient == !noDispose && !disposedValue
    {
      httpClient := new HttpClient(messageHandler, !noDispose);
      disposeClient := !noDispose;
      disposedValue := false;
      innerDisposals := 0;
    }

    /** Writes the request's fields into the pooled dictionary; only adds or overwrites keys. */
    static method FillPayloadDictionary(payloadDict: PayloadDictionary, request: GraphQLRequest)
      modifies payloadDict
      ensures payloadDict.entries ==
        FilledPayload(old(payloadDict.entries), request.operationName, request.query, request.variables)
    {
      if !IsNullOrWhiteSpace(request.operationName) {
        payloadDict.Set(OperationNameFieldName, JString(request.operationName.value));
      }
      if !IsNullOrWhiteSpace(request.query) {
        payloadDict.Set(QueryFieldName, JString(request.query.value));
      }
      if HasVariables(request.variables) {
        payloadDict.Set(VariablesFieldName, JObject(request.variables.value));
      }
    }

    /**
     * PostQueryAsync: reject a null request, take a dictionary from the pool,
     * fill it, send it, classify the reply, and give the dictionary back.
     * `sent` is the payload handed to the transport.
     */
    method PostQuery(
      request: GraphQLRequest?,
      pool: PayloadPool,
      transport: map<string, Json> -> HttpReply,
      decodeError: seq<Property> -> GraphQLError,
      newLine: string)
      returns (completion: Completion, sent: Option<map<string, Json>>)
      requires pool.Valid()
      modifies pool, pool.retained
      ensures pool.Valid()
      ensures pool.retained == old(pool.retained) || fresh(pool.retained)
      ensures request == null ==>
        && completion == Threw(ArgumentNull) && sent == None
        && pool.retained == old(pool.retained) && pool.PooledEntries() == old(pool.PooledEntries())
      ensures request != null ==>
        sent == Some(FilledPayload(old(pool.PooledEntries()), request.operationName, request.query, request.variables))
      ensures request != null && pool.policy == ClearingPolicy ==>
        sent == Some(FilledPayload(map[], request.operationName, request.query, request.variables))
      ensures request != null ==>
        pool.retained != null && pool.PooledEntries() == pool.ReturnedEntries(sent.value)
      ensures request != null ==>
        Completes(completion, ProcessHttpResponse(transport(sent.value), decodeError), newLine)
      ensures completion.Threw? && completion.fault.GraphQLFailure? ==>
        fresh(completion.fault.exception)
        && completion.fault.exception.data == DataFor(completion.fault.exception.jsonResponse)
    {
      if request == null {
        return Threw(ArgumentNull), None;
      }
      var payloadDict := pool.Get();
      FillPayloadDictionary(payloadDict, request);
      sent := Some(payloadDict.entries);
      var processed := ProcessHttpResponse(transport(payloadDict.entries), decodeError);
      if processed.ThrowGraphQL? {
        var exception := new GraphQLException.FromError(processed.error, Some(processed.jsonResponse), newLine);
        completion := Threw(GraphQLFailure(exception));
      } else {
        completion := match processed
          case ReturnToken(token) => Returned(token)
          case ThrowNullReference => Threw(NullReference)
          case ThrowHttpRequest => Threw(HttpRequestFailed)
          case ThrowJsonReader => Threw(JsonReaderFailed);
      }
      pool.Return(payloadDict);
    }

    /** Dispose(bool disposing): release the inner client once, and only if owned. */
    method DisposeCore(disposing: bool)
      requires Valid()
      modifies this, httpClient
      ensures Valid() && disposedValue
      ensures httpClient.disposeCalls ==
        old(httpClient.disposeCalls) + (if !old(disposedValue) && disposeClient then 1 else 0)
      ensures innerDisposals <= 1
    {
      if !disposedValue {
        if disposeClient {
          httpClient.Dispose();
          innerDisposals := innerDisposals + 1;
        }
        disposedValue := true;
      }
    }

    /** IDisposable.Dispose: Dispose(true); suppressing the finalizer has no effect in the model. */
    method Dispose()
      requires Valid()
      modifies this, httpClient
      ensures Valid() && disposedValue
      ensures httpClient.disposeCalls ==
        old(httpClient.disposeCalls) + (if !old(disposedValue) && disposeClient then 1 else 0)
      ensures !disposeClient ==> httpClient.disposeCalls == old(httpClient.disposeCalls)
    {
      DisposeCore(true);
    }
  }

  // ---------------------------------------------------------------------------
  // Two requests in a row through the shared payload pool

  /** A request that sets only the operation name "A" writes that one key. */
  lemma NameOnlyPayload(before: map<string, Json>)
    ensures FilledPayload(before, Some("A"), None, None) == before[OperationNameFieldName := JString("A")]
  {
    assert !IsNullOrWhiteSpace(Some("A")) by { assert "A"[0] == 'A'; }
  }

  /** A request that sets only the query "q" writes that one key. */
  lemma QueryOnlyPayload(before: map<string, Json>)
    ensures FilledPayload(before, None, Some("q"), None) == before[QueryFieldName := JString("q")]
  {
    assert !IsNullOrWhiteSpace(Some("q")) by { assert "q"[0] == 'q'; }
  }

  /**
   * With the pool as the client builds it (DefaultPooledObjectPolicy), a
   * request that sets only a query, sent after one that set an operation
   * name, still sends the earlier operation name: the pooled dictionary is not
   * cleared and FillPayloadDictionary only adds keys.
   */
  method StalePayloadScenario(
    transport: map<string, Json> -> HttpReply,
    decodeError: seq<Property> -> GraphQLError,
    newLine: string)
    returns (firstSent: map<string, Json>, secondSent: map<string, Json>)
    ensures firstSent == map[OperationNameFieldName := JString("A")]
    ensures secondSent == map[OperationNameFieldName := JString("A"), QueryFieldName := JString("q")]
  {
    var pool := new PayloadPool(DefaultPolicy);
    var handler := new HttpMessageHandler;
    var client := new GraphQLHttpClient.FromHandler(handler, false);
    var named := new GraphQLRequest();
    named.SetOperationName(Some("A"));
    NameOnlyPayload(map[]);
    var _, sent1 := client.PostQuery(named, pool, transport, decodeError, newLine);
    var queryOnly := new GraphQLRequest();
    queryOnly.SetQuery(Some("q"));
    QueryOnlyPayload(sent1.value);
    var _, sent2 := client.PostQuery(queryOnly, pool, transport, decodeError, newLine);
    firstSent, secondSent := sent1.value, sent2.value;
  }

  /**
   * With PayloadPoolPolicy, which clears a dictionary when it is returned,
   * the second request's payload holds exactly that request's fields.
   */
  method ClearingPoolScenario(
    transport: map<string, Json> -> HttpReply,
    decodeError: seq<Property> -> GraphQLError,
    newLine: string)
    returns (firstSent: map<string, Json>, secondSent: map<string, Json>)
    ensures firstSent == map[OperationNameFieldName := JString("A")]
    ensures secondSent == map[QueryFieldName := JString("q")]
  {
    var pool := new PayloadPool(ClearingPolicy);
    var handler := new HttpMessageHandler;
    var client := new GraphQLHttpClient.FromHandler(handler, false);
    var named := new GraphQLRequest();
    named.SetOperationName(Some("A"));
    NameOnlyPayload(map[]);
    var _, sent1 := client.PostQuery(named, pool, transport, decodeError, newLine);
    var queryOnly := new GraphQLRequest();
    queryOnly.SetQuery(Some("q"));
    QueryOnlyPayload(map[]);
    var _, sent2 := client.PostQuery(queryOnly, pool, transport, decodeError, newLine);
    firstSent, secondSent := sent1.value, sent2.value;
  }
}
