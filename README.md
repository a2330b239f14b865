# THNETII.GraphQL.Http client core, modelled in Dafny

The library is a thin GraphQL-over-HTTP client. This project models the logic
that sits below its HTTP and JSON plumbing:

- **Request payload construction.** `GraphQLRequest` normalises blank
  `OperationName` and `Query` values to null when they are assigned. It
  serializes only its non-null properties. `GraphQLHttpClient.FillPayloadDictionary`
  writes `operationName`, `query` and `variables` into a pooled
  `Dictionary<string, JToken>`. It writes a string only when it is not blank
  and the variables only when they are non-empty. It never removes a key.
- **Response classification.** `ProcessHttpResponse` checks the HTTP status
  first. It then reads the body as a JSON object. A top-level `errors` property
  makes the call fail, whether or not `data` is present. Otherwise the `data`
  token is returned, or null when there is none.
- **The exception.** `GraphQLException` joins the errors' messages with a
  newline. It stores the errors and the raw response. For each top-level
  response property it assigns `Data[value] = name`. `Exception.Data`
  compares keys with `Equals`. Newtonsoft's `JValue` (null, boolean, number,
  string) compares by value, while `JObject` and `JArray` compare by
  reference. So equal primitive values share one entry, which holds the
  later name, and each object or array value gets its own entry.
- **Location equality.** `GraphQLLocation.Equals` and the null-aware `==`
  and `!=` operators.
- **Disposal.** The client's `disposedValue` flag, and the ownership flag
  that is fixed at construction.

Modules, one per source file, plus their helpers:

| file | module | stands for |
|---|---|---|
| wrappers.dfy | `Wrappers` | C# null, as `Option` |
| json.dfy | `Json` | Newtonsoft's `JToken`/`JObject`, as an abstract JSON datatype; objects keep document order |
| strings.dfy | `Strings` | `string.IsNullOrWhiteSpace`, `NotNullOrWhiteSpace(otherwise: null)`, `string.Join` |
| locations.dfy | `Locations` | GraphQLLocation.cs |
| errors.dfy | `Errors` | GraphQLError.cs (data shape only) |
| requests.dfy | `Requests` | GraphQLRequest.cs |
| exceptions.dfy | `Exceptions` | GraphQLException.cs |
| client.dfy | `Client` | GraphQLHttpClient.cs and the field names of GraphQLResponse.cs |

The model replaces three things with parameters:

- The HTTP exchange (`httpClient.PostAsync` against the endpoint, then the
  server) is `transport`, a function from the payload to an `HttpReply`. The
  reply is a success flag plus the body as parsed by `JObject.LoadAsync`.
- `ToObject<GraphQLError>()` is `decodeError`.
- `Environment.NewLine` is `newLine`.

Two behaviours of the code are worth stating up front:

- Section 7.1 of the GraphQL specification makes `errors` a list. The code
  casts the `errors` token with `as JObject` and dereferences the result. So
  every `errors` value that is not an object, including every conforming
  list, fails the call with a null dereference, and no `GraphQLException` is
  raised. `Client.NonObjectErrorsDereferenceNull` states it.
- Payload construction fills a pooled dictionary in place. The pool never
  clears a returned dictionary, so keys left from an earlier request survive
  (see Findings).

## Model

| member | source | states |
|---|---|---|
| `Json.TryGetValue` | src/THNETII.GraphQL.Http/GraphQLHttpClient.cs:112-114 | `JObject.TryGetValue` finds a value exactly when a property of that name exists, and the value is that property's |
| `Json.TryGetValueAt` | src/THNETII.GraphQL.Http/GraphQLHttpClient.cs:112-114 | in an object with distinct names, looking up a property's name gives that property's value |
| `Strings.NotNullOrWhiteSpace` | src/THNETII.GraphQL.Http/GraphQLRequest.cs:17-24 | the setters' normalisation gives null exactly for null, empty or whitespace-only input, gives the input otherwise, and never gives a blank string |
| `Strings.NormalisedIsFixpoint` | src/THNETII.GraphQL.Http/GraphQLRequest.cs:17-24 | normalisation is idempotent: a null or non-blank value is mapped to itself |
| `Strings.Join` | src/THNETII.GraphQL.Http/GraphQLException.cs:49 | `string.Join`: the parts in order with one separator between neighbours; "" for no parts, and the result starts with the first part (the full layout is `JoinPartAt` and `JoinLength`) |
| `Strings.JoinLength` | src/THNETII.GraphQL.Http/GraphQLException.cs:49 | `string.Join` of one or more parts is the parts' total length plus one separator between each pair of neighbours |
| `Strings.JoinPartAt` | src/THNETII.GraphQL.Http/GraphQLException.cs:49 | in the joined string, part i starts after the earlier parts and their separators, and a separator follows every part but the last |
| `Locations.Equals` | src/THNETII.GraphQL.Http/GraphQLLocation.cs:26-36 | `Equals(other)` is true exactly when `other` is non-null and has the same column and line |
| `Locations.EqualsIsFieldwise` | src/THNETII.GraphQL.Http/GraphQLLocation.cs:28-35 | `Equals(null)` is false, a location equals itself, and two locations are equal exactly when their Column and Line are equal |
| `Locations.OpEquality` | src/THNETII.GraphQL.Http/GraphQLLocation.cs:42-47 | `==` is true for two nulls, false when exactly one side is null, otherwise `Equals`; it coincides with value equality of possibly-null locations |
| `Locations.OpInequality` | src/THNETII.GraphQL.Http/GraphQLLocation.cs:50-55 | `!=`, written out separately in the source, is always the negation of `==` |
| `Locations.OpEqualityIsEquivalence` | src/THNETII.GraphQL.Http/GraphQLLocation.cs:42-47 | `==` is reflexive, symmetric and transitive |
| `Requests.GraphQLRequest.constructor` | src/THNETII.GraphQL.Http/GraphQLRequest.cs:10-11 | a new request has null operation name, query and variables, which satisfies the no-blank invariant |
| `Requests.GraphQLRequest.SetOperationName` | src/THNETII.GraphQL.Http/GraphQLRequest.cs:14-18 | stores null for blank input and the input otherwise; re-assigning the current value changes nothing; query and variables are untouched |
| `Requests.GraphQLRequest.SetQuery` | src/THNETII.GraphQL.Http/GraphQLRequest.cs:21-25 | the same rule for the query; operation name and variables are untouched |
| `Requests.GraphQLRequest.SetVariables` | src/THNETII.GraphQL.Http/GraphQLRequest.cs:27-28 | variables are stored as given; the two strings are untouched |
| `Requests.SerializeRequest` | src/THNETII.GraphQL.Http/GraphQLRequest.cs:13-28 | the serialized request has `operationName`, `query` and `variables` exactly when the value is non-null, holding that value, and no other property |
| `Exceptions.Messages` | src/THNETII.GraphQL.Http/GraphQLException.cs:49 | a null error sequence projects to no messages; otherwise one message per error in order, a null message becoming empty |
| `Exceptions.ExceptionMessage` | src/THNETII.GraphQL.Http/GraphQLException.cs:49 | a null or empty error sequence gives the empty message; a single error gives exactly that error's message, with no separator |
| `Exceptions.MessageListsErrorsInOrder` | src/THNETII.GraphQL.Http/GraphQLException.cs:49 | every error's message occurs in the exception message at its place in enumeration order, followed by a newline unless it is the last |
| `Exceptions.MessageLength` | src/THNETII.GraphQL.Http/GraphQLException.cs:49 | the message is as long as all messages plus one newline between each pair |
| `Exceptions.Assign` | src/THNETII.GraphQL.Http/GraphQLException.cs:56 | the Data indexer's setter replaces the value of the entry with an equal key, keeping the count, and otherwise appends one entry; see `AssignThenFind` and `AssignNewKeyAppends` |
| `Exceptions.AssignThenFind` | src/THNETII.GraphQL.Http/GraphQLException.cs:56 | after `Data[key] = value`, the lookup of that key gives value and the lookup of every other key is unchanged |
| `Exceptions.AssignNewKeyAppends` | src/THNETII.GraphQL.Http/GraphQLException.cs:56 | assigning a key Data does not hold appends one entry at the end and leaves the others as they were |
| `Exceptions.AssignKeepsKeysDistinct` | src/THNETII.GraphQL.Http/GraphQLException.cs:56 | an assignment never creates a second entry with an equal key |
| `Exceptions.Filled` | src/THNETII.GraphQL.Http/GraphQLException.cs:53-57 | the Data entries after the loop over the response never have two equal keys |
| `Exceptions.FilledMapsToLastName` | src/THNETII.GraphQL.Http/GraphQLException.cs:53-57 | every property's value is a Data key mapped to the name of the last property with an equal value; an object or array value maps to its own property's name |
| `Exceptions.FilledKeysComeFromProperties` | src/THNETII.GraphQL.Http/GraphQLException.cs:53-57 | Data holds no key that is not the value of some response property |
| `Exceptions.DistinctValuesGiveOneEntryEach` | src/THNETII.GraphQL.Http/GraphQLException.cs:53-57 | when no two property values are equal primitives, Data has exactly one entry per property, value to name, in property order |
| `Exceptions.EqualPrimitivesShareAnEntry` | src/THNETII.GraphQL.Http/GraphQLException.cs:53-57 | for an object followed by two properties with the same primitive value (`{"errors": {...}, "data": null, "extensions": null}`), Data has two entries and the value maps to the later name |
| `Exceptions.GraphQLException.FromErrors` | src/THNETII.GraphQL.Http/GraphQLException.cs:48-58 | message is the joined messages; `GraphQLErrors` and `JsonResponse` are the arguments; Data is the result of the fill loop over the response, and empty for a null response |
| `Exceptions.GraphQLException.FromError` | src/THNETII.GraphQL.Http/GraphQLException.cs:35-36 | behaves as the sequence constructor on a one-element sequence, so its message is the error's message |
| `Exceptions.GraphQLException.FillData` | src/THNETII.GraphQL.Http/GraphQLException.cs:53-57 | the loop assigns `Data[value] = name` for each property in order, which leaves Data as `Filled` describes it |
| `Client.PayloadDictionary.Set` | src/THNETII.GraphQL.Http/GraphQLHttpClient.cs:97-102 | the dictionary indexer adds the key or overwrites its value, and leaves every other key as it was |
| `Client.PayloadDictionary.Clear` | src/THNETII.GraphQL.Http/GraphQLHttpClient.cs:26 | `Clear` empties the dictionary |
| `Client.HasVariables` | src/THNETII.GraphQL.Http/GraphQLHttpClient.cs:101 | definition: `TryNotNullOrEmpty` succeeds exactly when the variables are neither null nor empty; `FilledPayload` and `PostQuery` state what follows from it |
| `Client.FilledPayload` | src/THNETII.GraphQL.Http/GraphQLHttpClient.cs:95-103 | the filled dictionary keeps every earlier key; it adds `operationName`/`query` only for non-blank strings and `variables` only when non-empty, with those values; every other key keeps its value |
| `Client.FreshPayloadMatchesSerialization` | src/THNETII.GraphQL.Http/GraphQLHttpClient.cs:95-103 | filled into an empty dictionary, a normalised request's payload holds under each wire name what the request's own serialization holds, except that an empty variables dictionary is dropped, and holds no other key |
| `Client.PayloadPool.constructor` | src/THNETII.GraphQL.Http/GraphQLHttpClient.cs:31-34 | a new pool holds no dictionary and has the given return policy |
| `Client.PayloadPool.ReturnedEntries` | src/THNETII.GraphQL.Http/GraphQLHttpClient.cs:24-28 | definition: the clearing policy empties a returned dictionary; the default policy keeps its contents; `PostQuery` and the two scenarios state what follows from it |
| `Client.PayloadPool.Get` | src/THNETII.GraphQL.Http/GraphQLHttpClient.cs:58 | hands out the retained dictionary with its contents, or a new empty one |
| `Client.PayloadPool.Return` | src/THNETII.GraphQL.Http/GraphQLHttpClient.cs:66 | retains the dictionary after applying the policy's Return |
| `Client.ProcessHttpResponse` | src/THNETII.GraphQL.Http/GraphQLHttpClient.cs:105-118 | a failed status throws before the body is read; a non-object body fails parsing; otherwise a value is returned exactly when there is no `errors` property; a GraphQLException carries the whole response |
| `Client.ErrorObjectRaisesOneError` | src/THNETII.GraphQL.Http/GraphQLHttpClient.cs:112-113 | an object-valued `errors` raises a GraphQLException with exactly that one decoded error and the whole response, even when `data` is present; its message is that error's message |
| `Client.NonObjectErrorsDereferenceNull` | src/THNETII.GraphQL.Http/GraphQLHttpClient.cs:112-113 | a list, string or null `errors` value makes the cast yield null, and the call fails with a null dereference rather than a GraphQLException |
| `Client.DataReturnedUnchanged` | src/THNETII.GraphQL.Http/GraphQLHttpClient.cs:114-115 | without `errors`, the returned token is exactly the `data` value |
| `Client.NeitherGivesNull` | src/THNETII.GraphQL.Http/GraphQLHttpClient.cs:116 | with neither `errors` nor `data`, the result is null and nothing is thrown |
| `Client.GraphQLHttpClient.constructor` | src/THNETII.GraphQL.Http/GraphQLHttpClient.cs:39-42 | keeps the given HttpClient; owns it exactly when `noDispose` is false; not yet disposed |
| `Client.GraphQLHttpClient.FromHandler` | src/THNETII.GraphQL.Http/GraphQLHttpClient.cs:44-46 | creates a fresh HttpClient over the handler that disposes the handler exactly when the client owns it |
| `Client.GraphQLHttpClient.FillPayloadDictionary` | src/THNETII.GraphQL.Http/GraphQLHttpClient.cs:95-103 | the dictionary afterwards is `FilledPayload` of its earlier contents and the request's fields |
| `Client.GraphQLHttpClient.PostQuery` | src/THNETII.GraphQL.Http/GraphQLHttpClient.cs:54-68 | a null request throws ArgumentNullException with nothing built or sent; otherwise the payload sent is the pooled dictionary filled from the request (from empty under the clearing policy); the outcome follows `ProcessHttpResponse` of the reply; the dictionary goes back to the pool |
| `Client.GraphQLHttpClient.DisposeCore` | src/THNETII.GraphQL.Http/GraphQLHttpClient.cs:123-133 | the inner client is disposed on the first call only, and only if owned; afterwards `disposedValue` is true and stays true; this client never disposes it more than once |
| `Client.GraphQLHttpClient.Dispose` | src/THNETII.GraphQL.Http/GraphQLHttpClient.cs:143-148 | `Dispose()` is `Dispose(true)`; a borrowed client is never disposed |
| `Client.NameOnlyPayload` | src/THNETII.GraphQL.Http/GraphQLHttpClient.cs:97-98 | a request whose only field is the operation name "A" writes just `operationName` |
| `Client.QueryOnlyPayload` | src/THNETII.GraphQL.Http/GraphQLHttpClient.cs:99-100 | a request whose only field is the query "q" writes just `query` |
| `Client.StalePayloadScenario` | src/THNETII.GraphQL.Http/GraphQLHttpClient.cs:31-34 | with the pool as built, a request with only a query, sent after one with only an operation name, also sends the earlier `operationName` |
| `Client.ClearingPoolScenario` | src/THNETII.GraphQL.Http/GraphQLHttpClient.cs:17-29 | with the clearing policy, the same second request sends only its own `query` |

## Findings

| source | as written | input that shows it | evidently intended | confidence | as-written member | corrected member |
|---|---|---|---|---|---|---|
| src/THNETII.GraphQL.Http/GraphQLHttpClient.cs:31-34 | the payload pool uses `DefaultPooledObjectPolicy`, whose Return leaves the dictionary as it is; `FillPayloadDictionary` only adds keys | a request with operation name `"A"` and nothing else, then a request with query `"q"` and nothing else: the second payload is `{"operationName": "A", "query": "q"}` | the pool uses `PayloadPoolPolicy` (lines 17-29), which clears the dictionary on Return, so each payload holds only its own request's fields | high, not executed | `Client.StalePayloadScenario` | `Client.ClearingPoolScenario` |

`PostQuery` works with either policy. Its contract proves that under the
clearing policy every payload is filled from an empty dictionary.

## Left out

- HTTP transport: `PostAsync`, `StringContent`, the media type and the endpoint are
  out of scope. The exchange is the `transport` parameter, and
  `EnsureSuccessStatusCode` is the reply's success flag.
- JSON text: parsing (`JObject.LoadAsync`) and serialization
  (`JsonConvert.SerializeObject`) are out of scope. Bodies and payloads are abstract
  JSON values. A body that is not a JSON object is a single
  `JsonReaderFailed` outcome.
- `ToObject<GraphQLError>` is the uninterpreted `decodeError` parameter. It
  always yields an error, so a decoding failure (an `errors` object whose
  `locations` is a number, say) cannot happen in the model.
- The `transport` parameter always yields a reply. A connection failure, a
  timeout or a cancellation inside `PostAsync` cannot be represented.
- `new JObject(variables)`: the model takes it to build an object holding exactly
  the variables' entries. Newtonsoft's `JObject(object)` constructor is
  expected to reject a dictionary argument: it wraps each `KeyValuePair` as a
  value, which a `JObject` does not accept. A request with non-empty
  variables would then throw while its payload is built, and the model does
  not capture that.
- `GraphQLRequest.OperationNameFieldName`, `QueryFieldName` and
  `VariablesFieldName`, used at GraphQLHttpClient.cs:98-102, are not defined in
  GraphQLRequest.cs. The model takes them to be the `[JsonProperty]` names
  `operationName`, `query` and `variables`, and
  `Client.FreshPayloadMatchesSerialization` depends on that.
- `TryNotNullOrWhiteSpace`, `NotNullOrWhiteSpace(otherwise:)` and
  `TryNotNullOrEmpty` come from THNETII.Common, which is not part of this
  model. They are taken to mean `string.IsNullOrWhiteSpace` and a null-or-zero
  `Count` test.
- async/await, `CancellationToken` and the thread-safety of the shared `ObjectPool`
  are not modelled. The pool is a static field shared by every client, and
  `PostQueryAsync` holds its dictionary across an `await`. The model assumes one
  request at a time. With concurrent calls the pool can keep several
  dictionaries, and a request may receive the leftovers of any earlier request;
  the one-slot pool shows only the sequential case.
- The finalizer `~GraphQLHttpClient` is not modelled, because it is driven by the
  garbage collector. `GC.SuppressFinalize` has no effect in the model.
- `GraphQLLocation.GetHashCode` and `Equals(object)` are not modelled.
  `GetHashCode` calls back into itself through `EqualityComparer.Default`.
- `Locations.Equals`: the source's reference-identity arm is not modelled
  separately. Locations are values here, and that arm returns true, as the
  field comparison does.
- The constructors' null-argument checks (`ThrowIfNull` on the HttpClient and the
  message handler) are not modelled: those parameters are non-null in the model.
  The null-request check of `PostQueryAsync` is modelled.
- A null element inside an error sequence cannot be expressed in the model. In the
  source it throws NullReferenceException while the message is built.
- Exception.Data keys: primitive values are compared by their JSON text, so two
  numbers with different text but the same value (`1.0` and `1.00`, which
  `JValue` finds equal) are two keys in the model. Strings that Newtonsoft
  parses as dates are strings here. Runtime checks on Data keys are not
  modelled.
- `ObjectDisposedException` from sending through a disposed HttpClient is not
  modelled. `PostQuery` does not look at `disposedValue`, and neither does the
  source.
- The serialization constructor of GraphQLException and the message-only
  constructors are out of scope: they are .NET runtime plumbing. The CLI in
  src/THNETII.GraphQL.FragmentGenerator/Program.cs is not part of this model.
- JSON numbers are kept as their text. No arithmetic is done on them.
