# Bulk operation factories, calling-server client builder and join-call options

This project models, in Dafny, three classes of the Azure SDK for Java and proves
what they promise.

- **`BulkOperations`** (Cosmos DB). These are the static factories that build one immutable
  bulk item operation per kind: create, read, replace, upsert, delete and patch. Each
  factory throws a `NullPointerException` for a null required argument. The first null
  argument in the source's check order decides the message. Null per-item request options
  become a freshly constructed default; patch uses the patch-specific default. Each kind
  fixes its shape:
  - create and upsert carry no id and carry the item;
  - read and delete carry the id and no payload;
  - replace carries both;
  - patch carries the id and the patch operations.

  The partition key and the caller context pass through unchanged. Every shorter overload
  builds the same operation as the full overload called with default options when it takes
  no options and a null context when it takes no context. Module `CosmosBulk`; the operation is the datatype
  `ItemBulkOperation`, and there is one function per overload.
- **`CallClientBuilder`** (Communication calling server). Its setters reject null, store
  the value and return the builder; `clientOptions` alone accepts null. `createServiceImpl`
  then does the following, in order:
  - rejects a connection string combined with an endpoint, a key credential or a token
    credential, and a key credential combined with a token credential. A null or
    whitespace-only string counts as unset (Java `trim()` semantics);
  - writes a connection string's endpoint and access key into the builder's own fields;
  - requires an endpoint, and an HTTP client when no pipeline was supplied. The source
    reports a missing HTTP client with the message "no endpoint provided", and the model
    keeps that message;
  - uses a supplied pipeline unchanged, or else assembles one. The assembled policy order is
    authentication (bearer token, else HMAC, else an error), user agent with the chosen
    application id, retry (a default when none was set), cookies, the custom policies in
    insertion order, and logging.

  Module `CallingServerBuilder`: a `class CallClientBuilder` whose methods are proved
  against pure specification functions (`ServiceImplOutcome`, `PipelineOutcome`) over a
  snapshot of its fields (`BuilderState`). The lemmas about several calls are stated on
  those functions. One example: building twice from a builder configured by a connection
  string is always rejected, because the first build has written an endpoint and a key
  credential.
- **`JoinCallOptions`** (Communication calling server). A fluent holder of a subject, a
  callback URI and two arrays: requested modalities and requested call events. The arrays
  read as empty while unset. A null argument stores an empty array. They are copied on both
  get and set, so no caller ever shares the stored array. Module `CallingServerModels`: a
  `class JoinCallOptions` with `array?` fields. Its methods state freshness, contents and
  their frames, and four client methods show what callers can rely on.

Java `null` is the datatype `Nullable` (`Null` / `NonNull(v)`). A thrown exception is the
`Err` side of `Result`. Both live in module `JavaLang`, together with `String.trim()` and
`CoreUtils.isNullOrEmpty`. Java overloads get distinct names: `GetCreateItemOperation`
(item and partition key), `...WithContext`, `...WithOptions` and `...Full` (all arguments).
The builder's fluent setters are named `SetEndpoint`, `SetTokenCredential`,
`SetKeyCredential`, and so on.

## Model

| member | source | states |
|---|---|---|
| `CosmosBulk.GetCreateItemOperationFull` | sdk/cosmos/azure-cosmos/src/main/java/com/azure/cosmos/BulkOperations.java:102-123 | succeeds iff item and partition key are non-null; a null item is reported first, then a null partition key; the operation is CREATE, well shaped, has no id, carries the item, the partition key, the context and the given options or the default |
| `CosmosBulk.GetCreateItemOperation` | sdk/cosmos/azure-cosmos/src/main/java/com/azure/cosmos/BulkOperations.java:36-40 | same result as the full overload with default options and a null context |
| `CosmosBulk.GetCreateItemOperationWithContext` | sdk/cosmos/azure-cosmos/src/main/java/com/azure/cosmos/BulkOperations.java:55-63 | same result as the full overload with default options and the given context |
| `CosmosBulk.GetCreateItemOperationWithOptions` | sdk/cosmos/azure-cosmos/src/main/java/com/azure/cosmos/BulkOperations.java:77-86 | same result as the full overload with the given options (default when null) and a null context |
| `CosmosBulk.GetDeleteItemOperationFull` | sdk/cosmos/azure-cosmos/src/main/java/com/azure/cosmos/BulkOperations.java:202-223 | succeeds iff id and partition key are non-null, id reported first; the operation is DELETE, well shaped, carries the id and no payload, the partition key, the context and the given or default options |
| `CosmosBulk.GetDeleteItemOperation` | sdk/cosmos/azure-cosmos/src/main/java/com/azure/cosmos/BulkOperations.java:134-139 | delegating through the options overload, same result as the full overload with default options and a null context |
| `CosmosBulk.GetDeleteItemOperationWithContext` | sdk/cosmos/azure-cosmos/src/main/java/com/azure/cosmos/BulkOperations.java:153-162 | same result as the full overload with default options and the given context |
| `CosmosBulk.GetDeleteItemOperationWithOptions` | sdk/cosmos/azure-cosmos/src/main/java/com/azure/cosmos/BulkOperations.java:174-187 | defaults null options itself; same result as the full overload with those options and a null context |
| `CosmosBulk.GetReadItemOperationFull` | sdk/cosmos/azure-cosmos/src/main/java/com/azure/cosmos/BulkOperations.java:298-319 | succeeds iff id and partition key are non-null, id reported first; the operation is READ, well shaped, carries the id and no payload, the partition key, the context and the given or default options |
| `CosmosBulk.GetReadItemOperation` | sdk/cosmos/azure-cosmos/src/main/java/com/azure/cosmos/BulkOperations.java:234-239 | same result as the full overload with default options and a null context |
| `CosmosBulk.GetReadItemOperationWithContext` | sdk/cosmos/azure-cosmos/src/main/java/com/azure/cosmos/BulkOperations.java:253-262 | same result as the full overload with default options and the given context |
| `CosmosBulk.GetReadItemOperationWithOptions` | sdk/cosmos/azure-cosmos/src/main/java/com/azure/cosmos/BulkOperations.java:274-283 | same result as the full overload with the given options (default when null) and a null context |
| `CosmosBulk.GetReplaceItemOperationFull` | sdk/cosmos/azure-cosmos/src/main/java/com/azure/cosmos/BulkOperations.java:409-432 | succeeds iff item, id and partition key are non-null, reported in that order; the operation is REPLACE, well shaped, carries both id and item, the partition key, the context and the given or default options |
| `CosmosBulk.GetReplaceItemOperation` | sdk/cosmos/azure-cosmos/src/main/java/com/azure/cosmos/BulkOperations.java:333-339 | same result as the full overload with default options and a null context |
| `CosmosBulk.GetReplaceItemOperationWithContext` | sdk/cosmos/azure-cosmos/src/main/java/com/azure/cosmos/BulkOperations.java:355-366 | same result as the full overload with default options and the given context |
| `CosmosBulk.GetReplaceItemOperationWithOptions` | sdk/cosmos/azure-cosmos/src/main/java/com/azure/cosmos/BulkOperations.java:381-392 | same result as the full overload with the given options (default when null) and a null context |
| `CosmosBulk.GetUpsertItemOperationFull` | sdk/cosmos/azure-cosmos/src/main/java/com/azure/cosmos/BulkOperations.java:513-534 | succeeds iff item and partition key are non-null, item reported first; the operation is UPSERT, well shaped, has no id, carries the item, the partition key, the context and the given or default options |
| `CosmosBulk.GetUpsertItemOperation` | sdk/cosmos/azure-cosmos/src/main/java/com/azure/cosmos/BulkOperations.java:445-450 | same result as the full overload with default options and a null context |
| `CosmosBulk.GetUpsertItemOperationWithContext` | sdk/cosmos/azure-cosmos/src/main/java/com/azure/cosmos/BulkOperations.java:465-474 | same result as the full overload with default options and the given context |
| `CosmosBulk.GetUpsertItemOperationWithOptions` | sdk/cosmos/azure-cosmos/src/main/java/com/azure/cosmos/BulkOperations.java:488-497 | same result as the full overload with the given options (default when null) and a null context |
| `CosmosBulk.GetPatchItemOperationFull` | sdk/cosmos/azure-cosmos/src/main/java/com/azure/cosmos/BulkOperations.java:633-656 | succeeds iff id, partition key and patch operations are non-null, reported in that order; the operation is PATCH, well shaped, carries the id and the patch operations as payload, the partition key, the context and the given options or the patch-specific default |
| `CosmosBulk.GetPatchItemOperation` | sdk/cosmos/azure-cosmos/src/main/java/com/azure/cosmos/BulkOperations.java:546-561 | same result as the full overload with default patch options and a null context |
| `CosmosBulk.GetPatchItemOperationWithContext` | sdk/cosmos/azure-cosmos/src/main/java/com/azure/cosmos/BulkOperations.java:577-593 | same result as the full overload with default patch options and the given context |
| `CosmosBulk.GetPatchItemOperationWithOptions` | sdk/cosmos/azure-cosmos/src/main/java/com/azure/cosmos/BulkOperations.java:606-617 | same result as the full overload with the given patch options (default when null) and a null context |
| `CosmosBulk.UpsertIsCreateButForKind` | sdk/cosmos/azure-cosmos/src/main/java/com/azure/cosmos/BulkOperations.java:526-533 | upsert fails exactly as create does, and otherwise builds create's operation with the kind changed to UPSERT |
| `CosmosBulk.ReadIsDeleteButForKind` | sdk/cosmos/azure-cosmos/src/main/java/com/azure/cosmos/BulkOperations.java:311-318 | read fails exactly as delete does, and otherwise builds delete's operation with the kind changed to READ |
| `CosmosBulk.NullOptionsAreDefaultOptions` | sdk/cosmos/azure-cosmos/src/main/java/com/azure/cosmos/BulkOperations.java:111-113 | for all six kinds, null options build the same operation as freshly constructed default options (patch defaults for patch) |
| `CosmosBulk.NullPartitionKeyAlwaysRejected` | sdk/cosmos/azure-cosmos/src/main/java/com/azure/cosmos/BulkOperations.java:37-38 | every factory rejects a null partition key whatever its other arguments |
| `JavaLang.TrimEmptyIffBlank` | sdk/communication/azure-communication-callingserver/src/main/java/com/azure/communication/callingserver/CallClientBuilder.java:220-221 | `s.trim().isEmpty()` holds exactly when every character of `s` is at or below U+0020 |
| `JavaLang.IsSetAndNotBlank` | sdk/communication/azure-communication-callingserver/src/main/java/com/azure/communication/callingserver/CallClientBuilder.java:220-221 | a string counts as set iff it is non-null and not whitespace-only |
| `JavaLang.IsNullOrEmpty` | sdk/communication/azure-communication-callingserver/src/main/java/com/azure/communication/callingserver/CallClientBuilder.java:299-301 | null or the empty string; a blank string is not empty |
| `CallingServerBuilder.CallClientBuilder.constructor` | sdk/communication/azure-communication-callingserver/src/main/java/com/azure/communication/callingserver/CallClientBuilder.java:42-54 | a new builder has only default log options, the SDK properties and no custom policies |
| `CallingServerBuilder.CallClientBuilder.SetEndpoint` | sdk/communication/azure-communication-callingserver/src/main/java/com/azure/communication/callingserver/CallClientBuilder.java:62-65 | null is rejected with the source's message and nothing changes; otherwise the endpoint is stored and the same builder returned; no other field can change |
| `CallingServerBuilder.CallClientBuilder.SetPipeline` | sdk/communication/azure-communication-callingserver/src/main/java/com/azure/communication/callingserver/CallClientBuilder.java:74-77 | null rejected, otherwise pipeline stored and same builder returned; only that field changes |
| `CallingServerBuilder.CallClientBuilder.SetTokenCredential` | sdk/communication/azure-communication-callingserver/src/main/java/com/azure/communication/callingserver/CallClientBuilder.java:87-90 | null rejected, otherwise token credential stored and same builder returned; only that field changes |
| `CallingServerBuilder.CallClientBuilder.SetKeyCredential` | sdk/communication/azure-communication-callingserver/src/main/java/com/azure/communication/callingserver/CallClientBuilder.java:100-103 | null rejected, otherwise key credential stored and same builder returned; only that field changes |
| `CallingServerBuilder.CallClientBuilder.SetConnectionString` | sdk/communication/azure-communication-callingserver/src/main/java/com/azure/communication/callingserver/CallClientBuilder.java:111-115 | null rejected, otherwise the string (blank included) stored and same builder returned; only that field changes |
| `CallingServerBuilder.CallClientBuilder.SetRetryPolicy` | sdk/communication/azure-communication-callingserver/src/main/java/com/azure/communication/callingserver/CallClientBuilder.java:123-126 | null rejected, otherwise retry policy stored and same builder returned; only that field changes |
| `CallingServerBuilder.CallClientBuilder.SetConfiguration` | sdk/communication/azure-communication-callingserver/src/main/java/com/azure/communication/callingserver/CallClientBuilder.java:136-139 | null rejected, otherwise configuration stored and same builder returned; only that field changes |
| `CallingServerBuilder.CallClientBuilder.SetHttpLogOptions` | sdk/communication/azure-communication-callingserver/src/main/java/com/azure/communication/callingserver/CallClientBuilder.java:148-151 | null rejected, otherwise log options stored and same builder returned; only that field changes |
| `CallingServerBuilder.CallClientBuilder.SetServiceVersion` | sdk/communication/azure-communication-callingserver/src/main/java/com/azure/communication/callingserver/CallClientBuilder.java:169-171 | returns the same builder and changes nothing |
| `CallingServerBuilder.CallClientBuilder.SetHttpClient` | sdk/communication/azure-communication-callingserver/src/main/java/com/azure/communication/callingserver/CallClientBuilder.java:179-182 | null rejected, otherwise HTTP client stored and same builder returned; only that field changes |
| `CallingServerBuilder.CallClientBuilder.AddPolicy` | sdk/communication/azure-communication-callingserver/src/main/java/com/azure/communication/callingserver/CallClientBuilder.java:192-195 | null rejected with the list unchanged; otherwise the policy is appended at the end and the same builder returned |
| `CallingServerBuilder.CallClientBuilder.SetClientOptions` | sdk/communication/azure-communication-callingserver/src/main/java/com/azure/communication/callingserver/CallClientBuilder.java:275-278 | stores the value, null included, and returns the same builder |
| `CallingServerBuilder.CallClientBuilder.BuildAsyncClient` | sdk/communication/azure-communication-callingserver/src/main/java/com/azure/communication/callingserver/CallClientBuilder.java:204-206 | wraps the service client createServiceImpl specifies, or fails with its error, leaving the same builder state |
| `CallingServerBuilder.CallClientBuilder.BuildClient` | sdk/communication/azure-communication-callingserver/src/main/java/com/azure/communication/callingserver/CallClientBuilder.java:215-217 | wraps the asynchronous client, or fails with its error, leaving the same builder state |
| `CallingServerBuilder.CallClientBuilder.CreateServiceImpl` | sdk/communication/azure-communication-callingserver/src/main/java/com/azure/communication/callingserver/CallClientBuilder.java:219-266 | result and new builder state are those of `ServiceImplOutcome` on the old state; only endpoint, key credential and log options can change |
| `CallingServerBuilder.ConflictError` | sdk/communication/azure-communication-callingserver/src/main/java/com/azure/communication/callingserver/CallClientBuilder.java:225-243 | no error iff a set connection string comes with no endpoint and no credential and the two credentials are not both set; otherwise the first broken rule in source order |
| `CallingServerBuilder.AuthPolicy` | sdk/communication/azure-communication-callingserver/src/main/java/com/azure/communication/callingserver/CallClientBuilder.java:280-290 | bearer-token policy with the communication scope when a token credential is set, else HMAC with the key credential, else the missing-credential error |
| `CallingServerBuilder.CallClientBuilder.CreateHttpPipelineAuthPolicy` | sdk/communication/azure-communication-callingserver/src/main/java/com/azure/communication/callingserver/CallClientBuilder.java:280-290 | returns what `AuthPolicy` decides for the builder's credentials and changes nothing |
| `CallingServerBuilder.ApplicationId` | sdk/communication/azure-communication-callingserver/src/main/java/com/azure/communication/callingserver/CallClientBuilder.java:298-303 | the client options' id if non-empty, else the log options' id if non-empty, else null; a returned id is never empty |
| `CallingServerBuilder.CallClientBuilder.GetHttpLogOptions` | sdk/communication/azure-communication-callingserver/src/main/java/com/azure/communication/callingserver/CallClientBuilder.java:325-331 | returns the stored log options, first storing fresh defaults when the field is null; a non-null field is not changed |
| `CallingServerBuilder.CallClientBuilder.CreateHttpPipeline` | sdk/communication/azure-communication-callingserver/src/main/java/com/azure/communication/callingserver/CallClientBuilder.java:292-323 | result and new state are those of `PipelineOutcome` on the old state; only the log options can change |
| `CallingServerBuilder.ConflictLeavesBuilderUnchanged` | sdk/communication/azure-communication-callingserver/src/main/java/com/azure/communication/callingserver/CallClientBuilder.java:225-243 | a configuration conflict fails the build with an IllegalArgumentException and leaves every field as it was |
| `CallingServerBuilder.ConnectionStringWithEndpointRejected` | sdk/communication/azure-communication-callingserver/src/main/java/com/azure/communication/callingserver/CallClientBuilder.java:225-228 | a non-blank connection string with a non-blank endpoint fails with the endpoint-conflict error, state unchanged |
| `CallingServerBuilder.BlankConnectionStringIgnored` | sdk/communication/azure-communication-callingserver/src/main/java/com/azure/communication/callingserver/CallClientBuilder.java:220-221 | a whitespace-only connection string gives the same result and state as no connection string |
| `CallingServerBuilder.BuildTouchesOnlyLogOptions` | sdk/communication/azure-communication-callingserver/src/main/java/com/azure/communication/callingserver/CallClientBuilder.java:252-265 | after the checks and the connection string, building changes no field except the log options |
| `CallingServerBuilder.ConnectionStringOverwritesEndpointAndKey` | sdk/communication/azure-communication-callingserver/src/main/java/com/azure/communication/callingserver/CallClientBuilder.java:245-250 | a usable connection string sets the endpoint and key credential from the parsed parts, and nothing else changes except the log options |
| `CallingServerBuilder.SecondBuildWithConnectionStringRejected` | sdk/communication/azure-communication-callingserver/src/main/java/com/azure/communication/callingserver/CallClientBuilder.java:225-250 | after a build that applied a connection string, a second build always fails with the endpoint or key-credential conflict, whether or not the first succeeded |
| `CallingServerBuilder.SuccessfulBuildWasConsistent` | sdk/communication/azure-communication-callingserver/src/main/java/com/azure/communication/callingserver/CallClientBuilder.java:225-255 | a successful build had no conflict, an endpoint or connection string, and a pipeline or HTTP client; without a connection string it uses the builder's endpoint |
| `CallingServerBuilder.SuppliedPipelineUsedUnchanged` | sdk/communication/azure-communication-callingserver/src/main/java/com/azure/communication/callingserver/CallClientBuilder.java:257-263 | a supplied pipeline is the pipeline of the built client |
| `CallingServerBuilder.PipelinePolicyOrder` | sdk/communication/azure-communication-callingserver/src/main/java/com/azure/communication/callingserver/CallClientBuilder.java:306-322 | an assembled pipeline has auth, user agent (with the chosen application id, SDK name and version or their fallbacks, and configuration), retry or its default, cookies, the custom policies in insertion order, then logging, and uses the given HTTP client |
| `CallingServerBuilder.BuiltPipelineFromPreparedState` | sdk/communication/azure-communication-callingserver/src/main/java/com/azure/communication/callingserver/CallClientBuilder.java:252-263 | without a supplied pipeline, the built client's pipeline is the one assembled from the builder's HTTP client after the connection string was applied |
| `CallingServerBuilder.BuiltPipelinePolicyOrder` | sdk/communication/azure-communication-callingserver/src/main/java/com/azure/communication/callingserver/CallClientBuilder.java:306-322 | the built client's own pipeline follows that order and uses the builder's HTTP client |
| `CallingServerBuilder.BuiltPipelineAuthentication` | sdk/communication/azure-communication-callingserver/src/main/java/com/azure/communication/callingserver/CallClientBuilder.java:280-306 | a built pipeline starts with bearer-token auth when a token credential is set, else with HMAC over the (possibly connection-string) key credential |
| `CallingServerBuilder.MissingCredentialRejected` | sdk/communication/azure-communication-callingserver/src/main/java/com/azure/communication/callingserver/CallClientBuilder.java:286-289 | with an endpoint and HTTP client but no credential, no connection string and no pipeline, the build fails with the missing-credential error |
| `CallingServerModels.Clone` | sdk/communication/azure-communication-callingserver/src/main/java/com/azure/communication/callingserver/models/JoinCallOptions.java:82 | `clone()` yields a fresh array with the same elements |
| `CallingServerModels.JoinCallOptions.constructor` | sdk/communication/azure-communication-callingserver/src/main/java/com/azure/communication/callingserver/models/JoinCallOptions.java:11-34 | all four properties start null; both arrays read as empty |
| `CallingServerModels.JoinCallOptions.GetSubject` | sdk/communication/azure-communication-callingserver/src/main/java/com/azure/communication/callingserver/models/JoinCallOptions.java:41-43 | returns the stored subject, null included |
| `CallingServerModels.JoinCallOptions.SetSubject` | sdk/communication/azure-communication-callingserver/src/main/java/com/azure/communication/callingserver/models/JoinCallOptions.java:51-54 | stores the subject, returns the same object, and the frame allows no other field to change |
| `CallingServerModels.JoinCallOptions.GetCallbackUri` | sdk/communication/azure-communication-callingserver/src/main/java/com/azure/communication/callingserver/models/JoinCallOptions.java:61-63 | returns the stored callback URI, null included |
| `CallingServerModels.JoinCallOptions.SetCallbackUri` | sdk/communication/azure-communication-callingserver/src/main/java/com/azure/communication/callingserver/models/JoinCallOptions.java:71-74 | stores the callback URI, returns the same object, no other field changes |
| `CallingServerModels.JoinCallOptions.GetRequestedModalities` | sdk/communication/azure-communication-callingserver/src/main/java/com/azure/communication/callingserver/models/JoinCallOptions.java:81-83 | returns a freshly allocated array with the stored modalities, or an empty one when never set; nothing changes |
| `CallingServerModels.JoinCallOptions.SetRequestedModalities` | sdk/communication/azure-communication-callingserver/src/main/java/com/azure/communication/callingserver/models/JoinCallOptions.java:91-94 | stores a freshly allocated copy of the given array, or an empty array for null; returns the same object; no other field changes |
| `CallingServerModels.JoinCallOptions.GetRequestedCallEvents` | sdk/communication/azure-communication-callingserver/src/main/java/com/azure/communication/callingserver/models/JoinCallOptions.java:102-104 | returns a freshly allocated array with the stored call events, or an empty one when never set |
| `CallingServerModels.JoinCallOptions.SetRequestedCallEvents` | sdk/communication/azure-communication-callingserver/src/main/java/com/azure/communication/callingserver/models/JoinCallOptions.java:113-116 | stores a freshly allocated copy, or an empty array for null; returns the same object; no other field changes |
| `CallingServerModels.CallerArrayNotShared` | sdk/communication/azure-communication-callingserver/src/main/java/com/azure/communication/callingserver/models/JoinCallOptions.java:91-94 | after a set, overwriting the caller's array does not change what the getter returns |
| `CallingServerModels.ReturnedArrayNotShared` | sdk/communication/azure-communication-callingserver/src/main/java/com/azure/communication/callingserver/models/JoinCallOptions.java:102-104 | overwriting an array the getter returned does not change what the next get returns |
| `CallingServerModels.NullArraysReadAsEmpty` | sdk/communication/azure-communication-callingserver/src/main/java/com/azure/communication/callingserver/models/JoinCallOptions.java:81-94 | a never-set array property reads as empty, and so does one set to null |
| `CallingServerModels.SettersAreIndependent` | sdk/communication/azure-communication-callingserver/src/main/java/com/azure/communication/callingserver/models/JoinCallOptions.java:41-74 | a get after a set returns the value just set, null included; setting the strings leaves both arrays and their contents alone |

## Left out

- The bulk execution machinery that consumes these operations is not part of this model.
  That covers grouping by partition, concurrent dispatch, retry, splitting and result
  reordering.
- The factories' Java type parameters (the item type `T` and the context type `TContext`) are
  left out. They are the fixed opaque types `Item` and `Context`, since the factories never
  inspect those values.
- `ItemBulkOperation` and `CosmosPatchOperations` are not part of this model. They appear as
  a datatype of the constructor's arguments and as an opaque value.
- `BulkItemRequestOptions.toRequestOptions` and `BulkPatchItemRequestOptions.toRequestOptions`
  are not part of this model. Each is an injective wrapper that records which options object
  it came from.
- The option values themselves (etag conditions, content-response toggle) are not part of
  this model. An options object is a tag, and 0 stands for a freshly constructed one.
- Java object identity is left out: datatypes compare by value. For example, a caller's
  `new RetryPolicy()` is indistinguishable from the default the pipeline falls back to.
- `CommunicationConnectionString` parsing is left out. The parser is a function parameter.
  When it rejects the string, the build fails with `MalformedConnectionString` and the
  builder is untouched, since parsing happens before any field is written. The parsed
  endpoint and key are taken to be non-null.
- The `AzureKeyCredential` constructor's own check of the access key is not part of this
  model. Every parsed key, the empty string included, is accepted. In the source a rejected
  key would fail only after the parsed endpoint had been written, because the call target
  `this.endpoint(endpoint)` is evaluated before the credential is constructed. The model does
  not capture that partial update.
- Logging of exceptions through `ClientLogger` is left out. Nothing is logged.
- The policy classes, `HttpPipelineBuilder` and the generated service-client builder are
  left out. The model keeps only their constructor arguments: a pipeline is its policy list
  and HTTP client, and the service client is its endpoint and pipeline.
- `CoreUtils.getProperties` is a constructor parameter.
- Exceptions thrown inside those foreign constructors are not modelled.
- `CallingServerBuilder.BuiltPipelinePolicyOrder`: states only the kind of the
  authentication and user-agent entries. Their contents are stated by `PipelinePolicyOrder`
  and `BuiltPipelineAuthentication`.
- `CallModality` and `EventSubscriptionType` are not part of this model. They are treated as
  expandable string enumerations (a name), and no particular values are assumed.
- Array setters and getters in `JoinCallOptions` are specified by freshness and contents;
  Java's reference aliasing beyond "the stored array is never one a caller holds" is not
  modelled further.
