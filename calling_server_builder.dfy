/**
 * CallClientBuilder: a fluent builder whose setters record configuration and
 * whose build step checks that the connection string, endpoint, key credential
 * and token credential are not combined, applies a connection string to the
 * endpoint and key credential, and assembles the HTTP pipeline.
 *
 * The foreign collaborators (credentials, HTTP client, configuration, policy
 * classes, the connection-string parser, the SDK properties file) are values or
 * parameters; only the decisions and the ordering are modelled.
 */
module CallingServerBuilder {
  import opened JavaLang

  // ------------------------------------------------------------ collaborators

  datatype AzureKeyCredential = AzureKeyCredential(key: string)
  datatype TokenCredential = TokenCredential(tag: nat)
  datatype HttpClient = HttpClient(tag: nat)
  datatype Configuration = Configuration(tag: nat)

  /** `settings` stands for the remaining fields; 0 is a freshly constructed object. */
  datatype HttpLogOptions = HttpLogOptions(applicationId: Nullable<string>, settings: nat)
  datatype ClientOptions = ClientOptions(applicationId: Nullable<string>, settings: nat)
  datatype RetryPolicy = RetryPolicy(settings: nat)

  const NewHttpLogOptions := HttpLogOptions(Null, 0)
  const NewClientOptions := ClientOptions(Null, 0)
  const NewRetryPolicy := RetryPolicy(0)

  datatype HttpPipelinePolicy =
    | BearerTokenAuthenticationPolicy(credential: TokenCredential, scope: string)
    | HmacAuthenticationPolicy(keyCredential: AzureKeyCredential)
    | UserAgentPolicy(applicationId: Nullable<string>, sdkName: string, sdkVersion: string,
                      configuration: Nullable<Configuration>)
    | RetryStage(retryPolicy: RetryPolicy)
    | CookiePolicy
    | HttpLoggingPolicy(logOptions: HttpLogOptions)
    | CustomPolicy(tag: nat)

  datatype HttpPipeline = HttpPipeline(policies: seq<HttpPipelinePolicy>, httpClient: HttpClient)

  /** What the generated service client is built from: an endpoint and a pipeline. */
  datatype ServiceImpl = ServiceImpl(endpoint: string, pipeline: HttpPipeline)
  datatype CallAsyncClient = CallAsyncClient(serviceImpl: ServiceImpl)
  datatype CallClient = CallClient(asyncClient: CallAsyncClient)

  /** What CommunicationConnectionString extracts from a connection string. */
  datatype ConnectionStringParts = ConnectionStringParts(endpoint: string, accessKey: string)

  /** A connection-string parser: Null when the parser rejects the string. */
  type ConnectionStringParser = string -> Nullable<ConnectionStringParts>

  /** The exceptions the builder throws. */
  datatype BuilderError =
    | NullPointer(exception: NullPointerException)
    | IllegalArgumentException(reason: string)
    | MalformedConnectionString

  const ConnectionStringAndEndpoint :=
    IllegalArgumentException("Both 'connectionString' and 'endpoint' are set. Just one may be used.")
  const ConnectionStringAndKeyCredential :=
    IllegalArgumentException("Both 'connectionString' and 'keyCredential' are set. Just one may be used.")
  const ConnectionStringAndTokenCredential :=
    IllegalArgumentException("Both 'connectionString' and 'tokenCredential' are set. Just one may be used.")
  const TokenAndKeyCredential :=
    IllegalArgumentException("Both 'tokenCredential' and 'keyCredential' are set. Just one may be used.")
  const MissingCredential :=
    IllegalArgumentException("Missing credential information while building a client.")
  /** `Objects.requireNonNull(endpoint)` carries no message. */
  const EndpointMissing := NullPointer(NullPointerException(Null))
  /** The source reports a missing HTTP client with this (endpoint) message. */
  const HttpClientMissing := NullPointer(NullPointerException(NonNull("no endpoint provided")))

  const SdkNameKey := "name"
  const SdkVersionKey := "version"
  const TokenScope := "https://communication.azure.com//.default"

  // ------------------------------------------------------------ builder state

  datatype BuilderState = BuilderState(
    connectionString: Nullable<string>,
    endpoint: Nullable<string>,
    azureKeyCredential: Nullable<AzureKeyCredential>,
    tokenCredential: Nullable<TokenCredential>,
    httpClient: Nullable<HttpClient>,
    httpLogOptions: Nullable<HttpLogOptions>,
    pipeline: Nullable<HttpPipeline>,
    configuration: Nullable<Configuration>,
    properties: map<string, string>,
    customPolicies: seq<HttpPipelinePolicy>,
    clientOptions: Nullable<ClientOptions>,
    retryPolicy: Nullable<RetryPolicy>)

  /** A freshly constructed builder: only the log options and the properties are set. */
  function InitialState(properties: map<string, string>): BuilderState {
    BuilderState(Null, Null, Null, Null, Null, NonNull(NewHttpLogOptions), Null, Null,
                 properties, [], Null, Null)
  }

  /** A result together with the builder state it leaves behind. */
  datatype Step<T> = Step(result: Result<T, BuilderError>, state: BuilderState)

  // ------------------------------------------------------------ pure decisions

  /** Every mutual-exclusion rule the configuration breaks, in the order the build checks them. */
  function Conflicts(connectionStringSet: bool, endpointSet: bool, keySet: bool, tokenSet: bool): seq<BuilderError> {
    (if connectionStringSet && endpointSet then [ConnectionStringAndEndpoint] else [])
    + (if connectionStringSet && keySet then [ConnectionStringAndKeyCredential] else [])
    + (if connectionStringSet && tokenSet then [ConnectionStringAndTokenCredential] else [])
    + (if keySet && tokenSet then [TokenAndKeyCredential] else [])
  }

  /**
   * The exclusivity checks of the build step. There is no error exactly when a
   * connection string stands alone and the two credentials are not both set;
   * otherwise the error is the first broken rule in source order.
   */
  function ConflictError(connectionStringSet: bool, endpointSet: bool, keySet: bool, tokenSet: bool): (r: Nullable<BuilderError>)
    ensures r.Null? <==> (connectionStringSet ==> !endpointSet && !keySet && !tokenSet) && !(keySet && tokenSet)
    ensures r.Null? <==> Conflicts(connectionStringSet, endpointSet, keySet, tokenSet) == []
    ensures r.NonNull? ==> r.value == Conflicts(connectionStringSet, endpointSet, keySet, tokenSet)[0]
  {
    if connectionStringSet && endpointSet then NonNull(ConnectionStringAndEndpoint)
    else if connectionStringSet && keySet then NonNull(ConnectionStringAndKeyCredential)
    else if connectionStringSet && tokenSet then NonNull(ConnectionStringAndTokenCredential)
    else if keySet && tokenSet then NonNull(TokenAndKeyCredential)
    else Null
  }

  /** The authentication policy: bearer token first, then HMAC, otherwise an error. */
  function AuthPolicy(tokenCredential: Nullable<TokenCredential>, keyCredential: Nullable<AzureKeyCredential>): (r: Result<HttpPipelinePolicy, BuilderError>)
    ensures r.Err? <==> tokenCredential.Null? && keyCredential.Null?
    ensures r.Err? ==> r.error == MissingCredential
    ensures tokenCredential.NonNull? ==> r == Ok(BearerTokenAuthenticationPolicy(tokenCredential.value, TokenScope))
    ensures tokenCredential.Null? && keyCredential.NonNull? ==> r == Ok(HmacAuthenticationPolicy(keyCredential.value))
  {
    if tokenCredential.NonNull? then Ok(BearerTokenAuthenticationPolicy(tokenCredential.value, TokenScope))
    else if keyCredential.NonNull? then Ok(HmacAuthenticationPolicy(keyCredential.value))
    else Err(MissingCredential)
  }

  /**
   * The application id for the user-agent policy: the client options' id when it
   * is non-empty, else the log options' id when that is non-empty, else null.
   */
  function ApplicationId(clientOptions: ClientOptions, logOptions: HttpLogOptions): (r: Nullable<string>)
    ensures r.NonNull? ==> r.value != "" && (r == clientOptions.applicationId || r == logOptions.applicationId)
    ensures !IsNullOrEmpty(clientOptions.applicationId) ==> r == clientOptions.applicationId
    ensures IsNullOrEmpty(clientOptions.applicationId) && !IsNullOrEmpty(logOptions.applicationId) ==> r == logOptions.applicationId
    ensures r.Null? <==> IsNullOrEmpty(clientOptions.applicationId) && IsNullOrEmpty(logOptions.applicationId)
  {
    if !IsNullOrEmpty(clientOptions.applicationId) then clientOptions.applicationId
    else if !IsNullOrEmpty(logOptions.applicationId) then logOptions.applicationId
    else Null
  }

  /** The log options getHttpLogOptions() hands out (and stores when the field was null). */
  function EffectiveLogOptions(httpLogOptions: Nullable<HttpLogOptions>): HttpLogOptions {
    if httpLogOptions.Null? then NewHttpLogOptions else httpLogOptions.value
  }

  /** `properties.getOrDefault(key, fallback)` */
  function GetOrDefault(properties: map<string, string>, key: string, fallback: string): string {
    if key in properties then properties[key] else fallback
  }

  // ------------------------------------------------------------ specification of the build

  /** The pipeline createHttpPipeline assembles from a builder state, and the state it leaves. */
  function PipelineOutcome(s: BuilderState, httpClient: HttpClient): Step<HttpPipeline> {
    var buildClientOptions := if s.clientOptions.Null? then NewClientOptions else s.clientOptions.value;
    var buildLogOptions := if s.httpLogOptions.Null? then NewHttpLogOptions else s.httpLogOptions.value;
    var applicationId := ApplicationId(buildClientOptions, buildLogOptions);
    match AuthPolicy(s.tokenCredential, s.azureKeyCredential)
    case Err(e) => Step(Err(e), s)
    case Ok(auth) =>
      var userAgent := UserAgentPolicy(applicationId,
                                       GetOrDefault(s.properties, SdkNameKey, "UnknownName"),
                                       GetOrDefault(s.properties, SdkVersionKey, "UnknownVersion"),
                                       s.configuration);
      var retry := if s.retryPolicy.Null? then NewRetryPolicy else s.retryPolicy.value;
      var logOptions := EffectiveLogOptions(s.httpLogOptions);
      var policies := [auth, userAgent, RetryStage(retry), CookiePolicy] + s.customPolicies + [HttpLoggingPolicy(logOptions)];
      Step(Ok(HttpPipeline(policies, httpClient)), s.(httpLogOptions := NonNull(logOptions)))
  }

  /** The builder state after a connection string has been parsed into endpoint and key credential. */
  function ApplyConnectionString(s: BuilderState, parts: ConnectionStringParts): BuilderState {
    s.(endpoint := NonNull(parts.endpoint), azureKeyCredential := NonNull(AzureKeyCredential(parts.accessKey)))
  }

  /**
   * The builder state once the exclusivity checks have passed: a usable
   * connection string has overwritten the endpoint and the key credential.
   */
  function PreparedState(s: BuilderState, parse: ConnectionStringParser): BuilderState {
    if IsSetAndNotBlank(s.connectionString) && parse(s.connectionString.value).NonNull?
    then ApplyConnectionString(s, parse(s.connectionString.value).value)
    else s
  }

  /** What createServiceImpl returns or throws for a builder state, and the state it leaves. */
  function ServiceImplOutcome(s: BuilderState, parse: ConnectionStringParser): Step<ServiceImpl> {
    var connectionStringSet := IsSetAndNotBlank(s.connectionString);
    var endpointSet := IsSetAndNotBlank(s.endpoint);
    match ConflictError(connectionStringSet, endpointSet, s.azureKeyCredential.NonNull?, s.tokenCredential.NonNull?)
    case NonNull(e) => Step(Err(e), s)
    case Null =>
      if connectionStringSet && parse(s.connectionString.value).Null? then Step(Err(MalformedConnectionString), s)
      else BuildFromPrepared(PreparedState(s, parse))
  }

  /** The remainder of createServiceImpl: the endpoint and HTTP client checks and the pipeline choice. */
  function BuildFromPrepared(s1: BuilderState): Step<ServiceImpl> {
    if s1.endpoint.Null? then Step(Err(EndpointMissing), s1)
    else if s1.pipeline.Null? && s1.httpClient.Null? then Step(Err(HttpClientMissing), s1)
    else if s1.pipeline.NonNull? then Step(Ok(ServiceImpl(s1.endpoint.value, s1.pipeline.value)), s1)
    else
      var built := PipelineOutcome(s1, s1.httpClient.value);
      match built.result
      case Err(e) => Step(Err(e), built.state)
      case Ok(p) => Step(Ok(ServiceImpl(s1.endpoint.value, p)), built.state)
  }

  // ------------------------------------------------------------ the builder

  class CallClientBuilder {
    var connectionString: Nullable<string>
    var endpoint: Nullable<string>
    var azureKeyCredential: Nullable<AzureKeyCredential>
    var tokenCredential: Nullable<TokenCredential>
    var httpClient: Nullable<HttpClient>
    var httpLogOptions: Nullable<HttpLogOptions>
    var pipeline: Nullable<HttpPipeline>
    var configuration: Nullable<Configuration>
    /** The SDK properties file, read once when the builder is constructed. */
    const properties: map<string, string>
    var customPolicies: seq<HttpPipelinePolicy>
    var clientOptions: Nullable<ClientOptions>
    var retryPolicy: Nullable<RetryPolicy>

    function State(): BuilderState
      reads this
    {
      BuilderState(connectionString, endpoint, azureKeyCredential, tokenCredential, httpClient,
                   httpLogOptions, pipeline, configuration, properties, customPolicies,
                   clientOptions, retryPolicy)
    }

    constructor (properties: map<string, string>)
      ensures State() == InitialState(properties)
    {
      this.properties := properties;
      connectionString, endpoint, azureKeyCredential, tokenCredential := Null, Null, Null, Null;
      httpClient, httpLogOptions, pipeline, configuration := Null, NonNull(NewHttpLogOptions), Null, Null;
      customPolicies, clientOptions, retryPolicy := [], Null, Null;
    }

    // -------------------------------------------------------- setters

    method SetEndpoint(endpoint: Nullable<string>) returns (r: Result<CallClientBuilder, BuilderError>)
      modifies this`endpoint
      ensures endpoint.Null? ==> r == Err(NullPointer(NullPointerException(NonNull("'endpoint' cannot be null.")))) && this.endpoint == old(this.endpoint)
      ensures endpoint.NonNull? ==> r == Ok(this) && this.endpoint == endpoint
    {
      if endpoint.Null? {
        return Err(NullPointer(NullPointerException(NonNull("'endpoint' cannot be null."))));
      }
      this.endpoint := endpoint;
      return Ok(this);
    }

    method SetPipeline(pipeline: Nullable<HttpPipeline>) returns (r: Result<CallClientBuilder, BuilderError>)
      modifies this`pipeline
      ensures pipeline.Null? ==> r == Err(NullPointer(NullPointerException(NonNull("'pipeline' cannot be null.")))) && this.pipeline == old(this.pipeline)
      ensures pipeline.NonNull? ==> r == Ok(this) && this.pipeline == pipeline
    {
      if pipeline.Null? {
        return Err(NullPointer(NullPointerException(NonNull("'pipeline' cannot be null."))));
      }
      this.pipeline := pipeline;
      return Ok(this);
    }

    /** credential(TokenCredential) */
    method SetTokenCredential(tokenCredential: Nullable<TokenCredential>) returns (r: Result<CallClientBuilder, BuilderError>)
      modifies this`tokenCredential
      ensures tokenCredential.Null? ==> r == Err(NullPointer(NullPointerException(NonNull("'tokenCredential' cannot be null.")))) && this.tokenCredential == old(this.tokenCredential)
      ensures tokenCredential.NonNull? ==> r == Ok(this) && this.tokenCredential == tokenCredential
    {
      if tokenCredential.Null? {
        return Err(NullPointer(NullPointerException(NonNull("'tokenCredential' cannot be null."))));
      }
      this.tokenCredential := tokenCredential;
      return Ok(this);
    }

    /** credential(AzureKeyCredential) */
    method SetKeyCredential(keyCredential: Nullable<AzureKeyCredential>) returns (r: Result<CallClientBuilder, BuilderError>)
      modifies this`azureKeyCredential
      ensures keyCredential.Null? ==> r == Err(NullPointer(NullPointerException(NonNull("'keyCredential' cannot be null.")))) && azureKeyCredential == old(azureKeyCredential)
      ensures keyCredential.NonNull? ==> r == Ok(this) && azureKeyCredential == keyCredential
    {
      if keyCredential.Null? {
        return Err(NullPointer(NullPointerException(NonNull("'keyCredential' cannot be null."))));
      }
      azureKeyCredential := keyCredential;
      return Ok(this);
    }

    /** A blank connection string is accepted here; the build step treats it as unset. */
    method SetConnectionString(connectionString: Nullable<string>) returns (r: Result<CallClientBuilder, BuilderError>)
      modifies this`connectionString
      ensures connectionString.Null? ==> r == Err(NullPointer(NullPointerException(NonNull("'connectionString' cannot be null.")))) && this.connectionString == old(this.connectionString)
      ensures connectionString.NonNull? ==> r == Ok(this) && this.connectionString == connectionString
    {
      if connectionString.Null? {
        return Err(NullPointer(NullPointerException(NonNull("'connectionString' cannot be null."))));
      }
      this.connectionString := connectionString;
      return Ok(this);
    }

    method SetRetryPolicy(retryPolicy: Nullable<RetryPolicy>) returns (r: Result<CallClientBuilder, BuilderError>)
      modifies this`retryPolicy
      ensures retryPolicy.Null? ==> r == Err(NullPointer(NullPointerException(NonNull("'retryPolicy' cannot be null.")))) && this.retryPolicy == old(this.retryPolicy)
      ensures retryPolicy.NonNull? ==> r == Ok(this) && this.retryPolicy == retryPolicy
    {
      if retryPolicy.Null? {
        return Err(NullPointer(NullPointerException(NonNull("'retryPolicy' cannot be null."))));
      }
      this.retryPolicy := retryPolicy;
      return Ok(this);
    }

    method SetConfiguration(configuration: Nullable<Configuration>) returns (r: Result<CallClientBuilder, BuilderError>)
      modifies this`configuration
      ensures configuration.Null? ==> r == Err(NullPointer(NullPointerException(NonNull("'configuration' cannot be null.")))) && this.configuration == old(this.configuration)
      ensures configuration.NonNull? ==> r == Ok(this) && this.configuration == configuration
    {
      if configuration.Null? {
        return Err(NullPointer(NullPointerException(NonNull("'configuration' cannot be null."))));
      }
      this.configuration := configuration;
      return Ok(this);
    }

    method SetHttpLogOptions(logOptions: Nullable<HttpLogOptions>) returns (r: Result<CallClientBuilder, BuilderError>)
      modifies this`httpLogOptions
      ensures logOptions.Null? ==> r == Err(NullPointer(NullPointerException(NonNull("'logOptions' cannot be null.")))) && httpLogOptions == old(httpLogOptions)
      ensures logOptions.NonNull? ==> r == Ok(this) && httpLogOptions == logOptions
    {
      if logOptions.Null? {
        return Err(NullPointer(NullPointerException(NonNull("'logOptions' cannot be null."))));
      }
      httpLogOptions := logOptions;
      return Ok(this);
    }

    /** serviceVersion(...) records nothing and returns the builder. */
    method SetServiceVersion(version: CallClientBuilder?) returns (r: CallClientBuilder)
      ensures r == this
    {
      return this;
    }

    method SetHttpClient(httpClient: Nullable<HttpClient>) returns (r: Result<CallClientBuilder, BuilderError>)
      modifies this`httpClient
      ensures httpClient.Null? ==> r == Err(NullPointer(NullPointerException(NonNull("'httpClient' cannot be null.")))) && this.httpClient == old(this.httpClient)
      ensures httpClient.NonNull? ==> r == Ok(this) && this.httpClient == httpClient
    {
      if httpClient.Null? {
        return Err(NullPointer(NullPointerException(NonNull("'httpClient' cannot be null."))));
      }
      this.httpClient := httpClient;
      return Ok(this);
    }

    /** addPolicy appends to the custom policies, in insertion order. */
    method AddPolicy(customPolicy: Nullable<HttpPipelinePolicy>) returns (r: Result<CallClientBuilder, BuilderError>)
      modifies this`customPolicies
      ensures customPolicy.Null? ==> r == Err(NullPointer(NullPointerException(NonNull("'customPolicy' cannot be null.")))) && customPolicies == old(customPolicies)
      ensures customPolicy.NonNull? ==> r == Ok(this) && customPolicies == old(customPolicies) + [customPolicy.value]
    {
      if customPolicy.Null? {
        return Err(NullPointer(NullPointerException(NonNull("'customPolicy' cannot be null."))));
      }
      customPolicies := customPolicies + [customPolicy.value];
      return Ok(this);
    }

    /** clientOptions is the one setter that accepts null. */
    method SetClientOptions(clientOptions: Nullable<ClientOptions>) returns (r: CallClientBuilder)
      modifies this`clientOptions
      ensures r == this && this.clientOptions == clientOptions
    {
      this.clientOptions := clientOptions;
      return this;
    }

    // -------------------------------------------------------- build

    method GetHttpLogOptions() returns (r: HttpLogOptions)
      modifies this`httpLogOptions
      ensures r == EffectiveLogOptions(old(httpLogOptions)) && httpLogOptions == NonNull(r)
      ensures old(httpLogOptions).NonNull? ==> httpLogOptions == old(httpLogOptions)
    {
      if httpLogOptions.Null? {
        httpLogOptions := NonNull(NewHttpLogOptions);
      }
      return httpLogOptions.value;
    }

    method CreateHttpPipelineAuthPolicy() returns (r: Result<HttpPipelinePolicy, BuilderError>)
      ensures r == AuthPolicy(tokenCredential, azureKeyCredential)
    {
      if tokenCredential.NonNull? {
        r := Ok(BearerTokenAuthenticationPolicy(tokenCredential.value, TokenScope));
      } else if azureKeyCredential.NonNull? {
        r := Ok(HmacAuthenticationPolicy(azureKeyCredential.value));
      } else {
        r := Err(MissingCredential);
      }
    }

    method CreateHttpPipeline(httpClient: HttpClient) returns (r: Result<HttpPipeline, BuilderError>)
      modifies this`httpLogOptions
      ensures Step(r, State()) == PipelineOutcome(old(State()), httpClient)
    {
      var buildClientOptions := if clientOptions.Null? then NewClientOptions else clientOptions.value;
      var buildLogOptions := if httpLogOptions.Null? then NewHttpLogOptions else httpLogOptions.value;
      var applicationId := ApplicationId(buildClientOptions, buildLogOptions);

      var policyList: seq<HttpPipelinePolicy> := [];
      var auth := CreateHttpPipelineAuthPolicy();
      if auth.Err? {
        return Err(auth.error);
      }
      policyList := policyList + [auth.value];
      var clientName := GetOrDefault(properties, SdkNameKey, "UnknownName");
      var clientVersion := GetOrDefault(properties, SdkVersionKey, "UnknownVersion");
      policyList := policyList + [UserAgentPolicy(applicationId, clientName, clientVersion, configuration)];
      policyList := policyList + [RetryStage(if retryPolicy.Null? then NewRetryPolicy else retryPolicy.value)];
      policyList := policyList + [CookiePolicy];
      if customPolicies != [] {
        policyList := policyList + customPolicies;
      }
      assert policyList == [auth.value, UserAgentPolicy(applicationId, clientName, clientVersion, configuration),
                            RetryStage(if retryPolicy.Null? then NewRetryPolicy else retryPolicy.value), CookiePolicy]
                           + customPolicies;
      var logOptions := GetHttpLogOptions();
      policyList := policyList + [HttpLoggingPolicy(logOptions)];
      return Ok(HttpPipeline(policyList, httpClient));
    }

    method CreateServiceImpl(parse: ConnectionStringParser) returns (r: Result<ServiceImpl, BuilderError>)
      modifies this`endpoint, this`azureKeyCredential, this`httpLogOptions
      ensures Step(r, State()) == ServiceImplOutcome(old(State()), parse)
    {
      ghost var s0 := State();
      var isConnectionStringSet := IsSetAndNotBlank(connectionString);
      var isEndpointSet := IsSetAndNotBlank(endpoint);
      var isAzureKeyCredentialSet := azureKeyCredential.NonNull?;
      var isTokenCredentialSet := tokenCredential.NonNull?;

      if isConnectionStringSet && isEndpointSet {
        return Err(ConnectionStringAndEndpoint);
      }
      if isConnectionStringSet && isAzureKeyCredentialSet {
        return Err(ConnectionStringAndKeyCredential);
      }
      if isConnectionStringSet && isTokenCredentialSet {
        return Err(ConnectionStringAndTokenCredential);
      }
      if isAzureKeyCredentialSet && isTokenCredentialSet {
        return Err(TokenAndKeyCredential);
      }

      if isConnectionStringSet {
        var parsed := parse(connectionString.value);
        if parsed.Null? {
          return Err(MalformedConnectionString);
        }
        ApplyConnectionStringParts(parsed.value);
      }
      assert State() == PreparedState(s0, parse);
      r := BuildPrepared();
    }

    /** `this.endpoint(endpoint).credential(new AzureKeyCredential(accessKey))` */
    method ApplyConnectionStringParts(parts: ConnectionStringParts)
      modifies this`endpoint, this`azureKeyCredential
      ensures State() == ApplyConnectionString(old(State()), parts)
    {
      var _ := SetEndpoint(NonNull(parts.endpoint));
      var _ := SetKeyCredential(NonNull(AzureKeyCredential(parts.accessKey)));
    }

    /** The remainder of createServiceImpl once the connection string has been applied. */
    method BuildPrepared() returns (r: Result<ServiceImpl, BuilderError>)
      modifies this`httpLogOptions
      ensures Step(r, State()) == BuildFromPrepared(old(State()))
    {
      if endpoint.Null? {
        return Err(EndpointMissing);
      }
      if pipeline.Null? && httpClient.Null? {
        return Err(HttpClientMissing);
      }

      var builderPipeline: HttpPipeline;
      if pipeline.NonNull? {
        builderPipeline := pipeline.value;
      } else {
        var built := CreateHttpPipeline(httpClient.value);
        if built.Err? {
          return Err(built.error);
        }
        builderPipeline := built.value;
      }
      return Ok(ServiceImpl(endpoint.value, builderPipeline));
    }

    method BuildAsyncClient(parse: ConnectionStringParser) returns (r: Result<CallAsyncClient, BuilderError>)
      modifies this`endpoint, this`azureKeyCredential, this`httpLogOptions
      ensures var expected := ServiceImplOutcome(old(State()), parse);
              && State() == expected.state
              && (expected.result.Ok? ==> r == Ok(CallAsyncClient(expected.result.value)))
              && (expected.result.Err? ==> r == Err(expected.result.error))
    {
      var impl := CreateServiceImpl(parse);
      if impl.Err? {
        return Err(impl.error);
      }
      return Ok(CallAsyncClient(impl.value));
    }

    method BuildClient(parse: ConnectionStringParser) returns (r: Result<CallClient, BuilderError>)
      modifies this`endpoint, this`azureKeyCredential, this`httpLogOptions
      ensures var expected := ServiceImplOutcome(old(State()), parse);
              && State() == expected.state
              && (expected.result.Ok? ==> r == Ok(CallClient(CallAsyncClient(expected.result.value))))
              && (expected.result.Err? ==> r == Err(expected.result.error))
    {
      var asyncClient := BuildAsyncClient(parse);
      if asyncClient.Err? {
        return Err(asyncClient.error);
      }
      return Ok(CallClient(asyncClient.value));
    }
  }

  // ------------------------------------------------------------ properties of the build

  /** A configuration conflict is reported before anything is touched: the builder is left as it was. */
  lemma ConflictLeavesBuilderUnchanged(s: BuilderState, parse: ConnectionStringParser)
    requires ConflictError(IsSetAndNotBlank(s.connectionString), IsSetAndNotBlank(s.endpoint),
                           s.azureKeyCredential.NonNull?, s.tokenCredential.NonNull?).NonNull?
    ensures ServiceImplOutcome(s, parse).state == s
    ensures ServiceImplOutcome(s, parse).result.Err?
    ensures ServiceImplOutcome(s, parse).result.error.IllegalArgumentException?
  {
  }

  /**
   * A connection string and an endpoint that are both present and not blank
   * are rejected, whatever else is configured.
   */
  lemma ConnectionStringWithEndpointRejected(s: BuilderState, parse: ConnectionStringParser)
    requires s.connectionString.NonNull? && !IsBlank(s.connectionString.value)
    requires s.endpoint.NonNull? && !IsBlank(s.endpoint.value)
    ensures ServiceImplOutcome(s, parse) == Step(Err(ConnectionStringAndEndpoint), s)
  {
  }

  /** A blank connection string counts as unset: the build proceeds as if none were given. */
  lemma BlankConnectionStringIgnored(s: BuilderState, parse: ConnectionStringParser)
    requires s.connectionString.NonNull? && IsBlank(s.connectionString.value)
    ensures ServiceImplOutcome(s, parse).result == ServiceImplOutcome(s.(connectionString := Null), parse).result
    ensures ServiceImplOutcome(s, parse).state
         == ServiceImplOutcome(s.(connectionString := Null), parse).state.(connectionString := s.connectionString)
  {
  }

  /** After the checks, the build changes no field other than the lazily created log options. */
  lemma BuildTouchesOnlyLogOptions(s1: BuilderState)
    ensures BuildFromPrepared(s1).state == s1.(httpLogOptions := BuildFromPrepared(s1).state.httpLogOptions)
  {
  }

  /**
   * With a usable connection string the build overwrites the endpoint and the
   * key credential from the parsed string, and changes nothing else apart from
   * the lazily created log options.
   */
  lemma ConnectionStringOverwritesEndpointAndKey(s: BuilderState, parse: ConnectionStringParser)
    requires IsSetAndNotBlank(s.connectionString)
    requires s.endpoint.Null? || IsBlank(s.endpoint.value)
    requires s.azureKeyCredential.Null? && s.tokenCredential.Null?
    requires parse(s.connectionString.value).NonNull?
    ensures var parts := parse(s.connectionString.value).value;
            var after := ServiceImplOutcome(s, parse).state;
            && after.endpoint == NonNull(parts.endpoint)
            && after.azureKeyCredential == NonNull(AzureKeyCredential(parts.accessKey))
            && after.(endpoint := s.endpoint, azureKeyCredential := s.azureKeyCredential,
                      httpLogOptions := s.httpLogOptions) == s
  {
    var s1 := PreparedState(s, parse);
    assert ServiceImplOutcome(s, parse) == BuildFromPrepared(s1);
    BuildTouchesOnlyLogOptions(s1);
  }

  /**
   * Because a connection string is applied by overwriting the endpoint and the
   * key credential, building a second time from the same builder is always
   * rejected as a configuration conflict, whether or not the first build
   * succeeded.
   */
  lemma SecondBuildWithConnectionStringRejected(s: BuilderState, parse: ConnectionStringParser)
    requires IsSetAndNotBlank(s.connectionString)
    requires s.endpoint.Null? || IsBlank(s.endpoint.value)
    requires s.azureKeyCredential.Null? && s.tokenCredential.Null?
    requires parse(s.connectionString.value).NonNull?
    ensures var again := ServiceImplOutcome(ServiceImplOutcome(s, parse).state, parse);
            && again.result.Err?
            && again.result.error in {ConnectionStringAndEndpoint, ConnectionStringAndKeyCredential}
  {
    var after := ServiceImplOutcome(s, parse).state;
    ConnectionStringOverwritesEndpointAndKey(s, parse);
    assert after.connectionString == s.connectionString;
  }

  /** A successful build leaves a configuration without conflicts, an endpoint, and a pipeline or HTTP client. */
  lemma SuccessfulBuildWasConsistent(s: BuilderState, parse: ConnectionStringParser)
    requires ServiceImplOutcome(s, parse).result.Ok?
    ensures ConflictError(IsSetAndNotBlank(s.connectionString), IsSetAndNotBlank(s.endpoint),
                          s.azureKeyCredential.NonNull?, s.tokenCredential.NonNull?).Null?
    ensures IsSetAndNotBlank(s.connectionString) || s.endpoint.NonNull?
    ensures s.pipeline.NonNull? || s.httpClient.NonNull?
    ensures !IsSetAndNotBlank(s.connectionString) ==> ServiceImplOutcome(s, parse).result.value.endpoint == s.endpoint.value
  {
  }

  /** A pipeline supplied through the builder is used as it is; no policies are added. */
  lemma SuppliedPipelineUsedUnchanged(s: BuilderState, parse: ConnectionStringParser)
    requires s.pipeline.NonNull?
    requires ServiceImplOutcome(s, parse).result.Ok?
    ensures ServiceImplOutcome(s, parse).result.value.pipeline == s.pipeline.value
  {
  }

  /**
   * The policy order of a pipeline the builder assembles: authentication, user
   * agent, retry (the default when none was set), cookies, the custom policies
   * in insertion order, and logging last.
   */
  lemma PipelinePolicyOrder(s: BuilderState, httpClient: HttpClient)
    requires PipelineOutcome(s, httpClient).result.Ok?
    ensures var p := PipelineOutcome(s, httpClient).result.value;
            var n := |s.customPolicies|;
            && p.httpClient == httpClient
            && |p.policies| == n + 5
            && p.policies[0] == AuthPolicy(s.tokenCredential, s.azureKeyCredential).value
            && p.policies[1] == UserAgentPolicy(
                 ApplicationId(if s.clientOptions.Null? then NewClientOptions else s.clientOptions.value,
                               if s.httpLogOptions.Null? then NewHttpLogOptions else s.httpLogOptions.value),
                 GetOrDefault(s.properties, SdkNameKey, "UnknownName"),
                 GetOrDefault(s.properties, SdkVersionKey, "UnknownVersion"),
                 s.configuration)
            && p.policies[2] == RetryStage(if s.retryPolicy.Null? then NewRetryPolicy else s.retryPolicy.value)
            && p.policies[3] == CookiePolicy
            && p.policies[4..4 + n] == s.customPolicies
            && p.policies[n + 4] == HttpLoggingPolicy(EffectiveLogOptions(s.httpLogOptions))
  {
    var p := PipelineOutcome(s, httpClient).result.value;
    var n := |s.customPolicies|;
    assert p.policies[4..4 + n] == s.customPolicies;
  }

  /** Without a supplied pipeline the build assembles one from the prepared state and the builder's HTTP client. */
  lemma BuiltPipelineFromPreparedState(s: BuilderState, parse: ConnectionStringParser)
    requires s.pipeline.Null?
    requires ServiceImplOutcome(s, parse).result.Ok?
    ensures var s1 := PreparedState(s, parse);
            && s1.httpClient.NonNull?
            && PipelineOutcome(s1, s1.httpClient.value).result.Ok?
            && ServiceImplOutcome(s, parse).result.value.pipeline == PipelineOutcome(s1, s1.httpClient.value).result.value
            && s1.(endpoint := s.endpoint, azureKeyCredential := s.azureKeyCredential) == s
  {
  }

  /**
   * Without a supplied pipeline the built pipeline sends requests through the
   * builder's HTTP client, puts authentication first, the builder's retry
   * policy (or the default) third, its custom policies in insertion order after
   * the cookie policy, and logging last.
   */
  lemma BuiltPipelinePolicyOrder(s: BuilderState, parse: ConnectionStringParser)
    requires s.pipeline.Null?
    requires ServiceImplOutcome(s, parse).result.Ok?
    ensures var p := ServiceImplOutcome(s, parse).result.value.pipeline;
            var n := |s.customPolicies|;
            && s.httpClient.NonNull? && p.httpClient == s.httpClient.value
            && |p.policies| == n + 5
            && (p.policies[0].BearerTokenAuthenticationPolicy? || p.policies[0].HmacAuthenticationPolicy?)
            && p.policies[1].UserAgentPolicy?
            && p.policies[2] == RetryStage(if s.retryPolicy.Null? then NewRetryPolicy else s.retryPolicy.value)
            && p.policies[3] == CookiePolicy
            && p.policies[4..4 + n] == s.customPolicies
            && p.policies[n + 4] == HttpLoggingPolicy(EffectiveLogOptions(s.httpLogOptions))
  {
    BuiltPipelineFromPreparedState(s, parse);
    var s1 := PreparedState(s, parse);
    PipelinePolicyOrder(s1, s1.httpClient.value);
  }

  /**
   * The authentication policy of a built pipeline: a token credential yields
   * bearer-token authentication, otherwise the key credential (possibly taken
   * from the connection string) yields HMAC authentication.
   */
  lemma BuiltPipelineAuthentication(s: BuilderState, parse: ConnectionStringParser)
    requires s.pipeline.Null?
    requires ServiceImplOutcome(s, parse).result.Ok?
    ensures var p := ServiceImplOutcome(s, parse).result.value.pipeline;
            var state := ServiceImplOutcome(s, parse).state;
            && |p.policies| > 0
            && (s.tokenCredential.NonNull? ==> p.policies[0] == BearerTokenAuthenticationPolicy(s.tokenCredential.value, TokenScope))
            && (s.tokenCredential.Null? ==> state.azureKeyCredential.NonNull? && p.policies[0] == HmacAuthenticationPolicy(state.azureKeyCredential.value))
  {
  }

  /** Without any credential and without a supplied pipeline, the build fails for lack of a credential. */
  lemma MissingCredentialRejected(s: BuilderState, parse: ConnectionStringParser)
    requires !IsSetAndNotBlank(s.connectionString)
    requires s.tokenCredential.Null? && s.azureKeyCredential.Null?
    requires s.endpoint.NonNull? && s.pipeline.Null? && s.httpClient.NonNull?
    ensures ServiceImplOutcome(s, parse) == Step(Err(MissingCredential), s)
  {
  }
}
