/**
 * The HTTP configuration client: it refuses a type that is not in its registry
 * before any request, fetches `{ConfigServer}/{ClientId}/{type name}`, turns a
 * non-success status into a communication error without reading the body, and
 * otherwise hands the body to the JSON deserialiser.
 */
module Client {
  import opened Wrappers
  import opened ClrTypes

  /** One entry of the client's ConfigurationRegistry. */
  datatype ConfigurationRegistration = ConfigurationRegistration(ConfigType: ClrType)

  /** ConfigServerClientOptions: the server's base address and this client's id. */
  datatype ConfigServerClientOptions = ConfigServerClientOptions(ConfigServer: string, ClientId: string)

  /** InvalidConfigurationException and ConfigServerCommunicationException. */
  datatype ClientError =
    | InvalidConfiguration(configType: ClrType)
    | ConfigServerCommunication(uri: string, statusCode: int)

  /** What the server answers to a GET of one URI: a status code and a body. */
  datatype HttpReply = HttpReply(StatusCode: int, Body: string)

  /** HttpResponseMessage.IsSuccessStatusCode: a status in 200..299. */
  predicate IsSuccessStatus(statusCode: int)
  {
    200 <= statusCode <= 299
  }

  /** collection.Any(reg => reg.ConfigType == type) */
  function AnyRegistered(collection: seq<ConfigurationRegistration>, configType: ClrType): (found: bool)
    ensures found <==> exists i :: 0 <= i < |collection| && collection[i].ConfigType == configType
  {
    if collection == [] then false
    else if collection[0].ConfigType == configType then true
    else
      var found := AnyRegistered(collection[1..], configType);
      assert found ==> exists i :: 0 <= i < |collection| && collection[i].ConfigType == configType by {
        if found {
          var i :| 0 <= i < |collection[1..]| && collection[1..][i].ConfigType == configType;
          assert collection[i + 1].ConfigType == configType;
        }
      }
      found
  }

  /** ThrowIfConfigNotRegistered: passes exactly when some registration is for the type. */
  function ThrowIfConfigNotRegistered(collection: seq<ConfigurationRegistration>, configType: ClrType)
    : (r: Outcome<ClientError>)
    ensures r.Pass? <==> exists i :: 0 <= i < |collection| && collection[i].ConfigType == configType
    ensures r.Fail? ==> r.error == InvalidConfiguration(configType)
  {
    if AnyRegistered(collection, configType) then Pass else Fail(InvalidConfiguration(configType))
  }

  /** GetUri: the base address, the client id and the configuration name, separated by '/'. */
  function GetUri(options: ConfigServerClientOptions, configName: string): (uri: string)
    ensures |uri| == |options.ConfigServer| + 1 + |options.ClientId| + 1 + |configName|
    ensures uri[..|options.ConfigServer|] == options.ConfigServer
    ensures uri[|options.ConfigServer|] == '/'
    ensures uri[|options.ConfigServer| + 1..|options.ConfigServer| + 1 + |options.ClientId|] == options.ClientId
    ensures uri[|uri| - |configName| - 1] == '/'
    ensures uri[|uri| - |configName|..] == configName
  {
    options.ConfigServer + "/" + options.ClientId + "/" + configName
  }

  /** The last path segment of a URI: what follows its last '/'. */
  function LastSegment(uri: string): (segment: string)
    ensures '/' !in segment
    ensures |segment| <= |uri|
  {
    if uri == [] || uri[|uri| - 1] == '/' then []
    else LastSegment(uri[..|uri| - 1]) + [uri[|uri| - 1]]
  }

  /** Whatever ends with a slash, the segment appended after it is recovered intact. */
  lemma {:induction false} LastSegmentAfterSlash(head: string, segment: string)
    requires head != [] && head[|head| - 1] == '/'
    requires '/' !in segment
    ensures LastSegment(head + segment) == segment
  {
    if segment == [] {
      assert head + segment == head;
    } else {
      var n := |segment| - 1;
      var s := head + segment;
      assert s[..|s| - 1] == head + segment[..n];
      assert s[|s| - 1] == segment[n];
      LastSegmentAfterSlash(head, segment[..n]);
      assert segment[..n] + [segment[n]] == segment;
    }
  }

  /** The server reads the requested configuration name back as the URI's last segment. */
  lemma {:induction false} GetUriNamesResource(options: ConfigServerClientOptions, configName: string)
    requires '/' !in configName
    ensures LastSegment(GetUri(options, configName)) == configName
  {
    LastSegmentAfterSlash(options.ConfigServer + "/" + options.ClientId + "/", configName);
  }

  /** Distinct configuration names are requested at distinct URIs. */
  lemma GetUriInjective(options: ConfigServerClientOptions, a: string, b: string)
    requires GetUri(options, a) == GetUri(options, b)
    ensures a == b
  {
  }

  /**
   * What BuildConfigAsync(type) yields, given the server's replies and the
   * deserialiser: the registry gate, then the fetch, then the status check.
   */
  function Resolve<Config>(collection: seq<ConfigurationRegistration>, options: ConfigServerClientOptions,
                           server: string -> HttpReply, deserialize: (string, ClrType) -> Config,
                           configType: ClrType): (r: Result<Config, ClientError>)
    ensures r.Failure? && r.error.InvalidConfiguration?
            <==> !exists i :: 0 <= i < |collection| && collection[i].ConfigType == configType
    ensures r.Failure? && r.error.InvalidConfiguration? ==> r.error.configType == configType
    ensures r.Failure? && r.error.ConfigServerCommunication? ==>
              var uri := GetUri(options, configType.Name);
              r.error.uri == uri && r.error.statusCode == server(uri).StatusCode
              && !IsSuccessStatus(server(uri).StatusCode)
    ensures r.Success? ==>
              var reply := server(GetUri(options, configType.Name));
              AnyRegistered(collection, configType) && IsSuccessStatus(reply.StatusCode)
              && r.value == deserialize(reply.Body, configType)
    ensures var reply := server(GetUri(options, configType.Name));
            AnyRegistered(collection, configType) && IsSuccessStatus(reply.StatusCode) ==>
              r == Success(deserialize(reply.Body, configType))
  {
    match ThrowIfConfigNotRegistered(collection, configType)
    case Fail(e) => Failure(e)
    case Pass =>
      var uri := GetUri(options, configType.Name);
      var reply := server(uri);
      if !IsSuccessStatus(reply.StatusCode) then Failure(ConfigServerCommunication(uri, reply.StatusCode))
      else Success(deserialize(reply.Body, configType))
  }

  /** A registered type whose fetch fails is reported with the URI and the status, never as unregistered. */
  lemma FailedFetchIsCommunicationError<Config>(
    collection: seq<ConfigurationRegistration>, options: ConfigServerClientOptions,
    server: string -> HttpReply, deserialize: (string, ClrType) -> Config, configType: ClrType)
    requires AnyRegistered(collection, configType)
    requires !IsSuccessStatus(server(GetUri(options, configType.Name)).StatusCode)
    ensures var uri := GetUri(options, configType.Name);
            Resolve(collection, options, server, deserialize, configType)
            == Failure(ConfigServerCommunication(uri, server(uri).StatusCode))
  {
  }

  /** A response whose body is read at most on demand. */
  class HttpResponseMessage {
    const StatusCode: int
    const body: string
    ghost var contentRead: bool

    constructor (statusCode: int, body: string)
      ensures StatusCode == statusCode && this.body == body && !contentRead
    {
      StatusCode := statusCode;
      this.body := body;
      contentRead := false;
    }

    predicate IsSuccessStatusCode()
    {
      IsSuccessStatus(StatusCode)
    }

    /** response.Content.ReadAsStringAsync() */
    method ReadAsStringAsync() returns (content: string)
      modifies this
      ensures content == body && contentRead
    {
      content := body;
      contentRead := true;
    }
  }

  /** IHttpClientWrapper: issues GETs, logged in order, and answers as the server does. */
  class HttpClientWrapper {
    /** The server's reply to a GET of each URI: an input to the model. */
    const server: string -> HttpReply
    /** Every URI requested so far, in order. */
    ghost var requests: seq<string>

    constructor (server: string -> HttpReply)
      ensures this.server == server && requests == []
    {
      this.server := server;
      requests := [];
    }

    /** GetAsync(uri) */
    method GetAsync(uri: string) returns (response: HttpResponseMessage)
      modifies this
      ensures requests == old(requests) + [uri]
      ensures fresh(response) && !response.contentRead
      ensures response.StatusCode == server(uri).StatusCode && response.body == server(uri).Body
    {
      requests := requests + [uri];
      response := new HttpResponseMessage(server(uri).StatusCode, server(uri).Body);
    }
  }

  class ConfigServerClient<Config> {
    const client: HttpClientWrapper
    const collection: seq<ConfigurationRegistration>
    const options: ConfigServerClientOptions
    /** JsonConvert.DeserializeObject with camel-case property names: an input to the model. */
    const deserialize: (string, ClrType) -> Config

    constructor (client: HttpClientWrapper, collection: seq<ConfigurationRegistration>,
                 options: ConfigServerClientOptions, deserialize: (string, ClrType) -> Config)
      ensures this.client == client && this.collection == collection
      ensures this.options == options && this.deserialize == deserialize
    {
      this.client := client;
      this.collection := collection;
      this.options := options;
      this.deserialize := deserialize;
    }

    /** GetConfig(configName): one GET; the body is read only on a success status. */
    method GetConfig(configName: string) returns (r: Result<string, ClientError>, ghost response: HttpResponseMessage)
      modifies client
      ensures client.requests == old(client.requests) + [GetUri(options, configName)]
      ensures fresh(response)
      ensures response.StatusCode == client.server(GetUri(options, configName)).StatusCode
      ensures !response.IsSuccessStatusCode() ==>
                r == Failure(ConfigServerCommunication(GetUri(options, configName), response.StatusCode))
                && !response.contentRead
      ensures response.IsSuccessStatusCode() ==>
                r == Success(client.server(GetUri(options, configName)).Body)
    {
      var uri := GetUri(options, configName);
      var httpResponse := client.GetAsync(uri);
      response := httpResponse;
      if !httpResponse.IsSuccessStatusCode() {
        return Failure(ConfigServerCommunication(uri, httpResponse.StatusCode)), response;
      }
      var content := httpResponse.ReadAsStringAsync();
      r := Success(content);
    }

    /**
     * BuildConfigAsync(type): an unregistered type fails before any request is
     * issued; otherwise exactly one GET, for the type's simple name.
     */
    method BuildConfigAsync(configType: ClrType) returns (r: Result<Config, ClientError>, ghost response: HttpResponseMessage?)
      modifies client
      ensures r == Resolve(collection, options, client.server, deserialize, configType)
      ensures !AnyRegistered(collection, configType) ==>
                client.requests == old(client.requests) && response == null
      ensures AnyRegistered(collection, configType) ==>
                client.requests == old(client.requests) + [GetUri(options, configType.Name)]
                && response != null && fresh(response)
                && (r.Failure? ==> !response.contentRead)
    {
      var registered := ThrowIfConfigNotRegistered(collection, configType);
      if registered.Fail? {
        return Failure(registered.error), null;
      }
      var result;
      result, response := GetConfig(configType.Name);
      if result.Failure? {
        return Failure(result.error), response;
      }
      r := Success(deserialize(result.value, configType));
    }
  }
}
