/**
 * The GenderAPI client: constructing a client, building the request of each
 * lookup, and classifying the HTTP outcome into a result or a failure.
 * The HTTP call and the JSON library are parameters (see Exchange and Json.Mapper).
 */
module GenderApiClient {
  import opened Wrappers
  import opened Json
  import opened Failures
  import opened GenderApiResult
  import opened Binding
  import JavaText
  import SR = GenderSuccessResponse
  import ER = GenderErrorResponse

  const DefaultBaseUrl := "https://api.genderapi.io"

  const ApiKeyRequired := "API key must not be null or empty."
  const NameRequired := "Name parameter is required."
  const EmailRequired := "Email parameter is required."
  const UsernameRequired := "Username parameter is required."

  const NameEndpoint := "/api"
  const EmailEndpoint := "/api/email"
  const UsernameEndpoint := "/api/username"

  const NameKey := "name"
  const EmailKey := "email"
  const UsernameKey := "username"
  const CountryKey := "country"
  const AskToAIKey := "askToAI"
  const ForceToGenderizeKey := "forceToGenderize"

  const AuthorizationHeader := "Authorization"
  const ContentTypeHeader := "Content-Type"
  const BearerPrefix := "Bearer "
  const JsonMediaType := "application/json"

  /** The response codes the client treats as a server error without looking at the body. */
  const ServerErrorCodes: set<int> := {500, 502, 503, 504, 408}

  /** Java's `s == null || s.isEmpty()`. */
  predicate NullOrEmpty(s: Option<string>) {
    s.None? || s.value == ""
  }

  /** A constructed client: its fields are final. */
  datatype Client = Client(apiKey: string, baseUrl: Option<string>)

  /** `new GenderApiClient(apiKey, baseUrl)`: only the key is checked. */
  function New(apiKey: Option<string>, baseUrl: Option<string>): (r: Result<Client, Failure>)
    ensures r.Fail? <==> NullOrEmpty(apiKey)
    ensures r.Fail? ==> r.failure == IllegalArgument(ApiKeyRequired)
    ensures r.Ok? ==> r.value.apiKey == apiKey.value && r.value.apiKey != "" && r.value.baseUrl == baseUrl
  {
    if NullOrEmpty(apiKey) then Fail(IllegalArgument(ApiKeyRequired)) else Ok(Client(apiKey.value, baseUrl))
  }

  /** `new GenderApiClient(apiKey)`: the production origin as base URL. */
  function NewWithDefaultUrl(apiKey: Option<string>): (r: Result<Client, Failure>)
    ensures r.Fail? <==> NullOrEmpty(apiKey)
    ensures r.Fail? ==> r.failure == IllegalArgument(ApiKeyRequired)
    ensures r.Ok? ==> r.value.apiKey == apiKey.value && r.value.baseUrl == Some("https://api.genderapi.io")
  {
    New(apiKey, Some(DefaultBaseUrl))
  }

  /** The keys `country` adds to a payload: present exactly when the caller passed a non-null country. */
  function CountryKeys(country: Option<string>): set<string> {
    if country.Some? then {CountryKey} else {}
  }

  function CountryEntry(country: Option<string>): map<string, Json> {
    if country.Some? then map[CountryKey := JString(country.value)] else map[]
  }

  /** The body of a lookup by name. */
  function NamePayload(name: string, country: Option<string>, askToAI: bool, forceToGenderize: bool): (p: map<string, Json>)
    ensures p.Keys == {NameKey, AskToAIKey, ForceToGenderizeKey} + CountryKeys(country)
    ensures p[NameKey] == JString(name)
    ensures p[AskToAIKey] == JBool(askToAI) && p[ForceToGenderizeKey] == JBool(forceToGenderize)
    ensures country.Some? ==> p[CountryKey] == JString(country.value)
  {
    map[NameKey := JString(name), AskToAIKey := JBool(askToAI), ForceToGenderizeKey := JBool(forceToGenderize)]
    + CountryEntry(country)
  }

  /** The body of a lookup by email: it never carries `forceToGenderize`. */
  function EmailPayload(email: string, country: Option<string>, askToAI: bool): (p: map<string, Json>)
    ensures p.Keys == {EmailKey, AskToAIKey} + CountryKeys(country)
    ensures ForceToGenderizeKey !in p
    ensures p[EmailKey] == JString(email) && p[AskToAIKey] == JBool(askToAI)
    ensures country.Some? ==> p[CountryKey] == JString(country.value)
  {
    map[EmailKey := JString(email), AskToAIKey := JBool(askToAI)] + CountryEntry(country)
  }

  /** The body of a lookup by username. */
  function UsernamePayload(username: string, country: Option<string>, askToAI: bool, forceToGenderize: bool): (p: map<string, Json>)
    ensures p.Keys == {UsernameKey, AskToAIKey, ForceToGenderizeKey} + CountryKeys(country)
    ensures p[UsernameKey] == JString(username)
    ensures p[AskToAIKey] == JBool(askToAI) && p[ForceToGenderizeKey] == JBool(forceToGenderize)
    ensures country.Some? ==> p[CountryKey] == JString(country.value)
  {
    map[UsernameKey := JString(username), AskToAIKey := JBool(askToAI), ForceToGenderizeKey := JBool(forceToGenderize)]
    + CountryEntry(country)
  }

  /** Fills a fresh object node one `put` at a time, as `getGenderByName` does. */
  method BuildNamePayload(name: string, country: Option<string>, askToAI: bool, forceToGenderize: bool)
    returns (payload: map<string, Json>)
    ensures payload == NamePayload(name, country, askToAI, forceToGenderize)
  {
    payload := map[];
    payload := payload[NameKey := JString(name)];
    if country.Some? {
      payload := payload[CountryKey := JString(country.value)];
    }
    payload := payload[AskToAIKey := JBool(askToAI)];
    payload := payload[ForceToGenderizeKey := JBool(forceToGenderize)];
  }

  method BuildEmailPayload(email: string, country: Option<string>, askToAI: bool)
    returns (payload: map<string, Json>)
    ensures payload == EmailPayload(email, country, askToAI)
  {
    payload := map[];
    payload := payload[EmailKey := JString(email)];
    if country.Some? {
      payload := payload[CountryKey := JString(country.value)];
    }
    payload := payload[AskToAIKey := JBool(askToAI)];
  }

  method BuildUsernamePayload(username: string, country: Option<string>, askToAI: bool, forceToGenderize: bool)
    returns (payload: map<string, Json>)
    ensures payload == UsernamePayload(username, country, askToAI, forceToGenderize)
  {
    payload := map[];
    payload := payload[UsernameKey := JString(username)];
    if country.Some? {
      payload := payload[CountryKey := JString(country.value)];
    }
    payload := payload[AskToAIKey := JBool(askToAI)];
    payload := payload[ForceToGenderizeKey := JBool(forceToGenderize)];
  }

  /** An HTTP POST: target URL, headers in the order they are added, and the JSON object sent as body. */
  datatype PostRequest = PostRequest(url: string, headers: seq<(string, string)>, body: map<string, Json>)

  /** The value of the first header with this name. */
  function HeaderValue(headers: seq<(string, string)>, name: string): Option<string> {
    if headers == [] then None
    else if headers[0].0 == name then Some(headers[0].1)
    else HeaderValue(headers[1..], name)
  }

  /** The request `sendPost` builds for an endpoint. */
  function Request(client: Client, endpoint: string, payload: map<string, Json>): (r: PostRequest)
    ensures r.url == JavaText.OrNull(client.baseUrl) + endpoint
    ensures |r.headers| == 2
    ensures HeaderValue(r.headers, AuthorizationHeader) == Some(BearerPrefix + client.apiKey)
    ensures HeaderValue(r.headers, ContentTypeHeader) == Some(JsonMediaType)
    ensures r.body == payload
  {
    var url := JavaText.OrNull(client.baseUrl) + endpoint;
    PostRequest(url, [(AuthorizationHeader, BearerPrefix + client.apiKey), (ContentTypeHeader, JsonMediaType)], payload)
  }

  /** What came back from executing a request: an IOException, or a response with a code and a body that may be absent. */
  datatype Exchange = IoFailure(message: Option<string>) | Response(code: int, body: Option<string>)

  /** The code test of `sendPost`, written as the source writes it. */
  predicate IsServerErrorCode(code: int) {
    code == 500 || code == 502 || code == 503 || code == 504 || code == 408
  }

  /** The text handed to the parser: the body, or "" when there is none. */
  function BodyText(body: Option<string>): string {
    if body.Some? then body.value else ""
  }

  /**
   * What `sendPost` makes of a body once it has been parsed into a tree:
   * no `status` is a failure, otherwise `status` chooses the record the tree is bound to.
   */
  function FromTree(node: Json, asBoolean: Json -> bool): (r: Result<GenderApiResult, Failure>)
    ensures r == Fail(MissingStatus) <==> !Has(node, StatusKey)
    ensures r.Ok? <==> && Has(node, StatusKey)
                       && if asBoolean(node.fields[StatusKey]) then SR.Bindable(node.fields) else ER.Bindable(node.fields)
    ensures r.Ok? ==> (r.value.Success? <==> asBoolean(node.fields[StatusKey]))
    ensures r.Ok? && r.value.Success? ==> SR.FromJson(node.fields, asBoolean) == Ok(r.value.success)
    ensures r.Ok? && r.value.Error? ==> ER.FromJson(node.fields, asBoolean) == Ok(r.value.error)
    ensures r.Fail? ==> r.failure == MissingStatus || r.failure.RequestFailed?
  {
    if !Has(node, StatusKey) then Fail(MissingStatus)
    else if asBoolean(node.fields[StatusKey]) then
      match SR.FromJson(node.fields, asBoolean)
      case Ok(s) => Ok(Success(s))
      case Fail(key) => Fail(RequestFailed(Unbindable(key)))
    else
      match ER.FromJson(node.fields, asBoolean)
      case Ok(e) => Ok(Error(e))
      case Fail(key) => Fail(RequestFailed(Unbindable(key)))
  }

  /** `sendPost` from the moment the request has been executed. */
  function Classify(exchange: Exchange, mapper: Mapper): (r: Result<GenderApiResult, Failure>)
    ensures r.Fail? && r.failure.ServerError? <==> exchange.Response? && exchange.code in ServerErrorCodes
    ensures r.Fail? && r.failure.ServerError? ==> r.failure.code == exchange.code
    ensures exchange.IoFailure? ==> r == Fail(RequestFailed(TransportFailed(exchange.message)))
    ensures exchange.Response? && exchange.code !in ServerErrorCodes ==>
              match mapper.readTree(BodyText(exchange.body))
              case Unreadable(m) => r == Fail(RequestFailed(MalformedJson(m)))
              case Parsed(node) => r == FromTree(node, mapper.asBoolean)
    ensures r.Fail? ==> !r.failure.IllegalArgument?
  {
    match exchange
    case IoFailure(m) => Fail(RequestFailed(TransportFailed(m)))
    case Response(code, body) =>
      var json := BodyText(body);
      if IsServerErrorCode(code) then Fail(ServerError(code))
      else match mapper.readTree(json)
        case Unreadable(m) => Fail(RequestFailed(MalformedJson(m)))
        case Parsed(node) => FromTree(node, mapper.asBoolean)
  }

  /** `sendPost(endpoint, payload)`: build the request, hand it to the transport, classify what comes back. */
  function SendPost(client: Client, endpoint: string, payload: map<string, Json>,
                    http: PostRequest -> Exchange, mapper: Mapper): (r: Result<GenderApiResult, Failure>)
    ensures r.Fail? ==> !r.failure.IllegalArgument?
    ensures r.Fail? && r.failure.ServerError? ==> r.failure.code in ServerErrorCodes
    ensures var exchange := http(Request(client, endpoint, payload));
            exchange.IoFailure? ==> r == Fail(RequestFailed(TransportFailed(exchange.message)))
    ensures var exchange := http(Request(client, endpoint, payload));
            exchange.Response? && exchange.code in ServerErrorCodes ==> r == Fail(ServerError(exchange.code))
  {
    Classify(http(Request(client, endpoint, payload)), mapper)
  }

  /** `getGenderByName`: an empty or null name fails whatever the transport would do, so nothing is sent. */
  method GetGenderByName(client: Client, name: Option<string>, country: Option<string>,
                         askToAI: bool, forceToGenderize: bool,
                         http: PostRequest -> Exchange, mapper: Mapper)
    returns (r: Result<GenderApiResult, Failure>)
    ensures NullOrEmpty(name) ==> r == Fail(IllegalArgument(NameRequired))
    ensures !NullOrEmpty(name) ==>
              r == SendPost(client, NameEndpoint, NamePayload(name.value, country, askToAI, forceToGenderize), http, mapper)
  {
    if NullOrEmpty(name) {
      return Fail(IllegalArgument(NameRequired));
    }
    var payload := BuildNamePayload(name.value, country, askToAI, forceToGenderize);
    r := SendPost(client, NameEndpoint, payload, http, mapper);
  }

  /** `getGenderByEmail`. */
  method GetGenderByEmail(client: Client, email: Option<string>, country: Option<string>, askToAI: bool,
                          http: PostRequest -> Exchange, mapper: Mapper)
    returns (r: Result<GenderApiResult, Failure>)
    ensures NullOrEmpty(email) ==> r == Fail(IllegalArgument(EmailRequired))
    ensures !NullOrEmpty(email) ==>
              r == SendPost(client, EmailEndpoint, EmailPayload(email.value, country, askToAI), http, mapper)
  {
    if NullOrEmpty(email) {
      return Fail(IllegalArgument(EmailRequired));
    }
    var payload := BuildEmailPayload(email.value, country, askToAI);
    r := SendPost(client, EmailEndpoint, payload, http, mapper);
  }

  /** `getGenderByUsername`. */
  method GetGenderByUsername(client: Client, username: Option<string>, country: Option<string>,
                             askToAI: bool, forceToGenderize: bool,
                             http: PostRequest -> Exchange, mapper: Mapper)
    returns (r: Result<GenderApiResult, Failure>)
    ensures NullOrEmpty(username) ==> r == Fail(IllegalArgument(UsernameRequired))
    ensures !NullOrEmpty(username) ==>
              r == SendPost(client, UsernameEndpoint, UsernamePayload(username.value, country, askToAI, forceToGenderize), http, mapper)
  {
    if NullOrEmpty(username) {
      return Fail(IllegalArgument(UsernameRequired));
    }
    var payload := BuildUsernamePayload(username.value, country, askToAI, forceToGenderize);
    r := SendPost(client, UsernameEndpoint, payload, http, mapper);
  }
}
