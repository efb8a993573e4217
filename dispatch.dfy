/**
 * The request dispatcher (com/github/warriorzz/ktify/utils/RequestHelper.kt): its three
 * `makeRequest` overloads. The HTTP client's answer and the token endpoint's answer are inputs;
 * the dispatcher decides whether to refresh, what to send, and what to hand back.
 * The `ClientCredentials` it refreshes is the one of the credentials module.
 */
module Dispatch {
  import opened Wrappers
  import opened Kotlin
  import opened Json
  import opened Exceptions
  import opened Scopes
  import opened Credentials
  import opened Http

  const BaseUrl := "https://api.spotify.com/v1/"

  /** The two clients of `Ktify`: the default one decodes JSON bodies, the other hands back the raw response. */
  datatype Client = HttpClient | JsonLessHttpClient

  /** What the dispatcher put on the wire, and through which client. */
  datatype Sent = Sent(client: Client, request: Request)

  /** What a failed `require(...)` throws. */
  const RequirementFailure := IllegalArgument("Failed requirement.")

  /**
   * `require(clientCredentials.scopes?.contains(s) ?: false)`: fails closed, so a required
   * scope passes only when the granted scopes are known and contain it.
   */
  predicate ClosedGate(scopes: Option<seq<Scope>>, requiresScope: Option<Scope>) {
    requiresScope.None? || (scopes.Some? && requiresScope.value in scopes.value)
  }

  /**
   * `if (clientCredentials.scopes?.contains(s) == false) return null`: fails open, so only a
   * known list of granted scopes that lacks the scope blocks.
   */
  predicate OpenGate(scopes: Option<seq<Scope>>, requiresScope: Option<Scope>) {
    requiresScope.None? || scopes.None? || requiresScope.value in scopes.value
  }

  /** Whatever passes the closed gate passes the open one. */
  lemma ClosedGateImpliesOpenGate(scopes: Option<seq<Scope>>, requiresScope: Option<Scope>)
    ensures ClosedGate(scopes, requiresScope) ==> OpenGate(scopes, requiresScope)
  {
  }

  /** The two policies disagree exactly when a scope is required and the granted scopes are unknown. */
  lemma GatesDisagreeOnUnknownScopes(scopes: Option<seq<Scope>>, requiresScope: Option<Scope>)
    ensures ClosedGate(scopes, requiresScope) != OpenGate(scopes, requiresScope)
        <==> requiresScope.Some? && scopes.None?
  {
  }

  /** Without a required scope neither policy checks anything. */
  lemma NoRequiredScopeNoCheck(scopes: Option<seq<Scope>>)
    ensures ClosedGate(scopes, None) && OpenGate(scopes, None)
  {
  }

  /** A nullable string in a string template: `null` is written "null". */
  function Rendered(s: Option<string>): (r: string)
    ensures s.Some? ==> r == s.value
    ensures s.None? ==> r == "null"
  {
    if s.Some? then s.value else "null"
  }

  /** `"${tokenType} ${accessToken}"`: the value of the Authorization header. */
  function AuthorizationValue(tokenType: Option<string>, accessToken: Option<string>): string {
    Rendered(tokenType) + " " + Rendered(accessToken)
  }

  /** The header splits back into token type and access token when neither holds a space. */
  lemma AuthorizationValueSplits(tokenType: string, accessToken: string)
    requires ' ' !in tokenType && ' ' !in accessToken
    ensures Split(AuthorizationValue(Some(tokenType), Some(accessToken)), ' ') == [tokenType, accessToken]
  {
    assert Join([tokenType, accessToken], " ") == tokenType + " " + Join([accessToken], " ");
    SplitJoin([tokenType, accessToken], ' ');
  }

  /**
   * The request the typed overload sends, given the credential fields after its refresh: every
   * parameter and header entry in order, then the Authorization header when authentication is
   * required, and the body only when there is one.
   */
  function BuiltRequest(httpMethod: HttpMethod, url: string, parameters: Option<Entries>, headers: Option<Entries>,
                        body: Option<JsonObject>, requiresAuthentication: bool, session: Session): (r: Request)
    ensures r.httpMethod == httpMethod && r.url == url && r.body == body
    ensures r.parameters == parameters.GetOr([])
    ensures |r.headers| >= |headers.GetOr([])| && r.headers[..|headers.GetOr([])|] == headers.GetOr([])
    ensures requiresAuthentication <==> |r.headers| == |headers.GetOr([])| + 1
    ensures requiresAuthentication ==>
      r.headers[|r.headers| - 1] == ("Authorization", AuthorizationValue(session.tokenType, session.accessToken))
  {
    var auth := if requiresAuthentication
      then [("Authorization", AuthorizationValue(session.tokenType, session.accessToken))] else [];
    Request(httpMethod, url, parameters.GetOr([]), headers.GetOr([]) + auth, body)
  }

  /**
   * When the token had expired and the token endpoint answered, the Authorization header carries
   * the new token type and access token, not the ones from before the call.
   */
  lemma HeaderCarriesRefreshedToken(id: string, secret: string, refreshToken: Option<string>, before: Session,
                                    now: int, t: TokenResponse, table: ScopeTable, httpMethod: HttpMethod,
                                    url: string, parameters: Option<Entries>, headers: Option<Entries>,
                                    body: Option<JsonObject>)
    requires NeedsRefresh(refreshToken, before.accessTokenExpiryStamp, now)
    requires ParseScopes(t.scope, table).Success?
    ensures var after := RefreshOf(id, secret, refreshToken, before, now, Success(t), table).after;
      BuiltRequest(httpMethod, url, parameters, headers, body, true, after).headers
        == headers.GetOr([]) + [("Authorization", t.tokenType + " " + t.accessToken)]
  {
  }

  /**
   * The body of a typed answer read as a `JsonObject`, and what the marker overload does with it:
   * `decode` is `Json.decodeFromJsonElement(deserializationStrategy, _)` with the strict default
   * `Json`, which throws when the object does not fit `T`.
   */
  function MarkerResult<T>(reply: Result<Json, Failure>, neededElement: string,
                           decode: JsonObject -> Result<T, Failure>): (r: Result<Option<T>, Failure>)
    ensures reply.Failure? ==> r == Failure(reply.error)
    ensures reply.Success? && !reply.value.JObj? ==> r == Failure(Serialization)
    ensures reply.Success? && reply.value.JObj? && neededElement !in reply.value.fields ==> r == Success(None)
    ensures reply.Success? && reply.value.JObj? && neededElement in reply.value.fields ==>
      && (r.Success? <==> decode(reply.value.fields).Success?)
      && (r.Success? ==> r.value == Some(decode(reply.value.fields).value))
      && (r.Failure? ==> r.error == decode(reply.value.fields).error)
  {
    match reply
    case Failure(e) => Failure(e)
    case Success(j) =>
      match AsObject(j)
      case None => Failure(Serialization)
      case Some(o) =>
        if neededElement in o then
          match decode(o)
          case Failure(e) => Failure(e)
          case Success(value) => Success(Some(value))
        else Success(None)
  }

  /** The builder block up to `refresh()`: URL, every parameter and header entry, and the body if any. */
  method StartBlock(url: string, parameters: Option<Entries>, headers: Option<Entries>, body: Option<JsonObject>)
    returns (builder: RequestBuilder)
    ensures fresh(builder)
    ensures builder.Build() == Request(Get, url, parameters.GetOr([]), headers.GetOr([]), body)
  {
    builder := new RequestBuilder();
    builder.SetUrl(url);
    if parameters.Some? {
      builder.AddParameters(parameters.value);
    }
    if headers.Some? {
      builder.AddHeaders(headers.value);
    }
    if body.Some? {
      builder.SetBody(body.value);
    }
  }

  /** The builder block after `refresh()`: the Authorization header from the refreshed fields, then the method. */
  method FinishBlock(builder: RequestBuilder, httpMethod: HttpMethod, requiresAuthentication: bool, session: Session)
    modifies builder
    ensures builder.Build() == BuiltRequest(httpMethod, old(builder.url), Some(old(builder.parameters)),
                                            Some(old(builder.headers)), old(builder.body), requiresAuthentication, session)
  {
    if requiresAuthentication {
      builder.Header("Authorization", AuthorizationValue(session.tokenType, session.accessToken));
    }
    builder.SetMethod(httpMethod);
  }

  class RequestHelper {
    const clientCredentials: ClientCredentials
    const baseUrl: string

    constructor (clientCredentials: ClientCredentials)
      ensures this.clientCredentials == clientCredentials && baseUrl == BaseUrl
    {
      this.clientCredentials := clientCredentials;
      baseUrl := BaseUrl;
    }

    /**
     * The typed overload. `reply` is what `client.request` returns for the sent request (or
     * throws); `now` and `tokenReply` feed the `refresh()` inside the builder block.
     */
    method MakeRequest<T>(httpMethod: HttpMethod, url: string, parameters: Option<Entries>, headers: Option<Entries>,
                          body: Option<JsonObject>, requiresAuthentication: bool, requiresScope: Option<Scope>,
                          client: Client, now: int, tokenReply: Result<TokenResponse, Failure>, table: ScopeTable,
                          reply: Result<T, Failure>)
      returns (tokenRequest: Option<TokenRequest>, sent: Option<Sent>, result: Result<T, Failure>)
      modifies clientCredentials
      ensures !ClosedGate(old(clientCredentials.scopes), requiresScope) ==>
        && tokenRequest.None? && sent.None? && result == Failure(RequirementFailure)
        && clientCredentials.State() == old(clientCredentials.State())
      ensures ClosedGate(old(clientCredentials.scopes), requiresScope) ==>
        var step := RefreshOf(clientCredentials.clientId, clientCredentials.clientSecret,
                              clientCredentials.refreshToken, old(clientCredentials.State()), now, tokenReply, table);
        && tokenRequest == step.sent
        && clientCredentials.State() == step.after
        && (step.outcome.Failure? ==> sent.None? && result == Failure(step.outcome.error))
        && (step.outcome.Success? ==>
              && sent == Some(Sent(client, BuiltRequest(httpMethod, url, parameters, headers, body,
                                                        requiresAuthentication, step.after)))
              && result == reply)
    {
      if requiresScope.Some? && !(clientCredentials.scopes.Some? && requiresScope.value in clientCredentials.scopes.value) {
        return None, None, Failure(RequirementFailure);
      }
      var builder := StartBlock(url, parameters, headers, body);
      var outcome;
      tokenRequest, outcome := clientCredentials.Refresh(now, tokenReply, table);
      if outcome.Failure? {
        return tokenRequest, None, Failure(outcome.error);
      }
      FinishBlock(builder, httpMethod, requiresAuthentication, clientCredentials.State());
      sent := Some(Sent(client, builder.Build()));
      result := reply;
    }

    /**
     * The marker overload: `None` is the `null` it returns, `decode` the deserialization strategy
     * applied when the marker key is present. The inner typed call passes no scope and uses the
     * default client.
     */
    method MakeRequestIfPresent<T>(httpMethod: HttpMethod, url: string, parameters: Option<Entries>,
                                   headers: Option<Entries>, body: Option<JsonObject>, requiresAuthentication: bool,
                                   requiresScope: Option<Scope>, neededElement: string, now: int,
                                   tokenReply: Result<TokenResponse, Failure>, table: ScopeTable, reply: Result<Json, Failure>,
                                   decode: JsonObject -> Result<T, Failure>)
      returns (tokenRequest: Option<TokenRequest>, sent: Option<Sent>, result: Result<Option<T>, Failure>)
      modifies clientCredentials
      ensures !OpenGate(old(clientCredentials.scopes), requiresScope) ==>
        && tokenRequest.None? && sent.None? && result == Success(None)
        && clientCredentials.State() == old(clientCredentials.State())
      ensures OpenGate(old(clientCredentials.scopes), requiresScope) ==>
        var step := RefreshOf(clientCredentials.clientId, clientCredentials.clientSecret,
                              clientCredentials.refreshToken, old(clientCredentials.State()), now, tokenReply, table);
        && tokenRequest == step.sent
        && clientCredentials.State() == step.after
        && (step.outcome.Failure? ==> sent.None? && result == Failure(step.outcome.error))
        && (step.outcome.Success? ==>
              && sent == Some(Sent(HttpClient, BuiltRequest(httpMethod, url, parameters, headers, body,
                                                            requiresAuthentication, step.after)))
              && result == MarkerResult(reply, neededElement, decode))
    {
      if requiresScope.Some? && clientCredentials.scopes.Some? && requiresScope.value !in clientCredentials.scopes.value {
        return None, None, Success(None);
      }
      var answer;
      tokenRequest, sent, answer := MakeRequest(httpMethod, url, parameters, headers, body, requiresAuthentication,
                                                None, HttpClient, now, tokenReply, table, reply);
      if sent.None? {
        return tokenRequest, sent, Failure(answer.error);
      }
      result := MarkerResult(answer, neededElement, decode);
    }

    /**
     * The status overload: always authenticated, through the client without JSON decoding, and
     * only the status of `reply` is handed back.
     */
    method MakeStatusRequest(httpMethod: HttpMethod, url: string, parameters: Option<Entries>,
                             headers: Option<Entries>, body: Option<JsonObject>, requiresScope: Option<Scope>,
                             now: int, tokenReply: Result<TokenResponse, Failure>, table: ScopeTable,
                             reply: Result<Response, Failure>)
      returns (tokenRequest: Option<TokenRequest>, sent: Option<Sent>, result: Result<HttpStatusCode, Failure>)
      modifies clientCredentials
      ensures !ClosedGate(old(clientCredentials.scopes), requiresScope) ==>
        && tokenRequest.None? && sent.None? && result == Failure(RequirementFailure)
        && clientCredentials.State() == old(clientCredentials.State())
      ensures ClosedGate(old(clientCredentials.scopes), requiresScope) ==>
        var step := RefreshOf(clientCredentials.clientId, clientCredentials.clientSecret,
                              clientCredentials.refreshToken, old(clientCredentials.State()), now, tokenReply, table);
        && tokenRequest == step.sent
        && clientCredentials.State() == step.after
        && (step.outcome.Failure? ==> sent.None? && result == Failure(step.outcome.error))
        && (step.outcome.Success? ==>
              && sent == Some(Sent(JsonLessHttpClient, BuiltRequest(httpMethod, url, parameters, headers, body,
                                                                    true, step.after)))
              && (reply.Success? ==> result == Success(reply.value.status))
              && (reply.Failure? ==> result == Failure(reply.error)))
    {
      if requiresScope.Some? && !(clientCredentials.scopes.Some? && requiresScope.value in clientCredentials.scopes.value) {
        return None, None, Failure(RequirementFailure);
      }
      var responseData;
      tokenRequest, sent, responseData := MakeRequest(httpMethod, url, parameters, headers, body, true,
                                                      requiresScope, JsonLessHttpClient, now, tokenReply, table, reply);
      if responseData.Failure? {
        return tokenRequest, sent, Failure(responseData.error);
      }
      result := Success(responseData.value.status);
    }
  }
}
