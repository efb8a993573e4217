/**
 * The entry point of the client (ee/bjarn/ktify/Ktify.kt): the response validator that turns
 * error responses into exceptions and stamps the rate limit, and the builder that produces the
 * authorization URL and the first credentials.
 */
module KtifyClient {
  import opened Wrappers
  import opened Kotlin
  import opened Json
  import opened Exceptions
  import opened Scopes
  import opened Credentials
  import opened Http

  // ---------------------------------------------------------------------------------------------
  // The response validator

  /** What ktor hands to `handleResponseExceptionWithRequest`. */
  datatype ResponseException = ClientRequestException(response: Response) | OtherException

  /** `headers["Retry-After"]?.toInt() ?: 0`: seconds; a missing header reads 0, text that is not an `Int` throws. */
  function RetryAfterSeconds(header: Option<string>): (r: Result<Int32, Failure>)
    ensures header.None? ==> r == Success(0)
    ensures header.Some? ==> (r.Success? <==> ParseInt(header.value).Some?)
    ensures r.Failure? ==> r.error == NumberFormat(header.value)
  {
    match header
    case None => Success(0)
    case Some(text) =>
      match ParseInt(text)
      case None => Failure(NumberFormat(text))
      case Some(seconds) => Success(seconds)
  }

  /** A Retry-After header holding a written `Int` reads back as that `Int`. */
  lemma RetryAfterOfLiteral(seconds: Int32)
    ensures RetryAfterSeconds(Some(IntLiteral(seconds))) == Success(seconds)
  {
    ParseIntLiteral(seconds);
  }

  /**
   * The stamp as written: `now + R * 1000` where `R * 1000` is an `Int` product, which wraps. The
   * delay always fits an `Int` and differs from the exact product by a multiple of 2^32.
   */
  function RateLimitStampAsWritten(now: int, seconds: Int32): (stamp: int)
    ensures InInt32Range(stamp - now)
    ensures (seconds * 1000 - (stamp - now)) % 0x1_0000_0000 == 0
  {
    now + Wrap32(seconds * 1000)
  }

  /**
   * The stamp as intended: `retryAfterMs` milliseconds after `now`, the product taken as a `Long`.
   * The delay is a whole number of seconds that reads back as the header's value.
   */
  function RateLimitStamp(now: int, seconds: Int32): (stamp: int)
    ensures seconds >= 0 ==> stamp >= now
    ensures (stamp - now) % 1000 == 0 && (stamp - now) / 1000 == seconds
  {
    now + seconds * 1000
  }

  /** Both agree for every Retry-After below 2147484 seconds (about 24.8 days)... */
  lemma RateLimitStampsAgreeBelowBound(now: int, seconds: Int32)
    requires -2147483 <= seconds <= 2147483
    ensures RateLimitStampAsWritten(now, seconds) == RateLimitStamp(now, seconds)
  {
  }

  /** ...but from there on the written stamp wraps into the past while `retryAfterMs` stays positive. */
  lemma RateLimitStampWraps(now: int)
    ensures RateLimitStampAsWritten(now, 2147484) == now - 2147483296
    ensures RateLimitStampAsWritten(now, 2147484) < now
    ensures RateLimitException(retryAfterMs := 2147484 * 1000).retryAfterMs == 2147484000
  {
    assert Wrap32(2147484000) == -2147483296 by {
      assert (2147484000 + 0x8000_0000) % 0x1_0000_0000 == 352;
    }
  }

  /**
   * The exception for a status of 400 or more other than 429, read from the body: a "message" key
   * is looked at first and an "error" key second, each decoded with the strict default `Json`.
   * `Success(None)` means that the validator throws nothing.
   */
  function ClassifyBody(body: Json): (r: Result<Option<KtifyException>, Failure>)
    ensures !body.JObj? ==> r == Failure(Serialization)
    ensures r.Failure? ==> r.error == Serialization
    ensures body.JObj? && "message" in body.fields ==>
      && (r.Success? <==> DecodeErrorObject(body.fields).Success?)
      && (r.Success? ==> r.value == Some(RequestException("Request failed!", DecodeErrorObject(body.fields).value)))
    ensures body.JObj? && "message" !in body.fields && "error" in body.fields ==>
      && (r.Success? <==> DecodeAuthenticationErrorObject(body.fields).Success?)
      && (r.Success? ==> r.value == Some(AuthenticationException("Authentication failed!",
                                                                 DecodeAuthenticationErrorObject(body.fields).value)))
    ensures body.JObj? && "message" !in body.fields && "error" !in body.fields ==> r == Success(None)
  {
    match AsObject(body)
    case None => Failure(Serialization)
    case Some(o) =>
      if "message" in o then
        match DecodeErrorObject(o)
        case Failure(e) => Failure(e)
        case Success(errorObject) => Success(Some(RequestException("Request failed!", errorObject)))
      else if "error" in o then
        match DecodeAuthenticationErrorObject(o)
        case Failure(e) => Failure(e)
        case Success(errorObject) => Success(Some(AuthenticationException("Authentication failed!", errorObject)))
      else Success(None)
  }

  /** A regular error body is classified as a failed request that carries it. */
  lemma RequestErrorClassified(e: ErrorObject)
    ensures ClassifyBody(JObj(EncodeErrorObject(e))) == Success(Some(RequestException("Request failed!", e)))
  {
    ErrorObjectRoundTrip(e);
  }

  /** An authentication error body is classified as a failed authentication that carries it. */
  lemma AuthenticationErrorClassified(e: AuthenticationErrorObject)
    ensures ClassifyBody(JObj(EncodeAuthenticationErrorObject(e)))
         == Success(Some(AuthenticationException("Authentication failed!", e)))
  {
    AuthenticationErrorObjectRoundTrip(e);
  }

  /** "message" wins, so a body with both keys is never an authentication failure; strict decoding then refuses "error". */
  lemma BothKeysFailToDecode(o: JsonObject)
    requires "message" in o && "error" in o
    ensures ClassifyBody(JObj(o)) == Failure(Serialization)
  {
  }

  /**
   * The Web API's regular error envelope `{"error": {"status": ..., "message": ...}}` has no
   * top-level "message", so it goes down the authentication branch and fails to decode there.
   */
  lemma NestedErrorEnvelopeFailsToDecode(e: ErrorObject)
    ensures ClassifyBody(JObj(map["error" := JObj(EncodeErrorObject(e))])) == Failure(Serialization)
  {
  }

  /** What the validator does: the new rate-limit stamp if it sets one, and what it throws if anything. */
  datatype Verdict = Verdict(stamp: Option<int>, thrown: Option<Failure>)

  /**
   * `handleResponseExceptionWithRequest` as a function of the exception and the clock, stamping with
   * the corrected `RateLimitStamp`. Only a readable 429 stamps, and then the stamp lies exactly the
   * `retryAfterMs` of the thrown `RateLimitException` after now; a 429 always throws.
   */
  function Validate(exception: ResponseException, now: int): (v: Verdict)
    ensures v.stamp.Some? <==>
      && exception.ClientRequestException? && exception.response.status == TooManyRequests
      && RetryAfterSeconds(exception.response.retryAfter).Success?
    ensures v.stamp.Some? ==>
      && v.thrown.Some? && v.thrown.value.Thrown? && v.thrown.value.exception.RateLimitException?
      && v.stamp.value - now == v.thrown.value.exception.retryAfterMs
    ensures exception.ClientRequestException? && exception.response.status == TooManyRequests ==> v.thrown.Some?
    ensures exception.OtherException? || exception.response.status.value < 400 ==> v == Verdict(None, None)
  {
    match exception
    case OtherException => Verdict(None, None)
    case ClientRequestException(response) =>
      if response.status.value < 400 then Verdict(None, None)
      else if response.status == TooManyRequests then
        match RetryAfterSeconds(response.retryAfter)
        case Failure(e) => Verdict(None, Some(e))
        case Success(seconds) =>
          Verdict(Some(RateLimitStamp(now, seconds)), Some(Thrown(RateLimitException(retryAfterMs := (seconds as int) * 1000))))
      else
        match ClassifyBody(response.body)
        case Failure(e) => Verdict(None, Some(e))
        case Success(None) => Verdict(None, None)
        case Success(Some(x)) => Verdict(None, Some(Thrown(x)))
  }

  /** Anything but a `ClientRequestException` is left alone. */
  lemma OtherExceptionsIgnored(now: int)
    ensures Validate(OtherException, now) == Verdict(None, None)
  {
  }

  /** A 429 stamps the rate limit `R` seconds after `now` and throws the matching `RateLimitException`. */
  lemma TooManyRequestsStamps(response: Response, now: int, seconds: Int32)
    requires response.status == TooManyRequests
    requires response.retryAfter.None? || ParseInt(response.retryAfter.value) == Some(seconds)
    requires response.retryAfter.None? ==> seconds == 0
    ensures Validate(ClientRequestException(response), now)
         == Verdict(Some(now + seconds * 1000),
                    Some(Thrown(RateLimitException("Too many requests", seconds * 1000))))
  {
  }

  /** While `R * 1000` fits an `Int`, the validator's stamp is the one the source computes. */
  lemma TooManyRequestsStampsAsWritten(response: Response, now: int, seconds: Int32)
    requires response.status == TooManyRequests
    requires response.retryAfter.None? || ParseInt(response.retryAfter.value) == Some(seconds)
    requires response.retryAfter.None? ==> seconds == 0
    requires -2147483 <= seconds <= 2147483
    ensures Validate(ClientRequestException(response), now).stamp == Some(RateLimitStampAsWritten(now, seconds))
  {
    RateLimitStampsAgreeBelowBound(now, seconds);
  }

  /** With Retry-After 2147484 the validator stamps 2147484000 ms ahead, where the source's stamp lies in the past. */
  lemma ValidatorStampAtOverflow(body: Json, now: int)
    ensures Validate(ClientRequestException(Response(TooManyRequests, Some(IntLiteral(2147484)), body)), now).stamp
         == Some(now + 2147484000)
    ensures RateLimitStampAsWritten(now, 2147484) < now
  {
    RetryAfterOfLiteral(2147484);
    RateLimitStampWraps(now);
  }

  /** A Retry-After that is not an `Int` throws before anything is stamped. */
  lemma UnreadableRetryAfter(response: Response, now: int)
    requires response.status == TooManyRequests
    requires response.retryAfter.Some? && ParseInt(response.retryAfter.value).None?
    ensures Validate(ClientRequestException(response), now)
         == Verdict(None, Some(NumberFormat(response.retryAfter.value)))
  {
  }

  /** Only a 429 touches the stamp; every other status leaves it, and below 400 nothing is thrown either. */
  lemma OnlyTooManyRequestsStamps(response: Response, now: int)
    ensures Validate(ClientRequestException(response), now).stamp.Some? ==> response.status == TooManyRequests
    ensures response.status.value < 400 ==> Validate(ClientRequestException(response), now) == Verdict(None, None)
  {
  }

  /** The instance the validator belongs to. `rateLimitExpiryTimestamp` lives on its request helper. */
  class Ktify {
    const clientCredentials: ClientCredentials
    var rateLimitExpiryTimestamp: Option<int>

    constructor (clientCredentials: ClientCredentials)
      ensures this.clientCredentials == clientCredentials && rateLimitExpiryTimestamp.None?
    {
      this.clientCredentials := clientCredentials;
      rateLimitExpiryTimestamp := None;
    }

    /** `handleResponseExceptionWithRequest`: the stamp, when set, is overwritten whatever it held. */
    method HandleResponseException(exception: ResponseException, now: int) returns (thrown: Option<Failure>)
      modifies this
      ensures thrown == Validate(exception, now).thrown
      ensures rateLimitExpiryTimestamp
           == if Validate(exception, now).stamp.Some? then Validate(exception, now).stamp else old(rateLimitExpiryTimestamp)
    {
      if !exception.ClientRequestException? {
        return None;
      }
      var httpResponse := exception.response;
      if httpResponse.status.value >= 400 {
        if httpResponse.status == TooManyRequests {
          var seconds := RetryAfterSeconds(httpResponse.retryAfter);
          if seconds.Failure? {
            return Some(seconds.error);
          }
          rateLimitExpiryTimestamp := Some(RateLimitStamp(now, seconds.value));
          return Some(Thrown(RateLimitException(retryAfterMs := (seconds.value as int) * 1000)));
        }
        var classified := ClassifyBody(httpResponse.body);
        if classified.Failure? {
          return Some(classified.error);
        }
        if classified.value.Some? {
          return Some(Thrown(classified.value.value));
        }
      }
      return None;
    }
  }

  // ---------------------------------------------------------------------------------------------
  // KtifyBuilder

  const AuthorizeEndpoint := "https://accounts.spotify.com/authorize"

  /** The wire values of some scopes, in order. */
  function ScopeValues(scopes: seq<Scope>, table: ScopeTable): (values: seq<string>)
    requires forall i :: 0 <= i < |scopes| ==> scopes[i].name in table
    ensures |values| == |scopes| && forall i :: 0 <= i < |scopes| ==> values[i] == table[scopes[i].name]
  {
    if |scopes| == 0 then [] else [table[scopes[0].name]] + ScopeValues(scopes[1..], table)
  }

  /** `values.map { it + " " }.reduce { acc, s -> acc + s }`: every value followed by a space. */
  function SpaceTerminated(values: seq<string>): string {
    if |values| == 0 then "" else values[0] + " " + SpaceTerminated(values[1..])
  }

  /** The scope string of the authorization URL: the reduced string without its last space, or "none". */
  function ScopesString(values: seq<string>): string {
    if |values| > 0 then
      var all := SpaceTerminated(values);
      if |all| > 0 then all[..|all| - 1] else all
    else "none"
  }

  lemma {:induction false} SpaceTerminatedIsJoin(values: seq<string>)
    requires |values| >= 1
    ensures SpaceTerminated(values) == Join(values, " ") + " "
  {
    if |values| > 1 {
      SpaceTerminatedIsJoin(values[1..]);
      assert SpaceTerminated(values) == values[0] + " " + (Join(values[1..], " ") + " ");
    } else {
      assert SpaceTerminated(values[1..]) == "";
    }
  }

  /** The scope string is the values joined by single spaces with no trailing space, or "none" when there are none. */
  lemma ScopesStringIsJoin(values: seq<string>)
    ensures |values| >= 1 ==> ScopesString(values) == Join(values, " ")
    ensures |values| == 0 ==> ScopesString(values) == "none"
  {
    if |values| >= 1 {
      SpaceTerminatedIsJoin(values);
      var all := Join(values, " ") + " ";
      assert all[..|all| - 1] == Join(values, " ");
    }
  }

  /**
   * What the `Scope` enum guarantees of its table: every constant's name is what the granted-scope
   * parser makes of its wire value, and no wire value holds a space.
   */
  predicate WellFormedTable(table: ScopeTable) {
    forall name :: name in table ==> ScopeName(table[name]) == name && ' ' !in table[name]
  }

  /**
   * When the token endpoint grants back the scope string of the authorization URL, the credential
   * parser recovers the requested scopes, in order.
   */
  lemma AuthorisationScopesParseBack(scopes: seq<Scope>, table: ScopeTable)
    requires WellFormedTable(table)
    requires |scopes| >= 1 && forall i :: 0 <= i < |scopes| ==> scopes[i].name in table
    ensures ParseScopes(ScopesString(ScopeValues(scopes, table)), table) == Success(scopes)
  {
    var values := ScopeValues(scopes, table);
    ScopesStringIsJoin(values);
    SplitJoin(values, ' ');
    assert forall i :: 0 <= i < |values| ==> ScopeName(values[i]) == scopes[i].name;
    var r := ScopesOf(values, table);
    assert r.Success?;
    assert r.value == scopes;
  }

  /** The authorization-code grant of section 4.1.3 of RFC 6749, sent by `build`. */
  function AuthorizationCodeRequest(clientId: string, clientSecret: string, encodedRedirectUri: string,
                                    authorizationCode: string): (t: TokenRequest)
    ensures t.url == TokenEndpoint && t.contentType == FormContentType
    ensures t.basicCredentials == clientId + ":" + clientSecret
  {
    TokenRequest(TokenEndpoint, FormContentType,
                 "grant_type=authorization_code&redirect_uri=" + encodedRedirectUri + "&code=" + authorizationCode,
                 clientId + ":" + clientSecret)
  }

  /** The fields of the credentials `build` constructs from the token endpoint's reply. */
  function BuildSession(t: TokenResponse, now: int, table: ScopeTable): Result<Session, Failure> {
    match ParseScopes(t.scope, table)
    case Failure(e) => Failure(e)
    case Success(granted) =>
      Success(Session(Some(t.accessToken), Some(t.expiresIn * 1000 + now), Some(granted), Some(t.tokenType)))
  }

  /** `build` stamps and parses exactly as a refresh from the same reply at the same instant does. */
  lemma BuildAgreesWithRefresh(t: TokenResponse, now: int, table: ScopeTable, id: string, secret: string,
                               refreshToken: Option<string>, before: Session)
    requires NeedsRefresh(refreshToken, before.accessTokenExpiryStamp, now)
    ensures var step := RefreshOf(id, secret, refreshToken, before, now, Success(t), table);
      && (BuildSession(t, now, table).Success? <==> step.outcome.Success?)
      && (BuildSession(t, now, table).Success? ==> step.after == BuildSession(t, now, table).value)
      && (BuildSession(t, now, table).Failure? ==> step.outcome == Failure(BuildSession(t, now, table).error))
  {
  }

  class KtifyBuilder {
    const clientId: string
    const clientSecret: string
    const redirectUri: string
    const state: string

    /** `state` is a random UUID with its dashes removed; the UUID is an input. */
    constructor (clientId: string, clientSecret: string, redirectUri: string, uuid: string)
      ensures this.clientId == clientId && this.clientSecret == clientSecret && this.redirectUri == redirectUri
      ensures state == Replace(uuid, '-', "") && '-' !in state
    {
      ReplaceRemoves(uuid, '-', "");
      this.clientId := clientId;
      this.clientSecret := clientSecret;
      this.redirectUri := redirectUri;
      state := Replace(uuid, '-', "");
    }

    /** `getAuthorisationURL`; `urlEncode` stands for `URLEncoder.encode(_, "UTF-8")`. */
    function GetAuthorisationURL(scopes: seq<Scope>, table: ScopeTable, urlEncode: string -> string): (url: string)
      requires forall i :: 0 <= i < |scopes| ==> scopes[i].name in table
      ensures url == AuthorizeEndpoint + "?client_id=" + clientId
                     + "&scope=" + urlEncode(if |scopes| > 0 then Join(ScopeValues(scopes, table), " ") else "none")
                     + "&redirect_uri=" + urlEncode(redirectUri) + "&state=" + state + "&response_type=code"
    {
      ScopesStringIsJoin(ScopeValues(scopes, table));
      var scopesString := ScopesString(ScopeValues(scopes, table));
      AuthorizeEndpoint + "?client_id=" + clientId + "&scope=" + urlEncode(scopesString)
        + "&redirect_uri=" + urlEncode(redirectUri) + "&state=" + state + "&response_type=code"
    }

    /** `fromClientCredentials`: refreshes the given credentials, then wraps them. */
    method FromClientCredentials(clientCredentials: ClientCredentials, now: int,
                                 reply: Result<TokenResponse, Failure>, table: ScopeTable)
      returns (tokenRequest: Option<TokenRequest>, result: Result<Ktify, Failure>)
      modifies clientCredentials
      ensures var step := RefreshOf(clientCredentials.clientId, clientCredentials.clientSecret,
                                    clientCredentials.refreshToken, old(clientCredentials.State()), now, reply, table);
        && tokenRequest == step.sent
        && clientCredentials.State() == step.after
        && (step.outcome.Failure? ==> result == Failure(step.outcome.error))
        && (step.outcome.Success? ==>
              result.Success? && fresh(result.value) && result.value.clientCredentials == clientCredentials
              && result.value.rateLimitExpiryTimestamp.None?)
    {
      var outcome;
      tokenRequest, outcome := clientCredentials.Refresh(now, reply, table);
      if outcome.Failure? {
        return tokenRequest, Failure(outcome.error);
      }
      var ktify := new Ktify(clientCredentials);
      result := Success(ktify);
    }

    /** `build`: exchanges the authorization code and constructs fresh credentials from the reply. */
    method Build(authorizationCode: string, now: int, reply: Result<TokenResponse, Failure>, table: ScopeTable,
                 urlEncode: string -> string)
      returns (tokenRequest: TokenRequest, result: Result<Ktify, Failure>)
      ensures tokenRequest == AuthorizationCodeRequest(clientId, clientSecret, urlEncode(redirectUri), authorizationCode)
      ensures reply.Failure? ==> result == Failure(reply.error)
      ensures reply.Success? && BuildSession(reply.value, now, table).Failure? ==>
        result == Failure(BuildSession(reply.value, now, table).error)
      ensures reply.Success? && BuildSession(reply.value, now, table).Success? ==>
        && result.Success? && fresh(result.value) && fresh(result.value.clientCredentials)
        && result.value.clientCredentials.clientId == clientId
        && result.value.clientCredentials.clientSecret == clientSecret
        && result.value.clientCredentials.refreshToken == reply.value.refreshToken
        && result.value.clientCredentials.State() == BuildSession(reply.value, now, table).value
    {
      tokenRequest := AuthorizationCodeRequest(clientId, clientSecret, urlEncode(redirectUri), authorizationCode);
      if reply.Failure? {
        return tokenRequest, Failure(reply.error);
      }
      var response := reply.value;
      var granted := ParseScopes(response.scope, table);
      if granted.Failure? {
        return tokenRequest, Failure(granted.error);
      }
      var credentials := new ClientCredentials(clientId, clientSecret, Some(response.accessToken), response.refreshToken,
                                               Some(response.expiresIn * 1000 + now), Some(granted.value),
                                               Some(response.tokenType));
      var ktify := new Ktify(credentials);
      result := Success(ktify);
    }
  }
}
