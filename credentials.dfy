/**
 * The credential lifecycle (ee/bjarn/ktify/model/auth/ClientCredentials.kt): the OAuth 2.0
 * refresh-token grant of section 6 of RFC 6749, driven by the expiry stamp of the access token.
 * The token endpoint's reply and the clock are inputs.
 */
module Credentials {
  import opened Wrappers
  import opened Kotlin
  import opened Exceptions
  import opened Scopes

  const TokenEndpoint := "https://accounts.spotify.com/api/token"
  const FormContentType := "application/x-www-form-urlencoded"

  /** The decoded reply of the token endpoint (`ClientCredentialsResponse`); `expiresIn` is in seconds. */
  datatype TokenResponse = TokenResponse(
    accessToken: string,
    tokenType: string,
    scope: string,
    expiresIn: int,
    refreshToken: Option<string> := None)

  /**
   * A POST to the token endpoint. `basicCredentials` is "clientId:clientSecret", the text whose
   * Base64 form follows "Basic " in the Authorization header.
   */
  datatype TokenRequest = TokenRequest(url: string, contentType: string, body: string, basicCredentials: string)

  function RefreshTokenRequest(clientId: string, clientSecret: string, refreshToken: string): (t: TokenRequest)
    ensures t.url == TokenEndpoint && t.basicCredentials == clientId + ":" + clientSecret
  {
    TokenRequest(TokenEndpoint, FormContentType, "grant_type=refresh_token&refresh_token=" + refreshToken,
                 clientId + ":" + clientSecret)
  }

  /** The four fields of a credential that `refresh()` may assign. */
  datatype Session = Session(
    accessToken: Option<string>,
    accessTokenExpiryStamp: Option<int>,
    scopes: Option<seq<Scope>>,
    tokenType: Option<string>)

  /** Whether `refresh()` asks the token endpoint: a refresh token exists and the stamp is unset or passed. */
  predicate NeedsRefresh(refreshToken: Option<string>, stamp: Option<int>, now: int) {
    refreshToken.Some? && (stamp.None? || stamp.value < now)
  }

  /** One call of `refresh()`: the token request it sent, the fields afterwards, and what it threw. */
  datatype RefreshStep = RefreshStep(sent: Option<TokenRequest>, after: Session, outcome: Result<(), Failure>)

  /**
   * `refresh()` at time `now`, when the token endpoint would answer `reply`. The fields are
   * assigned one after another, so a scope name the enum lacks throws after the access token and
   * the stamp have been replaced.
   */
  function RefreshOf(clientId: string, clientSecret: string, refreshToken: Option<string>, before: Session,
                     now: int, reply: Result<TokenResponse, Failure>, table: ScopeTable): (step: RefreshStep)
    ensures step.sent.Some? <==> NeedsRefresh(refreshToken, before.accessTokenExpiryStamp, now)
    ensures step.sent.Some? ==> step.sent.value == RefreshTokenRequest(clientId, clientSecret, refreshToken.value)
    ensures step.sent.None? ==> step.after == before && step.outcome.Success?
    ensures step.outcome.Failure? ==>
      || (reply.Failure? && step.outcome.error == reply.error && step.after == before)
      || (reply.Success? && ParseScopes(reply.value.scope, table).Failure?
          && step.outcome.error == ParseScopes(reply.value.scope, table).error)
  {
    if !NeedsRefresh(refreshToken, before.accessTokenExpiryStamp, now) then
      RefreshStep(None, before, Success(()))
    else
      var sent := Some(RefreshTokenRequest(clientId, clientSecret, refreshToken.value));
      match reply
      case Failure(e) => RefreshStep(sent, before, Failure(e))
      case Success(t) =>
        var stamped := before.(accessToken := Some(t.accessToken),
                               accessTokenExpiryStamp := Some(t.expiresIn * 1000 + now));
        match ParseScopes(t.scope, table)
        case Failure(e) => RefreshStep(sent, stamped, Failure(e))
        case Success(granted) =>
          RefreshStep(sent, stamped.(scopes := Some(granted), tokenType := Some(t.tokenType)), Success(()))
  }

  class ClientCredentials {
    const clientId: string
    const clientSecret: string
    var accessToken: Option<string>
    const refreshToken: Option<string>
    var accessTokenExpiryStamp: Option<int>
    var scopes: Option<seq<Scope>>
    var tokenType: Option<string>

    constructor (clientId: string, clientSecret: string, accessToken: Option<string>, refreshToken: Option<string>,
                 accessTokenExpiryStamp: Option<int>, scopes: Option<seq<Scope>>, tokenType: Option<string>)
      ensures this.clientId == clientId && this.clientSecret == clientSecret && this.refreshToken == refreshToken
      ensures State() == Session(accessToken, accessTokenExpiryStamp, scopes, tokenType)
    {
      this.clientId := clientId;
      this.clientSecret := clientSecret;
      this.accessToken := accessToken;
      this.refreshToken := refreshToken;
      this.accessTokenExpiryStamp := accessTokenExpiryStamp;
      this.scopes := scopes;
      this.tokenType := tokenType;
    }

    function State(): Session
      reads this
    {
      Session(accessToken, accessTokenExpiryStamp, scopes, tokenType)
    }

    /** `refresh()`: `now` stands for `System.currentTimeMillis()`. */
    method Refresh(now: int, reply: Result<TokenResponse, Failure>, table: ScopeTable)
      returns (sent: Option<TokenRequest>, outcome: Result<(), Failure>)
      modifies this
      ensures RefreshStep(sent, State(), outcome)
           == RefreshOf(clientId, clientSecret, refreshToken, old(State()), now, reply, table)
    {
      sent, outcome := None, Success(());
      if refreshToken.None? {
        return;
      }
      if accessTokenExpiryStamp.None? || accessTokenExpiryStamp.value < now {
        sent := Some(RefreshTokenRequest(clientId, clientSecret, refreshToken.value));
        if reply.Failure? {
          outcome := Failure(reply.error);
          return;
        }
        var newCredentials := reply.value;
        accessToken := Some(newCredentials.accessToken);
        accessTokenExpiryStamp := Some(newCredentials.expiresIn * 1000 + now);
        var parsed := ParseScopes(newCredentials.scope, table);
        if parsed.Failure? {
          outcome := Failure(parsed.error);
          return;
        }
        scopes := Some(parsed.value);
        tokenType := Some(newCredentials.tokenType);
      }
    }
  }

  // ---------------------------------------------------------------------------------------------
  // What one refresh does

  /** Without a refresh token nothing is requested and nothing changes. */
  lemma NoRefreshTokenIsNoOp(id: string, secret: string, before: Session, now: int,
                             reply: Result<TokenResponse, Failure>, table: ScopeTable)
    ensures RefreshOf(id, secret, None, before, now, reply, table) == RefreshStep(None, before, Success(()))
  {
  }

  /** A stamp at or after `now` is still valid: no request, no change. Only a passed stamp refreshes. */
  lemma ValidStampIsNoOp(id: string, secret: string, refreshToken: string, before: Session, now: int,
                         reply: Result<TokenResponse, Failure>, table: ScopeTable)
    requires before.accessTokenExpiryStamp.Some?
    ensures (RefreshOf(id, secret, Some(refreshToken), before, now, reply, table).sent.None?)
        <==> before.accessTokenExpiryStamp.value >= now
    ensures before.accessTokenExpiryStamp.value >= now ==>
      RefreshOf(id, secret, Some(refreshToken), before, now, reply, table) == RefreshStep(None, before, Success(()))
  {
  }

  /** With a refresh token and no stamp, a new token is always requested, whatever `now` is. */
  lemma MissingStampRequests(id: string, secret: string, refreshToken: string, before: Session, now: int,
                             reply: Result<TokenResponse, Failure>, table: ScopeTable)
    requires before.accessTokenExpiryStamp.None?
    ensures RefreshOf(id, secret, Some(refreshToken), before, now, reply, table).sent
         == Some(RefreshTokenRequest(id, secret, refreshToken))
  {
  }

  /**
   * After a refresh the new token, its stamp (`expires_in` seconds from `now`, in milliseconds),
   * the granted scopes and the token type come from the reply; the reply's refresh token is ignored.
   */
  lemma RefreshedFields(id: string, secret: string, refreshToken: Option<string>, before: Session, now: int,
                        t: TokenResponse, table: ScopeTable, granted: seq<Scope>)
    requires NeedsRefresh(refreshToken, before.accessTokenExpiryStamp, now)
    requires ParseScopes(t.scope, table) == Success(granted)
    ensures RefreshOf(id, secret, refreshToken, before, now, Success(t), table)
         == RefreshStep(Some(RefreshTokenRequest(id, secret, refreshToken.value)),
                        Session(Some(t.accessToken), Some(t.expiresIn * 1000 + now), Some(granted), Some(t.tokenType)),
                        Success(()))
    ensures forall other: Option<string> ::
      RefreshOf(id, secret, refreshToken, before, now, Success(t.(refreshToken := other)), table)
        == RefreshOf(id, secret, refreshToken, before, now, Success(t), table)
  {
  }

  /**
   * The updates are not atomic: when a granted scope names no enum constant, the access token and
   * the stamp are already replaced, while the scopes and the token type keep their old values.
   */
  lemma UnknownScopeLeavesPartialUpdate(id: string, secret: string, refreshToken: Option<string>, before: Session,
                                        now: int, t: TokenResponse, table: ScopeTable)
    requires NeedsRefresh(refreshToken, before.accessTokenExpiryStamp, now)
    requires ParseScopes(t.scope, table).Failure?
    ensures var step := RefreshOf(id, secret, refreshToken, before, now, Success(t), table);
      && step.after.accessToken == Some(t.accessToken)
      && step.after.accessTokenExpiryStamp == Some(t.expiresIn * 1000 + now)
      && step.after.scopes == before.scopes
      && step.after.tokenType == before.tokenType
      && step.outcome.Failure? && step.outcome.error.IllegalArgument?
  {
  }

  /** A failed token request leaves every field as it was and surfaces the failure. */
  lemma FailedRequestKeepsState(id: string, secret: string, refreshToken: Option<string>, before: Session,
                                now: int, e: Failure, table: ScopeTable)
    requires NeedsRefresh(refreshToken, before.accessTokenExpiryStamp, now)
    ensures RefreshOf(id, secret, refreshToken, before, now, Failure(e), table).after == before
    ensures RefreshOf(id, secret, refreshToken, before, now, Failure(e), table).outcome == Failure(e)
  {
  }

  /**
   * Once a reply with a non-negative lifetime has been received, the stamp is at or after `now`,
   * so a second refresh at the same instant requests nothing and changes nothing.
   */
  lemma RefreshIsIdempotent(id: string, secret: string, refreshToken: Option<string>, before: Session, now: int,
                            reply: Result<TokenResponse, Failure>, reply2: Result<TokenResponse, Failure>,
                            table: ScopeTable)
    requires reply.Success? ==> reply.value.expiresIn >= 0
    requires reply.Success? || !NeedsRefresh(refreshToken, before.accessTokenExpiryStamp, now)
    ensures var first := RefreshOf(id, secret, refreshToken, before, now, reply, table);
      RefreshOf(id, secret, refreshToken, first.after, now, reply2, table) == RefreshStep(None, first.after, Success(()))
  {
  }

  /**
   * A caller that refreshes twice at the same instant: after a received reply (or nothing to do)
   * the second call sends nothing; after a failed token request the state is unchanged, so the
   * second call sends the same request again.
   */
  method RefreshTwice(credentials: ClientCredentials, now: int, reply: Result<TokenResponse, Failure>,
                      reply2: Result<TokenResponse, Failure>, table: ScopeTable)
    returns (first: Option<TokenRequest>, second: Option<TokenRequest>)
    requires reply.Success? ==> reply.value.expiresIn >= 0
    modifies credentials
    ensures reply.Success? ==> second.None?
    ensures first.None? ==> second.None?
    ensures reply.Failure? ==> second == first
  {
    var outcome;
    first, outcome := credentials.Refresh(now, reply, table);
    second, outcome := credentials.Refresh(now, reply2, table);
  }
}
