# ktify: a verified model of the request, credential and query logic

ktify is a Kotlin wrapper over the Spotify Web API. This project models in Dafny the parts of it that make decisions. HTTP traffic, JSON text, the clock and foreign helpers are replaced by inputs throughout.

**Credentials (`Credentials`).** `ClientCredentials.refresh()` is a state machine over four mutable fields. It follows the OAuth 2.0 refresh-token grant (section 6 of RFC 6749):
- with no refresh token, nothing happens;
- with an expiry stamp not yet passed, nothing happens;
- otherwise it sends a token request and assigns the access token, the stamp, the parsed scopes and the token type, one after another.

The class `ClientCredentials` keeps those fields. Its method `Refresh` is proved equal to the step function `RefreshOf`, and the lemmas beside it state what a refresh does.

**Dispatching requests (`Http`, `Dispatch`).**
- `RequestBuilder` is the ktor request builder: url, method, parameter list, header list and body.
- `RequestHelper` holds the three `makeRequest` shapes of `com/github/warriorzz/ktify/utils/RequestHelper.kt`:
  - *typed*: a hard scope `require`, then `refresh()`, then the Authorization header;
  - *marker*: it returns `null` when a known scope list lacks the needed scope, and decodes only when the body has a marker key;
  - *status-only*: it always authenticates and returns just the status.
- The two scope gates are `ClosedGate` and `OpenGate`. They differ exactly when a scope is required and the granted scopes are unknown.

**Error classification (`KtifyClient`).** The ee.bjarn `Ktify` response validator works on responses with status 400 or above:
- 429 (section 4 of RFC 6585) stamps `rateLimitExpiryTimestamp` and throws `RateLimitException`.
- Otherwise a `message` key decodes an `ErrorObject` into `RequestException`.
- Otherwise an `error` key decodes an `AuthenticationErrorObject` into `AuthenticationException`.

`KtifyBuilder` provides the authorization URL, `fromClientCredentials` and `build`. The exception taxonomy and the status serializer are in `Exceptions`.

**Polymorphic discriminators (`Json`, `Playback`, `KtifyObjects`, `Playlists`).** These are the `selectDeserializer` functions of the current-playback, object and playlist-entry serializers, the `RepeatState` wire names and `AnyAsEmptyStringSerializer`.

**Search (`Search`).**
- the `Phrase`/`EmptyPhrase` algebra, whose six `plus` overloads are kept apart because Kotlin picks an extension by static type;
- `SearchQueueBuilder.build`, year ranges and the `%20` encoding;
- the `searchItem` limit and offset clamping, with the request it builds.

**Endpoints (`Endpoints`, `Tracks`, `Player`).** The ee.bjarn endpoint functions build a request block and hand it, with a required scope, to a `RequestHelper` that is not among the modelled files. Each endpoint therefore returns the `Call` it hands over:
- the kind of dispatch (typed, status-only, or marker);
- the scope it names;
- the exact `Request`: method, URL, ordered parameters, headers and body.

Early results are explicit: `SetVolume` returns `Respond(BadRequest)`, and `GetRecommendations` returns a `Failure`. Probe-then-fetch endpoints take the probe's status as an input.

Kotlin's `Int` is the subset type `Int32`. Wrap-around is written out with `Wrap32` where the source overflows. `Long` is unbounded `int`. A nullable value is an `Option`, and an exception is the `Failure` arm of a `Result`.

## Model

| member | source | states |
|---|---|---|
| Credentials.ClientCredentials.constructor | src/main/kotlin/ee/bjarn/ktify/model/auth/ClientCredentials.kt:13-21 | the seven constructor arguments become the fields, with the four mutable ones as the session state |
| Credentials.RefreshTokenRequest | src/main/kotlin/ee/bjarn/ktify/model/auth/ClientCredentials.kt:27-32 | the refresh request goes to the Spotify token endpoint with Basic credentials `clientId:clientSecret` |
| Credentials.RefreshOf | src/main/kotlin/ee/bjarn/ktify/model/auth/ClientCredentials.kt:24-39 | a token request is sent exactly when a refresh is due, and it is the refresh-token request of the credentials; with nothing due the state is unchanged and the step succeeds; a failure is either the reply's own, with the state unchanged, or an unknown scope name |
| Credentials.ClientCredentials.Refresh | src/main/kotlin/ee/bjarn/ktify/model/auth/ClientCredentials.kt:24-39 | the token request sent, the new field values and the outcome are exactly those of the refresh step `RefreshOf` from the old state |
| Credentials.NoRefreshTokenIsNoOp | src/main/kotlin/ee/bjarn/ktify/model/auth/ClientCredentials.kt:25 | without a refresh token no request is made and no field changes |
| Credentials.ValidStampIsNoOp | src/main/kotlin/ee/bjarn/ktify/model/auth/ClientCredentials.kt:26 | with a refresh token and a stamp, no request is made exactly when stamp ≥ now, and then nothing changes |
| Credentials.MissingStampRequests | src/main/kotlin/ee/bjarn/ktify/model/auth/ClientCredentials.kt:26-32 | with a refresh token and no stamp, the refresh request is always sent |
| Credentials.RefreshedFields | src/main/kotlin/ee/bjarn/ktify/model/auth/ClientCredentials.kt:33-37 | a successful refresh sets access token, stamp = expires_in·1000 + now, the parsed scopes and token type; a refresh_token in the response has no effect |
| Credentials.UnknownScopeLeavesPartialUpdate | src/main/kotlin/ee/bjarn/ktify/model/auth/ClientCredentials.kt:33-37 | an unknown scope name throws after access token and stamp are replaced, so scopes and token type keep their old values |
| Credentials.FailedRequestKeepsState | src/main/kotlin/ee/bjarn/ktify/model/auth/ClientCredentials.kt:27-33 | a failing token request leaves all fields unchanged and propagates its failure |
| Credentials.RefreshIsIdempotent | src/main/kotlin/ee/bjarn/ktify/model/auth/ClientCredentials.kt:26-34 | after a refresh that succeeded (with expires_in ≥ 0) or had nothing to do, a second refresh at the same now sends nothing and changes nothing |
| Credentials.RefreshTwice | src/main/kotlin/ee/bjarn/ktify/model/auth/ClientCredentials.kt:24-39 | on the class itself: after a received reply, or when nothing was due, a second refresh at the same now sends nothing; after a failed token request the state is unchanged and the second refresh sends the same request again |
| Scopes.ValueOf | src/main/kotlin/ee/bjarn/ktify/model/auth/ClientCredentials.kt:36 | `Scope.valueOf` succeeds exactly for a known name and throws IllegalArgument naming it otherwise |
| Scopes.ScopesOf | src/main/kotlin/ee/bjarn/ktify/model/auth/ClientCredentials.kt:35-36 | the scope tokens map one to one, in order and with duplicates kept, to scopes named by the upper-cased, `-`→`_` token, or fail at the first unknown token |
| Scopes.ParseScopes | src/main/kotlin/ee/bjarn/ktify/model/auth/ClientCredentials.kt:35-36 | on success one scope per space-separated token, each a constant of the enum; on failure an IllegalArgument naming a token the enum lacks |
| Scopes.EmptyScopeStringThrows | src/main/kotlin/ee/bjarn/ktify/model/auth/ClientCredentials.kt:35-36 | an empty scope string splits into one empty token and throws |
| Kotlin.Split | src/main/kotlin/ee/bjarn/ktify/model/auth/ClientCredentials.kt:35 | `split` gives at least one part, and no part contains the separator |
| Kotlin.JoinSplit | src/main/kotlin/ee/bjarn/ktify/model/auth/ClientCredentials.kt:35 | joining the parts of a split with the separator gives the string back |
| Kotlin.SplitJoin | src/main/kotlin/ee/bjarn/ktify/tracks/Tracks.kt:95 | splitting a join of separator-free parts gives the parts back |
| Kotlin.UpperAscii | src/main/kotlin/ee/bjarn/ktify/model/auth/ClientCredentials.kt:36 | the ASCII part of `toUpperCasePreservingASCIIRules`: exactly the letters a–z are upper-cased, position by position, and every other character is kept (see Left out) |
| Kotlin.ReplaceRemoves | src/main/kotlin/ee/bjarn/ktify/Ktify.kt:107 | after `replace(c, w)` with a `w` free of c, no c remains |
| Kotlin.ReplaceAbsent | src/main/kotlin/io/github/warriorzz/ktify/search/Search.kt:144 | replacing a character that does not occur changes nothing |
| Kotlin.ReplaceConcat | src/main/kotlin/io/github/warriorzz/ktify/search/Search.kt:144 | replacement distributes over concatenation |
| Kotlin.Wrap32 | src/main/kotlin/ee/bjarn/ktify/Ktify.kt:59 | 32-bit `Int` arithmetic: the result is congruent to the exact value modulo 2³², and equal to it when in range |
| Kotlin.IntLiteral | src/main/kotlin/io/github/warriorzz/ktify/search/Search.kt:41 | `Int.toString()` is non-empty, contains no space or comma, and is all digits for a non-negative value |
| Kotlin.ParseIntLiteral | src/main/kotlin/ee/bjarn/ktify/Ktify.kt:59 | `toInt()` reads `toString()` back: parsing the literal of any `Int` gives that `Int` |
| Kotlin.DigitsValueOfNatDigits | src/main/kotlin/ee/bjarn/ktify/Ktify.kt:59 | the decimal digits of a natural number are read back as that number |
| Kotlin.Truncate | src/main/kotlin/ee/bjarn/ktify/tracks/Tracks.kt:95 | `take(n)` is the prefix of length min(n, size) |
| Kotlin.UnquoteQuoted | src/main/kotlin/io/github/warriorzz/ktify/search/Search.kt:38-39 | removing all `"` from a JSON-quoted string without quotes gives the string back |
| Http.Keys | src/main/kotlin/com/github/warriorzz/ktify/utils/RequestHelper.kt:39-41 | the names of an ordered parameter list, position by position |
| Http.RequestBuilder.constructor | src/main/kotlin/com/github/warriorzz/ktify/utils/RequestHelper.kt:37 | a fresh builder holds a GET with empty URL, no parameters, no headers and no body |
| Http.RequestBuilder.SetUrl | src/main/kotlin/com/github/warriorzz/ktify/utils/RequestHelper.kt:38 | only the URL changes |
| Http.RequestBuilder.SetMethod | src/main/kotlin/com/github/warriorzz/ktify/utils/RequestHelper.kt:52 | only the method changes |
| Http.RequestBuilder.Parameter | src/main/kotlin/com/github/warriorzz/ktify/utils/RequestHelper.kt:40 | the pair is appended to the parameters and nothing else changes |
| Http.RequestBuilder.Header | src/main/kotlin/com/github/warriorzz/ktify/utils/RequestHelper.kt:43 | the pair is appended to the headers and nothing else changes |
| Http.RequestBuilder.SetBody | src/main/kotlin/com/github/warriorzz/ktify/utils/RequestHelper.kt:45-47 | only the body changes |
| Http.RequestBuilder.AddParameters | src/main/kotlin/com/github/warriorzz/ktify/utils/RequestHelper.kt:39-41 | the `forEach` loop appends every entry, in order |
| Http.RequestBuilder.AddHeaders | src/main/kotlin/com/github/warriorzz/ktify/utils/RequestHelper.kt:42-44 | the `forEach` loop appends every header, in order |
| Dispatch.ClosedGateImpliesOpenGate | src/main/kotlin/com/github/warriorzz/ktify/utils/RequestHelper.kt:36-70 | whatever passes the hard `require` also passes the marker variant's gate |
| Dispatch.GatesDisagreeOnUnknownScopes | src/main/kotlin/com/github/warriorzz/ktify/utils/RequestHelper.kt:36-70 | the two gates differ exactly when a scope is required and the granted scopes are null |
| Dispatch.NoRequiredScopeNoCheck | src/main/kotlin/com/github/warriorzz/ktify/utils/RequestHelper.kt:36 | without a required scope neither gate blocks |
| Dispatch.Rendered | src/main/kotlin/com/github/warriorzz/ktify/utils/RequestHelper.kt:50 | a string template renders a present value as itself and an absent one as "null" |
| Dispatch.AuthorizationValueSplits | src/main/kotlin/com/github/warriorzz/ktify/utils/RequestHelper.kt:50 | the Authorization value splits on its one space into token type and access token |
| Dispatch.BuiltRequest | src/main/kotlin/com/github/warriorzz/ktify/utils/RequestHelper.kt:37-53 | the request keeps method, URL, body and all parameters; the given headers come first; the Authorization header is appended exactly when authentication is required |
| Dispatch.HeaderCarriesRefreshedToken | src/main/kotlin/com/github/warriorzz/ktify/utils/RequestHelper.kt:48-51 | the header carries the token type and access token of the response that `refresh()` just received |
| Dispatch.MarkerResult | src/main/kotlin/com/github/warriorzz/ktify/utils/RequestHelper.kt:71-74 | a failed reply propagates; a non-object body fails to decode; a body without the marker key is null; a body with it is the decoded value exactly when the decode succeeds, and otherwise the decode's failure |
| Dispatch.StartBlock | src/main/kotlin/com/github/warriorzz/ktify/utils/RequestHelper.kt:37-47 | the builder holds the URL, every parameter and header in order, and the body when given |
| Dispatch.FinishBlock | src/main/kotlin/com/github/warriorzz/ktify/utils/RequestHelper.kt:48-52 | refresh, the optional Authorization header and the method turn the builder into `BuiltRequest` |
| Dispatch.RequestHelper.constructor | src/main/kotlin/com/github/warriorzz/ktify/utils/RequestHelper.kt:17-21 | the helper keeps its credentials and the base URL `https://api.spotify.com/v1/` |
| Dispatch.RequestHelper.MakeRequest | src/main/kotlin/com/github/warriorzz/ktify/utils/RequestHelper.kt:26-54 | a closed gate fails before refresh and sends nothing; otherwise refresh runs once, and its failure stops the request, or the built request is sent and its reply returned |
| Dispatch.RequestHelper.MakeRequestIfPresent | src/main/kotlin/com/github/warriorzz/ktify/utils/RequestHelper.kt:59-75 | a known scope list lacking the scope returns null with nothing sent; otherwise the typed path runs and the result is `MarkerResult` of the reply, the marker key and the decode |
| Dispatch.RequestHelper.MakeStatusRequest | src/main/kotlin/com/github/warriorzz/ktify/utils/RequestHelper.kt:80-92 | the same hard gate, always authenticated, sent on the JSON-less client, returning only the status |
| Exceptions.DefaultMessages | src/main/kotlin/ee/bjarn/ktify/utils/Exceptions.kt:14-22 | default messages "Unauthorized", "Too many requests" and "Provided parameter input is not valid", with the carried error, delay and parameter names |
| Exceptions.DeserializeStatus | src/main/kotlin/ee/bjarn/ktify/utils/Exceptions.kt:39-41 | anything but an integer fails with a serialization error |
| Exceptions.StatusRoundTrip | src/main/kotlin/ee/bjarn/ktify/utils/Exceptions.kt:38-47 | serializing a status as its integer and reading it back gives the same code |
| Exceptions.SerializeStatus | src/main/kotlin/ee/bjarn/ktify/utils/Exceptions.kt:45-47 | a status is written as a non-null primitive whose content parses back to its value |
| Exceptions.DecodeErrorObject | src/main/kotlin/ee/bjarn/ktify/utils/Exceptions.kt:24-29 | a strict decode succeeds only on exactly the keys status and message, with a string message |
| Exceptions.ErrorObjectRoundTrip | src/main/kotlin/ee/bjarn/ktify/utils/Exceptions.kt:24-29 | an encoded error object decodes back to itself |
| Exceptions.DecodeAuthenticationErrorObject | src/main/kotlin/ee/bjarn/ktify/utils/Exceptions.kt:31-36 | succeeds exactly on the two string keys error and error_description, and then the object encodes back to the input |
| Exceptions.AuthenticationErrorObjectRoundTrip | src/main/kotlin/ee/bjarn/ktify/utils/Exceptions.kt:31-36 | an encoded authentication error decodes back to itself |
| KtifyClient.RetryAfterSeconds | src/main/kotlin/ee/bjarn/ktify/Ktify.kt:59 | a missing Retry-After counts as 0; a present one is parsed with `toInt()` or throws NumberFormat |
| KtifyClient.RetryAfterOfLiteral | src/main/kotlin/ee/bjarn/ktify/Ktify.kt:59 | a Retry-After header holding an `Int` literal reads back as that `Int` |
| KtifyClient.RateLimitStamp | src/main/kotlin/ee/bjarn/ktify/Ktify.kt:58-61 | the corrected stamp lies a whole number of seconds after now and that number reads back as the header value; it is not before now for a non-negative header (Validate ties it to the thrown retryAfterMs) |
| KtifyClient.RateLimitStampsAgreeBelowBound | src/main/kotlin/ee/bjarn/ktify/Ktify.kt:58-59 | the written `Int` product equals the intended stamp while seconds·1000 fits in 32 bits |
| KtifyClient.RateLimitStampWraps | src/main/kotlin/ee/bjarn/ktify/Ktify.kt:58-61 | for Retry-After 2147484 the written stamp wraps to before now, while retryAfterMs is 2147484000 |
| KtifyClient.RateLimitStampAsWritten | src/main/kotlin/ee/bjarn/ktify/Ktify.kt:58-59 | the written stamp lies within 32 bits of now, and its offset agrees with seconds·1000 modulo 2³² |
| KtifyClient.Validate | src/main/kotlin/ee/bjarn/ktify/Ktify.kt:52-80 | a stamp is set exactly for a ClientRequestException with status 429 and a readable Retry-After, and then RateLimitException is thrown whose retryAfterMs is the stamp minus now; every 429 throws; any other exception or a status below 400 yields no stamp and no added exception |
| KtifyClient.TooManyRequestsStampsAsWritten | src/main/kotlin/ee/bjarn/ktify/Ktify.kt:57-59 | for a header in ±2147483 the corrected stamp is the written `Int` stamp |
| KtifyClient.ValidatorStampAtOverflow | src/main/kotlin/ee/bjarn/ktify/Ktify.kt:58-61 | for Retry-After 2147484 the corrected stamp is now + 2147484000 while the written one lies before now |
| KtifyClient.ClassifyBody | src/main/kotlin/ee/bjarn/ktify/Ktify.kt:64-79 | a "message" key decodes a RequestException("Request failed!"); otherwise an "error" key decodes an AuthenticationException("Authentication failed!"); with neither key the handler adds no exception and the original one propagates; decode errors are serialization failures |
| KtifyClient.RequestErrorClassified | src/main/kotlin/ee/bjarn/ktify/Ktify.kt:65-71 | a well-formed error object body raises RequestException carrying it |
| KtifyClient.AuthenticationErrorClassified | src/main/kotlin/ee/bjarn/ktify/Ktify.kt:72-78 | a well-formed authentication error body raises AuthenticationException carrying it |
| KtifyClient.BothKeysFailToDecode | src/main/kotlin/ee/bjarn/ktify/Ktify.kt:65-70 | a body with both keys takes the message branch and its strict decode fails on the extra key |
| KtifyClient.NestedErrorEnvelopeFailsToDecode | src/main/kotlin/ee/bjarn/ktify/Ktify.kt:72-77 | Spotify's nested `{"error": {status, message}}` body fails to decode instead of raising RequestException |
| KtifyClient.OtherExceptionsIgnored | src/main/kotlin/ee/bjarn/ktify/Ktify.kt:53 | for an exception other than ClientRequestException the handler sets no stamp and adds no exception; the original exception propagates |
| KtifyClient.TooManyRequestsStamps | src/main/kotlin/ee/bjarn/ktify/Ktify.kt:57-62 | on 429 the corrected stamp becomes now + R·1000 (R the header or 0, exact product) and RateLimitException(R·1000) is thrown, whatever the body |
| KtifyClient.UnreadableRetryAfter | src/main/kotlin/ee/bjarn/ktify/Ktify.kt:59 | a 429 whose Retry-After is not an integer throws NumberFormat and sets no stamp |
| KtifyClient.OnlyTooManyRequestsStamps | src/main/kotlin/ee/bjarn/ktify/Ktify.kt:56-57 | only a 429 sets the stamp; for a status below 400 the handler adds no exception and the original one propagates |
| KtifyClient.Ktify.constructor | src/main/kotlin/ee/bjarn/ktify/Ktify.kt:34-38 | a new client keeps its credentials and has no rate-limit stamp |
| KtifyClient.Ktify.HandleResponseException | src/main/kotlin/ee/bjarn/ktify/Ktify.kt:52-80 | the stamp is overwritten with the verdict's corrected stamp exactly when the verdict stamps, and otherwise kept; the thrown exception is the verdict's |
| KtifyClient.ScopeValues | src/main/kotlin/ee/bjarn/ktify/Ktify.kt:115 | each scope is replaced by its wire value, in order |
| KtifyClient.SpaceTerminatedIsJoin | src/main/kotlin/ee/bjarn/ktify/Ktify.kt:115 | the map-and-reduce of `value + " "` is the space join followed by one space |
| KtifyClient.ScopesStringIsJoin | src/main/kotlin/ee/bjarn/ktify/Ktify.kt:115 | the scope string is the values joined by single spaces with no trailing space, or "none" for no scopes |
| KtifyClient.AuthorisationScopesParseBack | src/main/kotlin/ee/bjarn/ktify/Ktify.kt:115-148 | for a well-formed scope table, the authorization scope string parses back to the requested scopes |
| KtifyClient.AuthorizationCodeRequest | src/main/kotlin/ee/bjarn/ktify/Ktify.kt:134-139 | the code exchange goes to the token endpoint as a form with Basic credentials |
| KtifyClient.BuildAgreesWithRefresh | src/main/kotlin/ee/bjarn/ktify/Ktify.kt:146-148 | `build` computes the stamp and the scopes exactly as a refresh with the same response would |
| KtifyClient.KtifyBuilder.constructor | src/main/kotlin/ee/bjarn/ktify/Ktify.kt:102-107 | the state is the given UUID text with every `-` removed |
| KtifyClient.KtifyBuilder.GetAuthorisationURL | src/main/kotlin/ee/bjarn/ktify/Ktify.kt:113-117 | the URL is the authorize endpoint with client id, then as scope the encoded space join of the scopes' wire values (or "none" for no scopes), the encoded redirect URI, the state and `response_type=code`, in that order |
| KtifyClient.KtifyBuilder.FromClientCredentials | src/main/kotlin/ee/bjarn/ktify/Ktify.kt:123-126 | refresh runs first; a failing refresh propagates; otherwise a new client is built on the refreshed credentials |
| KtifyClient.KtifyBuilder.Build | src/main/kotlin/ee/bjarn/ktify/Ktify.kt:133-152 | the code request is sent; on success new credentials hold the response's tokens, its refresh token and stamp expires_in·1000 + now; a failing response or unknown scope propagates |
| Json.AsObject | src/main/kotlin/ee/bjarn/ktify/model/player/CurrentPlayback.kt:128 | `jsonObject` succeeds exactly on objects |
| Json.NestedItemType | src/main/kotlin/ee/bjarn/ktify/model/player/CurrentPlayback.kt:128 | `element["item"]?.jsonObject?.get("type")?.jsonPrimitive?.content` throws on a non-object element or item or a non-primitive type, is null when item or type is missing, and is otherwise the type's content |
| Playback.SelectPlaybackDeserializer | src/main/kotlin/ee/bjarn/ktify/model/player/CurrentPlayback.kt:126-134 | "track" selects CurrentPlayingTrack, "episode" CurrentPlayingEpisode, any other or missing type CurrentPlaybackNull; the selector throws exactly when the nested read throws |
| Playback.MissingItemTypeSelectsNull | src/main/kotlin/ee/bjarn/ktify/model/player/CurrentPlayback.kt:128-131 | a missing item or an item without a type selects CurrentPlaybackNull |
| Playback.NonObjectItemThrows | src/main/kotlin/ee/bjarn/ktify/model/player/CurrentPlayback.kt:128 | a present non-object item, JSON null included, makes the selector throw |
| Playback.OnlyItemTypeMatters | src/main/kotlin/ee/bjarn/ktify/model/player/CurrentPlayback.kt:128 | two payloads with the same item.type select the same variant whatever else they hold |
| Playback.RepeatStateFromName | src/main/kotlin/ee/bjarn/ktify/model/player/CurrentPlayback.kt:136-146 | a decoded name is the wire name of the state it decodes to |
| Playback.RepeatStateNamesRoundTrip | src/main/kotlin/ee/bjarn/ktify/model/player/CurrentPlayback.kt:136-146 | every state's wire name decodes back to it, and exactly track, context and off decode |
| Playback.RepeatStateNamesInjective | src/main/kotlin/ee/bjarn/ktify/model/player/CurrentPlayback.kt:136-146 | the three wire names are distinct |
| Playback.AnyAsEmptyStringDecode | src/main/kotlin/ee/bjarn/ktify/model/player/CurrentPlayback.kt:149-151 | any input decodes to "" |
| Playback.AnyAsEmptyStringEncode | src/main/kotlin/ee/bjarn/ktify/model/player/CurrentPlayback.kt:156-158 | any value is written as the string "" |
| Playback.AnyAsEmptyStringForgets | src/main/kotlin/ee/bjarn/ktify/model/player/CurrentPlayback.kt:148-159 | a round trip through the serializer loses the value |
| KtifyObjects.KindOfName | src/main/kotlin/ee/bjarn/ktify/model/KtifyObject.kt:24-32 | each of the six names selects its own variant, and every other name selects RawKtifyObject |
| KtifyObjects.SelectObjectDeserializer | src/main/kotlin/ee/bjarn/ktify/model/KtifyObject.kt:22-33 | the choice comes from the nested item.type, a missing one gives RawKtifyObject, and the selector throws exactly when the nested read throws |
| KtifyObjects.KindOfNameInjective | src/main/kotlin/ee/bjarn/ktify/model/KtifyObject.kt:25-31 | distinct names select distinct named variants |
| KtifyObjects.TopLevelTypeIgnored | src/main/kotlin/ee/bjarn/ktify/model/KtifyObject.kt:24 | a payload without item, whatever its top-level type, selects RawKtifyObject |
| KtifyObjects.NonObjectItemThrows | src/main/kotlin/ee/bjarn/ktify/model/KtifyObject.kt:24 | a present non-object item makes the selector throw |
| Playlists.SelectPlaylistTrackDeserializer | src/main/kotlin/io/github/warriorzz/ktify/model/Playlist.kt:66-70 | a present "track" key selects PlaylistTrack, an absent one PlaylistTrackRef, and a non-object throws |
| Playlists.NullTrackIsFullEntry | src/main/kotlin/io/github/warriorzz/ktify/model/Playlist.kt:68 | a "track" key holding JSON null still selects PlaylistTrack |
| Playlists.AsPlaylistTrack | src/main/kotlin/io/github/warriorzz/ktify/model/Playlist.kt:57 | returns the receiver exactly when it is a PlaylistTrack, otherwise null |
| Playlists.AsPlaylistTrackRef | src/main/kotlin/io/github/warriorzz/ktify/model/Playlist.kt:63 | returns the receiver exactly when it is a PlaylistTrackRef, otherwise null |
| Playlists.ExactlyOneAccessor | src/main/kotlin/io/github/warriorzz/ktify/model/Playlist.kt:50-64 | exactly one of the two accessors is non-null for every entry |
| Search.PhraseString | src/main/kotlin/io/github/warriorzz/ktify/search/Search.kt:146 | an explicit phrase prints in parentheses, any other as its raw value |
| Search.Not | src/main/kotlin/io/github/warriorzz/ktify/search/Search.kt:133 | `not()` is a non-explicit phrase "NOT " + raw value |
| Search.Append | src/main/kotlin/io/github/warriorzz/ktify/search/Search.kt:139 | `append` is a non-explicit phrase raw value + " " + text |
| Search.NotAndAppendDropParentheses | src/main/kotlin/io/github/warriorzz/ktify/search/Search.kt:133-146 | `not` and `append` of an explicit phrase lose its parentheses |
| Search.EncodeRemovesSpacesAndIsIdempotent | src/main/kotlin/io/github/warriorzz/ktify/search/Search.kt:144 | an encoded value holds no space, and encoding twice equals encoding once |
| Search.PlusPhrase | src/main/kotlin/io/github/warriorzz/ktify/search/Search.kt:155 | adding an EmptyPhrase returns the left operand; any other right operand joins the two printed forms with a space |
| Search.EmptyPhraseIdentities | src/main/kotlin/io/github/warriorzz/ktify/search/Search.kt:155-160 | EmptyPhrase is a right identity, EmptyPhrase + p is p, and Empty + Empty is Empty |
| Search.EmptyPhraseOnTheLeftLeavesASpace | src/main/kotlin/io/github/warriorzz/ktify/search/Search.kt:155 | an EmptyPhrase typed as Phrase on the left leaves a leading space |
| Search.PhraseStrings | src/main/kotlin/io/github/warriorzz/ktify/search/Search.kt:107 | the printed form of each phrase, in order |
| Search.KeywordPhrase | src/main/kotlin/io/github/warriorzz/ktify/search/Search.kt:106-108 | with no EmptyPhrase among the keywords the reduce is empty exactly for no keywords; two or more keywords ending in a non-empty phrase give a non-explicit phrase |
| Search.NotKeywordPhraseAsWritten | src/main/kotlin/io/github/warriorzz/ktify/search/Search.kt:109-111 | the reduce as written is empty exactly for no not-keywords or a lone EmptyPhrase, and a non-explicit phrase for two or more |
| Search.NotKeywordPhrase | src/main/kotlin/io/github/warriorzz/ktify/search/Search.kt:109-111 | the corrected reduce is empty exactly for no not-keywords, and otherwise a non-explicit phrase |
| Search.Negations | src/main/kotlin/io/github/warriorzz/ktify/search/Search.kt:110 | "NOT " + raw value of each phrase, in order |
| Search.KeywordPhraseIsJoin | src/main/kotlin/io/github/warriorzz/ktify/search/Search.kt:106-108 | the keyword reduce prints as the printed keywords joined by single spaces |
| Search.NotKeywordPhraseNegatesAll | src/main/kotlin/io/github/warriorzz/ktify/search/Search.kt:109-111 | the corrected reduce prints every not-keyword negated, joined by spaces |
| Search.NotKeywordsAsWrittenKeepFirst | src/main/kotlin/io/github/warriorzz/ktify/search/Search.kt:109-111 | for any non-empty list, the reduce as written prints the first not-keyword as it stands followed by every later one negated, joined by spaces |
| Search.SingleYearPrintsOnce | src/main/kotlin/io/github/warriorzz/ktify/search/Search.kt:166-168 | a one-year range prints that year once, and it reads back |
| Search.YearRangeReadsBack | src/main/kotlin/io/github/warriorzz/ktify/search/Search.kt:168 | a proper range of non-negative years prints "B-E", which splits back into begin and end |
| Search.GetYears | src/main/kotlin/io/github/warriorzz/ktify/search/Search.kt:168 | the year text starts with the begin year, and is exactly that year precisely when begin equals end |
| Search.FragmentsConcat | src/main/kotlin/io/github/warriorzz/ktify/search/Search.kt:119 | concatenated filter fragments are still space-terminated fragments, and empty only when both are |
| Search.Fragment | src/main/kotlin/io/github/warriorzz/ktify/search/Search.kt:112-118 | a fragment is empty exactly when its filter is unset, and otherwise ends in a space |
| Search.Filters | src/main/kotlin/io/github/warriorzz/ktify/search/Search.kt:112-119 | the filter text is empty exactly when no filter is set, and begins with the quoted genre when one is given |
| Search.FiltersSpelledOut | src/main/kotlin/io/github/warriorzz/ktify/search/Search.kt:112-119 | the filter text is the genre, artist, album, track, year, hipster and new fragments, in that order, each present exactly when set |
| Search.QueryWordsSpellOut | src/main/kotlin/io/github/warriorzz/ktify/search/Search.kt:119 | with no EmptyPhrase among the keywords, keywords plus not-keywords print as the keyword join followed by the not-keyword text after one space |
| Search.BuiltQuery | src/main/kotlin/io/github/warriorzz/ktify/search/Search.kt:105-121 | the corrected query is the encoding of the keyword words, every not-keyword negated, and the filter text |
| Search.BuiltQueryAsWritten | src/main/kotlin/io/github/warriorzz/ktify/search/Search.kt:105-121 | the written query is the encoding of the keyword words, the first not-keyword as it stands and the rest negated, and the filter text |
| Search.SearchQueueBuilder.constructor | src/main/kotlin/io/github/warriorzz/ktify/search/Search.kt:55-100 | a new builder has no keywords, no filters and both tags off |
| Search.SearchQueueBuilder.Build | src/main/kotlin/io/github/warriorzz/ktify/search/Search.kt:105-121 | the corrected build: a plain phrase free of spaces which, when no keyword is an EmptyPhrase, is the encoding of the printed keywords, every not-keyword negated, and the filter text, joined by spaces (see Left out) |
| Search.SearchQueueBuilder.BuildAsWritten | src/main/kotlin/io/github/warriorzz/ktify/search/Search.kt:105-121 | `build()` as written: a plain phrase free of spaces which, when no keyword is an EmptyPhrase, is the encoding of the printed keywords, the first not-keyword as it stands and the rest negated, and the filter text, joined by spaces |
| Search.LoneNotKeywordIsNegated | src/main/kotlin/io/github/warriorzz/ktify/search/Search.kt:109-120 | a lone not-keyword becomes " NOT v " before encoding with the corrected reduce, and " v " as written |
| Search.LoneNotKeywordQuery | src/main/kotlin/io/github/warriorzz/ktify/search/Search.kt:109-120 | the query for a single not-keyword v is "%20v%20" as written and "%20NOT%20v%20" when corrected |
| Search.ObjectTypeName | src/main/kotlin/io/github/warriorzz/ktify/model/util/Context.kt:16-38 | the wire names hold no quote and no comma |
| Search.ObjectTypeNamesInjective | src/main/kotlin/io/github/warriorzz/ktify/model/util/Context.kt:16-38 | distinct object types have distinct wire names |
| Search.TypeParamIsJoinOfNames | src/main/kotlin/io/github/warriorzz/ktify/search/Search.kt:36-40 | joining the JSON-encoded types and removing the quotes gives the wire names joined by commas |
| Search.TypeParamSplitsBack | src/main/kotlin/io/github/warriorzz/ktify/search/Search.kt:36-40 | the type parameter splits back into the requested types' names |
| Search.TypeParam | src/main/kotlin/io/github/warriorzz/ktify/search/Search.kt:36-40 | the type parameter holds no quote |
| Search.TypeParamSplitsBackWhenGiven | src/main/kotlin/io/github/warriorzz/ktify/search/Search.kt:36-40 | a non-empty type list gives a parameter that splits at commas back into the types' wire names |
| Search.LimitParam | src/main/kotlin/io/github/warriorzz/ktify/search/Search.kt:41 | the limit sent is the given one in 1..50 and 20 otherwise |
| Search.OffsetParam | src/main/kotlin/io/github/warriorzz/ktify/search/Search.kt:42 | the offset sent is the given one when offset ≥ 0 and offset + limit ≤ 1000 (exact sum), and 0 otherwise |
| Search.OffsetParamAsWritten | src/main/kotlin/io/github/warriorzz/ktify/search/Search.kt:42 | the written offset reads back as the given offset when offset ≥ 0 and the wrapping `Int` sum offset + limit is at most 1000, and as 0 otherwise |
| Search.OffsetParamsAgreeWithoutOverflow | src/main/kotlin/io/github/warriorzz/ktify/search/Search.kt:42 | the written `Int` check agrees with the exact one whenever offset + limit fits in 32 bits |
| Search.OffsetOverflowPassesTheCheck | src/main/kotlin/io/github/warriorzz/ktify/search/Search.kt:42 | offset 2147483647 with limit 1 is sent as written and replaced by 0 when corrected |
| Search.SearchParametersShape | src/main/kotlin/io/github/warriorzz/ktify/search/Search.kt:35-48 | q, type, limit, offset are always sent in that order, then include_external and market only when given |
| Search.SearchParameters | src/main/kotlin/io/github/warriorzz/ktify/search/Search.kt:35-48 | four to six entries: q first, then a type entry that splits back, a limit that reads back clamped to 1..50 or 20, and an offset that reads back by the corrected check |
| Search.KeysOfSearchEntries | src/main/kotlin/io/github/warriorzz/ktify/search/Search.kt:35-48 | the keys are q, type, limit, offset, then include_external and market when given |
| Search.OptionalKeys | src/main/kotlin/io/github/warriorzz/ktify/search/Search.kt:43-48 | include_external and market are among the keys exactly when given |
| Search.OptionalSearchParameters | src/main/kotlin/io/github/warriorzz/ktify/search/Search.kt:43-48 | include_external and market are sent exactly when given |
| Search.SearchItem | src/main/kotlin/io/github/warriorzz/ktify/search/Search.kt:21-50 | a typed GET to `search`, no scope, carrying the built query and the clamped parameters |
| Search.SearchRequest | src/main/kotlin/io/github/warriorzz/ktify/search/Search.kt:32-49 | the builder block yields a GET to the given URL whose query parameters are exactly the given entries, in order, with no header and no body |
| Endpoints.Present | src/main/kotlin/ee/bjarn/ktify/tracks/Tracks.kt:251-294 | the guarded calls add at most one entry per name |
| Endpoints.PresentSent | src/main/kotlin/ee/bjarn/ktify/tracks/Tracks.kt:251-294 | every given value is sent under its own name |
| Endpoints.PresentOnlyGiven | src/main/kotlin/ee/bjarn/ktify/tracks/Tracks.kt:251-294 | every entry sent is a given value under its own name |
| Endpoints.NothingGivenNothingSent | src/main/kotlin/ee/bjarn/ktify/tracks/Tracks.kt:251-294 | with no value given nothing is added |
| Endpoints.PresentOne | src/main/kotlin/ee/bjarn/ktify/player/KtifyPlayer.kt:115-117 | a single guarded call adds its entry exactly when the value is given |
| Endpoints.PresentThree | src/main/kotlin/ee/bjarn/ktify/tracks/Tracks.kt:70-78 | three guarded calls add the given entries in order |
| Endpoints.IntParam | src/main/kotlin/ee/bjarn/ktify/tracks/Tracks.kt:74-77 | an `Int` parameter is sent exactly when given, as text that reads back as the value |
| Endpoints.NewRequest | src/main/kotlin/ee/bjarn/ktify/tracks/Tracks.kt:25-26 | a fresh block holds only the method and the URL |
| Endpoints.AddPresentParameters | src/main/kotlin/ee/bjarn/ktify/tracks/Tracks.kt:251-294 | the guarded calls append exactly the given values, in order, and change nothing else |
| Tracks.IdsParamSplitsBack | src/main/kotlin/ee/bjarn/ktify/tracks/Tracks.kt:95-147 | the ids parameter splits back into the first `max` ids, in their order |
| Tracks.IdsParam | src/main/kotlin/ee/bjarn/ktify/tracks/Tracks.kt:95 | the ids parameter is empty for no ids or a zero cap, and otherwise starts with the first id |
| Tracks.SeveralTracksKeepsAllIds | src/main/kotlin/ee/bjarn/ktify/tracks/Tracks.kt:46 | `getSeveralTracks` sends every id |
| Tracks.GetTrack | src/main/kotlin/ee/bjarn/ktify/tracks/Tracks.kt:18-31 | a GET of `tracks/{id}`, no scope, market only when given |
| Tracks.GetSeveralTracks | src/main/kotlin/ee/bjarn/ktify/tracks/Tracks.kt:37-51 | a GET of `tracks` with all ids comma-joined, no scope |
| Tracks.GetSavedTracks | src/main/kotlin/ee/bjarn/ktify/tracks/Tracks.kt:59-80 | a GET of `me/tracks` needing USER_LIBRARY_READ, with market, limit and offset each only when given |
| Tracks.LibraryIdsCall | src/main/kotlin/ee/bjarn/ktify/tracks/Tracks.kt:86-132 | a library call sends the first 50 ids and names its scope |
| Tracks.SaveTracks | src/main/kotlin/ee/bjarn/ktify/tracks/Tracks.kt:86-97 | a PUT of `me/tracks` needing USER_LIBRARY_MODIFY with at most 50 ids |
| Tracks.RemoveSavedTracks | src/main/kotlin/ee/bjarn/ktify/tracks/Tracks.kt:103-114 | a DELETE of `me/tracks` needing USER_LIBRARY_MODIFY with at most 50 ids |
| Tracks.ContainsSavedTracks | src/main/kotlin/ee/bjarn/ktify/tracks/Tracks.kt:121-132 | a GET of `me/tracks/contains` needing USER_LIBRARY_READ with at most 50 ids |
| Tracks.GetSeveralAudioFeatures | src/main/kotlin/ee/bjarn/ktify/tracks/Tracks.kt:139-149 | a GET of `audio-features` with at most 100 ids, no scope |
| Tracks.GetAudioFeatures | src/main/kotlin/ee/bjarn/ktify/tracks/Tracks.kt:156-165 | a GET of `audio-features/{id}`, no scope |
| Tracks.GetAudioAnalysis | src/main/kotlin/ee/bjarn/ktify/tracks/Tracks.kt:172-181 | a GET of `audio-analysis/{id}`, no scope |
| Tracks.SeedValue | src/main/kotlin/ee/bjarn/ktify/tracks/Tracks.kt:247-249 | a seed parameter is present exactly for a non-empty list |
| Tracks.SeedParameters | src/main/kotlin/ee/bjarn/ktify/tracks/Tracks.kt:247-249 | the non-empty seed lists are sent comma-joined, in the order artists, genres, tracks |
| Tracks.GetRecommendations | src/main/kotlin/ee/bjarn/ktify/tracks/Tracks.kt:189-296 | a seed total outside 1..5 throws InputException naming the three seed parameters, and only then; otherwise a GET of `recommendations` with the seeds and the given options |
| Tracks.OptionsSentExactlyWhenGiven | src/main/kotlin/ee/bjarn/ktify/tracks/Tracks.kt:251-294 | each tuning option is sent exactly when given, under its own name |
| Tracks.PrefixedOptions | src/main/kotlin/ee/bjarn/ktify/tracks/Tracks.kt:251-294 | limit, market and the options after them are sent exactly when given, and nothing else is |
| Player.CurrentPlaybackRequest | src/main/kotlin/ee/bjarn/ktify/player/KtifyPlayer.kt:22-34 | a GET of `me/player` with market when given, then `additional_types=track,episode` |
| Player.GetCurrentPlayback | src/main/kotlin/ee/bjarn/ktify/player/KtifyPlayer.kt:21-46 | the probe is a status call needing USER_READ_PLAYBACK_STATE; the fetch happens exactly when it answers 200, repeats the same request without a scope, and decodes only with is_playing |
| Player.TransferPlayback | src/main/kotlin/ee/bjarn/ktify/player/KtifyPlayer.kt:54-63 | a PUT of `me/player` with device_ids and play, needing USER_MODIFY_PLAYBACK_STATE |
| Player.GetAvailableDevices | src/main/kotlin/ee/bjarn/ktify/player/KtifyPlayer.kt:69-77 | a typed GET of `me/player/devices` needing USER_READ_PLAYBACK_STATE |
| Player.GetCurrentPlayingTrack | src/main/kotlin/ee/bjarn/ktify/player/KtifyPlayer.kt:84-96 | a GET of `me/player/currently-playing` needing USER_READ_CURRENTLY_PLAYING, decoded only with is_playing |
| Player.DeviceCall | src/main/kotlin/ee/bjarn/ktify/player/KtifyPlayer.kt:145-155 | a device call's own parameters come first, then device_id when given, needing USER_MODIFY_PLAYBACK_STATE |
| Player.DeviceIdSentExactlyWhenGiven | src/main/kotlin/ee/bjarn/ktify/player/KtifyPlayer.kt:115-117 | device_id is sent exactly when given, last and after the call's own parameters |
| Player.ParsedAll | src/main/kotlin/ee/bjarn/ktify/player/KtifyPlayer.kt:126 | all uris parse, in order, or the failure of the first one that does not |
| Player.ParseUris | src/main/kotlin/ee/bjarn/ktify/player/KtifyPlayer.kt:126 | the loop over the uris equals `ParsedAll` |
| Player.ParsedAllStopsAt | src/main/kotlin/ee/bjarn/ktify/player/KtifyPlayer.kt:126 | the first uri that fails to parse decides the failure |
| Player.ParsedAllSucceeds | src/main/kotlin/ee/bjarn/ktify/player/KtifyPlayer.kt:126 | when every uri parses, the results are kept in order |
| Player.PlaybackBody | src/main/kotlin/ee/bjarn/ktify/player/KtifyPlayer.kt:118-136 | the body holds exactly the given fields among context_uri, uris, offset, position_ms, each with its value |
| Player.StartPlayback | src/main/kotlin/ee/bjarn/ktify/player/KtifyPlayer.kt:103-138 | a uri that fails to parse throws before any request; otherwise a PUT of `me/player/play` with device_id when given and that body |
| Player.PausePlayback | src/main/kotlin/ee/bjarn/ktify/player/KtifyPlayer.kt:145-155 | a PUT of `me/player/pause`, device_id when given |
| Player.SkipToNextTrack | src/main/kotlin/ee/bjarn/ktify/player/KtifyPlayer.kt:162-172 | a POST of `me/player/next`, device_id when given |
| Player.SkipToPreviousTrack | src/main/kotlin/ee/bjarn/ktify/player/KtifyPlayer.kt:179-189 | a POST of `me/player/previous`, device_id when given |
| Player.SeekToPosition | src/main/kotlin/ee/bjarn/ktify/player/KtifyPlayer.kt:197-208 | a PUT of `me/player/seek` with position_ms, then device_id when given |
| Player.RepeatParam | src/main/kotlin/ee/bjarn/ktify/player/KtifyPlayer.kt:222 | the state parameter is the bare wire name, which decodes back to the state |
| Player.SetRepeatMode | src/main/kotlin/ee/bjarn/ktify/player/KtifyPlayer.kt:216-227 | a PUT of `me/player/repeat` with the wire name, then device_id when given |
| Player.SetVolume | src/main/kotlin/ee/bjarn/ktify/player/KtifyPlayer.kt:235-249 | a volume outside 0..100 answers BadRequest without a request, and only then; otherwise a PUT of `me/player/volume` |
| Player.ToggleShufflePlayback | src/main/kotlin/ee/bjarn/ktify/player/KtifyPlayer.kt:257-268 | a PUT of `me/player/shuffle` with state true or false, then device_id when given |
| Player.AddItemToQueue | src/main/kotlin/ee/bjarn/ktify/player/KtifyPlayer.kt:324-335 | a POST of `me/player/queue` with the uri, then device_id when given |
| Player.RecentLimit | src/main/kotlin/ee/bjarn/ktify/player/KtifyPlayer.kt:290-292 | limit is sent only when in 1..50 |
| Player.RecentParameters | src/main/kotlin/ee/bjarn/ktify/player/KtifyPlayer.kt:290-298 | limit when in 1..50, then after and before each only when given |
| Player.GetRecentlyPlayedTracks | src/main/kotlin/ee/bjarn/ktify/player/KtifyPlayer.kt:277-319 | with neither after nor before, null without any request; otherwise a probe, and the fetch exactly when it answers 200, both needing USER_READ_RECENTLY_PLAYED with the same request |

## Left out

- Transport: the ktor clients, content negotiation and the token-endpoint POSTs are left out. Replies are inputs: a `Response` for the validator and the status probes, a `TokenResponse` or failure for token requests, a reply value for dispatches.
- JSON text is not parsed. JSON is the `Json` datatype, and `Json.parseToJsonElement` on a start-playback uri is a parameter `parse`.
- The clock is a parameter `now`. `refresh()` reads `System.currentTimeMillis()` twice (lines 26 and 34); the model uses one `now` for both.
- Base64 in the Basic Authorization header, `URLEncoder.encode` and `UUID.randomUUID()` are left out. The Basic credentials are kept as the `clientId:clientSecret` text, `urlEncode` is a function parameter, and the UUID text is a constructor argument.
- Coroutines and concurrency are left out; two refreshes running at once are not modelled.
- The `Scope` enum is not part of this model. A scope is its name, and the enum's names and wire values are a `ScopeTable` parameter.
- The ee.bjarn `RequestHelper` is not part of this model. The endpoints return the `Call` they hand to it; the rate-limit check before dispatch and the order of refresh against the recommendation seed check inside it are not captured.
- Dispatch.RequestHelper.MakeRequest: the reply of the typed call is an input of any type, because decoding into Kotlin data classes is left out.
- Data-transfer classes (tracks, albums, episodes, users, audio features and the like) are left out; only the playlist entry keeps its two shapes. `ObjectType` from `io/github/warriorzz/ktify/model/util/Context.kt` is reference data for the search type parameter.
- Tracks.GetRecommendations: seed artists and seed tracks are taken as their ids, which the source reads with `it.id`.
- Tracks.GetRecommendations: the tuning values are `Double` in the source; the model takes each one as the text it would be sent as, or absent.
- Kotlin.ParseInt: `toInt()` accepts non-ASCII Unicode digits; the model accepts only ASCII digits with an optional sign.
- Credentials.RefreshedFields: `expires_in * 1000 + now` is `Long` arithmetic and would wrap only past 2⁶³; the model treats it as exact.
- The three `addItemToQueue` overloads for Track, LinkedTrack and Episode (KtifyPlayer.kt lines 343-359) only pass the item's uri to `AddItemToQueue`, so they are not modelled separately.
- Superseded duplicates are left out: io/github and com/github `Ktify`, com/github `ClientCredentials`, `CurrentPlayback`, `KtifyObject`, `UserProfile` and `player/Player.kt`.
- Search.SearchItem: the caller's `apply` block is the already configured `SearchQueueBuilder` passed in.
- Search.SearchItem: the query it sends uses the corrected not-keyword reduce (see Findings).
- KtifyClient.Validate: the stamp uses the exact product Retry-After·1000 rather than the wrapping `Int` product of the source (see Findings); the two agree for a header within ±2147483, by TooManyRequestsStampsAsWritten, and RateLimitStampAsWritten models the written product.
- KtifyClient.Ktify.HandleResponseException: stores the stamp of Validate, so it uses the exact product rather than the wrapping `Int` one (see Findings).
- KtifyClient.TooManyRequestsStamps: states the exact-product stamp; TooManyRequestsStampsAsWritten and ValidatorStampAtOverflow relate it to the written one (see Findings).
- Search.SearchParameters: the offset check uses the exact sum offset + limit, not the wrapping `Int` sum of the source (see Findings); OffsetParamAsWritten models the written check.
- Search.SearchItem: the offset check uses the exact sum, not the wrapping `Int` sum (see Findings).
- Search.SearchQueueBuilder.Build: uses the corrected not-keyword reduce that negates every not-keyword (see Findings); Search.SearchQueueBuilder.BuildAsWritten is `build()` as written.
- Kotlin.UpperAscii: ktor's `toUpperCasePreservingASCIIRules` upper-cases non-ASCII letters too (é to É, dotless ı to I, long ſ to S), while the model keeps every non-ASCII character unchanged, so a scope token such as "user-lıbrary-read", which the source maps to USER_LIBRARY_READ, is refused by the model.
- KtifyClient.ClassifyBody: the decode uses kotlinx.serialization's default, strict `Json`, so a body with both "message" and "error" takes the message branch and then fails on the unknown key with a serialization error, rather than raising RequestException. `BothKeysFailToDecode` states this.
- KtifyClient.NestedErrorEnvelopeFailsToDecode: Spotify's documented error body nests status and message under "error", and the strict decode of that body fails rather than raising RequestException; the model follows the code.

## Findings

| source | as written | input that shows it | evidently intended | confidence | as-written member | corrected member |
|---|---|---|---|---|---|---|
| src/main/kotlin/ee/bjarn/ktify/Ktify.kt:58-59 | the stamp adds `(Retry-After ?: 0) * 1000` computed in 32-bit `Int` | Retry-After 2147484: the stamp wraps to about 24.9 days before now, while the thrown retryAfterMs (a `Long`) is 2147484000 | the stamp lies retryAfterMs after now, as the `Long` product at line 61 computes | not executed | KtifyClient.RateLimitStampWraps | KtifyClient.Validate |
| src/main/kotlin/io/github/warriorzz/ktify/search/Search.kt:110 | `notKeywords.reduce { acc, p -> acc + p.not() }` never negates the first not-keyword | notKeywords = [Phrase("rock")] with nothing else set gives q = "%20rock%20" | every not-keyword is negated: q = "%20NOT%20rock%20" | not executed | Search.LoneNotKeywordQuery | Search.NotKeywordPhraseNegatesAll |
| src/main/kotlin/io/github/warriorzz/ktify/search/Search.kt:42 | `offset + limit <= 1000` is evaluated in 32-bit `Int` | offset = 2147483647, limit = 1: the sum wraps negative, the check passes and offset 2147483647 is sent | offset is sent only when the true sum is at most 1000, otherwise 0 | not executed | Search.OffsetOverflowPassesTheCheck | Search.OffsetParamsAgreeWithoutOverflow |
