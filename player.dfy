/**
 * The player endpoints (ee/bjarn/ktify/player/KtifyPlayer.kt): the guards that answer without a
 * request, the probe-then-fetch pairs, and the parameters and body each request carries.
 *
 * The ee.bjarn `RequestHelper` is not part of this model: an endpoint yields the `Call` it hands
 * over, and where it looks at the status a first call answered with, that status is an input.
 */
module Player {
  import opened Wrappers
  import opened Kotlin
  import opened Json
  import opened Exceptions
  import opened Scopes
  import opened Http
  import opened Endpoints
  import opened Playback

  /** What a status-returning endpoint does: answer at once, or hand a call to the dispatcher. */
  datatype Answer = Respond(status: HttpStatusCode) | Dispatch(call: Call)

  /** `getCurrentPlayback`'s request: market when given, then the additional types. */
  function CurrentPlaybackRequest(baseUrl: string, market: Option<string>): (r: Request)
    ensures r.httpMethod == Get && r.url == baseUrl + "me/player" && r.headers == [] && r.body.None?
    ensures Keys(r.parameters) == (if market.Some? then ["market"] else []) + ["additional_types"]
    ensures r.parameters[|r.parameters| - 1] == ("additional_types", "track,episode")
  {
    PresentOne("market", market);
    Request(Get, baseUrl + "me/player", Present(["market"], [market]) + [("additional_types", "track,episode")], [], None)
  }

  /**
   * `getCurrentPlayback`: a status probe that names USER_READ_PLAYBACK_STATE, and only when it
   * answers 200 a fetch of the same request that names no scope and decodes only a body with
   * "is_playing".
   */
  method GetCurrentPlayback(baseUrl: string, market: Option<string>, probeStatus: HttpStatusCode)
    returns (probe: Call, fetch: Option<Call>)
    ensures probe == Call(StatusOnly, Some(UserReadPlaybackState), CurrentPlaybackRequest(baseUrl, market))
    ensures fetch.Some? <==> probeStatus == OK
    ensures fetch.Some? ==> fetch.value == Call(Marker("is_playing"), None, probe.request)
  {
    var builder := NewRequest(Get, baseUrl + "me/player");
    AddPresentParameters(builder, ["market"], [market]);
    builder.Parameter("additional_types", "track,episode");
    probe := Call(StatusOnly, Some(UserReadPlaybackState), builder.Build());
    if probeStatus != OK {
      return probe, None;
    }
    var again := NewRequest(Get, baseUrl + "me/player");
    AddPresentParameters(again, ["market"], [market]);
    again.Parameter("additional_types", "track,episode");
    fetch := Some(Call(Marker("is_playing"), None, again.Build()));
  }

  /** `transferPlayback`: the device as a one-element JSON-like list, and whether to play. */
  method TransferPlayback(baseUrl: string, deviceId: string, play: bool) returns (call: Call)
    ensures call == Call(StatusOnly, Some(UserModifyPlaybackState),
                         Request(Put, baseUrl + "me/player",
                                 [("device_ids", "{device_ids:[\"" + deviceId + "\"]}"),
                                  ("play", if play then "true" else "false")], [], None))
  {
    var builder := NewRequest(Put, baseUrl + "me/player");
    builder.Parameter("device_ids", "{device_ids:[\"" + deviceId + "\"]}");
    builder.Parameter("play", if play then "true" else "false");
    call := Call(StatusOnly, Some(UserModifyPlaybackState), builder.Build());
  }

  /** `getAvailableDevices`. */
  method GetAvailableDevices(baseUrl: string) returns (call: Call)
    ensures call == Call(Typed, Some(UserReadPlaybackState), Request(Get, baseUrl + "me/player/devices", [], [], None))
  {
    var builder := NewRequest(Get, baseUrl + "me/player/devices");
    call := Call(Typed, Some(UserReadPlaybackState), builder.Build());
  }

  /** `getCurrentPlayingTrack`: decoded only when the body has "is_playing". */
  method GetCurrentPlayingTrack(baseUrl: string, market: Option<string>) returns (call: Call)
    ensures call == Call(Marker("is_playing"), Some(UserReadCurrentlyPlaying),
                         Request(Get, baseUrl + "me/player/currently-playing", Present(["market"], [market]), [], None))
  {
    var builder := NewRequest(Get, baseUrl + "me/player/currently-playing");
    AddPresentParameters(builder, ["market"], [market]);
    call := Call(Marker("is_playing"), Some(UserReadCurrentlyPlaying), builder.Build());
  }

  // ---------------------------------------------------------------------------------------------
  // The endpoints that take an optional device

  /**
   * A playback-modifying call: its own parameters, then "device_id" when a device is given.
   * Every such call names USER_MODIFY_PLAYBACK_STATE and returns the status.
   */
  method DeviceCall(httpMethod: HttpMethod, url: string, own: Entries, deviceId: Option<string>,
                    body: Option<JsonObject>)
    returns (call: Call)
    ensures call == Call(StatusOnly, Some(UserModifyPlaybackState),
                         Request(httpMethod, url, own + Present(["device_id"], [deviceId]), [], body))
  {
    var builder := NewRequest(httpMethod, url);
    builder.AddParameters(own);
    AddPresentParameters(builder, ["device_id"], [deviceId]);
    if body.Some? {
      builder.SetBody(body.value);
    }
    call := Call(StatusOnly, Some(UserModifyPlaybackState), builder.Build());
  }

  /** "device_id" is sent exactly when a device is given, with that device, and after the call's own parameters. */
  lemma DeviceIdSentExactlyWhenGiven(own: Entries, deviceId: Option<string>)
    requires "device_id" !in Keys(own)
    ensures var ps := own + Present(["device_id"], [deviceId]);
      && ps[..|own|] == own
      && ("device_id" in Keys(ps) <==> deviceId.Some?)
      && (deviceId.Some? ==> ps[|ps| - 1] == ("device_id", deviceId.value))
  {
    PresentOne("device_id", deviceId);
    var ps := own + Present(["device_id"], [deviceId]);
    if "device_id" in Keys(ps) {
      var i :| 0 <= i < |Keys(ps)| && Keys(ps)[i] == "device_id";
      if i < |own| {
        assert false;
      } else {
        assert deviceId.Some?;
      }
    }
    if deviceId.Some? {
      assert Keys(ps)[|ps| - 1] == "device_id";
    }
  }

  /** The JSON array `buildJsonArray { uris.forEach { add(parse(it)) } }` builds; the first text that fails to parse throws. */
  function ParsedAll(uris: seq<string>, parse: string -> Result<Json, Failure>): (r: Result<seq<Json>, Failure>)
    ensures r.Success? <==> forall i :: 0 <= i < |uris| ==> parse(uris[i]).Success?
    ensures r.Success? ==> |r.value| == |uris| && forall i :: 0 <= i < |uris| ==> r.value[i] == parse(uris[i]).value
    ensures r.Failure? ==> exists i :: 0 <= i < |uris| && parse(uris[i]) == Failure(r.error)
                                      && forall j :: 0 <= j < i ==> parse(uris[j]).Success?
  {
    if |uris| == 0 then Success([])
    else
      match parse(uris[0])
      case Failure(e) => Failure(e)
      case Success(first) =>
        match ParsedAll(uris[1..], parse)
        case Failure(e) =>
          var k :| 0 <= k < |uris[1..]| && parse(uris[1..][k]) == Failure(e)
                   && forall j :: 0 <= j < k ==> parse(uris[1..][j]).Success?;
          assert parse(uris[k + 1]) == Failure(e);
          Failure(e)
        case Success(rest) => Success([first] + rest)
  }

  /** The `forEach` loop itself. */
  method ParseUris(uris: seq<string>, parse: string -> Result<Json, Failure>) returns (r: Result<seq<Json>, Failure>)
    ensures r == ParsedAll(uris, parse)
  {
    var items: seq<Json> := [];
    for i := 0 to |uris|
      invariant |items| == i && forall j :: 0 <= j < i ==> parse(uris[j]) == Success(items[j])
    {
      var parsed := parse(uris[i]);
      if parsed.Failure? {
        ParsedAllStopsAt(uris, parse, i);
        return Failure(parsed.error);
      }
      items := items + [parsed.value];
    }
    ParsedAllSucceeds(uris, parse, items);
    r := Success(items);
  }

  lemma {:induction false} ParsedAllStopsAt(uris: seq<string>, parse: string -> Result<Json, Failure>, i: nat)
    requires i < |uris| && parse(uris[i]).Failure?
    requires forall j :: 0 <= j < i ==> parse(uris[j]).Success?
    ensures ParsedAll(uris, parse) == Failure(parse(uris[i]).error)
  {
    if i > 0 {
      assert uris[1..][i - 1] == uris[i];
      ParsedAllStopsAt(uris[1..], parse, i - 1);
    }
  }

  lemma {:induction false} ParsedAllSucceeds(uris: seq<string>, parse: string -> Result<Json, Failure>, items: seq<Json>)
    requires |items| == |uris| && forall j :: 0 <= j < |uris| ==> parse(uris[j]) == Success(items[j])
    ensures ParsedAll(uris, parse) == Success(items)
  {
    if |uris| > 0 {
      ParsedAllSucceeds(uris[1..], parse, items[1..]);
      assert items == [items[0]] + items[1..];
    }
  }

  /** The body of `startPlayback`: exactly the given fields among context_uri, uris, offset and position_ms. */
  function PlaybackBody(contextUri: Option<string>, uris: Option<seq<Json>>, offset: Option<JsonObject>,
                        positionMs: Option<Int32>): (body: JsonObject)
    ensures "context_uri" in body <==> contextUri.Some?
    ensures "uris" in body <==> uris.Some?
    ensures "offset" in body <==> offset.Some?
    ensures "position_ms" in body <==> positionMs.Some?
    ensures body.Keys <= {"context_uri", "uris", "offset", "position_ms"}
    ensures contextUri.Some? ==> body["context_uri"] == JStr(contextUri.value)
    ensures uris.Some? ==> body["uris"] == JArr(uris.value)
    ensures offset.Some? ==> body["offset"] == JObj(offset.value)
    ensures positionMs.Some? ==> body["position_ms"] == JNum(IntLiteral(positionMs.value))
  {
    var withContext: JsonObject := if contextUri.Some? then map["context_uri" := JStr(contextUri.value)] else map[];
    var withUris := if uris.Some? then withContext["uris" := JArr(uris.value)] else withContext;
    var withOffset := if offset.Some? then withUris["offset" := JObj(offset.value)] else withUris;
    if positionMs.Some? then withOffset["position_ms" := JNum(IntLiteral(positionMs.value))] else withOffset
  }

  /**
   * `startPlayback`: "device_id" when given, and the body of the given fields; a uri that does
   * not parse as JSON throws before anything is sent.
   */
  method StartPlayback(baseUrl: string, deviceId: Option<string>, contextUri: Option<string>,
                       uris: Option<seq<string>>, offset: Option<JsonObject>, positionMs: Option<Int32>,
                       parse: string -> Result<Json, Failure>)
    returns (result: Result<Call, Failure>)
    ensures uris.Some? && ParsedAll(uris.value, parse).Failure? ==> result == Failure(ParsedAll(uris.value, parse).error)
    ensures (uris.None? || ParsedAll(uris.value, parse).Success?) ==>
      result == Success(Call(StatusOnly, Some(UserModifyPlaybackState),
        Request(Put, baseUrl + "me/player/play", Present(["device_id"], [deviceId]),
                [], Some(PlaybackBody(contextUri, if uris.Some? then Some(ParsedAll(uris.value, parse).value) else None,
                                      offset, positionMs)))))
  {
    var items: Option<seq<Json>> := None;
    if uris.Some? {
      var parsed := ParseUris(uris.value, parse);
      if parsed.Failure? {
        return Failure(parsed.error);
      }
      items := Some(parsed.value);
    }
    var call := DeviceCall(Put, baseUrl + "me/player/play", [], deviceId,
                           Some(PlaybackBody(contextUri, items, offset, positionMs)));
    assert [] + Present(["device_id"], [deviceId]) == Present(["device_id"], [deviceId]);
    result := Success(call);
  }

  /** `pausePlayback`. */
  method PausePlayback(baseUrl: string, deviceId: Option<string>) returns (call: Call)
    ensures call == Call(StatusOnly, Some(UserModifyPlaybackState),
                         Request(Put, baseUrl + "me/player/pause", Present(["device_id"], [deviceId]), [], None))
  {
    call := DeviceCall(Put, baseUrl + "me/player/pause", [], deviceId, None);
    assert [] + Present(["device_id"], [deviceId]) == Present(["device_id"], [deviceId]);
  }

  /** `skipToNextTrack`: a POST. */
  method SkipToNextTrack(baseUrl: string, deviceId: Option<string>) returns (call: Call)
    ensures call == Call(StatusOnly, Some(UserModifyPlaybackState),
                         Request(Post, baseUrl + "me/player/next", Present(["device_id"], [deviceId]), [], None))
  {
    call := DeviceCall(Post, baseUrl + "me/player/next", [], deviceId, None);
    assert [] + Present(["device_id"], [deviceId]) == Present(["device_id"], [deviceId]);
  }

  /** `skipToPreviousTrack`: a POST. */
  method SkipToPreviousTrack(baseUrl: string, deviceId: Option<string>) returns (call: Call)
    ensures call == Call(StatusOnly, Some(UserModifyPlaybackState),
                         Request(Post, baseUrl + "me/player/previous", Present(["device_id"], [deviceId]), [], None))
  {
    call := DeviceCall(Post, baseUrl + "me/player/previous", [], deviceId, None);
    assert [] + Present(["device_id"], [deviceId]) == Present(["device_id"], [deviceId]);
  }

  /** `seekToPosition`: the position as text, then the device. */
  method SeekToPosition(baseUrl: string, positionMs: Int32, deviceId: Option<string>) returns (call: Call)
    ensures call == Call(StatusOnly, Some(UserModifyPlaybackState),
                         Request(Put, baseUrl + "me/player/seek",
                                 [("position_ms", IntLiteral(positionMs))] + Present(["device_id"], [deviceId]), [], None))
  {
    call := DeviceCall(Put, baseUrl + "me/player/seek", [("position_ms", IntLiteral(positionMs))], deviceId, None);
  }

  /** The "state" parameter of `setRepeatMode`: the enum encoded as JSON with its quotes removed. */
  function RepeatParam(state: RepeatState): (s: string)
    ensures s == RepeatStateName(state)
    ensures RepeatStateFromName(s) == Some(state)
  {
    UnquoteQuoted(RepeatStateName(state));
    RepeatStateNamesRoundTrip(state, "");
    Replace(Quoted(RepeatStateName(state)), '"', "")
  }

  /** `setRepeatMode`. */
  method SetRepeatMode(baseUrl: string, state: RepeatState, deviceId: Option<string>) returns (call: Call)
    ensures call == Call(StatusOnly, Some(UserModifyPlaybackState),
                         Request(Put, baseUrl + "me/player/repeat",
                                 [("state", RepeatParam(state))] + Present(["device_id"], [deviceId]), [], None))
  {
    call := DeviceCall(Put, baseUrl + "me/player/repeat", [("state", RepeatParam(state))], deviceId, None);
  }

  /** `setVolume`: BadRequest at once outside 0..100, otherwise the volume as text, then the device. */
  method SetVolume(baseUrl: string, volumePercent: Int32, deviceId: Option<string>) returns (answer: Answer)
    ensures answer.Respond? <==> volumePercent < 0 || volumePercent > 100
    ensures answer.Respond? ==> answer.status == BadRequest
    ensures answer.Dispatch? ==>
      answer.call == Call(StatusOnly, Some(UserModifyPlaybackState),
                          Request(Put, baseUrl + "me/player/volume",
                                  [("volume_percent", IntLiteral(volumePercent))] + Present(["device_id"], [deviceId]),
                                  [], None))
  {
    if volumePercent > 100 || volumePercent < 0 {
      return Respond(BadRequest);
    }
    var call := DeviceCall(Put, baseUrl + "me/player/volume", [("volume_percent", IntLiteral(volumePercent))],
                           deviceId, None);
    answer := Dispatch(call);
  }

  /** `toggleShufflePlayback`. */
  method ToggleShufflePlayback(baseUrl: string, shuffleState: bool, deviceId: Option<string>) returns (call: Call)
    ensures call == Call(StatusOnly, Some(UserModifyPlaybackState),
                         Request(Put, baseUrl + "me/player/shuffle",
                                 [("state", if shuffleState then "true" else "false")] + Present(["device_id"], [deviceId]),
                                 [], None))
  {
    call := DeviceCall(Put, baseUrl + "me/player/shuffle", [("state", if shuffleState then "true" else "false")],
                       deviceId, None);
  }

  /** `addItemToQueue`: a POST of the item's uri, then the device. */
  method AddItemToQueue(baseUrl: string, uri: string, deviceId: Option<string>) returns (call: Call)
    ensures call == Call(StatusOnly, Some(UserModifyPlaybackState),
                         Request(Post, baseUrl + "me/player/queue", [("uri", uri)] + Present(["device_id"], [deviceId]),
                                 [], None))
  {
    call := DeviceCall(Post, baseUrl + "me/player/queue", [("uri", uri)], deviceId, None);
  }

  // ---------------------------------------------------------------------------------------------
  // getRecentlyPlayedTracks

  /** The limit is sent only when it lies in 1..50. */
  function RecentLimit(limit: Option<Int32>): (r: Option<string>)
    ensures r.Some? <==> limit.Some? && 1 <= limit.value <= 50
    ensures r.Some? ==> ParseInt(r.value) == Some(limit.value)
  {
    if limit.Some? && 1 <= limit.value <= 50 then IntParam(limit) else None
  }

  /** The parameters of both requests: limit, after and before, each only when it applies. */
  function RecentParameters(limit: Option<Int32>, after: Option<int>, before: Option<Int32>): (ps: Entries)
    ensures ps == (if RecentLimit(limit).Some? then [("limit", RecentLimit(limit).value)] else [])
                + (if after.Some? then [("after", IntLiteral(after.value))] else [])
                + (if before.Some? then [("before", IntLiteral(before.value))] else [])
  {
    PresentThree("limit", "after", "before", RecentLimit(limit),
                 if after.Some? then Some(IntLiteral(after.value)) else None, IntParam(before));
    Present(["limit", "after", "before"],
            [RecentLimit(limit), if after.Some? then Some(IntLiteral(after.value)) else None, IntParam(before)])
  }

  /**
   * `getRecentlyPlayedTracks`: nothing at all when neither after nor before is given; otherwise a
   * status probe, and only when it answers 200 the typed fetch of the same request. Both name
   * USER_READ_RECENTLY_PLAYED. `after` is a `Long`.
   */
  method GetRecentlyPlayedTracks(baseUrl: string, limit: Option<Int32>, after: Option<int>, before: Option<Int32>,
                                 probeStatus: HttpStatusCode)
    returns (probe: Option<Call>, fetch: Option<Call>)
    ensures probe.None? <==> after.None? && before.None?
    ensures fetch.Some? <==> probe.Some? && probeStatus == OK
    ensures probe.Some? ==> probe.value == Call(StatusOnly, Some(UserReadRecentlyPlayed),
      Request(Get, baseUrl + "me/player/recently-played", RecentParameters(limit, after, before), [], None))
    ensures fetch.Some? ==> fetch.value == Call(Typed, Some(UserReadRecentlyPlayed), probe.value.request)
  {
    if after.None? && before.None? {
      return None, None;
    }
    var values := [RecentLimit(limit), if after.Some? then Some(IntLiteral(after.value)) else None, IntParam(before)];
    var builder := NewRequest(Get, baseUrl + "me/player/recently-played");
    AddPresentParameters(builder, ["limit", "after", "before"], values);
    probe := Some(Call(StatusOnly, Some(UserReadRecentlyPlayed), builder.Build()));
    if probeStatus != OK {
      return probe, None;
    }
    var again := NewRequest(Get, baseUrl + "me/player/recently-played");
    AddPresentParameters(again, ["limit", "after", "before"], values);
    fetch := Some(Call(Typed, Some(UserReadRecentlyPlayed), again.Build()));
  }
}
