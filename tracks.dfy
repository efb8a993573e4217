/**
 * The track endpoints (ee/bjarn/ktify/tracks/Tracks.kt): which request each one builds, which
 * scope it names, how ID lists are cut and joined, and the recommendation seed check.
 * Artists and tracks are passed as their ids, which is all the endpoints read of them.
 */
module Tracks {
  import opened Wrappers
  import opened Kotlin
  import opened Exceptions
  import opened Scopes
  import opened Http
  import opened Endpoints

  /** The ID limits of the library endpoints and of `getSeveralAudioFeatures`. */
  const MaxLibraryIds: nat := 50
  const MaxAudioFeatureIds: nat := 100

  /** The "ids" parameter: at most the first `max` ids, joined by commas; it starts with the first id. */
  function IdsParam(ids: seq<string>, max: nat): (s: string)
    ensures |ids| == 0 || max == 0 ==> s == ""
    ensures |ids| >= 1 && max >= 1 ==> ids[0] <= s
  {
    Join(Truncate(ids, max), ",")
  }

  /**
   * The server splits the "ids" parameter back into the first `max` ids, in their order, or
   * into all of them when there are no more.
   */
  lemma IdsParamSplitsBack(ids: seq<string>, max: nat)
    requires max >= 1 && |ids| >= 1
    requires forall i :: 0 <= i < |ids| ==> ',' !in ids[i]
    ensures Split(IdsParam(ids, max), ',') == ids[..if |ids| <= max then |ids| else max]
  {
    var kept := Truncate(ids, max);
    assert forall i :: 0 <= i < |kept| ==> ',' !in kept[i] by {
      forall i | 0 <= i < |kept|
        ensures ',' !in kept[i]
      {
        assert kept[i] == ids[i];
      }
    }
    SplitJoin(kept, ',');
  }

  /** `getSeveralTracks` joins all its ids: they all come back. */
  lemma SeveralTracksKeepsAllIds(ids: seq<string>)
    requires |ids| >= 1
    requires forall i :: 0 <= i < |ids| ==> ',' !in ids[i]
    ensures Split(Join(ids, ","), ',') == ids
  {
    SplitJoin(ids, ',');
  }

  /** `getTrack`. */
  method GetTrack(baseUrl: string, id: string, market: Option<string>) returns (call: Call)
    ensures call == Call(Typed, None, Request(Get, baseUrl + "tracks/" + id, Present(["market"], [market]), [], None))
  {
    var builder := NewRequest(Get, baseUrl + "tracks/" + id);
    AddPresentParameters(builder, ["market"], [market]);
    call := Call(Typed, None, builder.Build());
  }

  /** `getSeveralTracks`: every id, comma-joined, without truncation. */
  method GetSeveralTracks(baseUrl: string, ids: seq<string>, market: Option<string>) returns (call: Call)
    ensures call == Call(Typed, None, Request(Get, baseUrl + "tracks",
                                              [("ids", Join(ids, ","))] + Present(["market"], [market]), [], None))
  {
    var builder := NewRequest(Get, baseUrl + "tracks");
    builder.Parameter("ids", Join(ids, ","));
    AddPresentParameters(builder, ["market"], [market]);
    call := Call(Typed, None, builder.Build());
  }

  /** `getSavedTracks`: a library read; market, limit and offset each only when given. */
  method GetSavedTracks(baseUrl: string, market: Option<string>, limit: Option<Int32>, offset: Option<Int32>)
    returns (call: Call)
    ensures call == Call(Typed, Some(UserLibraryRead),
                         Request(Get, baseUrl + "me/tracks",
                                 Present(["market", "limit", "offset"], [market, IntParam(limit), IntParam(offset)]),
                                 [], None))
  {
    var builder := NewRequest(Get, baseUrl + "me/tracks");
    AddPresentParameters(builder, ["market", "limit", "offset"], [market, IntParam(limit), IntParam(offset)]);
    call := Call(Typed, Some(UserLibraryRead), builder.Build());
  }

  /** The three library endpoints that take an ID list: at most the first 50 ids. */
  method LibraryIdsCall(httpMethod: HttpMethod, url: string, scope: Scope, ids: seq<string>) returns (call: Call)
    ensures call == Call(Typed, Some(scope), Request(httpMethod, url, [("ids", IdsParam(ids, MaxLibraryIds))], [], None))
  {
    var builder := NewRequest(httpMethod, url);
    builder.Parameter("ids", IdsParam(ids, MaxLibraryIds));
    call := Call(Typed, Some(scope), builder.Build());
  }

  /** `saveTracks`: a library write. */
  method SaveTracks(baseUrl: string, ids: seq<string>) returns (call: Call)
    ensures call == Call(Typed, Some(UserLibraryModify),
                         Request(Put, baseUrl + "me/tracks", [("ids", IdsParam(ids, MaxLibraryIds))], [], None))
  {
    call := LibraryIdsCall(Put, baseUrl + "me/tracks", UserLibraryModify, ids);
  }

  /** `removeSavedTracks`: a library write. */
  method RemoveSavedTracks(baseUrl: string, ids: seq<string>) returns (call: Call)
    ensures call == Call(Typed, Some(UserLibraryModify),
                         Request(Delete, baseUrl + "me/tracks", [("ids", IdsParam(ids, MaxLibraryIds))], [], None))
  {
    call := LibraryIdsCall(Delete, baseUrl + "me/tracks", UserLibraryModify, ids);
  }

  /** `containsSavedTracks`: a library read. */
  method ContainsSavedTracks(baseUrl: string, ids: seq<string>) returns (call: Call)
    ensures call == Call(Typed, Some(UserLibraryRead),
                         Request(Get, baseUrl + "me/tracks/contains", [("ids", IdsParam(ids, MaxLibraryIds))], [], None))
  {
    call := LibraryIdsCall(Get, baseUrl + "me/tracks/contains", UserLibraryRead, ids);
  }

  /** `getSeveralAudioFeatures`: at most the first 100 ids, no scope. */
  method GetSeveralAudioFeatures(baseUrl: string, ids: seq<string>) returns (call: Call)
    ensures call == Call(Typed, None,
                         Request(Get, baseUrl + "audio-features", [("ids", IdsParam(ids, MaxAudioFeatureIds))], [], None))
  {
    var builder := NewRequest(Get, baseUrl + "audio-features");
    builder.Parameter("ids", IdsParam(ids, MaxAudioFeatureIds));
    call := Call(Typed, None, builder.Build());
  }

  /** `getAudioFeatures`. */
  method GetAudioFeatures(baseUrl: string, id: string) returns (call: Call)
    ensures call == Call(Typed, None, Request(Get, baseUrl + "audio-features/" + id, [], [], None))
  {
    var builder := NewRequest(Get, baseUrl + "audio-features/" + id);
    call := Call(Typed, None, builder.Build());
  }

  /** `getAudioAnalysis`. */
  method GetAudioAnalysis(baseUrl: string, id: string) returns (call: Call)
    ensures call == Call(Typed, None, Request(Get, baseUrl + "audio-analysis/" + id, [], [], None))
  {
    var builder := NewRequest(Get, baseUrl + "audio-analysis/" + id);
    call := Call(Typed, None, builder.Build());
  }

  // ---------------------------------------------------------------------------------------------
  // getRecommendations

  const SeedNames := ["seed_artists", "seed_genres", "seed_tracks"]

  /** The names of the tuning parameters, in the order they are added. */
  const TuningNames := [
    "min_acousticness", "max_acousticness", "target_acousticness",
    "min_danceability", "max_danceability", "target_danceability",
    "min_duration_ms", "max_duration_ms", "target_duration_ms",
    "min_energy", "max_energy", "target_energy",
    "min_instrumentalness", "max_instrumentalness", "target_instrumentalness",
    "min_key", "max_key", "target_key",
    "min_liveness", "max_liveness", "target_liveness",
    "min_loudness", "max_loudness", "target_loudness",
    "min_mode", "max_mode", "target_mode",
    "min_popularity", "max_popularity", "target_popularity",
    "min_speechiness", "max_speechiness", "target_speechiness",
    "min_tempo", "max_tempo", "target_tempo",
    "min_time_signature", "max_time_signature", "target_time_signature",
    "min_valence", "max_valence", "target_valence"]

  /** Every optional parameter after the seeds: limit, market, then the tuning parameters. */
  const OptionNames := ["limit", "market"] + TuningNames

  /** What the seed check throws. */
  const SeedCountException := InputException(["seedArtists", "seedGenres", "seedTracks"])

  /** A seed parameter: the ids comma-joined, only for a non-empty list. */
  function SeedValue(ids: seq<string>): (r: Option<string>)
    ensures r.Some? <==> |ids| > 0
  {
    if |ids| == 0 then None else Some(Join(ids, ","))
  }

  /** Only non-empty seed lists are sent, each under its own name, in a fixed order. */
  lemma SeedParameters(seedArtists: seq<string>, seedGenres: seq<string>, seedTracks: seq<string>)
    ensures Present(SeedNames, [SeedValue(seedArtists), SeedValue(seedGenres), SeedValue(seedTracks)])
         == (if |seedArtists| > 0 then [("seed_artists", Join(seedArtists, ","))] else [])
          + (if |seedGenres| > 0 then [("seed_genres", Join(seedGenres, ","))] else [])
          + (if |seedTracks| > 0 then [("seed_tracks", Join(seedTracks, ","))] else [])
  {
    PresentThree("seed_artists", "seed_genres", "seed_tracks",
                 SeedValue(seedArtists), SeedValue(seedGenres), SeedValue(seedTracks));
  }

  /**
   * `getRecommendations`: a seed total outside 1..5 throws before anything is added; otherwise
   * the seeds, then each optional parameter that is given. `tuning` holds the tuning values, in
   * the order of `TuningNames`, as the text `toString()` renders.
   */
  method GetRecommendations(baseUrl: string, seedArtists: seq<string>, seedGenres: seq<string>,
                            seedTracks: seq<string>, limit: Option<Int32>, market: Option<string>,
                            tuning: seq<Option<string>>)
    returns (result: Result<Call, Failure>)
    requires |tuning| == |TuningNames|
    ensures var seedSize := |seedArtists| + |seedGenres| + |seedTracks|;
      && (seedSize < 1 || seedSize > 5 <==> result == Failure(Thrown(SeedCountException)))
      && (1 <= seedSize <= 5 ==>
            result == Success(Call(Typed, None, Request(Get, baseUrl + "recommendations",
              Present(SeedNames, [SeedValue(seedArtists), SeedValue(seedGenres), SeedValue(seedTracks)])
              + Present(OptionNames, [IntParam(limit), market] + tuning), [], None))))
  {
    var builder := NewRequest(Get, baseUrl + "recommendations");
    var seedSize := |seedArtists| + |seedGenres| + |seedTracks|;
    if seedSize < 1 || seedSize > 5 {
      return Failure(Thrown(SeedCountException));
    }
    var seeds := [SeedValue(seedArtists), SeedValue(seedGenres), SeedValue(seedTracks)];
    var options := [IntParam(limit), market] + tuning;
    AddPresentParameters(builder, SeedNames, seeds);
    assert builder.parameters == Present(SeedNames, seeds);
    AddPresentParameters(builder, OptionNames, options);
    assert builder.Build() == Request(Get, baseUrl + "recommendations",
                                      Present(SeedNames, seeds) + Present(OptionNames, options), [], None);
    result := Success(Call(Typed, None, builder.Build()));
  }

  /** Each given option is sent under its own name, and whatever is sent was given under that name. */
  lemma OptionsSentExactlyWhenGiven(limit: Option<Int32>, market: Option<string>, tuning: seq<Option<string>>,
                                    i: nat, e: (string, string))
    requires |tuning| == |TuningNames| && i < |TuningNames|
    ensures tuning[i].Some? ==> (TuningNames[i], tuning[i].value) in Present(OptionNames, [IntParam(limit), market] + tuning)
    ensures e in Present(OptionNames, [IntParam(limit), market] + tuning) ==>
      (e.0 == "limit" && IntParam(limit) == Some(e.1)) || (e.0 == "market" && market == Some(e.1))
      || exists j :: 0 <= j < |TuningNames| && TuningNames[j] == e.0 && tuning[j] == Some(e.1)
  {
    PrefixedOptions(TuningNames, IntParam(limit), market, tuning, i, e);
  }

  lemma PrefixedOptions(names: seq<string>, limit: Option<string>, market: Option<string>,
                        tuning: seq<Option<string>>, i: nat, e: (string, string))
    requires |tuning| == |names| && i < |names|
    ensures tuning[i].Some? ==> (names[i], tuning[i].value) in Present(["limit", "market"] + names, [limit, market] + tuning)
    ensures e in Present(["limit", "market"] + names, [limit, market] + tuning) ==>
      (e.0 == "limit" && limit == Some(e.1)) || (e.0 == "market" && market == Some(e.1))
      || exists j :: 0 <= j < |names| && names[j] == e.0 && tuning[j] == Some(e.1)
  {
    var allNames := ["limit", "market"] + names;
    var values := [limit, market] + tuning;
    if tuning[i].Some? {
      assert allNames[i + 2] == names[i] && values[i + 2] == tuning[i];
      PresentSent(allNames, values, i + 2);
    }
    if e in Present(allNames, values) {
      PresentOnlyGiven(allNames, values, e);
      var k :| 0 <= k < |allNames| && allNames[k] == e.0 && values[k] == Some(e.1);
      if k >= 2 {
        assert names[k - 2] == e.0 && tuning[k - 2] == Some(e.1);
      }
    }
  }
}
