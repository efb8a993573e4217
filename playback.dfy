/**
 * The playback model's serialization rules (ee/bjarn/ktify/model/player/CurrentPlayback.kt): the
 * discriminator of `CurrentPlaybackSerializer`, the wire names of `RepeatState`, and
 * `AnyAsEmptyStringSerializer`.
 */
module Playback {
  import opened Wrappers
  import opened Json

  /** The three concrete forms of a current playback. */
  datatype PlaybackKind = CurrentPlayingTrack | CurrentPlayingEpisode | CurrentPlaybackNull

  /**
   * `CurrentPlaybackSerializer.selectDeserializer`: chosen by `item.type` alone. `None` means the
   * selector throws, because `item` or `item.type` has the wrong shape.
   */
  function SelectPlaybackDeserializer(element: Json): (r: Option<PlaybackKind>)
    ensures r.None? <==> NestedItemType(element).None?
    ensures r == Some(CurrentPlayingTrack) <==> NestedItemType(element) == Some(Some("track"))
    ensures r == Some(CurrentPlayingEpisode) <==> NestedItemType(element) == Some(Some("episode"))
    ensures r == Some(CurrentPlaybackNull) <==>
      NestedItemType(element).Some? && NestedItemType(element).value != Some("track")
      && NestedItemType(element).value != Some("episode")
  {
    match NestedItemType(element)
    case None => None
    case Some(Some("track")) => Some(CurrentPlayingTrack)
    case Some(Some("episode")) => Some(CurrentPlayingEpisode)
    case Some(_) => Some(CurrentPlaybackNull)
  }

  /** A missing `item`, or an `item` without `type`, falls back to the null playback. */
  lemma MissingItemTypeSelectsNull(fields: JsonObject)
    requires "item" !in fields || (fields["item"].JObj? && "type" !in fields["item"].fields)
    ensures SelectPlaybackDeserializer(JObj(fields)) == Some(CurrentPlaybackNull)
  {
  }

  /** An `item` that is present but not an object (JSON `null` included) makes the selector throw. */
  lemma NonObjectItemThrows(fields: JsonObject)
    requires "item" in fields && !fields["item"].JObj?
    ensures SelectPlaybackDeserializer(JObj(fields)).None?
  {
  }

  /** Nothing but `item.type` matters: two payloads that agree there select the same form. */
  lemma OnlyItemTypeMatters(a: JsonObject, b: JsonObject, itemType: string, aItem: JsonObject, bItem: JsonObject)
    requires "item" in a && a["item"] == JObj(aItem) && "type" in aItem && aItem["type"] == JStr(itemType)
    requires "item" in b && b["item"] == JObj(bItem) && "type" in bItem && bItem["type"] == JStr(itemType)
    ensures SelectPlaybackDeserializer(JObj(a)) == SelectPlaybackDeserializer(JObj(b))
  {
  }

  // ---------------------------------------------------------------------------------------------
  // RepeatState

  datatype RepeatState = Track | Context | Off

  /** The `@SerialName` of each constant. */
  function RepeatStateName(state: RepeatState): string {
    match state
    case Track => "track"
    case Context => "context"
    case Off => "off"
  }

  /** The enum decoder: a wire name back to its constant, `None` for an unknown name. */
  function RepeatStateFromName(name: string): (r: Option<RepeatState>)
    ensures r.Some? ==> RepeatStateName(r.value) == name
  {
    if name == "track" then Some(Track)
    else if name == "context" then Some(Context)
    else if name == "off" then Some(Off)
    else None
  }

  /** The three names are distinct and decode back: exactly "track", "context" and "off" are known. */
  lemma RepeatStateNamesRoundTrip(state: RepeatState, name: string)
    ensures RepeatStateFromName(RepeatStateName(state)) == Some(state)
    ensures RepeatStateFromName(name).Some? <==> name in {"track", "context", "off"}
  {
  }

  lemma RepeatStateNamesInjective(a: RepeatState, b: RepeatState)
    ensures RepeatStateName(a) == RepeatStateName(b) ==> a == b
  {
    RepeatStateNamesRoundTrip(a, "");
    RepeatStateNamesRoundTrip(b, "");
  }

  // ---------------------------------------------------------------------------------------------
  // AnyAsEmptyStringSerializer

  /** `deserialize`: whatever the input, the value is the empty string. */
  function AnyAsEmptyStringDecode(input: Json): (value: string)
    ensures value == ""
  {
    ""
  }

  /** `serialize`: whatever the value, the empty string is written. */
  function AnyAsEmptyStringEncode<T>(value: T): (written: Json)
    ensures written == JStr("")
  {
    JStr("")
  }

  /** Decoding what was encoded gives "", whatever went in. */
  lemma AnyAsEmptyStringForgets<T>(value: T)
    ensures AnyAsEmptyStringDecode(AnyAsEmptyStringEncode(value)) == ""
  {
  }
}
