/**
 * The two forms of a playlist entry (io/github/warriorzz/ktify/model/Playlist.kt): their
 * discriminator `PlaylistTrackObjectSerializer` and the two typed accessors.
 */
module Playlists {
  import opened Wrappers
  import opened Json

  /**
   * A `PlaylistTrackObject`: a full entry, or a reference to the playlist's track list. The
   * fields are kept as the JSON they were decoded from.
   */
  datatype PlaylistTrackObject =
    | PlaylistTrack(addedAt: Option<string>, isLocal: bool, track: Json)
    | PlaylistTrackRef(href: string, total: int)

  datatype PlaylistTrackKind = PlaylistTrackKind | PlaylistTrackRefKind

  /** `selectDeserializer`: a present "track" member, whatever its value, picks the full entry. `None`: the cast throws. */
  function SelectPlaylistTrackDeserializer(element: Json): (r: Option<PlaylistTrackKind>)
    ensures r.None? <==> !element.JObj?
    ensures r == Some(PlaylistTrackKind) <==> element.JObj? && "track" in element.fields
    ensures r == Some(PlaylistTrackRefKind) <==> element.JObj? && "track" !in element.fields
  {
    match AsObject(element)
    case None => None
    case Some(o) => if "track" in o then Some(PlaylistTrackKind) else Some(PlaylistTrackRefKind)
  }

  /** A "track" member holding JSON `null` still picks the full entry. */
  lemma NullTrackIsFullEntry(fields: JsonObject)
    requires "track" in fields && fields["track"] == JNull
    ensures SelectPlaylistTrackDeserializer(JObj(fields)) == Some(PlaylistTrackKind)
  {
  }

  /** `asPlaylistTrack()`. */
  function AsPlaylistTrack(entry: PlaylistTrackObject): (r: Option<PlaylistTrackObject>)
    ensures r.Some? <==> entry.PlaylistTrack?
    ensures r.Some? ==> r.value == entry
  {
    if entry.PlaylistTrack? then Some(entry) else None
  }

  /** `asPlaylistTrackRef()`. */
  function AsPlaylistTrackRef(entry: PlaylistTrackObject): (r: Option<PlaylistTrackObject>)
    ensures r.Some? <==> entry.PlaylistTrackRef?
    ensures r.Some? ==> r.value == entry
  {
    if entry.PlaylistTrackRef? then Some(entry) else None
  }

  /** Exactly one of the two accessors gives the entry back. */
  lemma ExactlyOneAccessor(entry: PlaylistTrackObject)
    ensures AsPlaylistTrack(entry).Some? != AsPlaylistTrackRef(entry).Some?
  {
  }
}
