/** The discriminator of `KtifyObjectSerializer` (ee/bjarn/ktify/model/KtifyObject.kt). */
module KtifyObjects {
  import opened Wrappers
  import opened Json

  /** The serializer `selectDeserializer` picks. */
  datatype ObjectKind = Track | Album | Artist | PublicUser | Episode | Show | RawKtifyObject

  /** The nested type names that pick a concrete class. */
  function KindOfName(name: string): (kind: ObjectKind)
    ensures kind == Track <==> name == "track"
    ensures kind == Album <==> name == "album"
    ensures kind == Artist <==> name == "artist"
    ensures kind == PublicUser <==> name == "user"
    ensures kind == Episode <==> name == "episode"
    ensures kind == Show <==> name == "show"
    ensures kind == RawKtifyObject <==> name !in {"track", "album", "artist", "user", "episode", "show"}
  {
    match name
    case "track" => Track
    case "album" => Album
    case "artist" => Artist
    case "user" => PublicUser
    case "episode" => Episode
    case "show" => Show
    case _ => RawKtifyObject
  }

  /**
   * `selectDeserializer`: chosen by `item.type`, with the raw object for a missing or unknown
   * name; `None` means that a cast throws.
   */
  function SelectObjectDeserializer(element: Json): (r: Option<ObjectKind>)
    ensures r.None? <==> NestedItemType(element).None?
    ensures NestedItemType(element) == Some(None) ==> r == Some(RawKtifyObject)
    ensures NestedItemType(element).Some? && NestedItemType(element).value.Some? ==>
      r == Some(KindOfName(NestedItemType(element).value.value))
  {
    match NestedItemType(element)
    case None => None
    case Some(None) => Some(RawKtifyObject)
    case Some(Some(name)) => Some(KindOfName(name))
  }

  /** The six names pick six different classes. */
  lemma KindOfNameInjective(a: string, b: string)
    requires KindOfName(a) != RawKtifyObject
    ensures KindOfName(a) == KindOfName(b) ==> a == b
  {
  }

  /** Only the nested `item.type` is read: a payload whose only `type` is at the top level is raw. */
  lemma TopLevelTypeIgnored(fields: JsonObject)
    requires "item" !in fields
    ensures SelectObjectDeserializer(JObj(fields)) == Some(RawKtifyObject)
  {
  }

  /** An `item` that is present but not an object makes the selector throw. */
  lemma NonObjectItemThrows(fields: JsonObject)
    requires "item" in fields && !fields["item"].JObj?
    ensures SelectObjectDeserializer(JObj(fields)).None?
  {
  }
}
