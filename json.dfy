/**
 * JSON values as kotlinx.serialization's `JsonElement` tree holds them, and the casts the client
 * applies to them. A cast that kotlinx refuses throws `IllegalArgumentException`; here it gives `None`.
 */
module Json {
  import opened Wrappers

  datatype Json =
    | JNull                          // JsonNull
    | JBool(b: bool)
    | JNum(literal: string)          // a number, kept as the literal text it was written with
    | JStr(s: string)                // a quoted string
    | JArr(items: seq<Json>)
    | JObj(fields: map<string, Json>)

  /** A `JsonObject`: a member whose value is JSON `null` is present, holding `JNull`. */
  type JsonObject = map<string, Json>

  /** Whether `element.jsonPrimitive` succeeds. */
  predicate IsPrimitive(j: Json) {
    !j.JArr? && !j.JObj?
  }

  /** `JsonPrimitive.content`: the text of the literal, without quotes; JSON `null` reads "null". */
  function Content(j: Json): string
    requires IsPrimitive(j)
  {
    match j
    case JNull => "null"
    case JBool(b) => if b then "true" else "false"
    case JNum(literal) => literal
    case JStr(s) => s
  }

  /** `element.jsonObject`. */
  function AsObject(j: Json): (r: Option<JsonObject>)
    ensures r.Some? <==> j.JObj?
  {
    if j.JObj? then Some(j.fields) else None
  }

  /**
   * `element.jsonObject["item"]?.jsonObject?.get("type")?.jsonPrimitive?.content`, the discriminator
   * read by the polymorphic serializers: `Some(None)` when the chain meets a missing member,
   * `Some(Some(t))` for the content of `item.type`, `None` when one of the casts throws.
   */
  function NestedItemType(element: Json): (r: Option<Option<string>>)
    ensures r.None? <==>
      || !element.JObj?
      || ("item" in element.fields && !element.fields["item"].JObj?)
      || ("item" in element.fields && "type" in element.fields["item"].fields
          && !IsPrimitive(element.fields["item"].fields["type"]))
    ensures r == Some(None) <==>
      && element.JObj?
      && ("item" !in element.fields
          || (element.fields["item"].JObj? && "type" !in element.fields["item"].fields))
    ensures (r.Some? && r.value.Some?) ==>
      && element.JObj? && "item" in element.fields && element.fields["item"].JObj?
      && "type" in element.fields["item"].fields
      && r.value.value == Content(element.fields["item"].fields["type"])
  {
    match AsObject(element)
    case None => None
    case Some(root) =>
      if "item" !in root then Some(None)
      else
        match AsObject(root["item"])
        case None => None
        case Some(item) =>
          if "type" !in item then Some(None)
          else if !IsPrimitive(item["type"]) then None
          else Some(Some(Content(item["type"])))
  }
}
