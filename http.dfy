/**
 * The HTTP vocabulary shared by the dispatcher and the endpoints: ktor's request builder, with
 * the request it builds and the response it hands back kept as values. Nothing is sent.
 */
module Http {
  import opened Wrappers
  import opened Kotlin
  import opened Json
  import opened Exceptions
  import opened Scopes

  datatype HttpMethod = Get | Put | Post | Delete

  /** The entries of a Kotlin `Map<String, String>`, in its iteration order. */
  type Entries = seq<(string, string)>

  /** What ktor sends: method, URL, query parameters and headers in the order they were added, and the body. */
  datatype Request = Request(
    httpMethod: HttpMethod,
    url: string,
    parameters: Entries,
    headers: Entries,
    body: Option<JsonObject>)

  /** What ktor hands back: the status, the Retry-After header if any, and the body. */
  datatype Response = Response(status: HttpStatusCode, retryAfter: Option<string>, body: Json)

  const OK := HttpStatusCode(200)
  const BadRequest := HttpStatusCode(400)
  const TooManyRequests := HttpStatusCode(429)

  /** The keys of some entries, in order. */
  function Keys(entries: Entries): (ks: seq<string>)
    ensures |ks| == |entries| && forall i :: 0 <= i < |entries| ==> ks[i] == entries[i].0
  {
    if |entries| == 0 then [] else [entries[0].0] + Keys(entries[1..])
  }

  /** The keys of concatenated entries are the concatenated keys. */
  lemma KeysConcat(a: Entries, b: Entries)
    ensures Keys(a + b) == Keys(a) + Keys(b)
  {
    assert |Keys(a + b)| == |Keys(a) + Keys(b)|;
    forall i | 0 <= i < |a + b|
      ensures Keys(a + b)[i] == (Keys(a) + Keys(b))[i]
    {
    }
  }

  /** ktor's `HttpRequestBuilder`: each call appends to, or replaces, one part of the request. */
  class RequestBuilder {
    var httpMethod: HttpMethod
    var url: string
    var parameters: Entries
    var headers: Entries
    var body: Option<JsonObject>

    constructor ()
      ensures Build() == Request(Get, "", [], [], None)
    {
      httpMethod, url, parameters, headers, body := Get, "", [], [], None;
    }

    function Build(): Request
      reads this
    {
      Request(httpMethod, url, parameters, headers, body)
    }

    /** `url(u)` / `url.takeFrom(u)`. */
    method SetUrl(u: string)
      modifies this
      ensures Build() == old(Build()).(url := u)
    {
      url := u;
    }

    /** `method = m`. */
    method SetMethod(m: HttpMethod)
      modifies this
      ensures Build() == old(Build()).(httpMethod := m)
    {
      httpMethod := m;
    }

    /** `parameter(key, value)`: appends one query parameter. */
    method Parameter(key: string, value: string)
      modifies this
      ensures Build() == old(Build()).(parameters := old(parameters) + [(key, value)])
    {
      parameters := parameters + [(key, value)];
    }

    /** `header(key, value)`: appends one header. */
    method Header(key: string, value: string)
      modifies this
      ensures Build() == old(Build()).(headers := old(headers) + [(key, value)])
    {
      headers := headers + [(key, value)];
    }

    /** `this.body = b` / `setBody(b)`. */
    method SetBody(b: JsonObject)
      modifies this
      ensures Build() == old(Build()).(body := Some(b))
    {
      body := Some(b);
    }

    /** `entries.forEach { parameter(it.key, it.value) }`. */
    method AddParameters(entries: Entries)
      modifies this
      ensures Build() == old(Build()).(parameters := old(parameters) + entries)
    {
      for i := 0 to |entries|
        invariant Build() == old(Build()).(parameters := old(parameters) + entries[..i])
      {
        Parameter(entries[i].0, entries[i].1);
        assert entries[..i + 1] == entries[..i] + [entries[i]];
      }
      assert entries[..|entries|] == entries;
    }

    /** `entries.forEach { header(it.key, it.value) }`. */
    method AddHeaders(entries: Entries)
      modifies this
      ensures Build() == old(Build()).(headers := old(headers) + entries)
    {
      for i := 0 to |entries|
        invariant Build() == old(Build()).(headers := old(headers) + entries[..i])
      {
        Header(entries[i].0, entries[i].1);
        assert entries[..i + 1] == entries[..i] + [entries[i]];
      }
      assert entries[..|entries|] == entries;
    }
  }

  /** How an endpoint asks its request helper to dispatch: decode the body, return the status, or decode on a marker key. */
  datatype CallKind = Typed | StatusOnly | Marker(neededElement: string)

  /** One dispatch an endpoint asks for: the request its builder block produced and the scope it requires. */
  datatype Call = Call(kind: CallKind, requiresScope: Option<Scope>, request: Request)
}
