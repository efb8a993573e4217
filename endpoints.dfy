/**
 * What the endpoint functions of ee/bjarn/ktify share: a request block that starts from a
 * method and a URL, and the guarded `if (v != null) parameter(name, v)` calls that add an
 * optional parameter only when it is given.
 *
 * The ee.bjarn `RequestHelper` that runs these blocks is not part of this model, so an endpoint
 * yields the `Call` it hands over: the block's request and the scope it names.
 */
module Endpoints {
  import opened Wrappers
  import opened Kotlin
  import opened Http

  /** The entries a run of guarded `parameter(names[i], values[i])` calls adds, in order. */
  function Present(names: seq<string>, values: seq<Option<string>>): (r: Entries)
    requires |names| == |values|
    ensures |r| <= |names|
  {
    if |names| == 0 then []
    else
      var n := |names| - 1;
      Present(names[..n], values[..n]) + (if values[n].Some? then [(names[n], values[n].value)] else [])
  }

  /** Every given value is sent, under its own name... */
  lemma {:induction false} PresentSent(names: seq<string>, values: seq<Option<string>>, i: nat)
    requires |names| == |values| && i < |names| && values[i].Some?
    ensures (names[i], values[i].value) in Present(names, values)
  {
    var n := |names| - 1;
    if i < n {
      PresentSent(names[..n], values[..n], i);
    }
  }

  /** ...and nothing else is: every entry sent is a given value under its own name. */
  lemma {:induction false} PresentOnlyGiven(names: seq<string>, values: seq<Option<string>>, e: (string, string))
    requires |names| == |values| && e in Present(names, values)
    ensures exists i :: 0 <= i < |names| && names[i] == e.0 && values[i] == Some(e.1)
  {
    var n := |names| - 1;
    if e in Present(names[..n], values[..n]) {
      PresentOnlyGiven(names[..n], values[..n], e);
      var i :| 0 <= i < n && names[..n][i] == e.0 && values[..n][i] == Some(e.1);
      assert names[i] == e.0 && values[i] == Some(e.1);
    } else {
      assert names[n] == e.0 && values[n] == Some(e.1);
    }
  }

  /** When nothing is given, nothing is added. */
  lemma {:induction false} NothingGivenNothingSent(names: seq<string>, values: seq<Option<string>>)
    requires |names| == |values| && forall i :: 0 <= i < |values| ==> values[i].None?
    ensures Present(names, values) == []
  {
    if |names| > 0 {
      NothingGivenNothingSent(names[..|names| - 1], values[..|values| - 1]);
    }
  }

  /** A single guarded call. */
  lemma PresentOne(name: string, value: Option<string>)
    ensures Present([name], [value]) == if value.Some? then [(name, value.value)] else []
  {
    assert [name][..0] == [] && [value][..0] == [];
  }

  /** Three guarded calls. */
  lemma PresentThree(n0: string, n1: string, n2: string, v0: Option<string>, v1: Option<string>, v2: Option<string>)
    ensures Present([n0, n1, n2], [v0, v1, v2])
         == (if v0.Some? then [(n0, v0.value)] else [])
          + (if v1.Some? then [(n1, v1.value)] else [])
          + (if v2.Some? then [(n2, v2.value)] else [])
  {
    assert [n0, n1, n2][..2] == [n0, n1] && [v0, v1, v2][..2] == [v0, v1];
    assert [n0, n1][..1] == [n0] && [v0, v1][..1] == [v0];
    PresentOne(n0, v0);
  }

  /** `parameter(name, v)` with an `Int` renders it with `toString()`. */
  function IntParam(v: Option<Int32>): (r: Option<string>)
    ensures r.Some? <==> v.Some?
    ensures v.Some? ==> ParseInt(r.value) == Some(v.value)
  {
    if v.Some? then ParseIntLiteral(v.value); Some(IntLiteral(v.value)) else None
  }

  /** The start of a block: `method = m` and `url.takeFrom(url)` on a fresh request builder. */
  method NewRequest(httpMethod: HttpMethod, url: string) returns (builder: RequestBuilder)
    ensures fresh(builder)
    ensures builder.Build() == Request(httpMethod, url, [], [], None)
  {
    builder := new RequestBuilder();
    builder.SetMethod(httpMethod);
    builder.SetUrl(url);
  }

  /** The guarded calls themselves, one name at a time. */
  method AddPresentParameters(builder: RequestBuilder, names: seq<string>, values: seq<Option<string>>)
    requires |names| == |values|
    modifies builder
    ensures builder.Build() == old(builder.Build()).(parameters := old(builder.parameters) + Present(names, values))
  {
    for i := 0 to |names|
      invariant builder.Build() == old(builder.Build()).(parameters := old(builder.parameters) + Present(names[..i], values[..i]))
    {
      assert names[..i + 1][..i] == names[..i] && values[..i + 1][..i] == values[..i];
      if values[i].Some? {
        builder.Parameter(names[i], values[i].value);
      }
    }
    assert names[..|names|] == names && values[..|values|] == values;
  }
}
