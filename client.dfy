/** The facade of the Rustmaps client (rustmaps/client.py): each operation
    builds one route, sends it with the `X-API-Key` header through the
    client's one `HTTPClient`, and unwraps the answer: the `data` field of a
    JSON object, `None` for any other body, and `None` for every HTTP
    failure. Python's `None` is `JNull`. */
module Facade {
  import opened Wrappers
  import Text
  import opened Http

  const ApiKeyKey: string := "X-API-Key"

  /** What an operation gives its caller: a value, or the error that escapes
      it (the JSON decode error, which the facade does not catch). */
  datatype Reply = Returns(value: Json) | Raises(error: Outcome)

  // ---------------------------------------------------------------- routes

  /** `str(staging).lower()`. */
  function StagingFlag(staging: bool): (s: string)
    ensures s == (if staging then "true" else "false")
  {
    Text.Lower(if staging then "True" else "False")
  }

  /** The query every map lookup carries. */
  function StagingQuery(staging: bool): (q: Query)
    ensures |q| == 1 && q[0].0 == "staging"
    ensures q[0].1 == StrParam(if staging then "true" else "false")
  {
    [("staging", StrParam(StagingFlag(staging)))]
  }

  /** The route of `limits`. */
  function LimitsRoute(): (r: Route)
    ensures r.httpMethod == "GET" && r.path == "/maps/limits" && r.parameters == []
    ensures r.url == Plain(Base + "/maps/limits")
  {
    NewRoute("GET", "/maps/limits")
  }

  /** The route of `get_map(map_id, staging=staging)`. */
  function GetMapRoute(mapId: string, staging: bool): (r: Route)
    ensures r.httpMethod == "GET" && r.path == "/maps/" + mapId
    ensures r.url == WithQuery(Base + "/maps/" + mapId, StagingQuery(staging))
  {
    NewRoute("GET", "/maps/" + mapId, StagingQuery(staging))
  }

  /** The path of `get_map_ss`: size first, then seed. Read back, the
      segment after `/maps/` up to the next slash is the size, and what
      follows that slash is the seed. */
  function SeedSizePath(seed: int, size: int): (p: string)
    ensures |p| > 6 && p[..6] == "/maps/"
    ensures var rest := p[6..];
            Text.SlashIndex(rest) < |rest| &&
            rest[..Text.SlashIndex(rest)] == Text.IntString(size) &&
            rest[Text.SlashIndex(rest) + 1..] == Text.IntString(seed)
  {
    var a, b := Text.IntString(size), Text.IntString(seed);
    Text.SlashIndexAfter(a, b);
    assert ("/maps/" + a + "/" + b)[6..] == a + "/" + b;
    "/maps/" + a + "/" + b
  }

  /** The route of `get_map_ss(seed, size, staging=staging)`. */
  function GetMapBySeedSizeRoute(seed: int, size: int, staging: bool): (r: Route)
    ensures r.httpMethod == "GET" && r.path == SeedSizePath(seed, size)
    ensures r.url == WithQuery(Base + SeedSizePath(seed, size), StagingQuery(staging))
  {
    NewRoute("GET", SeedSizePath(seed, size), StagingQuery(staging))
  }

  /** The route of `create_map`. */
  function CreateMapRoute(): (r: Route)
    ensures r.httpMethod == "POST" && r.path == "/maps" && r.parameters == []
    ensures r.url == Plain(Base + "/maps")
  {
    NewRoute("POST", "/maps")
  }

  /** The seed-and-size path names its size and its seed unambiguously:
      two requests share a path only when they ask for the same size and the
      same seed. */
  lemma SeedSizePathInjective(seed1: int, size1: int, seed2: int, size2: int)
    ensures SeedSizePath(seed1, size1) == SeedSizePath(seed2, size2) ==> seed1 == seed2 && size1 == size2
  {
    if SeedSizePath(seed1, size1) == SeedSizePath(seed2, size2) {
      var a, b := Text.IntString(size1), Text.IntString(seed1);
      var c, d := Text.IntString(size2), Text.IntString(seed2);
      assert "/maps/" + a + "/" + b == "/maps/" + (a + "/" + b);
      assert "/maps/" + c + "/" + d == "/maps/" + (c + "/" + d);
      assert a + "/" + b == ("/maps/" + (a + "/" + b))[6..];
      assert c + "/" + d == ("/maps/" + (c + "/" + d))[6..];
      Text.SplitAtSlash(a, b, c, d);
      Text.IntStringInjective(size1, size2);
      Text.IntStringInjective(seed1, seed2);
    }
  }

  /** Size comes before seed: swapping two different numbers gives a
      different map. */
  lemma SeedSizeOrderMatters(seed: int, size: int)
    requires seed != size
    ensures SeedSizePath(seed, size) != SeedSizePath(size, seed)
  {
    SeedSizePathInjective(seed, size, size, seed);
  }

  // ---------------------------------------------------------------- unwrap

  /** `isinstance(response, dict) and "data" in response`: the body is a JSON
      object with a `data` key. Raw text, a list or any other JSON value never
      qualifies. */
  predicate HasData(body: Body)
    ensures body.TextBody? ==> !HasData(body)
    ensures body.JsonBody? && !body.value.JObject? ==> !HasData(body)
    ensures body.JsonBody? && body.value.JObject? ==> (HasData(body) <==> "data" in body.value.fields)
  {
    body.JsonBody? && body.value.JObject? && "data" in body.value.fields
  }

  /** The unwrap every operation applies to what `request` ends with:
      `body["data"]` for a successful dict body holding `data`, `None` for
      any other successful body and for every HTTP failure; the JSON decode
      error escapes. */
  function Unwrap(o: Outcome): (r: Reply)
    ensures o.IsHttpFailure() ==> r == Returns(JNull)
    ensures o.Ok? && HasData(o.body) ==> r == Returns(o.body.value.fields["data"])
    ensures o.Ok? && !HasData(o.body) ==> r == Returns(JNull)
    ensures r.Raises? <==> o.UndecodableJson?
  {
    match o
    case Ok(body) => Returns(if HasData(body) then body.value.fields["data"] else JNull)
    case UndecodableJson => Raises(o)
    case _ => Returns(JNull)
  }

  /** End to end: an operation answers `body["data"]` exactly when the
      status is 200 or 201 and the decoded body is an object holding `data`;
      it answers `None` for every other decodable answer, and lets only the
      JSON decode error escape. */
  lemma FacadeAnswer(response: Response)
    ensures Unwrap(Respond(response)).Raises? <==>
              TakesJsonBranch(response.contentType) && response.json.None?
    ensures Unwrap(Respond(response)).Returns? ==>
              var d := JsonOrText(response).value;
              Unwrap(Respond(response)).value ==
                (if response.status in {200, 201} && HasData(d) then d.value.fields["data"] else JNull)
  {
  }

  /** The headers every operation sends: its API key, with `Accept` merged
      in. */
  function KeyedHeaders(apiKey: string): (h: Headers)
    ensures h.Keys == {ApiKeyKey, AcceptKey}
    ensures h[ApiKeyKey] == apiKey && h[AcceptKey] == ApplicationJson
  {
    MergeHeaders(Some(map[ApiKeyKey := apiKey]))
  }

  // ---------------------------------------------------------------- Client

  /** `Client`: an API key and the one `HTTPClient` it owns. */
  class Client {
    const apiKey: string
    const http: HTTPClient

    /** `Client(api_key)`. */
    constructor (apiKey: string)
      ensures this.apiKey == apiKey
      ensures fresh(http) && fresh(http.session) && !http.session.closed && http.session.sent == []
    {
      this.apiKey := apiKey;
      http := new HTTPClient();
    }

    /** One operation: send `route` with the API key, then unwrap. */
    method Call(route: Route, response: Response) returns (r: Reply)
      modifies http, http.session
      ensures r == Unwrap(Respond(response))
      ensures !old(http.session.closed) ==> http.session == old(http.session)
      ensures old(http.session.closed) ==> fresh(http.session) && unchanged(old(http.session))
      ensures http.session.sent ==
                (if old(http.session.closed) then [] else old(http.session.sent)) +
                [Sent(route.httpMethod, route.url, KeyedHeaders(apiKey))]
      ensures http.session.closed <==> Respond(response).Unauthorized?
    {
      var headers := new HeaderDict(map[ApiKeyKey := apiKey]);
      var outcome := http.Request(route, headers, response);
      if outcome.IsHttpFailure() {
        return Returns(JNull);
      }
      if outcome.UndecodableJson? {
        return Raises(outcome);
      }
      var body := outcome.body;
      if !body.JsonBody? || !body.value.JObject? || "data" !in body.value.fields {
        return Returns(JNull);
      }
      r := Returns(body.value.fields["data"]);
    }

    /** `limits`. */
    method Limits(response: Response) returns (r: Reply)
      modifies http, http.session
      ensures r == Unwrap(Respond(response))
      ensures !old(http.session.closed) ==> http.session == old(http.session)
      ensures old(http.session.closed) ==> fresh(http.session) && unchanged(old(http.session))
      ensures http.session.sent ==
                (if old(http.session.closed) then [] else old(http.session.sent)) +
                [Sent("GET", Plain(Base + "/maps/limits"), KeyedHeaders(apiKey))]
      ensures http.session.closed <==> Respond(response).Unauthorized?
    {
      r := Call(LimitsRoute(), response);
    }

    /** `get_map(map_id, staging=staging)`. */
    method GetMap(mapId: string, response: Response, nameonly staging: bool := false) returns (r: Reply)
      modifies http, http.session
      ensures r == Unwrap(Respond(response))
      ensures !old(http.session.closed) ==> http.session == old(http.session)
      ensures old(http.session.closed) ==> fresh(http.session) && unchanged(old(http.session))
      ensures http.session.sent ==
                (if old(http.session.closed) then [] else old(http.session.sent)) +
                [Sent("GET", WithQuery(Base + "/maps/" + mapId, StagingQuery(staging)), KeyedHeaders(apiKey))]
      ensures http.session.closed <==> Respond(response).Unauthorized?
    {
      r := Call(GetMapRoute(mapId, staging), response);
    }

    /** `get_map_ss(seed, size, staging=staging)`. */
    method GetMapBySeedSize(seed: int, size: int, response: Response, nameonly staging: bool := false)
      returns (r: Reply)
      modifies http, http.session
      ensures r == Unwrap(Respond(response))
      ensures !old(http.session.closed) ==> http.session == old(http.session)
      ensures old(http.session.closed) ==> fresh(http.session) && unchanged(old(http.session))
      ensures http.session.sent ==
                (if old(http.session.closed) then [] else old(http.session.sent)) +
                [Sent("GET", WithQuery(Base + SeedSizePath(seed, size), StagingQuery(staging)), KeyedHeaders(apiKey))]
      ensures http.session.closed <==> Respond(response).Unauthorized?
    {
      r := Call(GetMapBySeedSizeRoute(seed, size, staging), response);
    }

    /** `create_map()`. */
    method CreateMap(response: Response) returns (r: Reply)
      modifies http, http.session
      ensures r == Unwrap(Respond(response))
      ensures !old(http.session.closed) ==> http.session == old(http.session)
      ensures old(http.session.closed) ==> fresh(http.session) && unchanged(old(http.session))
      ensures http.session.sent ==
                (if old(http.session.closed) then [] else old(http.session.sent)) +
                [Sent("POST", Plain(Base + "/maps"), KeyedHeaders(apiKey))]
      ensures http.session.closed <==> Respond(response).Unauthorized?
    {
      r := Call(CreateMapRoute(), response);
    }
  }
}
