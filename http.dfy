/** The transport layer of the Rustmaps client (rustmaps/http.py): routes,
    the content-type decision of `json_or_text`, the status dispatch of
    `HTTPClient.request`, the `Accept` header merge, and the life cycle of the
    one session an `HTTPClient` owns.

    The network is abstracted away: the server's answer to a request is an
    input `Response`, and a session records the requests sent through it. */
module Http {
  import opened Wrappers
  import Text

  /** `Route.BASE`. */
  const Base: string := "https://api.rustmaps.com/v4"

  const AcceptKey: string := "Accept"
  const ApplicationJson: string := "application/json"

  /** A decoded JSON value, as `response.json()` returns it. JSON numbers are
      restricted to integers. `JNull` is also Python's `None`. */
  datatype Json =
    | JNull
    | JBool(b: bool)
    | JNumber(n: int)
    | JString(s: string)
    | JArray(items: seq<Json>)
    | JObject(fields: map<string, Json>)

  // ---------------------------------------------------------------- Route

  /** A value of a `Route` keyword parameter: `int | str | bool`. */
  datatype Param = IntParam(i: int) | StrParam(s: string) | BoolParam(b: bool)

  /** Keyword parameters in the order they were given. Python collects them
      into a dict, so a caller's keys are distinct; the model does not insist
      on it, and no property here depends on it. */
  type Query = seq<(string, Param)>

  /** A request URL. `Plain(text)` is a URL given by its full text;
      `WithQuery(target, query)` stands for what yarl renders for `target`
      with `query` attached, whose text is not modelled. */
  datatype Url = Plain(text: string) | WithQuery(target: string, query: Query)
  {
    /** The URL without its query string. */
    function Target(): string {
      match this
      case Plain(t) => t
      case WithQuery(t, _) => t
    }
  }

  datatype Route = Route(httpMethod: string, path: string, parameters: Query, url: Url)

  /** `Route(httpMethod, path, **parameters)`. */
  function NewRoute(httpMethod: string, path: string, parameters: Query := []): (r: Route)
    ensures r.httpMethod == httpMethod && r.path == path && r.parameters == parameters
    ensures r.url.Target() == Base + path
    ensures r.url.Plain? <==> parameters == []
    ensures parameters == [] ==> r.url.text == Base + path
    ensures parameters != [] ==> r.url.query == parameters
  {
    var url := Base + path;
    Route(httpMethod, path, parameters, if parameters != [] then WithQuery(url, parameters) else Plain(url))
  }

  /** Without parameters the URL names its path unambiguously: two routes
      get the same plain URL only when their paths are equal. */
  lemma PlainRouteUrlInjective(httpMethod: string, path1: string, path2: string)
    ensures NewRoute(httpMethod, path1).url == NewRoute(httpMethod, path2).url ==> path1 == path2
  {
    var u1, u2 := NewRoute(httpMethod, path1).url, NewRoute(httpMethod, path2).url;
    if u1 == u2 {
      assert path1 == u1.text[|Base|..];
      assert path2 == u2.text[|Base|..];
    }
  }

  // ---------------------------------------------------------- json_or_text

  /** What the server answered: the status, the `content-type` header if any,
      what `response.json()` yields (`None` when it raises) and what
      `response.text()` yields. */
  datatype Response = Response(status: int, contentType: Option<string>, json: Option<Json>, text: string)

  /** A decoded body: parsed JSON or raw text. */
  datatype Body = JsonBody(value: Json) | TextBody(text: string)

  /** The test in `json_or_text`: the header is present and its lower-cased
      value contains `application/json`. */
  predicate TakesJsonBranch(contentType: Option<string>)
    ensures contentType.None? ==> !TakesJsonBranch(contentType)
    ensures TakesJsonBranch(contentType) ==> |contentType.value| >= |ApplicationJson|
    ensures contentType.Some? && ApplicationJson <= Text.Lower(contentType.value) ==> TakesJsonBranch(contentType)
  {
    contentType.Some? && Text.Contains(Text.Lower(contentType.value), ApplicationJson)
  }

  /** `application/json` occurs in `s` at index `i`, ignoring the case of
      the letters of `s`. */
  ghost predicate JsonMediaTypeAt(s: string, i: int) {
    0 <= i && i + |ApplicationJson| <= |s| &&
    forall k :: 0 <= k < |ApplicationJson| ==> Text.LowerChar(s[i + k]) == ApplicationJson[k]
  }

  /** The JSON branch is taken exactly when the header is present and holds
      `application/json` in any letter case; otherwise the text branch is
      taken. */
  lemma JsonBranchIff(contentType: Option<string>)
    ensures TakesJsonBranch(contentType) <==>
            contentType.Some? && exists i :: JsonMediaTypeAt(contentType.value, i)
  {
    if contentType.Some? {
      var s := contentType.value;
      var low := Text.Lower(s);
      Text.ContainsIff(low, ApplicationJson);
      forall i ensures Text.OccursAt(low, ApplicationJson, i) <==> JsonMediaTypeAt(s, i) {
      }
    }
  }

  /** `json_or_text(response)`: `None` when the JSON branch is taken and
      `response.json()` raises (only a missing header is caught). */
  function JsonOrText(response: Response): (d: Option<Body>)
    ensures response.contentType.None? ==> d == Some(TextBody(response.text))
    ensures d.None? <==> TakesJsonBranch(response.contentType) && response.json.None?
    ensures d.Some? && d.value.JsonBody? ==>
              TakesJsonBranch(response.contentType) && d.value.value == response.json.value
    ensures d.Some? && d.value.TextBody? ==>
              !TakesJsonBranch(response.contentType) && d.value.text == response.text
  {
    if TakesJsonBranch(response.contentType) then
      match response.json
      case Some(j) => Some(JsonBody(j))
      case None => None
    else
      Some(TextBody(response.text))
  }

  // ---------------------------------------------------------- status dispatch

  /** What `HTTPClient.request` ends with: the decoded body, one of the five
      HTTP failures (each carrying the status and the decoded body), or the
      error `response.json()` raised, which is not an HTTP failure. */
  datatype Outcome =
    | Ok(body: Body)
    | Unauthorized(status: int, data: Body)
    | Forbidden(status: int, data: Body)
    | NotFound(status: int, data: Body)
    | NotFinishedGenerating(status: int, data: Body)
    | HTTPException(status: int, data: Body)
    | UndecodableJson
  {
    /** The failure family the facade catches. */
    predicate IsHttpFailure() {
      !Ok? && !UndecodableJson?
    }
  }

  /** The status dispatch of `request` applied to a decoded body. */
  function Dispatch(status: int, data: Body): (o: Outcome)
    ensures o.Ok? <==> status == 200 || status == 201
    ensures o.Ok? ==> o.body == data
    ensures !o.Ok? ==> o.IsHttpFailure() && o.status == status && o.data == data
    ensures o.Unauthorized? <==> status == 401
    ensures o.Forbidden? <==> status == 403
    ensures o.NotFound? <==> status == 404
    ensures o.NotFinishedGenerating? <==> status == 409
    ensures o.HTTPException? <==> status !in {200, 201, 401, 403, 404, 409}
  {
    if status == 200 || status == 201 then Ok(data)
    else if status == 401 then Unauthorized(status, data)
    else if status == 403 then Forbidden(status, data)
    else if status == 404 then NotFound(status, data)
    else if status == 409 then NotFinishedGenerating(status, data)
    else HTTPException(status, data)
  }

  /** What `request` returns or raises for a response: the body is decoded
      first, then the status decides. */
  function Respond(response: Response): (o: Outcome)
    ensures o.UndecodableJson? <==> TakesJsonBranch(response.contentType) && response.json.None?
    ensures o.Ok? <==> JsonOrText(response).Some? && response.status in {200, 201}
    ensures o.Ok? ==> Some(o.body) == JsonOrText(response)
    ensures o.IsHttpFailure() ==> o.status == response.status && Some(o.data) == JsonOrText(response)
  {
    match JsonOrText(response)
    case None => UndecodableJson
    case Some(data) => Dispatch(response.status, data)
  }

  /** Success is the allow-list 200 and 201 only: any other status, another
      2xx such as 204 included, is an HTTP failure once the body decodes. */
  lemma OnlyTwoSuccessCodes(response: Response)
    requires JsonOrText(response).Some?
    ensures Respond(response).Ok? || Respond(response).IsHttpFailure()
    ensures Respond(response).Ok? <==> response.status == 200 || response.status == 201
  {
  }

  // ---------------------------------------------------------- header merge

  type Headers = map<string, string>

  /** The headers `request` sends for the caller's `headers` argument: a
      non-empty caller dict gets `Accept: application/json` merged into it
      (the default wins on a clash); `None` or an empty dict is replaced by
      the default dict. */
  function MergeHeaders(caller: Option<Headers>): (sent: Headers)
    ensures AcceptKey in sent && sent[AcceptKey] == ApplicationJson
    ensures caller.Some? ==>
              forall k :: k in caller.value && k != AcceptKey ==> k in sent && sent[k] == caller.value[k]
    ensures sent.Keys == (if caller.Some? then caller.value.Keys else {}) + {AcceptKey}
    ensures caller.None? || caller.value == map[] ==> sent == map[AcceptKey := ApplicationJson]
  {
    if caller.Some? && caller.value != map[] then caller.value[AcceptKey := ApplicationJson]
    else map[AcceptKey := ApplicationJson]
  }

  /** Merging into a dict that was already merged into changes nothing, so a
      caller who passes the same dict again sends the same headers. */
  lemma MergeHeadersIdempotent(caller: Option<Headers>)
    ensures MergeHeaders(Some(MergeHeaders(caller))) == MergeHeaders(caller)
  {
  }

  // ---------------------------------------------------------- the session

  /** A request as it is handed to the session. */
  datatype Sent = Sent(httpMethod: string, url: Url, headers: Headers)

  /** An aiohttp `ClientSession`: open or closed, and the requests sent
      through it so far. */
  class Session {
    var closed: bool
    var sent: seq<Sent>

    constructor ()
      ensures !closed && sent == []
    {
      closed := false;
      sent := [];
    }

    method Close()
      modifies this
      ensures closed && sent == old(sent)
    {
      closed := true;
    }

    /** Only an open session can send. */
    method Send(request: Sent)
      requires !closed
      modifies this
      ensures !closed && sent == old(sent) + [request]
    {
      sent := sent + [request];
    }
  }

  /** A caller's `dict[str, str]` of headers, which `request` may update in
      place. */
  class HeaderDict {
    var entries: Headers

    constructor (entries: Headers)
      ensures this.entries == entries
    {
      this.entries := entries;
    }
  }

  /** `HTTPClient`: the owner of one session. */
  class HTTPClient {
    var session: Session

    /** `HTTPClient(connector, loop=loop)` creates an open session. */
    constructor ()
      ensures fresh(session) && !session.closed && session.sent == []
    {
      session := new Session();
    }

    /** `ensure_session`: a closed session is replaced by a new open one; an
        open one is kept. */
    method EnsureSession()
      modifies this
      ensures !session.closed
      ensures !old(session.closed) ==> session == old(session)
      ensures old(session.closed) ==> fresh(session) && session.sent == []
    {
      if session.closed {
        session := new Session();
      }
    }

    /** `close`: the session is closed; closing a closed session changes
        nothing. */
    method Close()
      modifies session
      ensures session == old(session) && session.closed
      ensures session.sent == old(session.sent)
      ensures old(session.closed) ==> unchanged(session)
    {
      if !session.closed {
        session.Close();
      }
    }

    /** `request(route, headers)` answered by `response`. */
    method Request(route: Route, headers: HeaderDict?, response: Response) returns (outcome: Outcome)
      modifies this, session, headers
      ensures outcome == Respond(response)
      // the session used is the old one if it was open, a new one otherwise
      ensures !old(session.closed) ==> session == old(session)
      ensures old(session.closed) ==> fresh(session) && unchanged(old(session))
      // exactly one request went out, on that open session
      ensures session.sent ==
                (if old(session.closed) then [] else old(session.sent)) +
                [Sent(route.httpMethod, route.url,
                      MergeHeaders(if headers == null then None else Some(old(headers.entries))))]
      // a 401 closes the session; every other outcome leaves it open
      ensures session.closed <==> outcome.Unauthorized?
      // a non-empty caller dict is updated in place; an empty one is not touched
      ensures headers != null ==>
                headers.entries == (if old(headers.entries) == map[] then map[]
                                    else old(headers.entries)[AcceptKey := ApplicationJson])
    {
      EnsureSession();

      var merged: Headers;
      if headers != null && headers.entries != map[] {
        headers.entries := headers.entries[AcceptKey := ApplicationJson];
        merged := headers.entries;
      } else {
        merged := map[AcceptKey := ApplicationJson];
      }

      session.Send(Sent(route.httpMethod, route.url, merged));

      var data := JsonOrText(response);
      if data.None? {
        outcome := UndecodableJson;
        return;
      }
      var body := data.value;
      var status := response.status;
      if status == 200 || status == 201 {
        outcome := Ok(body);
      } else if status == 401 {
        Close();
        outcome := Unauthorized(status, body);
      } else if status == 403 {
        outcome := Forbidden(status, body);
      } else if status == 404 {
        outcome := NotFound(status, body);
      } else if status == 409 {
        outcome := NotFinishedGenerating(status, body);
      } else {
        outcome := HTTPException(status, body);
      }
    }
  }

  /** After a 401 the session is closed, and the next request opens a new
      session and sends on it. */
  method ReopenAfterUnauthorized(client: HTTPClient, route: Route, first: Response, second: Response)
    returns (o1: Outcome, o2: Outcome)
    requires Respond(first).Unauthorized?
    modifies client, client.session
    ensures o1.Unauthorized? && o2 == Respond(second)
    ensures fresh(client.session) && client.session.sent == [Sent(route.httpMethod, route.url, MergeHeaders(None))]
    ensures client.session.closed <==> o2.Unauthorized?
  {
    o1 := client.Request(route, null, first);
    assert client.session.closed;
    o2 := client.Request(route, null, second);
  }
}
