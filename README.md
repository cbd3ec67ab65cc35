# Rustmaps client: transport and facade

A model of the decision logic of `rustmaps.py`, an async Python client for
the Rustmaps map-generation web API (`https://api.rustmaps.com/v4`).

- `http.dfy` (module `Http`, `rustmaps/http.py`): `Route` construction, the
  content-type test of `json_or_text`, and `HTTPClient` as a class whose one
  field is its session: `ensure_session`, `close` and `request` with its
  `Accept` header merge (into the caller's dict, in place) and its status
  dispatch (200/201 succeed; 401 closes the session and fails; 403, 404 and
  409 have their own failures; everything else is the generic failure).
- `client.dfy` (module `Facade`, `rustmaps/client.py`): the route each
  operation builds, the `X-API-Key` header, and the unwrap rule (`data` of a
  dict body, `None` otherwise, `None` for every HTTP failure); `Client` as a
  class holding the API key and its one `HTTPClient`.
- `text.dfy` (module `Text`): the Python built-ins these rely on —
  `str.lower()`, the substring test `in`, `str()` of an `int` — with a decimal
  parser that inverts `str()`.
- `wrappers.dfy`: the `Option` type.

The network is a parameter. A `Response` holds what the server answered: the
status, the `content-type` header if present, what `response.json()` yields
(`None` when it raises) and what `response.text()` yields. A `Session` keeps
the list of requests sent through it, which stands for the network traffic;
it can only send while open, so the contracts of `request` show which
session carried the request and that it was open. Python's `None` returned by
the facade is the JSON value `JNull`, so a `data` key holding `null` and a
missing `data` key give the same answer, as they do in Python.

Points where the code decides something its own text does not say:
- The `json_or_text` docstring (rustmaps/http.py:40-41) promises a fallback
  to text when JSON parsing fails; the code catches only the `KeyError` of a
  missing header (rustmaps/http.py:53-58). So a JSON content type with a body
  that does not parse raises out of `request` before the status is looked
  at, and a 401 then does not close the session. That error is not an HTTP
  failure, so it also escapes the facade (`Outcome.UndecodableJson`,
  `Reply.Raises`).
- Only 200 and 201 succeed; any other status, 204 included, is a failure.
- The constructor always creates a session and an aiohttp session is never
  falsy, so the "missing session" test of `ensure_session` never fires; the
  model's session field is never null.
- `rustmaps/http.py` imports `Forbidden`, `HTTPException`,
  `NotFinishedGenerating`, `NotFound` and `Unauthorized` from
  `rustmaps/errors.py`, which defines none of them, and `rustmaps/client.py`
  catches `GeneralHTTPError`. The model assumes that all five failures of
  `request` belong to the family the facade catches (`Outcome.IsHttpFailure`).

## Model

| member | source | states |
|---|---|---|
| Http.NewRoute | rustmaps/http.py:68-76 | method, path and parameters are stored unchanged; the URL's target is always the base followed by the path; a query is attached exactly when there are parameters, and with none the URL text is exactly base + path |
| Http.PlainRouteUrlInjective | rustmaps/http.py:73-76 | without parameters, two routes share a URL only when their paths are equal |
| Http.TakesJsonBranch | rustmaps/http.py:54 | the content-type test: a missing header never takes the JSON branch; taking it needs a header at least as long as `application/json`; a header whose lower-cased value starts with `application/json` takes it |
| Http.JsonBranchIff | rustmaps/http.py:53-58 | the JSON branch is taken exactly when a content-type header exists and contains `application/json` in any letter case; otherwise the text branch |
| Http.JsonOrText | rustmaps/http.py:53-60 | a missing header gives the text body and never fails; the JSON branch gives the parsed value or, when parsing raises, no body; the text branch gives the raw text |
| Http.Dispatch | rustmaps/http.py:155-169 | success exactly for 200 and 201, returning the body unchanged; 401, 403, 404, 409 map one-to-one to Unauthorized, Forbidden, NotFound, NotFinishedGenerating; every other status is HTTPException; each failure keeps the status and body |
| Http.Respond | rustmaps/http.py:148-169 | the body is decoded before the status is looked at: a parse error escapes whatever the status; otherwise success iff 200/201 and every failure carries the response's status and decoded body |
| Http.OnlyTwoSuccessCodes | rustmaps/http.py:155-157 | once the body decodes, the outcome is success or an HTTP failure, and success only for 200 and 201 (so not 204) |
| Http.MergeHeaders | rustmaps/http.py:141-146 | the sent headers map `Accept` to `application/json`, overriding the caller; every other caller key keeps its value; no other key is added; `None` or an empty dict sends exactly the default |
| Http.MergeHeadersIdempotent | rustmaps/http.py:143-146 | merging into an already-merged dict changes nothing, so re-sending the dict that was updated in place sends the same headers |
| Http.Session.Send | rustmaps/http.py:148 | only an open session sends; the request is appended to what it has sent |
| Http.Session.Close | rustmaps/http.py:105 | closing the aiohttp session leaves it closed and its sent requests as they were |
| Http.HTTPClient.constructor | rustmaps/http.py:82-90 | a new client owns a new open session that has sent nothing |
| Http.HTTPClient.EnsureSession | rustmaps/http.py:92-100 | afterwards the session is open; an open session is kept, a closed one is replaced by a new one |
| Http.HTTPClient.Close | rustmaps/http.py:102-105 | afterwards the same session is closed; closing a closed session changes nothing |
| Http.HTTPClient.Request | rustmaps/http.py:107-169 | the outcome is `Respond(response)`; exactly one request (route method, route URL, merged headers) goes out on the kept or new open session; the session is closed afterwards exactly on Unauthorized; a closed session that is replaced is left untouched; a non-empty caller dict is updated in place and an empty one is left alone |
| Http.ReopenAfterUnauthorized | rustmaps/http.py:136-161 | after a 401 the session is closed and the next request sends on a new session, which is open unless that answer is a 401 too |
| Text.Lower | rustmaps/http.py:54 | `lower()` keeps the length and lower-cases each character |
| Text.ContainsIff | rustmaps/http.py:54 | the substring scan succeeds exactly when the substring occurs at some index |
| Text.Contains | rustmaps/http.py:54 | Python's `in` on strings: a match needs the substring to be no longer than the text, and a prefix always matches |
| Text.IntString | rustmaps/client.py:83 | `str()` of an int: non-empty, no slash, and it starts with a minus sign exactly for a negative number |
| Text.ParseIntString | rustmaps/client.py:83 | parsing the decimal text of an integer gives the integer back |
| Text.IntStringInjective | rustmaps/client.py:83 | different integers print differently |
| Facade.StagingFlag | rustmaps/client.py:57 | `str(staging).lower()` is `"true"` or `"false"` according to the flag |
| Facade.StagingQuery | rustmaps/client.py:83 | the query is the single parameter `staging` holding that string |
| Facade.LimitsRoute | rustmaps/client.py:39 | GET `/maps/limits` without a query: URL exactly base + path |
| Facade.GetMapRoute | rustmaps/client.py:57 | GET `/maps/` + map id, with the `staging` query |
| Facade.GetMapBySeedSizeRoute | rustmaps/client.py:83 | GET `/maps/{size}/{seed}`, with the `staging` query |
| Facade.CreateMapRoute | rustmaps/client.py:95 | POST `/maps` without a query: URL exactly base + path |
| Facade.SeedSizePath | rustmaps/client.py:83 | the path starts with `/maps/`; read back, the segment up to the next slash is the size and what follows that slash is the seed |
| Facade.SeedSizePathInjective | rustmaps/client.py:83 | two seed-and-size paths are equal only for the same size and the same seed |
| Facade.SeedSizeOrderMatters | rustmaps/client.py:67-83 | size comes before seed: swapping two different numbers names a different map |
| Facade.HasData | rustmaps/client.py:42 | the `isinstance(response, dict)` and `"data" in response` test: raw text and any JSON value other than an object never pass; an object passes exactly when it holds the key `data` |
| Facade.Unwrap | rustmaps/client.py:42-47 | every HTTP failure becomes `None`; a success gives `body["data"]` exactly when the body is a dict holding `data`, `None` otherwise; only the JSON decode error escapes |
| Facade.FacadeAnswer | rustmaps/client.py:40-47 | end to end over a response: the answer is `data` iff the status is 200/201 and the decoded body is a dict holding it, `None` for any other decodable answer, and an escaping error iff the JSON branch failed to parse |
| Facade.KeyedHeaders | rustmaps/client.py:41 | the sent headers are exactly `X-API-Key` with the stored key and `Accept: application/json` |
| Facade.Client.constructor | rustmaps/client.py:20-34 | the API key is stored unchanged and the client owns one new `HTTPClient` with an open session |
| Facade.Client.Call | rustmaps/client.py:40-47 | the answer is the unwrap of `Respond(response)`; one request with the keyed headers goes out on an open session; the session is closed afterwards exactly on Unauthorized |
| Facade.Client.Limits | rustmaps/client.py:36-47 | sends GET base + `/maps/limits` with the keyed headers and answers the unwrap of the response; an open session is kept, a closed one is replaced by a new one and left untouched |
| Facade.Client.GetMap | rustmaps/client.py:49-65 | sends GET `/maps/` + map id with `staging` (default `"false"`) and the keyed headers, and answers the unwrap of the response; an open session is kept, a closed one is replaced by a new one and left untouched |
| Facade.Client.GetMapBySeedSize | rustmaps/client.py:67-91 | sends GET `/maps/{size}/{seed}` with `staging` (default `"false"`) and the keyed headers, and answers the unwrap of the response; an open session is kept, a closed one is replaced by a new one and left untouched |
| Facade.Client.CreateMap | rustmaps/client.py:93-103 | sends POST base + `/maps` with the keyed headers and answers the unwrap of the response; an open session is kept, a closed one is replaced by a new one and left untouched |

## Left out

- Network I/O through aiohttp, reading the response body and JSON parsing: the server's answer is an input, and a session's list of sent requests stands for the traffic.
- The text yarl renders for a URL with a query (`with_query(...).human_repr()`): such a URL is kept as its target and its ordered parameters. A query or fragment already inside the path (a map id holding `?` or `#`), which yarl would replace or split off, is not modelled: two such paths are different URLs in the model even where yarl sends the same one.
- Logging, the event loop and the connector passed to `HTTPClient` and `Client`, and async scheduling. The reopen guarantees (`EnsureSession`, `Request`, `ReopenAfterUnauthorized`) assume no caller-supplied connector: replacement sessions reuse `self.connector` (rustmaps/http.py:100), and once a session that owns it has closed it, a later replacement cannot send and aiohttp raises an error the facade does not catch; with the default `connector=None` each new session has its own.
- Concurrency: the unsynchronised check-then-recreate of the session under concurrent requests is not modelled; each call runs to completion before the next.
- `rustmaps/errors.py`: its exception classes only format and log messages; the failures of `request` are the constructors of `Http.Outcome`, and no error-message flattening or numeric error code exists in the code.
- `InvalidTokenError`: defined but never raised by the code.
- Errors raised by `response.text()` (a body that is not UTF-8) and by aiohttp itself (connection faults): they pass through uncaught and are not modelled.
- aiohttp's case-insensitive header handling: header dicts are plain maps keyed by the exact name.
- JSON numbers that are not integers.
- Text.Lower: lower-cases ASCII letters only; Python's full Unicode case mapping is not modelled.
- The example scripts and the package's `__init__.py`.
