/**
 * The Dentalink client of src/lib/dentalink-client.ts: how a call resolves its settings, builds
 * the URL and the `Authorization` header, and maps what `fetch` returned to data or to an
 * `ApiError`; and the query `getPacientes` builds.  `fetch` and `JSON.parse` are parameters.
 */
module Dentalink {
  import opened Wrappers
  import opened Strings
  import opened Config
  import opened Errors
  import Url

  const DefaultBaseUrl: string := "https://api.dentalink.healthatom.com/api/v1"
  const ClientIdPlaceholder: string := "{clientId}"

  const MissingToken := ApiError("Dentalink no configurado (falta DENTALINK_TOKEN)", 500, Some("DENTALINK_MISSING_TOKEN"))
  const MissingClientId := ApiError("Dentalink no configurado (falta DENTALINK_CLIENT_ID)", 500, Some("DENTALINK_MISSING_CLIENT_ID"))
  const Timeout := ApiError("Timeout consultando Dentalink", 504, Some("DENTALINK_TIMEOUT"))

  /** `new ApiError("Error al consultar Dentalink", status, "DENTALINK_ERROR")`. */
  function UpstreamError(status: int): ApiError {
    ApiError("Error al consultar Dentalink", status, Some("DENTALINK_ERROR"))
  }

  /** The per-call options; an option left out is `None`. */
  datatype Options = Options(baseUrl: Option<string>, token: Option<string>, clientId: Option<string>)

  /** The settings a call works with. */
  datatype Settings = Settings(baseUrl: string, token: Option<string>, clientId: Option<string>)

  /** `a ?? b`: only a missing value falls through; an empty string does not. */
  function Nullish(a: Option<string>, b: Option<string>): (r: Option<string>)
    ensures a.Some? ==> r == a
    ensures a.None? ==> r == b
  {
    if a.Some? then a else b
  }

  /** Each setting is the option, else the environment variable; the base URL falls back last to
      the public API. */
  function Resolve(opts: Options, env: Env): (s: Settings)
    ensures opts.baseUrl.Some? ==> s.baseUrl == opts.baseUrl.value
    ensures opts.baseUrl.None? && env.dentalinkBaseUrl.Some? ==> s.baseUrl == env.dentalinkBaseUrl.value
    ensures opts.baseUrl.None? && env.dentalinkBaseUrl.None? ==> s.baseUrl == DefaultBaseUrl
    ensures s.token == if opts.token.Some? then opts.token else env.dentalinkToken
    ensures s.clientId == if opts.clientId.Some? then opts.clientId else env.dentalinkClientId
  {
    Settings(Nullish(opts.baseUrl, Nullish(env.dentalinkBaseUrl, Some(DefaultBaseUrl))).value,
             Nullish(opts.token, env.dentalinkToken), Nullish(opts.clientId, env.dentalinkClientId))
  }

  /** `finalPath`: the first `{clientId}` replaced by the client id, which must then be set;
      `replace` expands `$` patterns in the id as in any string replacement. */
  function FinalPath(path: string, clientId: Option<string>): (r: Result<string, ApiError>)
    ensures !Contains(path, ClientIdPlaceholder) ==> r == Success(path)
    ensures Contains(path, ClientIdPlaceholder) && !Truthy(clientId) ==> r == Failure(MissingClientId)
    ensures Contains(path, ClientIdPlaceholder) && Truthy(clientId) ==>
              r.Success? && exists i: nat :: i + |ClientIdPlaceholder| <= |path|
                                             && path[i..i + |ClientIdPlaceholder|] == ClientIdPlaceholder
                                             && r.value == SpliceAt(path, ClientIdPlaceholder, clientId.value, i)
  {
    if !Contains(path, ClientIdPlaceholder) then Success(path)
    else if !Truthy(clientId) then Failure(MissingClientId)
    else Success(ReplaceFirst(path, ClientIdPlaceholder, clientId.value))
  }

  /** The first `{clientId}` is the one replaced by the expanded client id: nothing before it is
      a placeholder. */
  lemma FirstPlaceholderReplaced(path: string, clientId: string)
    requires Contains(path, ClientIdPlaceholder) && clientId != ""
    ensures var i := IndexOf(path, ClientIdPlaceholder);
            i + |ClientIdPlaceholder| <= |path|
            && FinalPath(path, Some(clientId)) == Success(SpliceAt(path, ClientIdPlaceholder, clientId, i))
            && !Contains(path[..i], ClientIdPlaceholder)
  {
    NothingBeforeFirst(path, ClientIdPlaceholder);
    SplicedAtFirst(path, clientId);
  }

  /** With a client id, `finalPath` splices the expanded id in at the first placeholder. */
  lemma SplicedAtFirst(path: string, clientId: string)
    requires Contains(path, ClientIdPlaceholder) && clientId != ""
    ensures var i := IndexOf(path, ClientIdPlaceholder);
            i + |ClientIdPlaceholder| <= |path|
            && FinalPath(path, Some(clientId)) == Success(SpliceAt(path, ClientIdPlaceholder, clientId, i))
  {
    ReplaceFirstAt(path, ClientIdPlaceholder, clientId);
    ReplacedWhenSet(path, clientId);
  }

  /** With a placeholder and a client id, `finalPath` is the string replacement. */
  lemma ReplacedWhenSet(path: string, clientId: string)
    requires Contains(path, ClientIdPlaceholder) && clientId != ""
    ensures FinalPath(path, Some(clientId)) == Success(ReplaceFirst(path, ClientIdPlaceholder, clientId))
  {
    assert Truthy(Some(clientId));
  }

  /** A client id without `$` is inserted literally in place of the first placeholder. */
  lemma LiteralClientIdInserted(path: string, clientId: string)
    requires Contains(path, ClientIdPlaceholder) && clientId != "" && '$' !in clientId
    ensures var i := IndexOf(path, ClientIdPlaceholder);
            FinalPath(path, Some(clientId)) == Success(path[..i] + clientId + path[i + |ClientIdPlaceholder|..])
  {
    FirstPlaceholderReplaced(path, clientId);
  }

  /** A client id of `$&` puts the matched placeholder back, so the path is requested unchanged. */
  lemma MatchedPatternKeepsPlaceholder(path: string, clientId: string)
    requires Contains(path, ClientIdPlaceholder) && clientId == "$&"
    ensures FinalPath(path, Some(clientId)) == Success(path)
  {
    var i := IndexOf(path, ClientIdPlaceholder);
    FirstPlaceholderReplaced(path, clientId);
    SubstitutionPatterns(ClientIdPlaceholder, path[..i], path[i + |ClientIdPlaceholder|..]);
    ThreeSlices(path, i, i + |ClientIdPlaceholder|);
  }

  /** `base.replace(/\/$/, "")`: one trailing slash removed. */
  function DropTrailingSlash(s: string): (r: string)
    ensures EndsWith(s, "/") ==> r == s[..|s| - 1]
    ensures !EndsWith(s, "/") ==> r == s
  {
    if |s| > 0 && s[|s| - 1] == '/' then s[..|s| - 1] else s
  }

  /** `path.replace(/^\//, "")`: one leading slash removed. */
  function DropLeadingSlash(s: string): (r: string)
    ensures StartsWith(s, "/") ==> r == s[1..]
    ensures !StartsWith(s, "/") ==> r == s
  {
    if |s| > 0 && s[0] == '/' then s[1..] else s
  }

  /** The request URL: the base and the path joined by one slash. */
  function JoinUrl(base: string, path: string): (r: string)
    ensures !EndsWith(base, "/") && !StartsWith(path, "/") ==> r == base + "/" + path
  {
    DropTrailingSlash(base) + "/" + DropLeadingSlash(path)
  }

  /** A slash at the end of the base or at the start of the path changes nothing, nor do both. */
  lemma JoinUrlOneSeparator(base: string, path: string)
    requires !EndsWith(base, "/") && !StartsWith(path, "/")
    ensures JoinUrl(base, path) == base + "/" + path
    ensures JoinUrl(base + "/", path) == base + "/" + path
    ensures JoinUrl(base, "/" + path) == base + "/" + path
    ensures JoinUrl(base + "/", "/" + path) == base + "/" + path
  {
    assert (base + "/")[..|base + "/"| - 1] == base;
    assert ("/" + path)[1..] == path;
  }

  /** Only one slash is removed on each side: a doubled one leaves an empty path segment. */
  lemma JoinUrlKeepsSecondSlash(base: string, path: string)
    ensures JoinUrl(base + "//", path) == base + "/" + "/" + DropLeadingSlash(path)
    ensures JoinUrl(base, "//" + path) == DropTrailingSlash(base) + "/" + "/" + path
  {
    OneTrailingSlashDropped(base + "/");
    assert base + "/" + "/" == base + "//";
    OneLeadingSlashDropped("/" + path);
    assert "/" + ("/" + path) == "//" + path;
    var b := DropTrailingSlash(base);
    assert b + "/" + ("/" + path) == b + "/" + "/" + path;
  }

  lemma OneTrailingSlashDropped(s: string)
    ensures DropTrailingSlash(s + "/") == s
  {
    assert (s + "/")[..|s|] == s;
  }

  lemma OneLeadingSlashDropped(s: string)
    ensures DropLeadingSlash("/" + s) == s
  {
    assert ("/" + s)[1..] == s;
  }

  /** What is sent: the URL and the `Authorization` header; the JSON content type and the
      caller's own headers are not modelled. */
  datatype Request = Request(url: string, authorization: string)

  /** Everything `dentalinkFetch` does before it calls `fetch`. */
  function Prepare(path: string, opts: Options, env: Env): (r: Result<Request, ApiError>)
    ensures !Truthy(Resolve(opts, env).token) ==> r == Failure(MissingToken)
    ensures r.Success? ==>
              Truthy(Resolve(opts, env).token) && r.value.authorization == "Token " + Resolve(opts, env).token.value
    ensures Truthy(Resolve(opts, env).token) && FinalPath(path, Resolve(opts, env).clientId).Failure? ==>
              r == Failure(FinalPath(path, Resolve(opts, env).clientId).error)
    ensures r.Success? <==> Truthy(Resolve(opts, env).token) && FinalPath(path, Resolve(opts, env).clientId).Success?
    ensures r.Success? ==>
              r.value.url == JoinUrl(Resolve(opts, env).baseUrl, FinalPath(path, Resolve(opts, env).clientId).value)
  {
    var s := Resolve(opts, env);
    if !Truthy(s.token) then Failure(MissingToken)
    else
      match FinalPath(path, s.clientId)
      case Failure(e) => Failure(e)
      case Success(finalPath) => Success(Request(JoinUrl(s.baseUrl, finalPath), "Token " + s.token.value))
  }

  /** How `fetch` ended: a response with its status and body text, an abort by the 12-second
      timer, or another failure (a network error), with its message. */
  datatype FetchOutcome = Responded(status: int, text: string) | Aborted | FetchFailed(message: Option<string>)

  predicate IsOkStatus(status: int) {
    200 <= status <= 299
  }

  /** The body is parsed first (an empty one is `null`, here `None`), then the status is checked;
      a parse error is rethrown as it is, and an abort becomes the timeout error. */
  function ReadResponse<J>(outcome: FetchOutcome, parse: string -> Result<J, string>): (r: Result<Option<J>, Failure>)
    ensures outcome.Aborted? ==> r == Failure(Api(Timeout))
    ensures outcome.FetchFailed? ==> r == Failure(Thrown(outcome.message))
    ensures r.Success? ==> outcome.Responded? && IsOkStatus(outcome.status)
    ensures r.Success? && r.value.None? ==> outcome.text == ""
  {
    match outcome
    case Aborted => Failure(Api(Timeout))
    case FetchFailed(m) => Failure(Thrown(m))
    case Responded(status, text) =>
      var data: Result<Option<J>, string> :=
        if text == "" then Success(None)
        else match parse(text) case Success(v) => Success(Some(v)) case Failure(m) => Failure(m);
      match data
      case Failure(m) => Failure(Thrown(Some(m)))
      case Success(d) => if !IsOkStatus(status) then Failure(Api(UpstreamError(status))) else Success(d)
  }

  /** `dentalinkFetch(path, init, opts)`. */
  function DentalinkFetch<J>(path: string, opts: Options, env: Env, fetch: Request -> FetchOutcome,
                             parse: string -> Result<J, string>): (r: Result<Option<J>, Failure>)
    ensures Prepare(path, opts, env).Failure? ==> r == Failure(Api(Prepare(path, opts, env).error))
    ensures Prepare(path, opts, env).Success? ==> r == ReadResponse(fetch(Prepare(path, opts, env).value), parse)
  {
    match Prepare(path, opts, env)
    case Failure(e) => Failure(Api(e))
    case Success(request) => ReadResponse(fetch(request), parse)
  }

  /** Without a token nothing is requested: the call fails the same way whatever `fetch` would do. */
  lemma MissingTokenBeforeRequest<J>(path: string, opts: Options, env: Env, fetch: Request -> FetchOutcome,
                                     parse: string -> Result<J, string>)
    requires !Truthy(Resolve(opts, env).token)
    ensures DentalinkFetch(path, opts, env, fetch, parse) == Failure(Api(MissingToken))
    ensures ToPublicError(DentalinkFetch(path, opts, env, fetch, parse).error).status == 500
  {
  }

  /** A path with `{clientId}` and no client id fails before any request, whatever `fetch` would do. */
  lemma MissingClientIdBeforeRequest<J>(path: string, opts: Options, env: Env, fetch: Request -> FetchOutcome,
                                        parse: string -> Result<J, string>)
    requires Truthy(Resolve(opts, env).token)
    requires Contains(path, ClientIdPlaceholder) && !Truthy(Resolve(opts, env).clientId)
    ensures DentalinkFetch(path, opts, env, fetch, parse) == Failure(Api(MissingClientId))
  {
  }

  /** A path without `{clientId}` is requested as it is, with or without a client id. */
  lemma PlainPathRequested(path: string, opts: Options, env: Env)
    requires Truthy(Resolve(opts, env).token) && !Contains(path, ClientIdPlaceholder)
    ensures Prepare(path, opts, env) == Success(Request(JoinUrl(Resolve(opts, env).baseUrl, path),
                                                        "Token " + Resolve(opts, env).token.value))
  {
  }

  /** An empty body is `null` on success, and fails with the response's status otherwise; the
      parser is not consulted. */
  lemma EmptyBodyIsNull<J>(status: int, parse: string -> Result<J, string>)
    ensures IsOkStatus(status) ==> ReadResponse(Responded(status, ""), parse) == Success(None)
    ensures !IsOkStatus(status) ==> ReadResponse(Responded(status, ""), parse) == Failure(Api(UpstreamError(status)))
  {
  }

  /** A 2xx answer with a JSON body returns the parsed value. */
  lemma OkBodyParsed<J>(status: int, text: string, parse: string -> Result<J, string>)
    requires IsOkStatus(status) && text != "" && parse(text).Success?
    ensures ReadResponse(Responded(status, text), parse) == Success(Some(parse(text).value))
  {
  }

  /** A non-2xx answer with an empty or JSON body is an `ApiError` carrying the response's status,
      and the client sees that status. */
  lemma ErrorStatusPassedOn<J>(status: int, text: string, parse: string -> Result<J, string>)
    requires !IsOkStatus(status) && (text == "" || parse(text).Success?)
    ensures ReadResponse(Responded(status, text), parse) == Failure(Api(UpstreamError(status)))
    ensures ToPublicError(ReadResponse(Responded(status, text), parse).error).status == status
  {
  }

  /** Because the body is parsed before the status is checked, a non-JSON error page is rethrown
      as a parse error, and the client sees a generic 500 rather than the response's status. */
  lemma NonJsonErrorPageHidesStatus<J>(status: int, text: string, parse: string -> Result<J, string>)
    requires text != "" && parse(text).Failure?
    ensures ReadResponse(Responded(status, text), parse) == Failure(Thrown(Some(parse(text).error)))
    ensures ToPublicError(ReadResponse(Responded(status, text), parse).error) == PublicError(UnexpectedMessage, 500, None)
  {
  }

  /** An abort is the 504 timeout error. */
  lemma AbortIsTimeout<J>(parse: string -> Result<J, string>)
    ensures ReadResponse(Aborted, parse) == Failure(Api(Timeout))
    ensures ToPublicError(ReadResponse(Aborted, parse).error).status == 504
  {
  }

  /** The optional filters of `getPacientes`; a missing one is `None`. */
  datatype PatientFilter = PatientFilter(rut: Option<string>, nombre: Option<string>, limit: Option<int>)

  /** The query parameters set, in order: only the truthy ones (a zero limit is left out). */
  function FilterParams(f: Option<PatientFilter>): (r: seq<(string, string)>)
    ensures f.None? ==> r == []
    ensures f.Some? ==> |r| == (if Truthy(f.value.rut) then 1 else 0) + (if Truthy(f.value.nombre) then 1 else 0)
                               + (if f.value.limit.Some? && f.value.limit.value != 0 then 1 else 0)
    ensures forall i :: 0 <= i < |r| ==> r[i].0 in {"rut", "nombre", "limit"}
    ensures f.Some? && Truthy(f.value.rut) ==> r[0] == ("rut", f.value.rut.value)
  {
    match f
    case None => []
    case Some(p) =>
      (if Truthy(p.rut) then [("rut", p.rut.value)] else [])
      + (if Truthy(p.nombre) then [("nombre", p.nombre.value)] else [])
      + (if p.limit.Some? && p.limit.value != 0 then [("limit", IntToString(p.limit.value))] else [])
  }

  /** `name=value` pairs serialised as a form and joined by `&`, as `URLSearchParams.toString()`. */
  function SearchString(params: seq<(string, string)>): (r: string)
    ensures params == [] <==> r == ""
  {
    if params == [] then ""
    else
      var first := Url.FormEncode(params[0].0) + "=" + Url.FormEncode(params[0].1);
      if |params| == 1 then first else first + "&" + SearchString(params[1..])
  }

  /** The path `getPacientes(params)` requests. */
  function PacientesPath(f: Option<PatientFilter>): (r: string)
    ensures StartsWith(r, "/pacientes")
    ensures FilterParams(f) == [] <==> r == "/pacientes"
    ensures FilterParams(f) != [] ==> r == "/pacientes?" + SearchString(FilterParams(f))
  {
    WithQuery("/pacientes", SearchString(FilterParams(f)))
  }

  /** `${path}${query ? `?${query}` : ""}`. */
  function WithQuery(path: string, query: string): (r: string)
    ensures StartsWith(r, path)
    ensures r == path <==> query == ""
    ensures query != "" ==> r == path + "?" + query
  {
    if query != "" then
      assert |path + "?" + query| > |path|;
      path + "?" + query
    else
      assert path + "" == path;
      path + ""
  }

  /** A RUT filter alone asks for exactly one parameter, the RUT. */
  lemma RutFilterQuery(rut: string)
    requires rut != ""
    ensures PacientesPath(Some(PatientFilter(Some(rut), None, None))) == "/pacientes?" + SearchString([("rut", rut)])
  {
    assert FilterParams(Some(PatientFilter(Some(rut), None, None))) == [("rut", rut)];
  }
}
