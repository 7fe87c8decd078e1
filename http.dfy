/** The HTTP boundary: what the services send to `fetch` and what comes back.
    `fetch` itself is outside the model; every service receives its outcome as a value
    or as a function from the request it builds to that outcome. */
module Http {
  import opened Wrappers

  /** The fixed server address every service prefixes to its path. */
  const BaseUrl := "http://10.240.68.239:8080/api/v1"

  datatype Method = GET | POST | PUT

  /** A request as `fetch` receives it (every request in the core also sets
      `credentials: "include"`, which is constant and not modelled). */
  datatype Request<B> = Request(verb: Method, url: string, headers: map<string, string>, body: Option<B>)

  /** What a response exposes to the services: its status, the `content-type` and
      `set-cookie` headers when present, and the body text. */
  datatype Response = Response(status: int, contentType: Option<string>, setCookie: Option<string>, body: string)

  /** `response.ok`: the status is in the 2xx range. */
  predicate IsOk(r: Response) {
    200 <= r.status <= 299
  }

  /** A `fetch` either yields a response or rejects (transport failure) with a message. */
  datatype FetchOutcome = Received(response: Response) | NetworkFailure(message: string)

  /** A thrown `Error`, reduced to its message. */
  datatype Error = Error(message: string)

  /** `JSON.parse` / `response.json()`: the parsed value, or the SyntaxError's message. */
  type JsonParser<J> = string -> Result<J, string>

  /** The headers the OTP service sends. */
  const JsonHeaders: map<string, string> := map["Accept" := "application/json", "Content-Type" := "application/json"]

  /** The only header the order service sends. */
  const ContentTypeHeader: map<string, string> := map["Content-Type" := "application/json"]

  /** The shape shared by the services that expect a JSON body: a rejected fetch rethrows,
      a non-OK status throws `<prefix><body text>`, and an OK body is parsed, with a parse
      error propagating. */
  function ExpectJson<J>(o: FetchOutcome, errorPrefix: string, parse: JsonParser<J>): (r: Result<J, Error>)
    ensures r.Success? <==> o.Received? && IsOk(o.response) && parse(o.response.body).Success?
    ensures r.Success? ==> parse(o.response.body) == Success(r.value)
    ensures o.NetworkFailure? ==> r == Failure(Error(o.message))
    ensures o.Received? && !IsOk(o.response) ==> r == Failure(Error(errorPrefix + o.response.body))
    ensures o.Received? && IsOk(o.response) && parse(o.response.body).Failure? ==>
              r == Failure(Error(parse(o.response.body).error))
  {
    match o
    case NetworkFailure(m) => Failure(Error(m))
    case Received(resp) =>
      if !IsOk(resp) then Failure(Error(errorPrefix + resp.body))
      else
        match parse(resp.body)
        case Failure(m) => Failure(Error(m))
        case Success(j) => Success(j)
  }
}
