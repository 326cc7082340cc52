/** The LLM call and the generate endpoint: the configuration check, the
    single POST to the serving endpoint, the mapping of every failure to an
    HTTP error, and the conversion of the reply into the response model. */
module LlmCall {
  import opened Wrappers
  import opened PyJson
  import opened Normalizer
  import opened ExcusePrompt

  /** The process configuration read from the environment. */
  datatype Config = Config(token: Option<string>, endpointUrl: string)

  /** The one POST request of a call. */
  datatype Post = Post(url: string, body: Json, headers: seq<(string, string)>, timeoutSeconds: nat)

  /** What the HTTP client reports for the POST: a response with its status
      code and text, a timeout, or any other client fault. */
  datatype Upstream =
    | Responded(status: int, text: string)
    | TimedOut
    | Faulted(detail: string)

  /** The detail of an HTTP error, one constructor per message the code
      builds. */
  datatype Detail =
    | TokenNotConfigured
    | ApiError(text: string)
    | CallTimedOut
    | Unexpected(fault: Fault)
    | FailedToGenerate
    | InvalidRequest(rejection: Rejection)

  /** An HTTPException: the status code and detail the client receives. */
  datatype HttpError = HttpError(status: int, detail: Detail)

  /** The response model of the generate endpoint. */
  datatype ExcuseResponse = ExcuseResponse(subject: string, body: string, success: bool, error: Option<string>)

  const TimeoutSeconds: nat := 30

  /** The token check: an unset or empty token counts as not configured. */
  predicate HasToken(cfg: Config) {
    cfg.token.Some? && cfg.token.value != ""
  }

  /** `raise_for_status` passes exactly the 2xx statuses. */
  predicate IsSuccessStatus(status: int) {
    200 <= status < 300
  }

  /** The POST for a request: the payload carrying the prompt, the bearer
      token and JSON content type, the 30-second timeout. */
  function BuildPost(cfg: Config, r: ValidRequest): (p: Post)
    requires HasToken(cfg)
    ensures UserPrompt(p.body) == Some(Prompt(r))
    ensures ("Authorization", "Bearer " + cfg.token.value) in p.headers
    ensures ("Content-Type", "application/json") in p.headers
    ensures |p.headers| == 2
    ensures p.url == cfg.endpointUrl && p.timeoutSeconds == 30
  {
    PayloadCarriesPrompt(Prompt(r));
    var headers := Headers(cfg.token.value);
    assert headers[0] == ("Authorization", "Bearer " + cfg.token.value);
    assert headers[1] == ("Content-Type", "application/json");
    Post(cfg.endpointUrl, Payload(Prompt(r)), headers, TimeoutSeconds)
  }

  /** The LLM call. A missing token fails before anything is sent; otherwise
      exactly one POST is made and its outcome decides the result: a
      non-2xx status is passed through, a timeout is 504, and every other
      failure, including the malformed-envelope HTTPException raised inside
      the `try`, lands in the catch-all as 500. */
  function CallLlm(cfg: Config, r: ValidRequest, server: Post -> Upstream, lib: Library): (out: Result<Reply, HttpError>)
    ensures !HasToken(cfg) ==> out == Err(HttpError(500, TokenNotConfigured))
    ensures out.Ok? ==> out.value.success && out.value.error == None
    ensures out.Ok? ==> HasToken(cfg) && server(BuildPost(cfg, r)).Responded?
                        && IsSuccessStatus(server(BuildPost(cfg, r)).status)
    ensures out.Err? && out.error.status != 500 && out.error.status != 504 ==>
              && HasToken(cfg) && server(BuildPost(cfg, r)).Responded?
              && out.error == HttpError(server(BuildPost(cfg, r)).status, ApiError(server(BuildPost(cfg, r)).text))
  {
    if !HasToken(cfg) then Err(HttpError(500, TokenNotConfigured))
    else
      match server(BuildPost(cfg, r))
      case Responded(status, text) =>
        if !IsSuccessStatus(status) then Err(HttpError(status, ApiError(text)))
        else
          (match Loads(JString(text), lib)
           case Err(e) => Err(HttpError(500, Unexpected(Raised(e))))
           case Ok(result) =>
             (match Normalize(result, lib)
              case Ok(reply) => Ok(reply)
              case Err(fault) => Err(HttpError(500, Unexpected(fault)))))
      case TimedOut => Err(HttpError(504, CallTimedOut))
      case Faulted(detail) => Err(HttpError(500, Unexpected(Transport(detail))))
  }

  /** With a token configured, each client outcome maps to its error: a
      non-2xx response keeps its own status and text, a timeout is 504, a
      client fault is 500, and a 2xx response fails only with 500. */
  lemma ErrorClassification(cfg: Config, r: ValidRequest, server: Post -> Upstream, lib: Library)
    requires HasToken(cfg)
    ensures var up := server(BuildPost(cfg, r)); var out := CallLlm(cfg, r, server, lib);
      && (up.Responded? && !IsSuccessStatus(up.status) ==> out == Err(HttpError(up.status, ApiError(up.text))))
      && (up.TimedOut? ==> out == Err(HttpError(504, CallTimedOut)))
      && (up.Faulted? ==> out == Err(HttpError(500, Unexpected(Transport(up.detail)))))
      && (up.Responded? && IsSuccessStatus(up.status) && out.Err? ==>
            out.error.status == 500 && out.error.detail.Unexpected? && !out.error.detail.fault.Transport?)
  {
  }

  /** A reply is the normaliser's reply for the response document, and a
      2xx response whose document normalises is answered with that reply. */
  lemma ReplyIsNormalized(cfg: Config, r: ValidRequest, server: Post -> Upstream, lib: Library)
    requires HasToken(cfg)
    ensures var up := server(BuildPost(cfg, r)); var out := CallLlm(cfg, r, server, lib);
      out.Ok? ==> && up.Responded? && lib.loads(up.text).Some?
                  && Normalize(lib.loads(up.text).value, lib) == Ok(out.value)
    ensures var up := server(BuildPost(cfg, r)); var out := CallLlm(cfg, r, server, lib);
      (&& up.Responded? && IsSuccessStatus(up.status) && lib.loads(up.text).Some?
       && Normalize(lib.loads(up.text).value, lib).Ok?)
        ==> out == Ok(Normalize(lib.loads(up.text).value, lib).value)
  {
  }

  /** The call consults the endpoint only through the one POST it builds:
      two endpoints that answer that POST alike give the same outcome, and
      without a token the endpoint is not consulted at all. */
  lemma SinglePost(cfg: Config, r: ValidRequest, s1: Post -> Upstream, s2: Post -> Upstream, lib: Library)
    requires !HasToken(cfg) || s1(BuildPost(cfg, r)) == s2(BuildPost(cfg, r))
    ensures CallLlm(cfg, r, s1, lib) == CallLlm(cfg, r, s2, lib)
  {
  }

  /** A 2xx response whose document has no `predictions` key, or an empty
      `predictions` list, is a 500 error carrying the re-wrapped
      malformed-envelope error, never a reply. */
  lemma MissingPredictionsIsServerError(cfg: Config, r: ValidRequest, server: Post -> Upstream, lib: Library)
    requires HasToken(cfg)
    requires server(BuildPost(cfg, r)).Responded? && IsSuccessStatus(server(BuildPost(cfg, r)).status)
    requires var doc := lib.loads(server(BuildPost(cfg, r)).text);
      && doc.Some? && doc.value.JObject?
      && ("predictions" !in doc.value.members || doc.value.members["predictions"] == JArray([]))
    ensures CallLlm(cfg, r, server, lib) == Err(HttpError(500, Unexpected(InvalidFormat)))
  {
  }

  /** The generate endpoint: errors of the call pass through unchanged; a
      reply becomes the response model, which accepts only string subject
      and body, any other reply failing validation as a 500. */
  function GenerateExcuse(cfg: Config, r: ValidRequest, server: Post -> Upstream, lib: Library): (out: Result<ExcuseResponse, HttpError>)
    ensures var call := CallLlm(cfg, r, server, lib);
      && (call.Err? ==> out == Err(call.error))
      && (call.Ok? && call.value.subject.JString? && call.value.body.JString? ==>
            out == Ok(ExcuseResponse(call.value.subject.s, call.value.body.s, true, None)))
      && (call.Ok? && !(call.value.subject.JString? && call.value.body.JString?) ==>
            out == Err(HttpError(500, FailedToGenerate)))
  {
    match CallLlm(cfg, r, server, lib)
    case Err(e) => Err(e)
    case Ok(reply) =>
      if reply.subject.JString? && reply.body.JString? then
        Ok(ExcuseResponse(reply.subject.s, reply.body.s, reply.success, reply.error))
      else Err(HttpError(500, FailedToGenerate))
  }

  /** A request as it arrives: validation first (a request body the request
      model rejects is answered with status 422), then the generate endpoint. */
  function HandleRequest(cfg: Config, raw: ExcuseRequest, server: Post -> Upstream, lib: Library): (out: Result<ExcuseResponse, HttpError>)
    ensures !(1 <= raw.seriousness <= 5) ==> out == Err(HttpError(422, InvalidRequest(SeriousnessOutOfRange(raw.seriousness))))
    ensures 1 <= raw.seriousness <= 5 ==> out == GenerateExcuse(cfg, raw, server, lib)
    ensures 1 <= raw.seriousness <= 5 ==> out.Err? ==> !out.error.detail.InvalidRequest?
    ensures out.Ok? ==> out.value.success && out.value.error == None
  {
    match Validate(raw)
    case Err(rejection) => Err(HttpError(422, InvalidRequest(rejection)))
    case Ok(r) => GenerateExcuse(cfg, r, server, lib)
  }

  /** The boundary of the seriousness check: 1 and 5 reach the call, 0 and
      6 are rejected. */
  lemma SeriousnessBoundary(cfg: Config, raw: ExcuseRequest, server: Post -> Upstream, lib: Library)
    ensures raw.seriousness in {0, 6} ==> HandleRequest(cfg, raw, server, lib).Err?
                                          && HandleRequest(cfg, raw, server, lib).error.status == 422
    ensures raw.seriousness in {1, 5} ==> HandleRequest(cfg, raw, server, lib) == GenerateExcuse(cfg, raw, server, lib)
  {
  }
}
