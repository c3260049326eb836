/** The two single-file servers, `src/index.ts` and `index.js`. Each keeps its own module-level
    `requestCount`, creates its Gemini client when it is loaded, inlines `base64ToImage` and the
    prompt, and writes shorter envelopes than the modular controller. The two differ only in the
    texts of some replies and in which property of a thrown error the 500 reply carries. */
module Monolith {
  import opened Wrappers
  import opened JsonValues
  import opened Http
  import opened Types
  import opened Foreign
  import opened RateLimiter
  import opened ImageService
  import opened PromptGenerator
  import opened Routes

  /** Which property of a thrown error becomes the `message` of the 500 reply. */
  datatype ErrorText = ErrorMessage | ErrorStatusText

  /** What distinguishes the two servers. */
  datatype Dialect = Dialect(busyMessage: string, ipMessage: string, pingMessage: string, errorText: ErrorText)

  const Ts: Dialect := Dialect(
    "Too many requests: Server Busy, We are serving at max",
    "Too many requests in a minute, You can make a maximum of 3 requests per minute",
    "Server pinged at Ping",
    ErrorMessage)

  const Js: Dialect := Dialect(
    "Too many request: Server Busy, We are serving at max",
    "Too many requests in a minute, You can make a maximum of 3 request per minute",
    "Server pinged at X",
    ErrorStatusText)

  /** The per-IP gate of a server: the same window and maximum as the modular one. */
  function IpGate(d: Dialect): (c: IpLimiterConfig)
    ensures c.windowMs == 60000 && c.max == 3 && c.message == d.ipMessage
  {
    IpLimiterConfig(1 * 60 * 1000, 3, d.ipMessage)
  }

  /** `{message}` with code 503: no `status` member. */
  function BusyReply(d: Dialect): Reply {
    Reply(503, MessageOnly(d.busyMessage))
  }

  /** `{error: 'No image data provided'}` with code 400, and nothing else. */
  const MissingReply: Reply := Reply(400, Body(None, None, None, Some("No image data provided")))

  function SuccessReply(v: Json): Reply {
    Reply(200, Body(Some("Image processed"), Some([v]), Some("success"), None))
  }

  function PartialReply(text: string): Reply {
    Reply(200, Body(Some("Image processed but response format error"), Some([ToJson(RawResponse(text))]),
                    Some("partial_success"), None))
  }

  /** The text the 500 reply carries: `error.message`, or `error.statusText`, which only the
      Gemini client's HTTP errors have (an absent value drops the member). */
  function ErrorTextOf(d: Dialect, e: JsError): (m: Option<string>)
    ensures d.errorText == ErrorMessage ==> m == Some(e.message)
    ensures d.errorText == ErrorStatusText ==> m == e.statusText
  {
    match d.errorText
    case ErrorMessage => Some(e.message)
    case ErrorStatusText => e.statusText
  }

  function FailedReply(d: Dialect, e: JsError): Reply {
    Reply(500, Body(ErrorTextOf(d, e), None, Some("error"), Some("Failed to process image")))
  }

  /** The handler of `POST /api/analyze` after the increment. The model is looked up before
      the image is converted, and the prompt is the inline one. */
  function HandleAdmitted(d: Dialect, template: string, client: Client, platform: Platform, req: AnalyzeRequest,
                          modelName: Option<string>): (Reply, seq<Call>)
  {
    if !Truthy(req.imageData) then (MissingReply, [])
    else match platform.lookupModel(modelName)
      case Some(e) => (FailedReply(d, e), [LookupModel(modelName)])
      case None =>
        match req.imageData
        case Text(s) =>
          (match Base64ToImage(platform, s)
           case Err(e) => (FailedReply(d, e), [LookupModel(modelName), ConvertImage(s)])
           case Ok(part) =>
             var prompt := Fill(template, platform, Some(VariablesOrDefault(req.variables)));
             var sent := [LookupModel(modelName), ConvertImage(s), Generate(client, modelName, prompt, part)];
             match platform.generate(client, modelName, prompt, part)
             case Err(e) => (FailedReply(d, e), sent)
             case Ok(text) =>
               match platform.parseJson(text)
               case Some(v) => (SuccessReply(v), sent + [ParseJson(text)])
               case None => (PartialReply(text), sent + [ParseJson(text)]))
        case _ => (FailedReply(d, ReplaceTypeError), [LookupModel(modelName)])
  }

  /** One request to a server whose count is `count`, routed as the server's `app.post` and
      `app.get` calls say; `ipAdmits` is the per-IP gate's decision. */
  function MonolithOutcome(d: Dialect, template: string, count: nat, client: Client, platform: Platform, request: HttpRequest,
                           ipAdmits: bool, modelName: Option<string>): Served
  {
    match Route(request.verb, request.path)
    case Hello => Served(Some(Reply(200, MessageOnly("hello"))), count, [])
    case Ping => Served(Some(Reply(200, MessageOnly(d.pingMessage))), count, [])
    case Unrouted => Served(None, count, [])
    case Analyze =>
      if !ipAdmits then Served(Some(IpRejection(IpGate(d))), count, [])
      else if count >= RequestLimit then Served(Some(BusyReply(d)), count, [])
      else
        var (reply, calls) := HandleAdmitted(d, template, client, platform, request.body, modelName);
        Served(Some(reply), count + 1, calls)
  }

  /** A loaded server: its `requestCount` and the client made from `GEMINI_API_KEY`. */
  class Server {
    var requestCount: nat
    const genAI: Client
    const dialect: Dialect
    /** The inline prompt. */
    const promptTemplate: string

    constructor (dialect: Dialect, apiKey: Option<string>)
      ensures requestCount == 0 && genAI == GenAiClient(apiKey) && this.dialect == dialect
      ensures promptTemplate == MonolithTemplate
    {
      requestCount := 0;
      genAI := GenAiClient(apiKey);
      this.dialect := dialect;
      promptTemplate := MonolithTemplate;
    }

    /** The `setInterval` callback, every `LIMIT_WINDOW_MS`. */
    method Tick()
      modifies this
      ensures requestCount == 0
    {
      requestCount := 0;
    }

    method Serve(platform: Platform, request: HttpRequest, ipAdmits: bool, modelName: Option<string>)
      returns (reply: Option<Reply>, calls: seq<Call>)
      modifies this
      ensures MonolithOutcome(dialect, promptTemplate, old(requestCount), genAI, platform, request, ipAdmits, modelName)
              == Served(reply, requestCount, calls)
    {
      var target := Route(request.verb, request.path);
      if target == Hello {
        return Some(Reply(200, MessageOnly("hello"))), [];
      } else if target == Ping {
        return Some(Reply(200, MessageOnly(dialect.pingMessage))), [];
      } else if target == Unrouted {
        return None, [];
      }
      if !ipAdmits {
        return Some(IpRejection(IpGate(dialect))), [];
      }
      if requestCount >= RequestLimit {
        return Some(BusyReply(dialect)), [];
      }
      requestCount := requestCount + 1;
      var handled := HandleAdmitted(dialect, promptTemplate, genAI, platform, request.body, modelName);
      reply, calls := Some(handled.0), handled.1;
    }
  }

  /** Admission is the same as in the modular server: per-IP gate first, then 503 at the
      limit with no work done; otherwise one slot is taken, and the count never passes 15. */
  lemma MonolithAdmission(d: Dialect, template: string, count: nat, client: Client, platform: Platform, body: AnalyzeRequest,
                          ipAdmits: bool, modelName: Option<string>)
    ensures var s := MonolithOutcome(d, template, count, client, platform, HttpRequest("POST", "/api/analyze", body), ipAdmits, modelName);
      && (!ipAdmits ==> s.reply == Some(Reply(429, MessageOnly(d.ipMessage))) && s.count == count && s.calls == [])
      && (ipAdmits && count >= RequestLimit ==>
            s.reply == Some(Reply(503, MessageOnly(d.busyMessage))) && s.count == count && s.calls == [])
      && (ipAdmits && count < RequestLimit ==> s.count == count + 1)
      && (count <= RequestLimit ==> s.count <= RequestLimit)
  {
  }

  /** A falsy `imageData` gets `{error}` alone with code 400, before any call. */
  lemma MonolithMissingImage(d: Dialect, template: string, count: nat, client: Client, platform: Platform, body: AnalyzeRequest,
                             modelName: Option<string>)
    requires count < RequestLimit && !Truthy(body.imageData)
    ensures var s := MonolithOutcome(d, template, count, client, platform, HttpRequest("POST", "/api/analyze", body), true, modelName);
      && s.reply == Some(Reply(400, Body(None, None, None, Some("No image data provided"))))
      && s.count == count + 1 && s.calls == []
  {
  }

  /** The model is looked up before the image is touched: an admitted request with an image
      always calls `getGenerativeModel` first, and a lookup error means no conversion. */
  lemma LookupBeforeConversion(d: Dialect, template: string, client: Client, platform: Platform, req: AnalyzeRequest,
                               modelName: Option<string>)
    requires Truthy(req.imageData)
    ensures var (reply, calls) := HandleAdmitted(d, template, client, platform, req, modelName);
      && |calls| >= 1 && calls[0] == LookupModel(modelName)
      && (platform.lookupModel(modelName).Some? ==>
            calls == [LookupModel(modelName)] && reply == FailedReply(d, platform.lookupModel(modelName).value))
  {
  }

  /** The inline prompt is the eight-space template followed by the serialised variables,
      `{}` when they are absent. */
  lemma MonolithSendsInlinePrompt(d: Dialect, template: string, client: Client, platform: Platform, s: string, variables: Option<Json>,
                                  modelName: Option<string>)
    requires s != "" && platform.lookupModel(modelName).None? && Base64ToImage(platform, s).Ok?
    ensures var (reply, calls) := HandleAdmitted(d, template, client, platform, AnalyzeRequest(Text(s), variables), modelName);
      && |calls| >= 3 && calls[2].Generate?
      && calls[2].prompt[..|template|] == template
      && calls[2].prompt[|template|..] == platform.stringify(VariablesOrDefault(variables))
      && calls[2].image == Base64ToImage(platform, s).value
  {
    FillIsTemplateThenVariables(template, platform, Some(VariablesOrDefault(variables)));
  }

  /** After the model answers: `success` with the parsed value, or `partial_success` with the
      verbatim text as a `raw_response`, code 200 either way. */
  lemma MonolithAnswered(d: Dialect, template: string, client: Client, platform: Platform, s: string, variables: Option<Json>,
                         modelName: Option<string>, text: string)
    requires s != "" && platform.lookupModel(modelName).None? && Base64ToImage(platform, s).Ok?
    requires var prompt := Fill(template, platform, Some(VariablesOrDefault(variables)));
      platform.generate(client, modelName, prompt, Base64ToImage(platform, s).value) == Ok(text)
    ensures var (reply, calls) := HandleAdmitted(d, template, client, platform, AnalyzeRequest(Text(s), variables), modelName);
      && reply.code == 200 && |reply.body.data.value| == 1
      && (platform.parseJson(text).Some? ==>
            reply.body.status == Some("success") && reply.body.data == Some([platform.parseJson(text).value]))
      && (platform.parseJson(text).None? ==>
            reply.body.status == Some("partial_success") && reply.body.data == Some([ToJson(RawResponse(text))])
            && FromJson(reply.body.data.value[0]) == Some(RawResponse(text)))
  {
    RawResponseRoundTrip(text);
  }

  /** Every error thrown after the increment gives the 500 reply of the server, with the slot
      kept: a failed model lookup (see `LookupBeforeConversion`), an `imageData` that is truthy
      but not a string (the `replace` TypeError), an image the converter rejects, and a failed
      model call. */
  lemma MonolithThrownErrors(d: Dialect, template: string, count: nat, client: Client, platform: Platform, body: AnalyzeRequest,
                             modelName: Option<string>)
    requires count < RequestLimit && Truthy(body.imageData) && platform.lookupModel(modelName).None?
    ensures var s := MonolithOutcome(d, template, count, client, platform, HttpRequest("POST", "/api/analyze", body), true, modelName);
      && s.count == count + 1
      && (!body.imageData.Text? ==> s.reply == Some(FailedReply(d, ReplaceTypeError)) && s.calls == [LookupModel(modelName)])
      && (body.imageData.Text? ==>
            var image := Base64ToImage(platform, body.imageData.s);
            && (image.Err? ==> s.reply == Some(FailedReply(d, image.error))
                               && s.calls == [LookupModel(modelName), ConvertImage(body.imageData.s)])
            && (image.Ok? ==>
                  var prompt := Fill(template, platform, Some(VariablesOrDefault(body.variables)));
                  var answer := platform.generate(client, modelName, prompt, image.value);
                  answer.Err? ==> s.reply == Some(FailedReply(d, answer.error))
                                  && s.calls == [LookupModel(modelName), ConvertImage(body.imageData.s),
                                                 Generate(client, modelName, prompt, image.value)]))
  {
  }

  /** A thrown error gives 500 with `error.message` in `src/index.ts` and `error.statusText` in
      `index.js`, so an error that is not an HTTP error of the client (a failed conversion, a
      string that is not an image) gets no `message` at all from `index.js`. */
  lemma FailureMessages(e: JsError)
    ensures FailedReply(Ts, e).code == 500 && FailedReply(Ts, e).body.message == Some(e.message)
    ensures FailedReply(Js, e).code == 500 && FailedReply(Js, e).body.message == e.statusText
    ensures e.statusText.None? ==> FailedReply(Js, e).body.message.None?
    ensures FailedReply(Js, ReplaceTypeError).body.message.None?
  {
  }

  /** Every reply of a monolith to `POST /api/analyze` carries `data` exactly when it is a 200
      reply, and then exactly one element. */
  lemma MonolithDataShape(d: Dialect, template: string, count: nat, client: Client, platform: Platform, body: AnalyzeRequest,
                          ipAdmits: bool, modelName: Option<string>)
    ensures var s := MonolithOutcome(d, template, count, client, platform, HttpRequest("POST", "/api/analyze", body), ipAdmits, modelName);
      && s.reply.Some?
      && (s.reply.value.body.data.Some? <==> s.reply.value.code == 200)
      && (s.reply.value.body.data.Some? ==> |s.reply.value.body.data.value| == 1)
  {
    if ipAdmits && count < RequestLimit {
      HandledDataShape(d, template, client, platform, body, modelName);
    }
  }

  lemma HandledDataShape(d: Dialect, template: string, client: Client, platform: Platform, req: AnalyzeRequest,
                         modelName: Option<string>)
    ensures var r := HandleAdmitted(d, template, client, platform, req, modelName).0;
      && (r.body.data.Some? <==> r.code == 200)
      && (r.body.data.Some? ==> |r.body.data.value| == 1)
  {
    if Truthy(req.imageData) && platform.lookupModel(modelName).None? && req.imageData.Text? {
      var s := req.imageData.s;
      var image := Base64ToImage(platform, s);
      if image.Ok? {
        var prompt := Fill(template, platform, Some(VariablesOrDefault(req.variables)));
        var answer := platform.generate(client, modelName, prompt, image.value);
        if answer.Ok? {
          assert platform.parseJson(answer.value).Some? || platform.parseJson(answer.value).None?;
        }
      }
    }
  }

  /** Any two dialects, so in particular the two servers, answer every request with the same
      code after the same calls, and keep the same count; only the texts named in `Dialect`
      differ. */
  lemma DialectsAgreeOnBehaviour(d1: Dialect, d2: Dialect, template: string, count: nat, client: Client,
                                 platform: Platform, request: HttpRequest, ipAdmits: bool, modelName: Option<string>)
    ensures var t := MonolithOutcome(d1, template, count, client, platform, request, ipAdmits, modelName);
      var j := MonolithOutcome(d2, template, count, client, platform, request, ipAdmits, modelName);
      && t.count == j.count && t.calls == j.calls
      && t.reply.Some? == j.reply.Some?
      && (t.reply.Some? ==> t.reply.value.code == j.reply.value.code
                            && t.reply.value.body.data == j.reply.value.body.data
                            && t.reply.value.body.status == j.reply.value.body.status)
  {
    if Route(request.verb, request.path) == Analyze && ipAdmits && count < RequestLimit {
      HandledAgree(d1, d2, template, client, platform, request.body, modelName);
    }
  }

  lemma HandledAgree(d1: Dialect, d2: Dialect, template: string, client: Client, platform: Platform,
                     req: AnalyzeRequest, modelName: Option<string>)
    ensures var (r1, c1) := HandleAdmitted(d1, template, client, platform, req, modelName);
      var (r2, c2) := HandleAdmitted(d2, template, client, platform, req, modelName);
      && c1 == c2 && r1.code == r2.code && r1.body.data == r2.body.data && r1.body.status == r2.body.status
  {
    if Truthy(req.imageData) && platform.lookupModel(modelName).None? && req.imageData.Text? {
      var s := req.imageData.s;
      var image := Base64ToImage(platform, s);
      if image.Ok? {
        var prompt := Fill(template, platform, Some(VariablesOrDefault(req.variables)));
        var answer := platform.generate(client, modelName, prompt, image.value);
        if answer.Ok? {
          assert platform.parseJson(answer.value).Some? || platform.parseJson(answer.value).None?;
        }
      }
    }
  }

  /** The per-IP gate rejects before the global count is looked at, and the health routes
      never touch the count; the `/ping` texts are the servers' own. */
  lemma MonolithHealthRoutes(d: Dialect, template: string, count: nat, client: Client, platform: Platform, request: HttpRequest,
                             ipAdmits: bool, modelName: Option<string>)
    requires request.verb == "GET"
    ensures var s := MonolithOutcome(d, template, count, client, platform, request, ipAdmits, modelName);
      && s.count == count && s.calls == []
      && (request.path == "/" ==> s.reply == Some(Reply(200, MessageOnly("hello"))))
      && (request.path == "/ping" ==> s.reply == Some(Reply(200, MessageOnly(d.pingMessage))))
  {
  }

  /** The monolithic TypeScript server and the modular one keep the same global count on
      every request. */
  lemma SameCountAsModular(d: Dialect, template: string, modularTemplate: string, count: nat, client: Client,
                           platform: Platform, request: HttpRequest, ipAdmits: bool, modelName: Option<string>)
    ensures MonolithOutcome(d, template, count, client, platform, request, ipAdmits, modelName).count
            == Routes.ServeOutcome(count, Some(client), modularTemplate, platform, request, ipAdmits, modelName).count
  {
  }
}
