/** `analyzeController` of `src/controllers/analyzeController.ts`: the global admission check,
    the request validation, and the envelopes for the success, partial-success and error paths. */
module AnalyzeController {
  import opened Wrappers
  import opened JsonValues
  import opened Http
  import opened Types
  import opened Foreign
  import opened RateLimiter
  import opened ImageService
  import opened AiService

  /** The reply when the global limit is reached: `{message, status: "error"}`, code 503. */
  const Busy: Reply :=
    Reply(503, ApiResponse("Too many requests: Server Busy, We are serving at max", None, Error, None).ToBody())

  /** The reply to a falsy `imageData`, code 400. */
  const MissingData: Reply :=
    Reply(400, ApiResponse("Missing required data", None, Error, Some("No image data provided")).ToBody())

  /** The 200 reply built from the parser's verdict: one `data` element either way. */
  function Processed(p: ParseResult): (r: Reply)
    ensures r.code == 200 && r.body.data == Some([p.result]) && r.body.error.None?
    ensures p.success ==> r.body.message == Some("Image processed") && r.body.status == Some("success")
    ensures !p.success ==>
      r.body.message == Some("Image processed but response format error") && r.body.status == Some("partial_success")
  {
    if p.success then Reply(200, ApiResponse("Image processed", Some([p.result]), Success, None).ToBody())
    else Reply(200, ApiResponse("Image processed but response format error", Some([p.result]), PartialSuccess, None).ToBody())
  }

  /** The reply to anything thrown after admission, code 500, carrying `error.message`. */
  function Failed(e: JsError): (r: Reply)
    ensures r.code == 500 && r.body.message == Some(e.message) && r.body.data.None?
    ensures r.body.error == Some("Failed to process image") && r.body.status == Some("error")
  {
    Reply(500, ApiResponse(e.message, None, Error, Some("Failed to process image")).ToBody())
  }

  /** The reply and the calls made by the part of the controller after the increment. */
  function HandleAdmitted(genAI: Option<Client>, template: string, platform: Platform, req: AnalyzeRequest,
                          modelName: Option<string>): (Reply, seq<Call>)
  {
    if !Truthy(req.imageData) then (MissingData, [])
    else match req.imageData
      case Text(s) =>
        (match Base64ToImage(platform, s)
         case Err(e) => (Failed(e), [ConvertImage(s)])
         case Ok(part) =>
           var (ai, aiCalls) := AnalyzeImageOutcome(genAI, template, platform, part, Some(VariablesOrDefault(req.variables)), modelName);
           match ai
           case Err(e) => (Failed(e), [ConvertImage(s)] + aiCalls)
           case Ok(text) => (Processed(ParseAnalysisResponse(platform, text)), [ConvertImage(s)] + aiCalls + [ParseJson(text)]))
      case _ => (Failed(ReplaceTypeError), [])
  }

  /** A full run of the controller on a shared count: the reply, the count after it, and the
      calls made. */
  datatype Outcome = Outcome(reply: Reply, count: nat, calls: seq<Call>)

  function ControllerOutcome(count: nat, genAI: Option<Client>, template: string, platform: Platform, req: AnalyzeRequest,
                             modelName: Option<string>): Outcome
  {
    if count >= RequestLimit then Outcome(Busy, count, [])
    else
      var (reply, calls) := HandleAdmitted(genAI, template, platform, req, modelName);
      Outcome(reply, count + 1, calls)
  }

  /** The controller module: its `globalLimiter` and the AI service module it calls. */
  class Controller {
    const globalLimiter: GlobalRateLimiter
    const ai: AiService

    constructor (globalLimiter: GlobalRateLimiter, ai: AiService)
      ensures this.globalLimiter == globalLimiter && this.ai == ai
    {
      this.globalLimiter := globalLimiter;
      this.ai := ai;
    }

    /** `analyzeController(req, res)`; the model name is `process.env.MODEL`. */
    method Handle(platform: Platform, req: AnalyzeRequest, modelName: Option<string>)
      returns (reply: Reply, calls: seq<Call>)
      modifies globalLimiter.shared
      ensures ControllerOutcome(old(globalLimiter.shared.value), ai.genAI, ai.promptTemplate, platform, req, modelName)
              == Outcome(reply, globalLimiter.shared.value, calls)
    {
      var reached := globalLimiter.IsLimitReached();
      if reached {
        return Busy, [];
      }
      globalLimiter.IncrementCount();
      reply, calls := Respond(platform, req, modelName);
    }

    /** The part of `analyzeController` after the increment. */
    method Respond(platform: Platform, req: AnalyzeRequest, modelName: Option<string>)
      returns (reply: Reply, calls: seq<Call>)
      ensures (reply, calls) == HandleAdmitted(ai.genAI, ai.promptTemplate, platform, req, modelName)
    {
      if !Truthy(req.imageData) {
        return MissingData, [];
      }
      if !req.imageData.Text? {
        return Failed(ReplaceTypeError), [];
      }
      var s := req.imageData.s;
      calls := [ConvertImage(s)];
      var image := Base64ToImage(platform, s);
      if image.Err? {
        return Failed(image.error), calls;
      }
      var text, aiCalls := ai.AnalyzeImage(platform, image.value, Some(VariablesOrDefault(req.variables)), modelName);
      calls := calls + aiCalls;
      if text.Err? {
        return Failed(text.error), calls;
      }
      var parsed := ParseAnalysisResponse(platform, text.value);
      calls := calls + [ParseJson(text.value)];
      reply := Processed(parsed);
    }
  }

  /** Check-then-increment: a request is turned away with 503 exactly when the count is at the
      limit; otherwise it takes one slot whatever happens next, and the count never passes 15. */
  lemma AdmissionTakesOneSlot(count: nat, genAI: Option<Client>, template: string, platform: Platform, req: AnalyzeRequest,
                              modelName: Option<string>)
    ensures var o := ControllerOutcome(count, genAI, template, platform, req, modelName);
      && (o.reply.code == 503 <==> count >= RequestLimit)
      && (count >= RequestLimit ==> o.reply == Busy && o.count == count && o.calls == [])
      && (count < RequestLimit ==> o.count == count + 1)
      && (count <= RequestLimit ==> o.count <= RequestLimit)
      && o.count == Admit(count).next && (o.reply.code != 503 <==> Admit(count).admitted)
  {
    var o := ControllerOutcome(count, genAI, template, platform, req, modelName);
    if count < RequestLimit {
      AdmittedNeverBusy(genAI, template, platform, req, modelName);
    }
  }

  lemma AdmittedNeverBusy(genAI: Option<Client>, template: string, platform: Platform, req: AnalyzeRequest, modelName: Option<string>)
    ensures HandleAdmitted(genAI, template, platform, req, modelName).0.code in {200, 400, 500}
  {
  }

  /** The busy reply has a `message` and `status: "error"` and nothing else. */
  lemma BusyBody()
    ensures Busy.body.message == Some("Too many requests: Server Busy, We are serving at max")
    ensures Busy.body.status == Some("error") && Busy.body.data.None? && Busy.body.error.None?
  {
  }

  /** A falsy `imageData` gets the 400 envelope, keeps the slot it took and does no work. */
  lemma MissingImageKeepsSlot(count: nat, genAI: Option<Client>, template: string, platform: Platform, req: AnalyzeRequest,
                              modelName: Option<string>)
    requires count < RequestLimit && !Truthy(req.imageData)
    ensures var o := ControllerOutcome(count, genAI, template, platform, req, modelName);
      && o.reply.code == 400 && o.count == count + 1 && o.calls == []
      && o.reply.body == Body(Some("Missing required data"), None, Some("error"), Some("No image data provided"))
  {
  }

  /** An image the converter rejects, or an error of the AI service (a missing client, a failed
      model lookup, a failed model call), gives the 500 envelope with that error's message; the
      slot is not given back. */
  lemma ThrownErrorsGive500(count: nat, genAI: Option<Client>, template: string, platform: Platform, s: string,
                            variables: Option<Json>, modelName: Option<string>)
    requires count < RequestLimit && s != ""
    ensures var req := AnalyzeRequest(Text(s), variables);
      var o := ControllerOutcome(count, genAI, template, platform, req, modelName);
      var image := Base64ToImage(platform, s);
      && o.count == count + 1
      && (image.Err? ==> o.reply == Failed(image.error) && o.calls == [ConvertImage(s)])
      && (image.Ok? && genAI.None? ==> o.reply == Failed(NotInitialized) && o.reply.body.message == Some("AI service not initialized"))
      && (image.Ok? && genAI.Some? && platform.lookupModel(modelName).Some? ==>
            o.reply == Failed(platform.lookupModel(modelName).value))
      && (image.Ok? && genAI.Some? && platform.lookupModel(modelName).None? ==>
            var prompt := PromptGenerator.Fill(template, platform, Some(VariablesOrDefault(variables)));
            var answer := platform.generate(genAI.value, modelName, prompt, image.value);
            answer.Err? ==> o.reply == Failed(answer.error) && |o.calls| == 3
                            && o.calls[2] == Generate(genAI.value, modelName, prompt, image.value))
  {
  }

  /** A truthy `imageData` that is not a string fails inside `base64ToImage` before any call. */
  lemma NonStringImageGives500(count: nat, genAI: Option<Client>, template: string, platform: Platform, variables: Option<Json>,
                               modelName: Option<string>)
    requires count < RequestLimit
    ensures var o := ControllerOutcome(count, genAI, template, platform, AnalyzeRequest(NonText(true), variables), modelName);
      && o.reply.code == 500 && o.calls == []
      && o.reply.body.message == Some("base64String.replace is not a function")
  {
  }

  /** Once the model has answered: a text `JSON.parse` accepts gives `success` with that value,
      any other text `partial_success` with the raw response; both answer 200. */
  lemma AnsweredGives200(count: nat, client: Client, template: string, platform: Platform, s: string, variables: Option<Json>,
                         modelName: Option<string>, text: string)
    requires count < RequestLimit && s != ""
    requires Base64ToImage(platform, s).Ok? && platform.lookupModel(modelName).None?
    requires var part := Base64ToImage(platform, s).value;
      var prompt := PromptGenerator.Fill(template, platform, Some(VariablesOrDefault(variables)));
      platform.generate(client, modelName, prompt, part) == Ok(text)
    ensures var o := ControllerOutcome(count, Some(client), template, platform, AnalyzeRequest(Text(s), variables), modelName);
      && o.reply.code == 200 && o.count == count + 1
      && |o.calls| == 4 && o.calls[0] == ConvertImage(s) && o.calls[3] == ParseJson(text)
      && (platform.parseJson(text).Some? ==>
            o.reply.body.status == Some("success") && o.reply.body.data == Some([platform.parseJson(text).value]))
      && (platform.parseJson(text).None? ==>
            o.reply.body.status == Some("partial_success") && o.reply.body.data == Some([ToJson(RawResponse(text))]))
  {
  }

  /** Every reply has the envelope shape of its status: `success` and `partial_success` come
      with code 200 and exactly one `data` element, every `error` reply has no `data`. */
  lemma EnvelopeShape(count: nat, genAI: Option<Client>, template: string, platform: Platform, req: AnalyzeRequest,
                      modelName: Option<string>)
    ensures var r := ControllerOutcome(count, genAI, template, platform, req, modelName).reply;
      && r.body.status.Some?
      && (r.body.data.Some? <==> r.code == 200)
      && (r.body.data.Some? ==> |r.body.data.value| == 1)
      && (r.code == 200 <==> r.body.status != Some("error"))
      && (r.code == 200 ==> r.body.status == Some("success") || r.body.status == Some("partial_success"))
  {
  }
}
