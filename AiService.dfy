/** `src/services/aiService.ts`: the module-level Gemini client set by `initializeAI`, the guarded
    `analyzeImage`, and the fallback parser `parseAnalysisResponse`. */
module AiService {
  import opened Wrappers
  import opened JsonValues
  import opened Types
  import opened Foreign
  import opened PromptGenerator

  /** The error `analyzeImage` throws before `initializeAI` has run. */
  const NotInitialized: JsError := JsError("AI service not initialized", None)

  /** What `analyzeImage` does, given the client it finds (if any) and the template its
      `generatePrompt` fills: the model text or the error it throws, and the calls it made into
      the Gemini client. */
  function AnalyzeImageOutcome(genAI: Option<Client>, template: string, platform: Platform, imagePart: ImagePart,
                               variables: Option<Json>, modelName: Option<string>)
    : (o: (Result<string, JsError>, seq<Call>))
    ensures genAI.None? ==> o == (Err(NotInitialized), [])
    ensures genAI.Some? && platform.lookupModel(modelName).Some? ==>
      o == (Err(platform.lookupModel(modelName).value), [LookupModel(modelName)])
    ensures genAI.Some? && platform.lookupModel(modelName).None? ==>
      var prompt := Fill(template, platform, variables);
      o == (platform.generate(genAI.value, modelName, prompt, imagePart),
            [LookupModel(modelName), Generate(genAI.value, modelName, prompt, imagePart)])
  {
    match genAI
    case None => (Err(NotInitialized), [])
    case Some(client) =>
      match platform.lookupModel(modelName)
      case Some(e) => (Err(e), [LookupModel(modelName)])
      case None =>
        var prompt := Fill(template, platform, variables);
        (platform.generate(client, modelName, prompt, imagePart),
         [LookupModel(modelName), Generate(client, modelName, prompt, imagePart)])
  }

  /** The module state: `let genAI`, unset when the module is loaded, and the template of the
      imported `generatePrompt`. */
  class AiService {
    var genAI: Option<Client>
    const promptTemplate: string

    constructor ()
      ensures genAI == None && promptTemplate == ModularTemplate
    {
      promptTemplate := ModularTemplate;
      genAI := None;
    }

    /** `initializeAI(apiKey)`: a new client replaces any earlier one. */
    method InitializeAI(apiKey: Option<string>)
      modifies this
      ensures genAI == Some(GenAiClient(apiKey))
    {
      genAI := Some(GenAiClient(apiKey));
    }

    /** `analyzeImage(imagePart, variables = {}, modelName)`. */
    method AnalyzeImage(platform: Platform, imagePart: ImagePart, variables: Option<Json>,
                        modelName: Option<string>)
      returns (r: Result<string, JsError>, calls: seq<Call>)
      ensures (r, calls) == AnalyzeImageOutcome(genAI, promptTemplate, platform, imagePart, variables, modelName)
    {
      if genAI.None? {
        return Err(NotInitialized), [];
      }
      var client := genAI.value;
      var lookup := platform.lookupModel(modelName);
      if lookup.Some? {
        return Err(lookup.value), [LookupModel(modelName)];
      }
      var prompt := Fill(promptTemplate, platform, variables);
      calls := [LookupModel(modelName), Generate(client, modelName, prompt, imagePart)];
      r := platform.generate(client, modelName, prompt, imagePart);
    }
  }

  /** Without a client nothing is sent and the error is "AI service not initialized"; with one,
      the model text (or the client's error) is returned unchanged. */
  lemma AnalyzeImageGuard(genAI: Option<Client>, template: string, platform: Platform, imagePart: ImagePart,
                          variables: Option<Json>, modelName: Option<string>)
    ensures var (r, calls) := AnalyzeImageOutcome(genAI, template, platform, imagePart, variables, modelName);
      && (r == Err(NotInitialized) && calls == [] <==> genAI.None?)
      && (forall c :: c in calls ==> !c.ParseJson? && !c.ConvertImage?)
  {
  }

  /** What is sent to the model is exactly the filled template with the image part: the
      template followed by the serialised variables, `{}` when they are absent. */
  lemma AnalyzeImageSendsPrompt(client: Client, template: string, platform: Platform, imagePart: ImagePart,
                                variables: Option<Json>, modelName: Option<string>)
    requires platform.lookupModel(modelName).None?
    ensures var (r, calls) := AnalyzeImageOutcome(Some(client), template, platform, imagePart, variables, modelName);
      && |calls| == 2 && calls[1].Generate?
      && calls[1].image == imagePart && calls[1].model == modelName
      && calls[1].prompt[..|template|] == template
      && calls[1].prompt[|template|..] == platform.stringify(VariablesOrDefault(variables))
      && (variables.None? ==> calls[1].prompt[|template|..] == platform.stringify(JObject([])))
      && r == platform.generate(client, modelName, calls[1].prompt, imagePart)
  {
    FillIsTemplateThenVariables(template, platform, variables);
  }

  /** With the template the service is built with, the prompt is `generatePrompt(variables)`. */
  lemma ServiceSendsGeneratedPrompt(client: Client, platform: Platform, imagePart: ImagePart,
                                    variables: Option<Json>, modelName: Option<string>)
    requires platform.lookupModel(modelName).None?
    ensures var p := GeneratePrompt(platform, variables);
      AnalyzeImageOutcome(Some(client), ModularTemplate, platform, imagePart, variables, modelName)
      == (platform.generate(client, modelName, p, imagePart), [LookupModel(modelName), Generate(client, modelName, p, imagePart)])
  {
  }

  /** `parseAnalysisResponse`'s result: `result` is typed `AnalysisResult`, but it is whatever
      `JSON.parse` produced. */
  datatype ParseResult = ParseResult(success: bool, result: Json)

  /** `parseAnalysisResponse(responseText)`: total; every exception of `JSON.parse` is caught. */
  function ParseAnalysisResponse(platform: Platform, text: string): (p: ParseResult)
    ensures p.success <==> platform.parseJson(text).Some?
    ensures p.success ==> p.result == platform.parseJson(text).value
    ensures !p.success ==> p.result == ToJson(RawResponse(text))
  {
    match platform.parseJson(text)
    case Some(v) => ParseResult(true, v)
    case None => ParseResult(false, ToJson(RawResponse(text)))
  }

  /** A failed parse yields a `raw_response` result holding the text verbatim, and nothing
      else reads back from it. */
  lemma FailedParseIsRawResponse(platform: Platform, text: string)
    requires platform.parseJson(text).None?
    ensures var p := ParseAnalysisResponse(platform, text);
      && !p.success
      && FromJson(p.result) == Some(RawResponse(text))
      && p.result.JObject? && Get(p.result.members, "type") == Some(JString("raw_response"))
  {
    RawResponseRoundTrip(text);
  }

  /** No shape check: any text `JSON.parse` accepts is a success, even one that is not an
      `AnalysisResult` (here the text `null`). */
  lemma SuccessWithoutShapeCheck(platform: Platform)
    requires platform.parseJson("null") == Some(JNull)
    ensures var p := ParseAnalysisResponse(platform, "null");
      p.success && FromJson(p.result).None?
  {
  }
}
