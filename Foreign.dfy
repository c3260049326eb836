/** The code the pipeline calls but that is not part of this model (Node's Buffer, sharp, the
    Gemini client, JSON.parse and JSON.stringify), as functions handed to the model, and the
    record of which of them a handler called. */
module Foreign {
  import opened Wrappers
  import opened JsonValues
  import opened Types
  import opened Base64

  /** A thrown JavaScript error. Every `Error` has a `message`; `statusText` is set only on the
      Gemini client's HTTP errors. */
  datatype JsError = JsError(message: string, statusText: Option<string>)

  /** `new GoogleGenerativeAI(apiKey)`; the key comes from the environment and may be unset. */
  datatype Client = GenAiClient(apiKey: Option<string>)

  datatype Platform = Platform(
    /** `Buffer.from(s, 'base64')`: lenient, skips what is not base64, never throws. */
    decodeBase64: string -> seq<byte>,
    /** `sharp(buffer).png().toBuffer()`: PNG bytes, or the error sharp rejects with. */
    toPng: seq<byte> -> Result<seq<byte>, JsError>,
    /** `genAI.getGenerativeModel({ model })`: `Some(e)` when it throws `e`. */
    lookupModel: Option<string> -> Option<JsError>,
    /** `model.generateContent([prompt, image])` followed by `result.response.text()`. */
    generate: (Client, Option<string>, string, ImagePart) -> Result<string, JsError>,
    /** `JSON.parse(text)`: `None` when it throws. */
    parseJson: string -> Option<Json>,
    /** `JSON.stringify(value)`. */
    stringify: Json -> string)

  /** One call into that code, in the order a handler makes them. */
  datatype Call =
    | ConvertImage(input: string)
    | LookupModel(model: Option<string>)
    | Generate(client: Client, model: Option<string>, prompt: string, image: ImagePart)
    | ParseJson(text: string)
}
