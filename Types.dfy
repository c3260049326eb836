/** The request, image and response shapes of `src/types.ts`. */
module Types {
  import opened Wrappers
  import opened JsonValues
  import opened Http

  /** What the `imageData` member of a request body can be, as far as the handlers can tell
      apart: absent, a string, or some other JSON value together with its JavaScript truthiness. */
  datatype ImageField = Missing | Text(s: string) | NonText(truthy: bool)

  /** JavaScript's `!!imageData`: absent and the empty string are falsy. */
  function Truthy(f: ImageField): (b: bool)
    ensures f.Missing? ==> !b
    ensures f.Text? ==> (b <==> |f.s| > 0)
    ensures f.NonText? ==> b == f.truthy
  {
    match f
    case Missing => false
    case Text(s) => s != ""
    case NonText(t) => t
  }

  /** A request body: `imageData` is required by the type but may be missing at run time;
      `variables` is optional (`None` is `undefined`). */
  datatype AnalyzeRequest = AnalyzeRequest(imageData: ImageField, variables: Option<Json>)

  /** The default `= {}` of `const { variables = {} } = req.body` and of the parameter of
      `generatePrompt`: it applies only when the value is `undefined`, so an explicit `null` is
      kept. */
  function VariablesOrDefault(variables: Option<Json>): (v: Json)
    ensures variables.None? ==> v == JObject([])
    ensures variables.Some? ==> v == variables.value
  {
    match variables
    case None => JObject([])
    case Some(v) => v
  }

  datatype InlineData = InlineData(data: string, mimeType: string)

  /** The image as it is handed to the model: base64 text and its MIME type. */
  datatype ImagePart = ImagePart(inlineData: InlineData)

  /** `ApiResponse.status`. */
  datatype Status = Success | PartialSuccess | Error {
    function Name(): string {
      match this
      case Success => "success"
      case PartialSuccess => "partial_success"
      case Error => "error"
    }
  }

  /** The status a wire name stands for; only the three names of the union are statuses. */
  function StatusNamed(name: string): (r: Option<Status>)
    ensures r.Some? ==> r.value.Name() == name
    ensures r.None? ==> forall s: Status :: s.Name() != name
  {
    if name == "success" then Some(Success)
    else if name == "partial_success" then Some(PartialSuccess)
    else if name == "error" then Some(Error)
    else None
  }

  /** `ApiResponse`: `message` and `status` are required, `data` and `error` optional. */
  datatype ApiResponse = ApiResponse(
    message: string,
    data: Option<seq<Json>>,
    status: Status,
    error: Option<string>)
  {
    function ToBody(): (b: Body)
      ensures b.message == Some(message) && b.data == data && b.error == error
      ensures b.status.Some? && StatusNamed(b.status.value) == Some(status)
    {
      Body(Some(message), data, Some(status.Name()), error)
    }
  }

  /** The closed union `AnalysisResult`, one constructor per interface. */
  datatype AnalysisResult =
    | LogicExpression(expr: string, result: string)
    | CodeConversion(inputType: string, outputType: string, input: string, result: string)
    | Kmap(variables: seq<string>, minimizedSop: string, minimizedPos: string, expressionType: string)
    | BinaryArithmetic(operation: string, operand1: string, operand2: string, result: string)
    | BooleanSimplification(original: string, result: string)
    | RawResponse(result: string)

  /** The `type` tag of each variant. */
  function Tag(r: AnalysisResult): string {
    match r
    case LogicExpression(_, _) => "logic_expression"
    case CodeConversion(_, _, _, _) => "code_conversion"
    case Kmap(_, _, _, _) => "kmap"
    case BinaryArithmetic(_, _, _, _) => "binary_arithmetic"
    case BooleanSimplification(_, _) => "boolean_simplification"
    case RawResponse(_) => "raw_response"
  }

  function StringsToJson(ss: seq<string>): (js: seq<Json>)
    ensures |js| == |ss|
  {
    if ss == [] then [] else [JString(ss[0])] + StringsToJson(ss[1..])
  }

  /** A JSON array of strings read back as a sequence, order kept. */
  function JsonToStrings(js: seq<Json>): Option<seq<string>> {
    if js == [] then Some([])
    else if !js[0].JString? then None
    else match JsonToStrings(js[1..])
      case None => None
      case Some(rest) => Some([js[0].s] + rest)
  }

  /** The object each variant is written as, members in the order the interfaces declare them. */
  function ToJson(r: AnalysisResult): Json {
    var body := match r
      case LogicExpression(e, res) => [("expr", JString(e)), ("result", JString(res))]
      case CodeConversion(it, ot, i, res) =>
        [("input_type", JString(it)), ("output_type", JString(ot)), ("input", JString(i)), ("result", JString(res))]
      case Kmap(vs, sop, pos, et) =>
        [("variables", JArray(StringsToJson(vs))), ("minimized_sop", JString(sop)),
         ("minimized_pos", JString(pos)), ("expression_type", JString(et))]
      case BinaryArithmetic(op, a, b, res) =>
        [("operation", JString(op)), ("operand1", JString(a)), ("operand2", JString(b)), ("result", JString(res))]
      case BooleanSimplification(o, res) => [("original", JString(o)), ("result", JString(res))]
      case RawResponse(res) => [("result", JString(res))];
    JObject([("type", JString(Tag(r)))] + body)
  }

  function StringMember(m: seq<(string, Json)>, k: string): Option<string> {
    match Get(m, k)
    case Some(JString(s)) => Some(s)
    case _ => None
  }

  /** The shape check the declared type describes: an object whose `type` names a variant and
      whose other members have the types that variant declares (extra members are allowed). */
  function FromJson(j: Json): (r: Option<AnalysisResult>)
    ensures r.Some? ==> j.JObject? && Get(j.members, "type") == Some(JString(Tag(r.value)))
  {
    if !j.JObject? then None
    else
      match StringMember(j.members, "type")
      case None => None
      case Some(t) => ReadVariant(t, j.members)
  }

  function ReadVariant(t: string, m: seq<(string, Json)>): (r: Option<AnalysisResult>)
    ensures r.Some? ==> Tag(r.value) == t
  {
    if t == "logic_expression" then ReadLogicExpression(m)
    else if t == "code_conversion" then ReadCodeConversion(m)
    else if t == "kmap" then ReadKmap(m)
    else if t == "binary_arithmetic" then ReadBinaryArithmetic(m)
    else if t == "boolean_simplification" then ReadBooleanSimplification(m)
    else if t == "raw_response" then ReadRawResponse(m)
    else None
  }

  function ReadLogicExpression(m: seq<(string, Json)>): (r: Option<AnalysisResult>)
    ensures r.Some? ==> r.value.LogicExpression?
  {
    match (StringMember(m, "expr"), StringMember(m, "result"))
    case (Some(e), Some(res)) => Some(LogicExpression(e, res))
    case _ => None
  }

  function ReadCodeConversion(m: seq<(string, Json)>): (r: Option<AnalysisResult>)
    ensures r.Some? ==> r.value.CodeConversion?
  {
    match (StringMember(m, "input_type"), StringMember(m, "output_type"), StringMember(m, "input"), StringMember(m, "result"))
    case (Some(it), Some(ot), Some(i), Some(res)) => Some(CodeConversion(it, ot, i, res))
    case _ => None
  }

  function ReadKmap(m: seq<(string, Json)>): (r: Option<AnalysisResult>)
    ensures r.Some? ==> r.value.Kmap?
  {
    match (Get(m, "variables"), StringMember(m, "minimized_sop"), StringMember(m, "minimized_pos"), StringMember(m, "expression_type"))
    case (Some(JArray(items)), Some(sop), Some(pos), Some(et)) =>
      (match JsonToStrings(items)
       case Some(vs) => Some(Kmap(vs, sop, pos, et))
       case None => None)
    case _ => None
  }

  function ReadBinaryArithmetic(m: seq<(string, Json)>): (r: Option<AnalysisResult>)
    ensures r.Some? ==> r.value.BinaryArithmetic?
  {
    match (StringMember(m, "operation"), StringMember(m, "operand1"), StringMember(m, "operand2"), StringMember(m, "result"))
    case (Some(op), Some(a), Some(b), Some(res)) => Some(BinaryArithmetic(op, a, b, res))
    case _ => None
  }

  function ReadBooleanSimplification(m: seq<(string, Json)>): (r: Option<AnalysisResult>)
    ensures r.Some? ==> r.value.BooleanSimplification?
  {
    match (StringMember(m, "original"), StringMember(m, "result"))
    case (Some(o), Some(res)) => Some(BooleanSimplification(o, res))
    case _ => None
  }

  function ReadRawResponse(m: seq<(string, Json)>): (r: Option<AnalysisResult>)
    ensures r.Some? ==> r.value.RawResponse?
  {
    match StringMember(m, "result")
    case Some(res) => Some(RawResponse(res))
    case None => None
  }

  lemma {:induction false} StringsRoundTrip(ss: seq<string>)
    ensures JsonToStrings(StringsToJson(ss)) == Some(ss)
  {
    if ss != [] {
      StringsRoundTrip(ss[1..]);
      assert [ss[0]] + ss[1..] == ss;
    }
  }

  /** Every member of the object a variant is written as is read back by its key. */
  lemma MembersReadBack(r: AnalysisResult)
    ensures var m := ToJson(r).members;
      forall i :: 0 <= i < |m| ==> Get(m, m[i].0) == Some(m[i].1)
  {
    var m := ToJson(r).members;
    forall i | 0 <= i < |m| ensures Get(m, m[i].0) == Some(m[i].1) {
      GetUnique(m, i);
    }
  }

  lemma LogicExpressionRoundTrip(e: string, res: string)
    ensures FromJson(ToJson(LogicExpression(e, res))) == Some(LogicExpression(e, res))
  {
    var m := ToJson(LogicExpression(e, res)).members;
    MembersReadBack(LogicExpression(e, res));
    assert m[0].0 == "type" && m[1].0 == "expr" && m[2].0 == "result";
  }

  lemma CodeConversionRoundTrip(it: string, ot: string, i: string, res: string)
    ensures FromJson(ToJson(CodeConversion(it, ot, i, res))) == Some(CodeConversion(it, ot, i, res))
  {
    var m := ToJson(CodeConversion(it, ot, i, res)).members;
    CodeConversionMembers(m, it, ot, i, res);
    ReadCodeConversionOf(m, it, ot, i, res);
    assert ReadVariant("code_conversion", m) == Some(CodeConversion(it, ot, i, res));
  }

  lemma CodeConversionMembers(m: seq<(string, Json)>, it: string, ot: string, i: string, res: string)
    requires m == [("type", JString("code_conversion")), ("input_type", JString(it)),
                   ("output_type", JString(ot)), ("input", JString(i)), ("result", JString(res))]
    ensures StringMember(m, "type") == Some("code_conversion") && StringMember(m, "input_type") == Some(it)
    ensures StringMember(m, "output_type") == Some(ot) && StringMember(m, "input") == Some(i)
    ensures StringMember(m, "result") == Some(res)
  {
    GetUnique(m, 0);
    GetUnique(m, 1);
    GetUnique(m, 2);
    GetUnique(m, 3);
    GetUnique(m, 4);
  }

  lemma ReadCodeConversionOf(m: seq<(string, Json)>, it: string, ot: string, i: string, res: string)
    requires StringMember(m, "input_type") == Some(it) && StringMember(m, "output_type") == Some(ot)
    requires StringMember(m, "input") == Some(i) && StringMember(m, "result") == Some(res)
    ensures ReadCodeConversion(m) == Some(CodeConversion(it, ot, i, res))
  {
  }

  lemma KmapRoundTrip(vs: seq<string>, sop: string, pos: string, et: string)
    ensures FromJson(ToJson(Kmap(vs, sop, pos, et))) == Some(Kmap(vs, sop, pos, et))
  {
    var m := ToJson(Kmap(vs, sop, pos, et)).members;
    KmapMembers(m, JArray(StringsToJson(vs)), sop, pos, et);
    StringsRoundTrip(vs);
    ReadKmapOf(m, StringsToJson(vs), vs, sop, pos, et);
    assert ReadVariant("kmap", m) == Some(Kmap(vs, sop, pos, et));
  }

  lemma KmapMembers(m: seq<(string, Json)>, vars: Json, sop: string, pos: string, et: string)
    requires m == [("type", JString("kmap")), ("variables", vars),
                   ("minimized_sop", JString(sop)), ("minimized_pos", JString(pos)), ("expression_type", JString(et))]
    ensures StringMember(m, "type") == Some("kmap") && Get(m, "variables") == Some(vars)
    ensures StringMember(m, "minimized_sop") == Some(sop) && StringMember(m, "minimized_pos") == Some(pos)
    ensures StringMember(m, "expression_type") == Some(et)
  {
    assert "minimized_sop"[10] != "minimized_pos"[10];
    GetUnique(m, 0);
    GetUnique(m, 1);
    GetUnique(m, 2);
    GetUnique(m, 3);
    GetUnique(m, 4);
  }

  lemma ReadKmapOf(m: seq<(string, Json)>, items: seq<Json>, vs: seq<string>, sop: string, pos: string, et: string)
    requires Get(m, "variables") == Some(JArray(items)) && JsonToStrings(items) == Some(vs)
    requires StringMember(m, "minimized_sop") == Some(sop) && StringMember(m, "minimized_pos") == Some(pos)
    requires StringMember(m, "expression_type") == Some(et)
    ensures ReadKmap(m) == Some(Kmap(vs, sop, pos, et))
  {
  }

  lemma BinaryArithmeticRoundTrip(op: string, a: string, b: string, res: string)
    ensures FromJson(ToJson(BinaryArithmetic(op, a, b, res))) == Some(BinaryArithmetic(op, a, b, res))
  {
    var m := ToJson(BinaryArithmetic(op, a, b, res)).members;
    BinaryArithmeticMembers(m, op, a, b, res);
    ReadBinaryArithmeticOf(m, op, a, b, res);
    assert ReadVariant("binary_arithmetic", m) == Some(BinaryArithmetic(op, a, b, res));
  }

  lemma BinaryArithmeticMembers(m: seq<(string, Json)>, op: string, a: string, b: string, res: string)
    requires m == [("type", JString("binary_arithmetic")), ("operation", JString(op)),
                   ("operand1", JString(a)), ("operand2", JString(b)), ("result", JString(res))]
    ensures StringMember(m, "type") == Some("binary_arithmetic") && StringMember(m, "operation") == Some(op)
    ensures StringMember(m, "operand1") == Some(a) && StringMember(m, "operand2") == Some(b)
    ensures StringMember(m, "result") == Some(res)
  {
    assert "operand1"[7] != "operand2"[7];
    GetUnique(m, 0);
    GetUnique(m, 1);
    GetUnique(m, 2);
    GetUnique(m, 3);
    GetUnique(m, 4);
  }

  lemma ReadBinaryArithmeticOf(m: seq<(string, Json)>, op: string, a: string, b: string, res: string)
    requires StringMember(m, "operation") == Some(op) && StringMember(m, "operand1") == Some(a)
    requires StringMember(m, "operand2") == Some(b) && StringMember(m, "result") == Some(res)
    ensures ReadBinaryArithmetic(m) == Some(BinaryArithmetic(op, a, b, res))
  {
  }

  lemma BooleanSimplificationRoundTrip(o: string, res: string)
    ensures FromJson(ToJson(BooleanSimplification(o, res))) == Some(BooleanSimplification(o, res))
  {
    var m := ToJson(BooleanSimplification(o, res)).members;
    MembersReadBack(BooleanSimplification(o, res));
    assert m[0].0 == "type" && m[1].0 == "original" && m[2].0 == "result";
  }

  lemma RawResponseRoundTrip(res: string)
    ensures FromJson(ToJson(RawResponse(res))) == Some(RawResponse(res))
  {
    var m := ToJson(RawResponse(res)).members;
    MembersReadBack(RawResponse(res));
    assert m[0].0 == "type" && m[1].0 == "result";
  }

  /** Reading back the object a variant is written as gives that variant again, so every variant
      has its own tag and every field, the order of `kmap.variables` included, is kept. */
  lemma FromJsonToJson(r: AnalysisResult)
    ensures FromJson(ToJson(r)) == Some(r)
  {
    match r
    case LogicExpression(e, res) => LogicExpressionRoundTrip(e, res);
    case CodeConversion(it, ot, i, res) => CodeConversionRoundTrip(it, ot, i, res);
    case Kmap(vs, sop, pos, et) => KmapRoundTrip(vs, sop, pos, et);
    case BinaryArithmetic(op, a, b, res) => BinaryArithmeticRoundTrip(op, a, b, res);
    case BooleanSimplification(o, res) => BooleanSimplificationRoundTrip(o, res);
    case RawResponse(res) => RawResponseRoundTrip(res);
  }

  /** Two results with the same tag are of the same variant. */
  lemma TagIdentifiesVariant(r1: AnalysisResult, r2: AnalysisResult)
    requires Tag(r1) == Tag(r2)
    ensures r1.LogicExpression? == r2.LogicExpression? && r1.CodeConversion? == r2.CodeConversion?
    ensures r1.Kmap? == r2.Kmap? && r1.BinaryArithmetic? == r2.BinaryArithmetic?
    ensures r1.BooleanSimplification? == r2.BooleanSimplification? && r1.RawResponse? == r2.RawResponse?
  {
  }
}
