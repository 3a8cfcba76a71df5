/** The adapter around the single generative-model call: it builds the request
    for a locale, reads the parsed reply, accepts it only when the top-level
    shape and the count of six matches are right, and turns every failure into
    one uniform error. The SDK call and `JSON.parse` are not modelled: their
    combined outcome is the `Reply` parameter. */
module GeminiService {
  import opened Wrappers
  import opened I18n
  import opened Json
  import opened Types

  // ----- Request builder -----

  const LanguageInstructionZh := "请用中文回答所有文本内容，包括理由、角度、面相、健康和化妆建议。"
  // The English texts are written as short pieces because the verifier
  // unfolds only short string literals, and the proofs index their first
  // characters.
  const LanguageInstructionEn :=
    "Please provide all textual responses" + " in English, including reasons, angles,"
    + " fortune, health, and makeup" + " suggestions."
  const CelebrityInstructionZh := "找到6位与其相貌相似的中国名人（包括中国大陆、香港或台湾）。"
  const CelebrityInstructionEn :=
    "Find exactly 6 Chinese celebrities" + " (from mainland China, Hong Kong," + " or Taiwan) they resemble."

  /** The fixed text of the prompt template around the two instructions. */
  const PromptOpening := "\n    Analyze the person in this photo. "
  const PromptMiddle := "\n    1. Identify their key facial features.\n    2. "
  const PromptClosing :=
    " Each match must focus on a different, distinct facial feature or aesthetic angle (e.g., \"Eye Shape\", \"Smile\", \"Jawline\"). Do not use the same angle twice."
    + "\n    3. For each celebrity match, provide their full name, a publicly accessible image URL of the celebrity's face, a similarity score from 0 to 100, a brief one-sentence reason for the resemblance, and the name of the angle itself."
    + "\n    4. Additionally, perform a 'San Ting Wu Yan' (Three Courts and Five Eyes) facial proportion analysis. Based on this analysis, provide a short, insightful, and positive paragraph for each of the following: a 'Fortune' reading (面相运势), a 'Health' insight (健康), and a 'Makeup Suggestion' (化妆建议) to enhance their features."
    + "\n    5. Return the result as a single valid JSON object that conforms to the provided schema, containing both the celebrity matches and the facial analysis.\n  "

  const ModelName := "gemini-2.5-flash"
  const JpegMime := "image/jpeg"
  const JsonMime := "application/json"

  /** `lang === 'zh'` selects the Chinese answer-language instruction, any
      other language the English one; the two are different texts. */
  function LanguageInstruction(lang: Lang): (r: string)
    ensures r == LanguageInstructionZh || r == LanguageInstructionEn
    ensures r == LanguageInstructionZh <==> lang == Zh
    ensures r == LanguageInstructionEn <==> lang != Zh
  {
    assert LanguageInstructionZh[0] == '请' && LanguageInstructionEn[0] == 'P';
    if lang == Zh then LanguageInstructionZh else LanguageInstructionEn
  }

  /** Likewise for the instruction saying where the six celebrities come from. */
  function CelebrityInstruction(lang: Lang): (r: string)
    ensures r == CelebrityInstructionZh || r == CelebrityInstructionEn
    ensures r == CelebrityInstructionZh <==> lang == Zh
    ensures r == CelebrityInstructionEn <==> lang != Zh
  {
    assert CelebrityInstructionZh[0] == '找' && CelebrityInstructionEn[0] == 'F';
    if lang == Zh then CelebrityInstructionZh else CelebrityInstructionEn
  }

  /** A text assembled from an opening, a first insert, a middle, a second
      insert and a closing holds each of the first four pieces at the
      position the lengths of the pieces before it give. */
  lemma {:induction false} TemplateLayout(opening: string, first: string, middle: string, second: string, closing: string)
    ensures var p := opening + (first + middle + second) + closing;
            var at := |opening| + |first| + |middle|;
            && p[..|opening|] == opening
            && p[|opening|..|opening| + |first|] == first
            && p[|opening| + |first|..at] == middle
            && p[at..at + |second|] == second
  {
    var inner := first + middle + second;
    var p := opening + inner + closing;
    var at := |opening| + |first| + |middle|;
    assert p[..|opening|] == opening;
    forall k | 0 <= k < |first| ensures p[|opening|..|opening| + |first|][k] == first[k] {
      assert p[|opening| + k] == inner[k];
    }
    forall k | 0 <= k < |middle| ensures p[|opening| + |first|..at][k] == middle[k] {
      assert p[|opening| + |first| + k] == inner[|first| + k];
    }
    forall k | 0 <= k < |second| ensures p[at..at + |second|][k] == second[k] {
      assert p[at + k] == inner[|first| + |middle| + k];
    }
  }

  /** The prompt template around the two selected instructions. */
  function Prompt(lang: Lang): string
  {
    PromptOpening + (LanguageInstruction(lang) + PromptMiddle + CelebrityInstruction(lang)) + PromptClosing
  }

  /** The declared response schema: object and array shapes, string and
      number leaves, and for each object the keys it requires. */
  datatype Schema =
    | ObjectSchema(properties: seq<Property>, required: seq<string>)
    | ArraySchema(items: Schema)
    | StringSchema
    | NumberSchema

  datatype Property = Property(name: string, schema: Schema)

  const MatchSchema := ObjectSchema(
    [ Property("name", StringSchema), Property("imageUrl", StringSchema),
      Property("similarity", NumberSchema), Property("reason", StringSchema),
      Property("angle", StringSchema) ],
    ["name", "imageUrl", "similarity", "reason", "angle"])

  const AnalysisSchema := ObjectSchema(
    [ Property("fortune", StringSchema), Property("health", StringSchema),
      Property("makeup", StringSchema) ],
    ["fortune", "health", "makeup"])

  const ResponseSchema := ObjectSchema(
    [ Property("celebrityMatches", ArraySchema(MatchSchema)),
      Property("facialAnalysis", AnalysisSchema) ],
    ["celebrityMatches", "facialAnalysis"])

  /** `v` has the shape `s` declares: the right kind at every declared
      position, and every required key of an object present. */
  predicate Conforms(v: Json, s: Schema)
    ensures Conforms(v, s) && s.ObjectSchema? ==> v.JObject? && forall k :: k in s.required ==> k in v.fields
    ensures Conforms(v, s) && s.ArraySchema? ==> v.JArray?
  {
    match s
    case StringSchema => v.JString?
    case NumberSchema => v.JNumber?
    case ArraySchema(item) =>
      v.JArray? && forall i :: 0 <= i < |v.items| ==> Conforms(v.items[i], item)
    case ObjectSchema(props, req) =>
      && v.JObject?
      && (forall k :: k in req ==> k in v.fields)
      && forall i :: 0 <= i < |props| ==>
           props[i].name in v.fields ==> Conforms(v.fields[props[i].name], props[i].schema)
  }

  /** One part of the request content. `data` is `None` when the caller passed
      `undefined` as the base64 payload. */
  datatype Part = InlineData(mimeType: string, data: Option<string>) | TextPart(text: string)

  datatype Request = Request(
    model: string,
    parts: seq<Part>,
    responseMimeType: string,
    responseSchema: Schema)

  /** The request sent for a payload and a locale: the image part always
      declares JPEG, whatever was uploaded, and carries the payload unchanged;
      then the locale's prompt; the reply is declared JSON of ResponseSchema. */
  function BuildRequest(data: Option<string>, lang: Lang): (r: Request)
    ensures |r.parts| == 2
    ensures r.parts[0].InlineData? && r.parts[0].mimeType == JpegMime && r.parts[0].data == data
    ensures r.parts[1] == TextPart(Prompt(lang))
    ensures r.model == ModelName && r.responseMimeType == JsonMime && r.responseSchema == ResponseSchema
  {
    Request(ModelName, [InlineData(JpegMime, data), TextPart(Prompt(lang))], JsonMime, ResponseSchema)
  }

  /** The prompt template: the same opening and first step in both
      languages, with the answer-language instruction after the opening, the
      fixed first step after it, and the celebrity instruction after that. */
  lemma PromptLayout(lang: Lang)
    ensures var p := Prompt(lang);
            var li := LanguageInstruction(lang);
            var ci := CelebrityInstruction(lang);
            var at := |PromptOpening| + |li| + |PromptMiddle|;
            && at + |ci| <= |p|
            && p[..|PromptOpening|] == PromptOpening
            && p[|PromptOpening|..|PromptOpening| + |li|] == li
            && p[|PromptOpening| + |li|..at] == PromptMiddle
            && p[at..at + |ci|] == ci
  {
    TemplateLayout(PromptOpening, LanguageInstruction(lang), PromptMiddle, CelebrityInstruction(lang), PromptClosing);
  }

  /** Whatever the language, the prompt ends with the fixed closing text:
      the rest of step two after the celebrity instruction, and steps three
      to five. */
  lemma PromptEndsWithClosing(lang: Lang)
    ensures var p := Prompt(lang);
            |PromptClosing| <= |p| && p[|p| - |PromptClosing|..] == PromptClosing
  {
    var body := PromptOpening + (LanguageInstruction(lang) + PromptMiddle + CelebrityInstruction(lang));
    assert Prompt(lang) == body + PromptClosing;
  }

  /** Two texts from the same template differ when their first inserts
      begin with different characters. */
  lemma {:induction false} FirstInsertDecides(opening: string, a: string, b: string, middle: string,
                                              c1: string, c2: string, closing: string)
    requires a != [] && b != [] && a[0] != b[0]
    ensures opening + (a + middle + c1) + closing != opening + (b + middle + c2) + closing
  {
    var p := opening + (a + middle + c1) + closing;
    var q := opening + (b + middle + c2) + closing;
    assert p[|opening|] == a[0];
    assert q[|opening|] == b[0];
  }

  /** The English and Chinese prompts are different texts. */
  lemma PromptsDiffer()
    ensures Prompt(En) != Prompt(Zh)
  {
    assert LanguageInstructionEn[0] == 'P' && LanguageInstructionZh[0] == '请';
    FirstInsertDecides(PromptOpening, LanguageInstructionEn, LanguageInstructionZh, PromptMiddle,
                       CelebrityInstructionEn, CelebrityInstructionZh, PromptClosing);
  }

  // ----- Typed view of a reply -----

  function DecodeMatch(v: Json): Option<CelebrityMatch>
  {
    match v
    case JObject(f) =>
      if && "name" in f && f["name"].JString?
         && "similarity" in f && f["similarity"].JNumber?
         && "reason" in f && f["reason"].JString?
         && "angle" in f && f["angle"].JString?
         && "imageUrl" in f && f["imageUrl"].JString?
      then Some(CelebrityMatch(f["name"].s, f["similarity"].n, f["reason"].s, f["angle"].s, f["imageUrl"].s))
      else None
    case _ => None
  }

  /** Decodes every element, in order, or fails if any element does not decode. */
  function DecodeMatches(items: seq<Json>): (r: Option<seq<CelebrityMatch>>)
    ensures r.Some? <==> forall i :: 0 <= i < |items| ==> DecodeMatch(items[i]).Some?
    ensures r.Some? ==> |r.value| == |items|
    ensures r.Some? ==> forall i :: 0 <= i < |items| ==> DecodeMatch(items[i]) == Some(r.value[i])
  {
    if items == [] then Some([])
    else
      var head := DecodeMatch(items[0]);
      var tail := DecodeMatches(items[1..]);
      if head.Some? && tail.Some? then
        Some([head.value] + tail.value)
      else
        assert !(head.Some? && tail.Some?);
        assert head.None? ==> DecodeMatch(items[0]).None?;
        None
  }

  function DecodeAnalysis(v: Json): Option<FacialAnalysis>
  {
    match v
    case JObject(f) =>
      if && "fortune" in f && f["fortune"].JString?
         && "health" in f && f["health"].JString?
         && "makeup" in f && f["makeup"].JString?
      then Some(FacialAnalysis(f["fortune"].s, f["health"].s, f["makeup"].s))
      else None
    case _ => None
  }

  /** The `AnalysisResult` a reply denotes, when every field has its declared type. */
  function Decode(v: Json): (r: Option<AnalysisResult>)
    ensures r.Some? ==> v.JObject? && "celebrityMatches" in v.fields && v.fields["celebrityMatches"].JArray?
    ensures r.Some? ==> |r.value.celebrityMatches| == |v.fields["celebrityMatches"].items|
    ensures r.Some? ==> (Accepts(v) <==> |r.value.celebrityMatches| == 6)
  {
    match v
    case JObject(f) =>
      if "celebrityMatches" in f && f["celebrityMatches"].JArray? && "facialAnalysis" in f then
        var ms := DecodeMatches(f["celebrityMatches"].items);
        var fa := DecodeAnalysis(f["facialAnalysis"]);
        if ms.Some? && fa.Some? then Some(AnalysisResult(ms.value, fa.value)) else None
      else None
    case _ => None
  }

  function EncodeMatch(m: CelebrityMatch): Json
  {
    JObject(map[
      "name" := JString(m.name), "similarity" := JNumber(m.similarity),
      "reason" := JString(m.reason), "angle" := JString(m.angle),
      "imageUrl" := JString(m.imageUrl)])
  }

  function EncodeMatches(ms: seq<CelebrityMatch>): (items: seq<Json>)
    ensures |items| == |ms|
    ensures forall i :: 0 <= i < |ms| ==> items[i] == EncodeMatch(ms[i])
  {
    if ms == [] then [] else [EncodeMatch(ms[0])] + EncodeMatches(ms[1..])
  }

  function EncodeAnalysis(a: FacialAnalysis): Json
  {
    JObject(map["fortune" := JString(a.fortune), "health" := JString(a.health), "makeup" := JString(a.makeup)])
  }

  /** The JSON text a well-behaved model replies with, once parsed. */
  function Encode(r: AnalysisResult): Json
  {
    JObject(map[
      "celebrityMatches" := JArray(EncodeMatches(r.celebrityMatches)),
      "facialAnalysis" := EncodeAnalysis(r.facialAnalysis)])
  }

  // ----- Validator and error mapping -----

  /** What a rejected promise carries: an `Error` instance with its message,
      or some other thrown value. */
  datatype Thrown = ErrorInstance(message: string) | NonErrorValue

  /** The outcome of `generateContent` followed by `JSON.parse(response.text)`:
      the call failed, the text was not JSON (or absent), or it parsed. */
  datatype Reply = TransportFailure(cause: Thrown) | Unparseable(cause: Thrown) | Parsed(value: Json)

  const FormatMessage := "API returned an unexpected data format."
  const FailureMessage := "Could not get a valid response from the AI model."
  /** What V8 throws when the reply is the JSON literal `null`. */
  const NullAccessMessage := "Cannot read properties of null (reading 'celebrityMatches')"

  /** The shape check `!result.celebrityMatches || !result.facialAnalysis ||
      result.celebrityMatches.length !== 6`, negated. */
  predicate Accepts(v: Json)
    ensures Accepts(v) ==> v.JObject? && "celebrityMatches" in v.fields && "facialAnalysis" in v.fields
  {
    && !v.JNull?
    && Truthy(Member(v, "celebrityMatches"))
    && Truthy(Member(v, "facialAnalysis"))
    && LengthIsSix(Member(v, "celebrityMatches").value)
  }

  /** The body of the `try` block, after the request went out: what it
      returns or throws before the `catch` sees it. */
  function TryBody(reply: Reply): (r: Result<Json, Thrown>)
    ensures r.Success? <==> reply.Parsed? && Accepts(reply.value)
    ensures reply.Parsed? && !reply.value.JNull? && !Accepts(reply.value) ==> r == Failure(ErrorInstance(FormatMessage))
  {
    match reply
    case TransportFailure(e) => Failure(e)
    case Unparseable(e) => Failure(e)
    case Parsed(v) =>
      if v.JNull? then Failure(ErrorInstance(NullAccessMessage))
      else if !Accepts(v) then Failure(ErrorInstance(FormatMessage))
      else Success(v)
  }

  /** One call of the adapter: the request it sends and how its promise settles. */
  datatype Call = Call(request: Request, result: Result<Json, Thrown>)

  /** `analyzeImageForLookalike(data, lang)` when sending the request produced
      `reply`. It resolves with the parsed reply itself exactly when that passes
      the shape check, and otherwise rejects with one fixed `Error`, whatever the
      cause (transport, parse, format): the inner message never reaches the caller. */
  function AnalyzeImageForLookalike(data: Option<string>, lang: Lang, reply: Reply): (c: Call)
    ensures c.request == BuildRequest(data, lang)
    ensures c.result.Success? <==> reply.Parsed? && Accepts(reply.value)
    ensures c.result.Success? ==> c.result.value == reply.value
    ensures c.result.Failure? ==> c.result.error == ErrorInstance(FailureMessage)
  {
    var request := BuildRequest(data, lang);
    match TryBody(reply)
    case Success(v) => Call(request, Success(v))
    case Failure(_) => Call(request, Failure(ErrorInstance(FailureMessage)))
  }

  // ----- Properties relating the declared schema, the typed records and the check -----

  lemma {:induction false} DecodeEncodeMatches(ms: seq<CelebrityMatch>)
    ensures DecodeMatches(EncodeMatches(ms)) == Some(ms)
  {
    if ms != [] {
      DecodeEncodeMatches(ms[1..]);
      assert EncodeMatches(ms)[1..] == EncodeMatches(ms[1..]);
      assert [ms[0]] + ms[1..] == ms;
    }
  }

  /** Every analysis result survives encoding and decoding unchanged. */
  lemma DecodeEncode(r: AnalysisResult)
    ensures Decode(Encode(r)) == Some(r)
  {
    DecodeEncodeMatches(r.celebrityMatches);
  }

  /** The encoding of any analysis result conforms to the declared schema. */
  lemma EncodeConforms(r: AnalysisResult)
    ensures Conforms(Encode(r), ResponseSchema)
  {
    var v := Encode(r);
    var items := EncodeMatches(r.celebrityMatches);
    forall i | 0 <= i < |items| ensures Conforms(items[i], MatchSchema) {
      assert items[i] == EncodeMatch(r.celebrityMatches[i]);
    }
    assert Conforms(v.fields["celebrityMatches"], ArraySchema(MatchSchema));
    assert Conforms(v.fields["facialAnalysis"], AnalysisSchema);
  }

  /** An element conforming to the match schema decodes to a match. */
  lemma ConformingMatchDecodes(m: Json)
    requires Conforms(m, MatchSchema)
    ensures DecodeMatch(m).Some?
  {
    var props := MatchSchema.properties;
    assert props[0] == Property("name", StringSchema);
    assert props[1] == Property("imageUrl", StringSchema);
    assert props[2] == Property("similarity", NumberSchema);
    assert props[3] == Property("reason", StringSchema);
    assert props[4] == Property("angle", StringSchema);
    assert "name" in MatchSchema.required && "imageUrl" in MatchSchema.required;
    assert "similarity" in MatchSchema.required && "reason" in MatchSchema.required;
    assert "angle" in MatchSchema.required;
  }

  /** A value conforming to the analysis schema decodes to a facial analysis. */
  lemma ConformingAnalysisDecodes(a: Json)
    requires Conforms(a, AnalysisSchema)
    ensures DecodeAnalysis(a).Some?
  {
    var props := AnalysisSchema.properties;
    assert props[0] == Property("fortune", StringSchema);
    assert props[1] == Property("health", StringSchema);
    assert props[2] == Property("makeup", StringSchema);
    assert "fortune" in AnalysisSchema.required && "health" in AnalysisSchema.required;
    assert "makeup" in AnalysisSchema.required;
  }

  /** A reply conforming to the declared schema decodes to an analysis result
      with one match per array element. */
  lemma ConformingDecodes(v: Json)
    requires Conforms(v, ResponseSchema)
    ensures v.JObject? && "celebrityMatches" in v.fields && v.fields["celebrityMatches"].JArray?
    ensures Decode(v).Some?
    ensures |Decode(v).value.celebrityMatches| == |v.fields["celebrityMatches"].items|
  {
    var props := ResponseSchema.properties;
    assert props[0] == Property("celebrityMatches", ArraySchema(MatchSchema));
    assert props[1] == Property("facialAnalysis", AnalysisSchema);
    assert "celebrityMatches" in ResponseSchema.required && "facialAnalysis" in ResponseSchema.required;
    var cm := v.fields["celebrityMatches"];
    assert Conforms(cm, ArraySchema(MatchSchema));
    forall i | 0 <= i < |cm.items| ensures DecodeMatch(cm.items[i]).Some? {
      ConformingMatchDecodes(cm.items[i]);
    }
    ConformingAnalysisDecodes(v.fields["facialAnalysis"]);
  }

  /** A match that decodes conforms to the match schema. */
  lemma DecodedMatchConforms(m: Json)
    requires DecodeMatch(m).Some?
    ensures Conforms(m, MatchSchema)
  {
    var props := MatchSchema.properties;
    assert props[0] == Property("name", StringSchema);
    assert props[1] == Property("imageUrl", StringSchema);
    assert props[2] == Property("similarity", NumberSchema);
    assert props[3] == Property("reason", StringSchema);
    assert props[4] == Property("angle", StringSchema);
  }

  /** A facial analysis that decodes conforms to the analysis schema. */
  lemma DecodedAnalysisConforms(a: Json)
    requires DecodeAnalysis(a).Some?
    ensures Conforms(a, AnalysisSchema)
  {
    var props := AnalysisSchema.properties;
    assert props[0] == Property("fortune", StringSchema);
    assert props[1] == Property("health", StringSchema);
    assert props[2] == Property("makeup", StringSchema);
  }

  /** The declared response schema describes exactly the replies the typed
      view can read: a value conforms to it if and only if it decodes. */
  lemma ConformsIffDecodes(v: Json)
    ensures Conforms(v, ResponseSchema) <==> Decode(v).Some?
  {
    if Conforms(v, ResponseSchema) {
      ConformingDecodes(v);
    }
    if Decode(v).Some? {
      var props := ResponseSchema.properties;
      assert props[0] == Property("celebrityMatches", ArraySchema(MatchSchema));
      assert props[1] == Property("facialAnalysis", AnalysisSchema);
      var cm := v.fields["celebrityMatches"];
      forall i | 0 <= i < |cm.items| ensures Conforms(cm.items[i], MatchSchema) {
        DecodedMatchConforms(cm.items[i]);
      }
      assert Conforms(cm, ArraySchema(MatchSchema));
      DecodedAnalysisConforms(v.fields["facialAnalysis"]);
    }
  }

  /** On replies that conform to the declared schema the shape check is exactly
      the cardinality check: accepted if and only if there are six matches. */
  lemma ConformingAcceptedIffSix(v: Json)
    requires Conforms(v, ResponseSchema)
    ensures Decode(v).Some?
    ensures Accepts(v) <==> |Decode(v).value.celebrityMatches| == 6
  {
    ConformingDecodes(v);
    assert v.fields["celebrityMatches"].JArray?;
    assert v.fields["facialAnalysis"].JObject?;
  }

  /** A complete result with six matches is accepted, and the caller gets back
      a reply that decodes to that very result. */
  lemma SixMatchReplyAccepted(data: Option<string>, lang: Lang, r: AnalysisResult)
    requires |r.celebrityMatches| == 6
    ensures AnalyzeImageForLookalike(data, lang, Parsed(Encode(r))).result == Success(Encode(r))
    ensures Decode(Encode(r)) == Some(r)
  {
    EncodeConforms(r);
    DecodeEncode(r);
    ConformingAcceptedIffSix(Encode(r));
  }

  /** A complete result with any other number of matches is rejected with the
      uniform message. */
  lemma OtherCountRejected(data: Option<string>, lang: Lang, r: AnalysisResult)
    requires |r.celebrityMatches| != 6
    ensures AnalyzeImageForLookalike(data, lang, Parsed(Encode(r))).result == Failure(ErrorInstance(FailureMessage))
  {
    EncodeConforms(r);
    DecodeEncode(r);
    ConformingAcceptedIffSix(Encode(r));
  }

  /** The check looks at nothing below the top level: a reply whose matches are
      a six-character string and whose analysis is `true` is accepted, and is
      handed back although it neither conforms to the schema nor decodes. */
  lemma AcceptsWithoutFieldCheck()
    ensures var v := JObject(map["celebrityMatches" := JString("abcdef"), "facialAnalysis" := JBool(true)]);
            && Accepts(v) && !Conforms(v, ResponseSchema) && Decode(v).None?
            && AnalyzeImageForLookalike(None, En, Parsed(v)).result == Success(v)
  {
    var v := JObject(map["celebrityMatches" := JString("abcdef"), "facialAnalysis" := JBool(true)]);
    Utf16LengthOfBmp("abcdef");
    assert ResponseSchema.properties[0] == Property("celebrityMatches", ArraySchema(MatchSchema));
  }
}
