/** The page's state machine: five state cells, the upload, analyze and
    language handlers that update them, and the guards that decide what the
    page renders. The service call is the adapter function applied to the
    outcome of the model call, which each analysis receives as a parameter. */
module AppState {
  import opened Wrappers
  import opened I18n
  import opened Json
  import opened JsString
  import opened GeminiService
  import ImageUploader

  // ----- Translation table (the keys whose values feed a modelled value) -----

  datatype Key = ErrorPrefix | UnknownError | UploadFirst

  function KeyName(key: Key): string
  {
    match key
    case ErrorPrefix => "errorPrefix"
    case UnknownError => "unknownError"
    case UploadFirst => "uploadFirst"
  }

  function Text(lang: Lang, key: Key): string
  {
    match (lang, key)
    case (En, ErrorPrefix) => "Analysis failed:"
    case (En, UnknownError) => "An unknown error occurred."
    case (En, UploadFirst) => "Please upload an image first."
    case (Zh, ErrorPrefix) => "分析失败："
    case (Zh, UnknownError) => "发生了未知错误。"
    case (Zh, UploadFirst) => "请先上传一张图片。"
  }

  /** The page's `t`: the table is complete, so it returns the locale's text
      and never falls back to the key. */
  function T(lang: Lang, key: Key): (r: string)
    ensures r == Text(lang, key) && r != ""
  {
    OrKey(Text(lang, key), KeyName(key))
  }

  // ----- The payload of a data URL -----

  /** `dataUrl.split(',')[1]`: the second comma-separated piece, or `undefined`
      (`None`) when there is no comma. */
  function Payload(dataUrl: string): (p: Option<string>)
    ensures p.Some? <==> ',' in dataUrl
    ensures p.Some? ==> ',' !in p.value
  {
    CountPositive(dataUrl, ',');
    var pieces := Split(dataUrl, ',');
    if |pieces| > 1 then Some(pieces[1]) else None
  }

  /** The payload is the text after the first comma, up to the next comma or
      the end. */
  lemma PayloadAfterFirstComma(u: string, i: nat, j: nat)
    requires i < j <= |u| && u[i] == ','
    requires ',' !in u[..i] && ',' !in u[i + 1..j]
    requires j == |u| || u[j] == ','
    ensures Payload(u) == Some(u[i + 1..j])
  {
    SplitAtFirst(u, ',', i);
    var t := u[i + 1..];
    if j == |u| {
      assert t == u[i + 1..j];
      SplitWithoutSeparator(t, ',');
    } else {
      assert t[j - i - 1] == ',';
      assert t[..j - i - 1] == u[i + 1..j];
      SplitAtFirst(t, ',', j - i - 1);
    }
  }

  /** A base64 data URL in the syntax of section 3 of RFC 2397. */
  function DataUrl(mediaType: string, data: string): string
  {
    "data:" + mediaType + ";base64," + data
  }

  /** The payload sent for a data URL is its base64 data, exactly (neither a
      media type nor base64 text contains a comma). */
  lemma PayloadOfDataUrl(mediaType: string, data: string)
    requires ',' !in mediaType && ',' !in data
    ensures Payload(DataUrl(mediaType, data)) == Some(data)
  {
    var u := DataUrl(mediaType, data);
    var head := "data:" + mediaType + ";base64";
    assert u == head + "," + data;
    assert ',' !in head;
    var i := |head|;
    assert u[..i] == head;
    assert u[i] == ',';
    assert u[i + 1..|u|] == data;
    PayloadAfterFirstComma(u, i, |u|);
  }

  // ----- Error messages -----

  /** The `catch` clause's message: the locale's prefix, a space and the
      message of an `Error`; the locale's "unknown error" for anything else. */
  function ErrorText(lang: Lang, e: Thrown): (msg: string)
    ensures msg != ""
    ensures e.ErrorInstance? ==> msg == Text(lang, ErrorPrefix) + " " + e.message
    ensures e.NonErrorValue? ==> msg == Text(lang, UnknownError)
  {
    match e
    case ErrorInstance(m) => T(lang, ErrorPrefix) + " " + m
    case NonErrorValue => T(lang, UnknownError)
  }

  /** Whatever went wrong in the service, the page shows the locale's prefix
      followed by the adapter's one message. */
  lemma FailureShownUniformly(lang: Lang, data: Option<string>, reply: Reply)
    requires AnalyzeImageForLookalike(data, lang, reply).result.Failure?
    ensures ErrorText(lang, AnalyzeImageForLookalike(data, lang, reply).result.error)
            == Text(lang, ErrorPrefix) + " " + FailureMessage
  {
  }

  // ----- The page -----

  class App {
    var uploadedImage: Option<string>
    var analysisResult: Option<Json>
    var isLoading: bool
    var error: Option<string>
    var language: Lang

    /** A result on screen is always a reply the adapter accepted, never sits
        beside an error, and only exists while an image is uploaded. */
    ghost predicate Valid()
      reads this
    {
      analysisResult.Some? ==> Accepts(analysisResult.value) && error.None? && Present(uploadedImage)
    }

    constructor ()
      ensures Valid()
      ensures uploadedImage == None && analysisResult == None && !isLoading && error == None
      ensures language == En
    {
      uploadedImage := None;
      analysisResult := None;
      isLoading := false;
      error := None;
      language := En;
    }

    // ----- Render guards -----

    /** While the spinner shows, the analyze button is disabled. */
    predicate ShowsSpinner()
      reads this
      ensures ShowsSpinner() ==> AnalyzeDisabled()
    {
      isLoading
    }

    /** An error on screen never sits beside a result. */
    predicate ShowsError()
      reads this
      ensures ShowsError() ==> error.Some? && error.value != ""
      ensures Valid() && ShowsError() ==> analysisResult == None
    {
      Present(error)
    }

    /** `analysisResult && uploadedImage`: the results shown are a reply
        the adapter accepted, with no error beside them and no empty prompt. */
    predicate ShowsResults()
      reads this
      ensures ShowsResults() ==> analysisResult.Some? && Present(uploadedImage) && !ShowsEmptyPrompt()
      ensures Valid() && ShowsResults() ==> Accepts(analysisResult.value) && !ShowsError()
    {
      Truthy(analysisResult) && Present(uploadedImage)
    }

    /** `!uploadedImage && !isLoading && !analysisResult`: the empty prompt
        shows only without an image, so the analyze button is disabled. */
    predicate ShowsEmptyPrompt()
      reads this
      ensures ShowsEmptyPrompt() ==> uploadedImage == None || uploadedImage == Some("")
      ensures ShowsEmptyPrompt() ==> !ShowsSpinner() && AnalyzeDisabled()
    {
      !Present(uploadedImage) && !isLoading && !Truthy(analysisResult)
    }

    predicate AnalyzeDisabled()
      reads this
    {
      ImageUploader.AnalyzeDisabled(uploadedImage, isLoading)
    }

    // ----- Handlers -----

    /** The language buttons. */
    method SetLanguage(lang: Lang)
      requires Valid()
      modifies this`language
      ensures Valid() && language == lang
    {
      language := lang;
    }

    /** `handleImageUpload`: the reader's result replaces the old image and
        both the previous result and the previous error are cleared. The
        reader's `onloadend` also fires after a failed or aborted read, whose
        result is `null` (`None`): the image is then gone, and unless an
        analysis is pending the page falls back to the empty prompt. */
    method HandleImageUpload(dataUrl: Option<string>)
      requires Valid()
      modifies this`uploadedImage, this`analysisResult, this`error
      ensures Valid()
      ensures uploadedImage == dataUrl && analysisResult == None && error == None
      ensures !ShowsResults() && !ShowsError()
      ensures dataUrl == None && !isLoading ==> ShowsEmptyPrompt()
    {
      uploadedImage := dataUrl;
      analysisResult := None;
      error := None;
    }

    /** The part of `handleAnalyze` before the service call, once an image is
        present: loading starts, error and result are cleared, and the payload
        is cut out of the data URL. While the call is pending the spinner shows,
        nothing else does, and the analyze button is disabled, so no second
        analysis can start. */
    method BeginAnalyze() returns (payload: Option<string>)
      requires Valid() && Present(uploadedImage)
      modifies this`isLoading, this`error, this`analysisResult
      ensures Valid()
      ensures isLoading && error == None && analysisResult == None
      ensures payload == Payload(uploadedImage.value)
      ensures ShowsSpinner() && !ShowsError() && !ShowsResults() && !ShowsEmptyPrompt()
      ensures AnalyzeDisabled()
    {
      isLoading := true;
      error := None;
      analysisResult := None;
      payload := Payload(uploadedImage.value);
    }

    /** `handleAnalyze`, with `reply` the outcome of the model call it makes.
        Without an image it only reports "upload first" and sends nothing.
        With one it sends the request for the payload in the current language;
        an accepted reply becomes the result, any failure becomes the error
        message, and loading ends either way. */
    method HandleAnalyze(reply: Reply) returns (sent: Option<Request>)
      requires Valid()
      modifies this`isLoading, this`error, this`analysisResult
      ensures Valid()
      ensures !Present(uploadedImage) ==>
                && sent == None
                && error == Some(T(language, UploadFirst))
                && isLoading == old(isLoading) && analysisResult == old(analysisResult) == None
      ensures Present(uploadedImage) ==>
                var call := AnalyzeImageForLookalike(Payload(uploadedImage.value), language, reply);
                && sent == Some(call.request)
                && !isLoading
                && (call.result.Success? ==>
                      analysisResult == Some(call.result.value) && error == None
                      && ShowsResults() && !ShowsError() && !ShowsSpinner())
                && (call.result.Failure? ==>
                      analysisResult == None
                      && error == Some(Text(language, ErrorPrefix) + " " + FailureMessage)
                      && ShowsError() && !ShowsResults() && !ShowsSpinner())
    {
      if !Present(uploadedImage) {
        error := Some(T(language, UploadFirst));
        sent := None;
        return;
      }
      var payload := BeginAnalyze();
      var call := AnalyzeImageForLookalike(payload, language, reply);
      match call.result {
        case Success(v) =>
          analysisResult := Some(v);
        case Failure(e) =>
          error := Some(ErrorText(language, e));
      }
      isLoading := false;
      sent := Some(call.request);
    }
  }

  /** Client: whatever media type the browser put in the data URL, the
      request sends the image data declared as JPEG. */
  method UploadedTypeIgnored(mediaType: string, data: string, reply: Reply) returns (sent: Option<Request>)
    requires ',' !in mediaType && ',' !in data
    ensures sent.Some? && |sent.value.parts| == 2
    ensures sent.value.parts[0] == InlineData(JpegMime, Some(data))
  {
    var app := new App();
    app.HandleImageUpload(Some(DataUrl(mediaType, data)));
    PayloadOfDataUrl(mediaType, data);
    assert DataUrl(mediaType, data)[0] == 'd';
    sent := app.HandleAnalyze(reply);
  }

  /** Client: on an uploaded image, a six-match reply is shown as the result. */
  method AnalyzeGoodReply(app: App, good: Types.AnalysisResult) returns (shown: Option<Json>)
    requires app.Valid() && Present(app.uploadedImage) && |good.celebrityMatches| == 6
    modifies app`isLoading, app`error, app`analysisResult
    ensures app.Valid() && app.uploadedImage == old(app.uploadedImage)
    ensures shown == Some(Encode(good))
  {
    SixMatchReplyAccepted(Payload(app.uploadedImage.value), app.language, good);
    var sent := app.HandleAnalyze(Parsed(Encode(good)));
    shown := if app.ShowsResults() then app.analysisResult else None;
  }

  /** Client: on an uploaded image, a failed model call replaces whatever was
      shown by the error, whatever the cause. */
  method AnalyzeFailedCall(app: App, cause: Thrown)
    requires app.Valid() && Present(app.uploadedImage)
    modifies app`isLoading, app`error, app`analysisResult
    ensures app.Valid()
    ensures app.error == Some(Text(app.language, ErrorPrefix) + " " + FailureMessage)
    ensures app.analysisResult == None && !app.isLoading
  {
    var sent := app.HandleAnalyze(TransportFailure(cause));
  }

  /** Client: upload, then a six-match reply, shows the results; a later
      transport failure replaces them with the error. */
  method UploadAnalyzeTwice(dataUrl: string, good: Types.AnalysisResult, cause: Thrown)
    returns (app: App, firstShown: Option<Json>)
    requires dataUrl != "" && |good.celebrityMatches| == 6
    ensures firstShown == Some(Encode(good))
    ensures app.error == Some(Text(En, ErrorPrefix) + " " + FailureMessage)
    ensures app.analysisResult == None && !app.isLoading
  {
    app := new App();
    app.HandleImageUpload(Some(dataUrl));
    firstShown := AnalyzeGoodReply(app, good);
    AnalyzeFailedCall(app, cause);
  }
}
