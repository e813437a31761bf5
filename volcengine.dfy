/** `VolcengineTranslator` (src/api/volcengine.ts): builds the POST request
    for the Volcengine endpoint and normalises its JSON answer into a
    `TranslationResult`. The HTTP exchange itself is the `response`
    parameter. */
module Volcengine {
  import opened Types
  import opened Platform

  const BaseUrl: string := "https://translate.volcengine.com/crx/translate/v1"
  const DefaultSource: string := "auto"
  const DefaultTarget: string := "zh"

  datatype VolcengineTranslator = VolcengineTranslator(accessKey: string, secretKey: string)

  /** The constructor: `secretKey || ''`, so an absent secret key is stored as the empty string. */
  function New(accessKey: string, secretKey: Option<string>): (v: VolcengineTranslator)
    ensures v.accessKey == accessKey
    ensures v.secretKey == GetOr(secretKey, "")
  {
    VolcengineTranslator(accessKey, if Truthy(secretKey) then secretKey.value else "")
  }

  /** The JSON body sent: `{ source_language, target_language, text }`. */
  datatype RequestBody = RequestBody(sourceLanguage: string, targetLanguage: string, text: Text)

  datatype Request = Request(url: string, verb: string, headers: seq<(string, string)>, body: RequestBody)

  /** The request `translate(text, sourceLang, targetLang)` sends; absent languages take the parameter defaults. */
  function BuildRequest(v: VolcengineTranslator, text: Text, sourceLang: Option<string>,
                        targetLang: Option<string>): (req: Request)
    ensures req.url == BaseUrl && req.verb == "POST"
    ensures req.body.text == text
    ensures req.body.sourceLanguage == GetOr(sourceLang, DefaultSource)
    ensures req.body.targetLanguage == GetOr(targetLang, DefaultTarget)
    ensures ("X-Access-Key", v.accessKey) in req.headers && ("X-Secret-Key", v.secretKey) in req.headers
  {
    Request(BaseUrl, "POST",
            [("Content-Type", "application/json"), ("X-Access-Key", v.accessKey), ("X-Secret-Key", v.secretKey)],
            RequestBody(GetOr(sourceLang, DefaultSource), GetOr(targetLang, DefaultTarget), text))
  }

  /** One element of `trans_result`; a null element reads like one without `dst`. */
  datatype Item = Item(dst: Option<Text>)

  /** The fields of the parsed answer that the adapter looks at. */
  datatype ResponseBody = ResponseBody(
    translation: Option<Text>,
    transResult: Option<seq<Item>>,
    sourceLanguage: Option<string>)

  /** `data.trans_result?.[0]?.dst`. */
  function FirstDst(data: ResponseBody): (d: Option<Text>)
    ensures d.Some? ==> data.transResult.Some? && |data.transResult.value| > 0
                        && data.transResult.value[0].dst == d
  {
    if data.transResult.Some? && |data.transResult.value| > 0 then data.transResult.value[0].dst else None
  }

  /** The `||` chain for the translated text. */
  function TranslatedText(data: ResponseBody, text: Text): Text {
    if Truthy(data.translation) then data.translation.value
    else if Truthy(FirstDst(data)) then FirstDst(data).value
    else text
  }

  /** `translate` once `fetch` has produced `response`; `now` stands for `Date.now()`. */
  function Translate(text: Text, sourceLang: Option<string>, targetLang: Option<string>,
                     response: HttpOutcome<ResponseBody>, now: int): (r: Result<TranslationResult, ProviderError>)
    ensures r.Ok? <==> response.IsOk()
    ensures response.NetworkFailure? ==> r == Err(Transport)
    ensures response.Response? && !response.IsOk() ==> r == Err(HttpStatus(response.status))
    ensures r.Ok? ==>
      var res := r.value;
      && res.originalText == text
      && res.targetLang == GetOr(targetLang, DefaultTarget)
      && res.provider == Volcengine
      && res.timestamp == now
      && res.detailedMeanings.None?
      // the direct field wins, then the first nested result, then the input itself
      && (Truthy(response.body.translation) ==> res.translatedText == response.body.translation.value)
      && (!Truthy(response.body.translation) && Truthy(FirstDst(response.body)) ==>
            res.translatedText == FirstDst(response.body).value)
      && (!Truthy(response.body.translation) && !Truthy(FirstDst(response.body)) ==> res.translatedText == text)
      && (res.translatedText == [] ==> text == [])
      // a detected language replaces the requested one
      && (Truthy(response.body.sourceLanguage) ==> res.sourceLang == response.body.sourceLanguage.value)
      && (!Truthy(response.body.sourceLanguage) ==> res.sourceLang == GetOr(sourceLang, DefaultSource))
  {
    match response
    case NetworkFailure => Err(Transport)
    case Response(status, data) =>
      if !response.IsOk() then Err(HttpStatus(status))
      else
        var source := GetOr(sourceLang, DefaultSource);
        Ok(TranslationResult(
          text,
          TranslatedText(data, text),
          if Truthy(data.sourceLanguage) then data.sourceLanguage.value else source,
          GetOr(targetLang, DefaultTarget),
          Volcengine,
          now,
          None))
  }

  /** An answer without `source_language` echoes the requested language, so a result can carry "auto". */
  lemma AutoSurvivesWithoutDetection(text: Text, translation: Text, now: int)
    ensures var r := Translate(text, Some("auto"), Some("zh"),
                               Response(200, ResponseBody(Some(translation), None, None)), now);
      r.Ok? && r.value.sourceLang == "auto"
  {
  }
}
