/** `MicrosoftTranslator` (src/api/microsoft.ts): builds the query string,
    headers and body for the Azure translator endpoint and normalises its
    JSON answer into a `TranslationResult`. The HTTP exchange itself is the
    `response` parameter. */
module Microsoft {
  import opened Types
  import opened Platform

  const BaseUrl: string := "https://api.cognitive.microsofttranslator.com"
  const DefaultRegion: string := "eastasia"
  const DefaultSource: string := "auto"
  const DefaultTarget: string := "zh-Hans"

  datatype MicrosoftTranslator = MicrosoftTranslator(apiKey: string, region: string)

  /** The constructor: the region parameter defaults to "eastasia" only when it is not given. */
  function New(apiKey: string, region: Option<string>): (m: MicrosoftTranslator)
    ensures m.apiKey == apiKey
    ensures region.None? ==> m.region == DefaultRegion
    ensures region.Some? ==> m.region == region.value
  {
    MicrosoftTranslator(apiKey, match region case Some(r) => r case None => DefaultRegion)
  }

  predicate HasParam(params: seq<(string, string)>, name: string) {
    exists i | 0 <= i < |params| :: params[i].0 == name
  }

  /** The `URLSearchParams`: `api-version` and `to`, then `from` appended unless the source is "auto". */
  function QueryParams(sourceLang: string, targetLang: string): (params: seq<(string, string)>)
    ensures |params| >= 2 && params[0] == ("api-version", "3.0") && params[1] == ("to", targetLang)
    ensures HasParam(params, "from") <==> sourceLang != "auto"
    ensures forall i | 0 <= i < |params| && params[i].0 == "from" :: params[i].1 == sourceLang
  {
    var params := [("api-version", "3.0"), ("to", targetLang)];
    assert params[0].0 != "from" && params[1].0 != "from";
    if sourceLang != "auto" then
      var appended := params + [("from", sourceLang)];
      assert appended[2].0 == "from";
      appended
    else params
  }

  /** One element of the JSON array sent as the body. */
  datatype RequestItem = RequestItem(text: Text)

  datatype Request = Request(
    url: string,
    verb: string,
    query: seq<(string, string)>,
    headers: seq<(string, string)>,
    body: seq<RequestItem>)

  /** The request `translate(text, sourceLang, targetLang)` sends; absent languages take the parameter defaults. */
  function BuildRequest(m: MicrosoftTranslator, text: Text, sourceLang: Option<string>,
                        targetLang: Option<string>): (req: Request)
    ensures req.url == BaseUrl + "/translate" && req.verb == "POST"
    ensures req.query == QueryParams(GetOr(sourceLang, DefaultSource), GetOr(targetLang, DefaultTarget))
    ensures req.body == [RequestItem(text)]
    ensures ("Ocp-Apim-Subscription-Key", m.apiKey) in req.headers
    ensures ("Ocp-Apim-Subscription-Region", m.region) in req.headers
  {
    Request(BaseUrl + "/translate", "POST",
            QueryParams(GetOr(sourceLang, DefaultSource), GetOr(targetLang, DefaultTarget)),
            [("Ocp-Apim-Subscription-Key", m.apiKey), ("Ocp-Apim-Subscription-Region", m.region),
             ("Content-Type", "application/json")],
            [RequestItem(text)])
  }

  datatype Translation = Translation(text: Text)
  datatype Detected = Detected(language: Option<string>)

  /** One element of the answer array: its translations and, optionally, the detected language. */
  datatype Entry = Entry(translations: Option<seq<Translation>>, detectedLanguage: Option<Detected>)

  /** `result.translations[0].text` can be read: `data[0]` exists and has a non-empty `translations`. */
  predicate Readable(data: seq<Entry>) {
    |data| > 0 && data[0].translations.Some? && |data[0].translations.value| > 0
  }

  /** `result.detectedLanguage?.language`. */
  function DetectedLanguage(entry: Entry): Option<string> {
    if entry.detectedLanguage.Some? then entry.detectedLanguage.value.language else None
  }

  /** `translate` once `fetch` has produced `response`; `now` stands for `Date.now()`. */
  function Translate(text: Text, sourceLang: Option<string>, targetLang: Option<string>,
                     response: HttpOutcome<seq<Entry>>, now: int): (r: Result<TranslationResult, ProviderError>)
    ensures r.Ok? <==> response.IsOk() && Readable(response.body)
    ensures response.NetworkFailure? ==> r == Err(Transport)
    ensures response.Response? && !response.IsOk() ==> r == Err(HttpStatus(response.status))
    ensures response.IsOk() && !Readable(response.body) ==> r == Err(MalformedResponse)
    ensures r.Ok? ==>
      var res := r.value;
      && res.originalText == text
      && res.translatedText == response.body[0].translations.value[0].text
      && res.targetLang == GetOr(targetLang, DefaultTarget)
      && res.provider == Microsoft
      && res.timestamp == now
      && res.detailedMeanings.None?
      && (Truthy(DetectedLanguage(response.body[0])) ==> res.sourceLang == DetectedLanguage(response.body[0]).value)
      && (!Truthy(DetectedLanguage(response.body[0])) ==> res.sourceLang == GetOr(sourceLang, DefaultSource))
  {
    match response
    case NetworkFailure => Err(Transport)
    case Response(status, data) =>
      if !response.IsOk() then Err(HttpStatus(status))
      else if !Readable(data) then Err(MalformedResponse)  // TypeError on `result.translations[0]`
      else
        var result := data[0];
        var detected := DetectedLanguage(result);
        Ok(TranslationResult(
          text,
          result.translations.value[0].text,
          if Truthy(detected) then detected.value else GetOr(sourceLang, DefaultSource),
          GetOr(targetLang, DefaultTarget),
          Microsoft,
          now,
          None))
  }

  /** An empty region string is kept as given: only an absent region becomes "eastasia". */
  lemma EmptyRegionIsKept(apiKey: string)
    ensures New(apiKey, Some("")).region == ""
    ensures New(apiKey, None).region == "eastasia"
  {
  }
}
