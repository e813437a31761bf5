/** The shared records of the extension (src/types/index.ts), plus the
    small Option/Result wrappers the rest of the model uses for absent
    fields and error returns. */
module Types {

  /** A UTF-16 code unit, the unit in which JavaScript strings are indexed. */
  type CodeUnit = c: int | 0 <= c < 0x1_0000

  /** User text (selections, translations) as JavaScript sees it. */
  type Text = seq<CodeUnit>

  datatype Option<T> = None | Some(value: T)

  datatype Result<T, E> = Ok(value: T) | Err(error: E)

  function GetOr<T>(o: Option<T>, default: T): (r: T)
    ensures o.Some? ==> r == o.value
    ensures o.None? ==> r == default
  {
    match o
    case Some(v) => v
    case None => default
  }

  /** JavaScript truthiness of an optional string field: present and non-empty. */
  predicate Truthy<T>(o: Option<seq<T>>) {
    o.Some? && o.value != []
  }

  /** The two remote services; `Id` is the string stored in `provider`. */
  datatype Provider = Volcengine | Microsoft {
    function Id(): string {
      match this
      case Volcengine => "volcengine"
      case Microsoft => "microsoft"
    }
  }

  /** Reads a `provider` string back; only the two identifiers are accepted. */
  function ProviderFromId(s: string): (p: Option<Provider>)
    ensures p.Some? ==> p.value.Id() == s
    ensures forall q: Provider :: q.Id() == s ==> p == Some(q)
  {
    if s == "volcengine" then Some(Volcengine)
    else if s == "microsoft" then Some(Microsoft)
    else None
  }

  datatype SupportedLanguage = Zh | En | Ja | Ko | Fr | De | Es | Ru | Auto {
    function Code(): string {
      match this
      case Zh => "zh"
      case En => "en"
      case Ja => "ja"
      case Ko => "ko"
      case Fr => "fr"
      case De => "de"
      case Es => "es"
      case Ru => "ru"
      case Auto => "auto"
    }
  }

  const AllLanguages: set<SupportedLanguage> := {Zh, En, Ja, Ko, Fr, De, Es, Ru, Auto}

  /** Reads a language code back into the union type, if it is one of its members. */
  function LanguageFromCode(s: string): (l: Option<SupportedLanguage>)
    ensures l.Some? ==> l.value.Code() == s
    ensures forall m: SupportedLanguage :: m.Code() == s ==> l == Some(m)
  {
    if s == "zh" then Some(Zh)
    else if s == "en" then Some(En)
    else if s == "ja" then Some(Ja)
    else if s == "ko" then Some(Ko)
    else if s == "fr" then Some(Fr)
    else if s == "de" then Some(De)
    else if s == "es" then Some(Es)
    else if s == "ru" then Some(Ru)
    else if s == "auto" then Some(Auto)
    else None
  }

  /** The union has exactly nine members, "auto" among them, with nine distinct codes. */
  lemma NineLanguages()
    ensures |AllLanguages| == 9
    ensures Auto in AllLanguages
    ensures forall l: SupportedLanguage :: l in AllLanguages
    ensures |set l | l in AllLanguages :: l.Code()| == 9
  {
    forall l: SupportedLanguage ensures l in AllLanguages {
      match l
      case Zh => case En => case Ja => case Ko => case Fr => case De => case Es => case Ru => case Auto =>
    }
    var codes := set l | l in AllLanguages :: l.Code();
    assert codes == {"zh", "en", "ja", "ko", "fr", "de", "es", "ru", "auto"};
  }

  /** One part of speech with its glosses. */
  datatype DetailedMeaning = DetailedMeaning(pos: string, meanings: seq<string>)

  datatype TranslationResult = TranslationResult(
    originalText: Text,
    translatedText: Text,
    sourceLang: string,
    targetLang: string,
    provider: Provider,
    timestamp: int,
    detailedMeanings: Option<seq<DetailedMeaning>>)

  /** Credentials are optional; the four preferences are always present. */
  datatype TranslationConfig = TranslationConfig(
    volcengineApiKey: Option<string>,
    volcengineSecretKey: Option<string>,
    microsoftApiKey: Option<string>,
    microsoftRegion: Option<string>,
    defaultTargetLang: string,
    autoDetect: bool,
    enableCache: bool,
    maxHistoryItems: int)

  /** `Partial<TranslationConfig>`: every field may be absent. */
  datatype PartialConfig = PartialConfig(
    volcengineApiKey: Option<string>,
    volcengineSecretKey: Option<string>,
    microsoftApiKey: Option<string>,
    microsoftRegion: Option<string>,
    defaultTargetLang: Option<string>,
    autoDetect: Option<bool>,
    enableCache: Option<bool>,
    maxHistoryItems: Option<int>)

  const NoFields := PartialConfig(None, None, None, None, None, None, None, None)

  /** A cached translation: its own storage key, the full result and the expiry instant (ms). */
  datatype CacheItem = CacheItem(key: string, result: TranslationResult, expiry: int)
}
