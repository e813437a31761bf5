/** `Translator` (src/api/translator.ts): the orchestrator. It checks the
    cache (when enabled), then tries Volcengine, then Microsoft, writing a
    successful result through to the cache, and ends in one of two fixed
    errors. `RunTranslate` states the whole step sequence as a value; the
    class method performs it in place on the local storage area. */
module Translator {
  import opened Types
  import opened Platform
  import opened Cache
  import Storage
  import Volcengine
  import Microsoft

  /** Everything outside the program that one `translate` call observes. */
  datatype World = World(
    now: int,                                          // Date.now(), for the whole call
    volcengine: HttpOutcome<Volcengine.ResponseBody>,  // what fetch returns to the Volcengine adapter
    microsoft: HttpOutcome<seq<Microsoft.Entry>>,      // what fetch returns to the Microsoft adapter
    volcengineCacheWrite: WriteOutcome,                // the local area's answer to cache.set after Volcengine
    microsoftCacheWrite: WriteOutcome,                 // the local area's answer to cache.set after Microsoft
    historyWrite: WriteOutcome)                        // the local area's answer to the history write

  /** A request one of the adapters sent. */
  datatype ProviderCall =
    | VolcengineCall(vrequest: Volcengine.Request)
    | MicrosoftCall(mrequest: Microsoft.Request)

  /** The two errors `translate` throws. */
  datatype TranslateError = AllServicesUnavailable | NoServiceConfigured {
    function Message(): string {
      match this
      case AllServicesUnavailable => "所有翻译服务均不可用"
      case NoServiceConfigured => "未配置任何翻译服务"
    }
  }

  /** The Volcengine handle the constructor creates: only when the access key is truthy, and
      always without a secret key, because the constructor passes only the access key. */
  function VolcengineHandle(config: TranslationConfig): (h: Option<Volcengine.VolcengineTranslator>)
    ensures h.Some? <==> Truthy(config.volcengineApiKey)
    ensures h.Some? ==> h.value.accessKey == config.volcengineApiKey.value && h.value.secretKey == ""
  {
    if Truthy(config.volcengineApiKey) then Some(Volcengine.New(config.volcengineApiKey.value, None)) else None
  }

  /** The Microsoft handle: only when the key is truthy; the region falls back to "eastasia" when absent. */
  function MicrosoftHandle(config: TranslationConfig): (h: Option<Microsoft.MicrosoftTranslator>)
    ensures h.Some? <==> Truthy(config.microsoftApiKey)
    ensures h.Some? ==> h.value.apiKey == config.microsoftApiKey.value
                        && h.value.region == GetOr(config.microsoftRegion, "eastasia")
  {
    if Truthy(config.microsoftApiKey)
    then Some(Microsoft.New(config.microsoftApiKey.value, config.microsoftRegion))
    else None
  }

  /** What the `try` block after a provider call leaves: a result to return, or nothing (caught). */
  datatype Attempt = Attempt(result: Option<TranslationResult>, items: map<string, LocalValue>)

  /** The `try` body after the provider call: `await cache.set(...)`, then `return result`.
      Either a failed provider call or a rejected cache write ends in the `catch`. */
  function Deliver(items: map<string, LocalValue>, text: Text, target: string,
                   outcome: Result<TranslationResult, ProviderError>, now: int, write: WriteOutcome): (a: Attempt)
    ensures a.result.Some? <==> outcome.Ok? && write.Accepted?
    ensures a.result.Some? ==> a.result.value == outcome.value
                               && a.items == CacheSet(items, text, target, outcome.value, now)
    ensures a.result.None? ==> a.items == items
  {
    if outcome.Ok? && write.Accepted?
    then Attempt(Some(outcome.value), CacheSet(items, text, target, outcome.value, now))
    else Attempt(None, items)
  }

  /** The outcome of one call: what it returns or throws, the local area afterwards, the requests sent. */
  datatype Run = Run(result: Result<TranslationResult, TranslateError>, items: map<string, LocalValue>,
                     calls: seq<ProviderCall>)

  function VolcengineRequest(v: Volcengine.VolcengineTranslator, text: Text, target: string): Volcengine.Request {
    Volcengine.BuildRequest(v, text, Some("auto"), Some(target))
  }

  function MicrosoftRequest(m: Microsoft.MicrosoftTranslator, text: Text, target: string): Microsoft.Request {
    Microsoft.BuildRequest(m, text, Some("auto"), Some(target))
  }

  function VolcengineOutcome(text: Text, target: string, w: World): Result<TranslationResult, ProviderError> {
    Volcengine.Translate(text, Some("auto"), Some(target), w.volcengine, w.now)
  }

  function MicrosoftOutcome(text: Text, target: string, w: World): Result<TranslationResult, ProviderError> {
    Microsoft.Translate(text, Some("auto"), Some(target), w.microsoft, w.now)
  }

  /** The cache read of step 1: only when caching is enabled. */
  function CacheStep(enableCache: bool, items: map<string, LocalValue>, text: Text, target: string, now: int): CacheRead {
    if enableCache then CacheGet(items, text, target, now) else CacheRead(None, items)
  }

  /** `translate(text, target)` as a whole. */
  function RunTranslate(volc: Option<Volcengine.VolcengineTranslator>, ms: Option<Microsoft.MicrosoftTranslator>,
                        enableCache: bool, items: map<string, LocalValue>, text: Text, target: string,
                        w: World): Run
  {
    var read := CacheStep(enableCache, items, text, target, w.now);
    if read.result.Some? then Run(Ok(read.result.value), read.items, [])
    else
      var volcCalls := if volc.Some? then [VolcengineCall(VolcengineRequest(volc.value, text, target))] else [];
      var first := if volc.Some?
                   then Deliver(read.items, text, target, VolcengineOutcome(text, target, w), w.now, w.volcengineCacheWrite)
                   else Attempt(None, read.items);
      if first.result.Some? then Run(Ok(first.result.value), first.items, volcCalls)
      else if ms.Some? then
        var calls := volcCalls + [MicrosoftCall(MicrosoftRequest(ms.value, text, target))];
        var second := Deliver(first.items, text, target, MicrosoftOutcome(text, target, w), w.now, w.microsoftCacheWrite);
        if second.result.Some? then Run(Ok(second.result.value), second.items, calls)
        else Run(Err(AllServicesUnavailable), second.items, calls)
      else Run(Err(NoServiceConfigured), first.items, volcCalls)
  }

  // ---------------------------------------------------------------------
  // The object
  // ---------------------------------------------------------------------

  class Translator {
    const config: TranslationConfig
    const volcengine: Option<Volcengine.VolcengineTranslator>
    const microsoft: Option<Microsoft.MicrosoftTranslator>
    /** The local storage area the `CacheManager` reads and writes. */
    const cacheArea: LocalArea

    /** The handles are fixed here, from the configuration. */
    constructor (config: TranslationConfig, cacheArea: LocalArea)
      ensures this.config == config && this.cacheArea == cacheArea
      ensures volcengine == VolcengineHandle(config) && microsoft == MicrosoftHandle(config)
    {
      this.config := config;
      this.cacheArea := cacheArea;
      if Truthy(config.volcengineApiKey) {
        volcengine := Some(Volcengine.New(config.volcengineApiKey.value, None));
      } else {
        volcengine := None;
      }
      if Truthy(config.microsoftApiKey) {
        microsoft := Some(Microsoft.New(config.microsoftApiKey.value, config.microsoftRegion));
      } else {
        microsoft := None;
      }
    }

    /** `translate`; an absent `targetLang` takes the configured default. `r` is the return
        value or the thrown error, `calls` the requests sent. */
    method Translate(text: Text, targetLang: Option<string>, w: World)
      returns (r: Result<TranslationResult, TranslateError>, ghost calls: seq<ProviderCall>)
      modifies cacheArea
      ensures Run(r, cacheArea.items, calls)
              == RunTranslate(volcengine, microsoft, config.enableCache, old(cacheArea.items),
                              text, GetOr(targetLang, config.defaultTargetLang), w)
    {
      var target := GetOr(targetLang, config.defaultTargetLang);
      calls := [];
      if config.enableCache {
        var cached := Cache.Get(cacheArea, text, target, w.now);
        if cached.Some? {
          return Ok(cached.value), calls;
        }
      }
      if volcengine.Some? {
        calls := calls + [VolcengineCall(Volcengine.BuildRequest(volcengine.value, text, Some("auto"), Some(target)))];
        var outcome := Volcengine.Translate(text, Some("auto"), Some(target), w.volcengine, w.now);
        if outcome.Ok? {
          var written := Cache.Set(cacheArea, text, target, outcome.value, w.now, w.volcengineCacheWrite);
          if written {
            return Ok(outcome.value), calls;
          }
        }
        // caught: fall through to Microsoft
      }
      if microsoft.Some? {
        calls := calls + [MicrosoftCall(Microsoft.BuildRequest(microsoft.value, text, Some("auto"), Some(target)))];
        var outcome := Microsoft.Translate(text, Some("auto"), Some(target), w.microsoft, w.now);
        if outcome.Ok? {
          var written := Cache.Set(cacheArea, text, target, outcome.value, w.now, w.microsoftCacheWrite);
          if written {
            return Ok(outcome.value), calls;
          }
        }
        return Err(AllServicesUnavailable), calls;
      }
      return Err(NoServiceConfigured), calls;
    }
  }

  // ---------------------------------------------------------------------
  // Properties of the step sequence
  // ---------------------------------------------------------------------

  predicate CacheHit(enableCache: bool, items: map<string, LocalValue>, text: Text, target: string, now: int) {
    CacheStep(enableCache, items, text, target, now).result.Some?
  }

  /** The Volcengine step returns: a handle exists, the adapter succeeds and the cache accepts the write. */
  predicate VolcengineDelivers(volc: Option<Volcengine.VolcengineTranslator>, text: Text, target: string, w: World) {
    volc.Some? && VolcengineOutcome(text, target, w).Ok? && w.volcengineCacheWrite.Accepted?
  }

  predicate MicrosoftDelivers(text: Text, target: string, w: World) {
    MicrosoftOutcome(text, target, w).Ok? && w.microsoftCacheWrite.Accepted?
  }

  /** With caching on, a hit is returned as stored, nothing is sent and the storage is untouched. */
  lemma CacheHitSkipsProviders(volc: Option<Volcengine.VolcengineTranslator>, ms: Option<Microsoft.MicrosoftTranslator>,
                               items: map<string, LocalValue>, text: Text, target: string, w: World)
    requires CacheGet(items, text, target, w.now).result.Some?
    ensures RunTranslate(volc, ms, true, items, text, target, w)
            == Run(Ok(CacheGet(items, text, target, w.now).result.value), items, [])
  {
  }

  /** With caching off, the stored entries never influence what is returned or sent. */
  lemma DisabledCacheIsNotRead(volc: Option<Volcengine.VolcengineTranslator>, ms: Option<Microsoft.MicrosoftTranslator>,
                               items1: map<string, LocalValue>, items2: map<string, LocalValue>,
                               text: Text, target: string, w: World)
    ensures RunTranslate(volc, ms, false, items1, text, target, w).result
            == RunTranslate(volc, ms, false, items2, text, target, w).result
    ensures RunTranslate(volc, ms, false, items1, text, target, w).calls
            == RunTranslate(volc, ms, false, items2, text, target, w).calls
  {
  }

  /** A result that came from a provider has just been written to the cache, whether or not
      caching is enabled; a thrown error leaves only the effect of the cache read. */
  lemma WriteThrough(volc: Option<Volcengine.VolcengineTranslator>, ms: Option<Microsoft.MicrosoftTranslator>,
                     enableCache: bool, items: map<string, LocalValue>, text: Text, target: string, w: World)
    ensures var run := RunTranslate(volc, ms, enableCache, items, text, target, w);
      var read := CacheStep(enableCache, items, text, target, w.now);
      && (run.result.Ok? && run.calls != [] ==>
            run.items == CacheSet(read.items, text, target, run.result.value, w.now))
      && (run.result.Err? ==> run.items == read.items)
      && (!enableCache ==> read.items == items)
  {
  }

  /** Volcengine goes first whenever it exists; when it delivers, Microsoft is never called. */
  lemma VolcengineFirst(volc: Option<Volcengine.VolcengineTranslator>, ms: Option<Microsoft.MicrosoftTranslator>,
                        enableCache: bool, items: map<string, LocalValue>, text: Text, target: string, w: World)
    requires !CacheHit(enableCache, items, text, target, w.now)
    requires volc.Some?
    ensures var run := RunTranslate(volc, ms, enableCache, items, text, target, w);
      && |run.calls| >= 1
      && run.calls[0] == VolcengineCall(VolcengineRequest(volc.value, text, target))
      && (VolcengineDelivers(volc, text, target, w) ==>
            run.calls == [run.calls[0]] && run.result == Ok(VolcengineOutcome(text, target, w).value))
  {
  }

  /** When the Volcengine step does not return (no handle, a failure, or a rejected cache write),
      Microsoft is tried if it exists, and its failure ends in "all services unavailable". */
  lemma FallbackToMicrosoft(volc: Option<Volcengine.VolcengineTranslator>, ms: Option<Microsoft.MicrosoftTranslator>,
                            enableCache: bool, items: map<string, LocalValue>, text: Text, target: string, w: World)
    requires !CacheHit(enableCache, items, text, target, w.now)
    requires !VolcengineDelivers(volc, text, target, w)
    requires ms.Some?
    ensures var run := RunTranslate(volc, ms, enableCache, items, text, target, w);
      && |run.calls| >= 1
      && run.calls[|run.calls| - 1] == MicrosoftCall(MicrosoftRequest(ms.value, text, target))
      && (MicrosoftDelivers(text, target, w) ==>
            run.result == Ok(MicrosoftOutcome(text, target, w).value) && run.result.value.provider == Types.Microsoft)
      && (!MicrosoftDelivers(text, target, w) ==> run.result == Err(AllServicesUnavailable))
  {
    var read := CacheStep(enableCache, items, text, target, w.now);
    if MicrosoftDelivers(text, target, w) {
      assert MicrosoftOutcome(text, target, w).value.provider == Types.Microsoft;
    }
  }

  /** A Volcengine answer whose cache write is rejected is dropped; Microsoft is asked next and,
      when it answers and its own write is accepted, its result is returned and cached. */
  lemma RejectedWriteFallsBack(volc: Option<Volcengine.VolcengineTranslator>, ms: Option<Microsoft.MicrosoftTranslator>,
                               enableCache: bool, items: map<string, LocalValue>, text: Text, target: string, w: World)
    requires !CacheHit(enableCache, items, text, target, w.now)
    requires volc.Some? && VolcengineOutcome(text, target, w).Ok? && w.volcengineCacheWrite.Rejected?
    requires ms.Some? && MicrosoftDelivers(text, target, w)
    ensures var run := RunTranslate(volc, ms, enableCache, items, text, target, w);
      var read := CacheStep(enableCache, items, text, target, w.now);
      && run.result == Ok(MicrosoftOutcome(text, target, w).value)
      && run.result.value.provider == Types.Microsoft
      && run.items == CacheSet(read.items, text, target, run.result.value, w.now)
      && |run.calls| == 2
  {
    assert MicrosoftOutcome(text, target, w).value.provider == Types.Microsoft;
  }

  /** On a miss, "no service configured" is thrown exactly when there is no Microsoft handle
      and the Volcengine step did not return, so also when Volcengine exists but failed. */
  lemma NoServiceConfiguredExactly(volc: Option<Volcengine.VolcengineTranslator>, ms: Option<Microsoft.MicrosoftTranslator>,
                                   enableCache: bool, items: map<string, LocalValue>, text: Text, target: string, w: World)
    requires !CacheHit(enableCache, items, text, target, w.now)
    ensures RunTranslate(volc, ms, enableCache, items, text, target, w).result == Err(NoServiceConfigured)
            <==> ms.None? && !VolcengineDelivers(volc, text, target, w)
  {
  }

  /** A configured Volcengine whose attempt fails, with no Microsoft key, reports "not configured". */
  lemma FailedVolcengineReadsAsNotConfigured(config: TranslationConfig, items: map<string, LocalValue>,
                                             text: Text, target: string, w: World)
    requires Truthy(config.volcengineApiKey) && !Truthy(config.microsoftApiKey)
    requires w.volcengine.NetworkFailure?
    ensures var run := RunTranslate(VolcengineHandle(config), MicrosoftHandle(config), false, items, text, target, w);
      run.result == Err(NoServiceConfigured) && |run.calls| == 1
  {
  }

  /** At most one request per provider, Volcengine before Microsoft, each asking for
      the given text, source "auto" and the given target. */
  lemma CallsAreOrdered(volc: Option<Volcengine.VolcengineTranslator>, ms: Option<Microsoft.MicrosoftTranslator>,
                        enableCache: bool, items: map<string, LocalValue>, text: Text, target: string, w: World)
    ensures var calls := RunTranslate(volc, ms, enableCache, items, text, target, w).calls;
      && |calls| <= 2
      && (forall i, j | 0 <= i < j < |calls| :: calls[i].VolcengineCall? && calls[j].MicrosoftCall?)
      && (forall i | 0 <= i < |calls| && calls[i].VolcengineCall? ::
            calls[i].vrequest.body == Volcengine.RequestBody("auto", target, text))
      && (forall i | 0 <= i < |calls| && calls[i].MicrosoftCall? ::
            calls[i].mrequest.query == Microsoft.QueryParams("auto", target)
            && calls[i].mrequest.body == [Microsoft.RequestItem(text)])
  {
  }

  /** Without any handle, a miss is "no service configured" and nothing is sent. */
  lemma NoCredentialsNoCalls(config: TranslationConfig, enableCache: bool, items: map<string, LocalValue>,
                             text: Text, target: string, w: World)
    requires !Truthy(config.volcengineApiKey) && !Truthy(config.microsoftApiKey)
    requires !CacheHit(enableCache, items, text, target, w.now)
    ensures var run := RunTranslate(VolcengineHandle(config), MicrosoftHandle(config), enableCache, items, text, target, w);
      run.result == Err(NoServiceConfigured) && run.calls == []
  {
  }

  /** With caching on, repeating a call that a provider answered, within the TTL, sends nothing
      and returns the identical result. */
  lemma RepeatServedFromCache(volc: Option<Volcengine.VolcengineTranslator>, ms: Option<Microsoft.MicrosoftTranslator>,
                              items: map<string, LocalValue>, text: Text, target: string, w1: World, w2: World)
    requires var first := RunTranslate(volc, ms, true, items, text, target, w1);
      first.result.Ok? && first.calls != []
    requires w2.now <= w1.now + CacheExpiry
    ensures var first := RunTranslate(volc, ms, true, items, text, target, w1);
      var second := RunTranslate(volc, ms, true, first.items, text, target, w2);
      second == Run(first.result, first.items, [])
  {
    var first := RunTranslate(volc, ms, true, items, text, target, w1);
    WriteThrough(volc, ms, true, items, text, target, w1);
    SetThenGet(CacheGet(items, text, target, w1.now).items, text, target, first.result.value, w1.now, w2.now);
  }

  /** Every call keeps the layout of the local area. */
  lemma TranslateKeepsLayout(volc: Option<Volcengine.VolcengineTranslator>, ms: Option<Microsoft.MicrosoftTranslator>,
                             enableCache: bool, items: map<string, LocalValue>, text: Text, target: string, w: World)
    requires Storage.LocalWellFormed(items)
    ensures Storage.LocalWellFormed(RunTranslate(volc, ms, enableCache, items, text, target, w).items)
  {
    var read := CacheStep(enableCache, items, text, target, w.now);
    Storage.CacheGetKeepsLayout(items, text, target, w.now);
    assert Storage.LocalWellFormed(read.items);
    var run := RunTranslate(volc, ms, enableCache, items, text, target, w);
    if run.result.Ok? && run.calls != [] {
      WriteThrough(volc, ms, enableCache, items, text, target, w);
      Storage.CacheSetKeepsLayout(read.items, text, target, run.result.value, w.now);
    }
  }
}
