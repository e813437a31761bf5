/** The background service worker (src/background/service-worker.ts): a
    module-level translator that is created lazily and rebuilt on demand,
    the runtime message router and the storage-change listener. The worker's
    state is its optional translator; the two storage areas are the ones the
    translator's cache and the history live in. */
module ServiceWorker {
  import opened Types
  import opened Platform
  import Storage
  import opened Orchestrator = Translator

  // ---------------------------------------------------------------------
  // String.prototype.trim
  // ---------------------------------------------------------------------

  /** The code units `trim` removes: ECMAScript WhiteSpace and LineTerminator. */
  predicate IsWhitespace(c: CodeUnit) {
    || 0x09 <= c <= 0x0D
    || c == 0x20 || c == 0xA0 || c == 0x1680
    || 0x2000 <= c <= 0x200A
    || c == 0x2028 || c == 0x2029 || c == 0x202F || c == 0x205F
    || c == 0x3000 || c == 0xFEFF
  }

  /** The input without its leading whitespace. */
  function TrimStart(s: Text): (r: Text)
    ensures |r| <= |s| && r == s[|s| - |r|..]
    ensures r != [] ==> !IsWhitespace(r[0])
    ensures forall i | 0 <= i < |s| - |r| :: IsWhitespace(s[i])
  {
    if s == [] || !IsWhitespace(s[0]) then s else TrimStart(s[1..])
  }

  /** The input without its trailing whitespace. */
  function TrimEnd(s: Text): (r: Text)
    ensures |r| <= |s| && r == s[..|r|]
    ensures r != [] ==> !IsWhitespace(r[|r| - 1])
    ensures forall i | |r| <= i < |s| :: IsWhitespace(s[i])
  {
    if s == [] || !IsWhitespace(s[|s| - 1]) then s else TrimEnd(s[..|s| - 1])
  }

  function Trim(s: Text): Text {
    TrimEnd(TrimStart(s))
  }

  /** `trim` keeps a contiguous piece of its input. */
  lemma TrimIsInfix(s: Text)
    ensures var k := |s| - |TrimStart(s)|; k + |Trim(s)| <= |s| && Trim(s) == s[k..k + |Trim(s)|]
  {
    var t := TrimStart(s);
    var k := |s| - |t|;
    assert t == s[k..];
    assert Trim(s) == t[..|Trim(s)|];
  }

  /** The trimmed text neither starts nor ends with white space. */
  lemma TrimEnds(s: Text)
    ensures Trim(s) != [] ==> !IsWhitespace(Trim(s)[0]) && !IsWhitespace(Trim(s)[|Trim(s)| - 1])
  {
    var t := TrimStart(s);
    if Trim(s) != [] {
      assert Trim(s)[0] == t[0];
    }
  }

  /** `trim` gives the empty string exactly when its input is all white space. */
  lemma TrimEmptyIff(s: Text)
    ensures Trim(s) == [] <==> forall i | 0 <= i < |s| :: IsWhitespace(s[i])
  {
    var t := TrimStart(s);
    var k := |s| - |t|;
    assert t == s[k..];
    if t != [] {
      assert s[k] == t[0];
    }
  }

  /** Trimming twice is trimming once. */
  lemma TrimIdempotent(s: Text)
    ensures Trim(Trim(s)) == Trim(s)
  {
    var t := Trim(s);
    if t != [] {
      assert TrimStart(t) == t;
      assert TrimEnd(t) == t;
    }
  }

  // ---------------------------------------------------------------------
  // Messages
  // ---------------------------------------------------------------------

  /** A `text` field as it arrives: absent, a string, or a value of another type. */
  datatype Field = Missing | Str(s: Text) | NonString

  /** The fields of a runtime message the worker reads; a non-string `type` reads as absent. */
  datatype Message = Message(kind: Option<string>, text: Field, targetLang: Option<string>)

  /** The worker's replies: `{success:true, result}`, `{success:false, error}`,
      `{success:true}` and `{text}`. */
  datatype Reply =
    | Translated(result: TranslationResult)
    | Failed(error: string)
    | Reloaded
    | Selection(text: string)

  const EmptyTextError: string := "翻译文本不能为空"

  /** The validated, trimmed text: rejected when absent, not a string, or only whitespace. */
  function ValidatedText(f: Field): (t: Option<Text>)
    ensures t.Some? <==> f.Str? && Trim(f.s) != []
    ensures t.Some? ==> t.value == Trim(f.s)
  {
    match f
    case Str(s) => if s == [] || Trim(s) == [] then None else Some(Trim(s))
    case _ => None
  }

  /** `message.targetLang || 'zh'`. */
  function TargetLanguage(targetLang: Option<string>): (target: string)
    ensures target != []
    ensures Truthy(targetLang) ==> target == targetLang.value
    ensures !Truthy(targetLang) ==> target == "zh"
  {
    if Truthy(targetLang) then targetLang.value else "zh"
  }

  // ---------------------------------------------------------------------
  // The worker as a state machine over its optional translator
  // ---------------------------------------------------------------------

  /** What a translator object holds, as far as `translate` depends on it. */
  datatype Handles = Handles(
    volcengine: Option<Volcengine.VolcengineTranslator>,
    microsoft: Option<Microsoft.MicrosoftTranslator>,
    config: TranslationConfig)

  /** `new Translator(config)`. */
  function HandlesOf(config: TranslationConfig): Handles {
    Handles(VolcengineHandle(config), MicrosoftHandle(config), config)
  }

  /** One event's effect: the reply, the translator afterwards, the local area afterwards,
      and the provider requests sent. */
  datatype Outcome<R> = Outcome(reply: R, state: Option<Handles>, items: map<string, LocalValue>,
                                calls: seq<ProviderCall>)

  /** The translator `handleTranslate` uses: the existing one, or one built from the stored configuration. */
  function InUse(state: Option<Handles>, sync: map<string, PartialConfig>): Handles {
    if state.Some? then state.value else HandlesOf(Storage.GetConfig(sync))
  }

  /** What follows `translate` in `handleTranslate`: rethrow its error, or add the result to the
      history and answer with it; a rejected history write rejects the handler. */
  function Finish(h: Handles, run: Run, sync: map<string, PartialConfig>, w: World): (o: Outcome<Result<Reply, string>>)
    ensures o.state == Some(h) && o.calls == run.calls
    ensures o.reply.Ok? <==> run.result.Ok? && w.historyWrite.Accepted?
    ensures o.reply.Ok? ==> o.reply.value == Translated(run.result.value)
                            && o.items == Storage.HistoryAdded(run.items, sync, run.result.value)
                            && (Storage.GetHistory(o.items) != [] ==> Storage.GetHistory(o.items)[0] == run.result.value)
                            && (Storage.GetConfig(sync).maxHistoryItems >= 1 ==> Storage.GetHistory(o.items) != [])
    ensures o.reply.Err? ==> o.items == run.items
    ensures run.result.Err? ==> o.reply == Err(run.result.error.Message())
    ensures run.result.Ok? && w.historyWrite.Rejected? ==> o.reply == Err(w.historyWrite.message)
  {
    if run.result.Err? then Outcome(Err(run.result.error.Message()), Some(h), run.items, run.calls)
    else if w.historyWrite.Rejected? then Outcome(Err(w.historyWrite.message), Some(h), run.items, run.calls)
    else
      var history := Storage.GetHistory(run.items);
      Storage.PushHistoryShape(history, run.result.value, Storage.GetConfig(sync).maxHistoryItems);
      Outcome(Ok(Translated(run.result.value)), Some(h),
              Storage.HistoryAdded(run.items, sync, run.result.value), run.calls)
  }

  /** The run of `translate` inside `handleTranslate`: the trimmed text, the defaulted target. */
  function TranslateRun(h: Handles, items: map<string, LocalValue>, text: Text, message: Message, w: World): Run {
    RunTranslate(h.volcengine, h.microsoft, h.config.enableCache, items, text, TargetLanguage(message.targetLang), w)
  }

  /** `handleTranslate`: `Ok` is what it resolves to, `Err` the message it rejects with. */
  function HandleRun(state: Option<Handles>, items: map<string, LocalValue>, sync: map<string, PartialConfig>,
                     message: Message, w: World): Outcome<Result<Reply, string>>
  {
    var text := ValidatedText(message.text);
    if text.None? then Outcome(Ok(Failed(EmptyTextError)), state, items, [])
    else
      var h := InUse(state, sync);
      Finish(h, TranslateRun(h, items, text.value, message, w), sync, w)
  }

  /** The `onMessage` listener; `None` is the `undefined` left to other listeners. */
  function Dispatch(state: Option<Handles>, items: map<string, LocalValue>, sync: map<string, PartialConfig>,
                    message: Message, w: World): Outcome<Option<Reply>>
  {
    if message.kind == Some("TRANSLATE") then
      var o := HandleRun(state, items, sync, message, w);
      Outcome(Some(if o.reply.Ok? then o.reply.value else Failed(o.reply.error)), o.state, o.items, o.calls)
    else if message.kind == Some("RELOAD_CONFIG") then
      Outcome(Some(Reloaded), Some(HandlesOf(Storage.GetConfig(sync))), items, [])
    else if message.kind == Some("GET_SELECTION") then
      Outcome(Some(Selection("")), state, items, [])
    else
      Outcome(None, state, items, [])
  }

  /** The `storage.onChanged` listener: whether it rebuilds the translator. */
  predicate ReloadsOn(areaName: string, changes: set<string>) {
    areaName == "sync" && "config" in changes
  }

  class ServiceWorker {
    /** The module-level `translator`, `null` until first initialised. */
    var translator: Option<Orchestrator.Translator>
    const local: LocalArea
    const sync: SyncArea

    /** The translator, when there is one, caches into the worker's local area. */
    predicate Valid()
      reads this
    {
      translator.Some? ==> translator.value.cacheArea == local
    }

    function State(): Option<Handles>
      reads this
    {
      match translator
      case None => None
      case Some(t) => Some(Handles(t.volcengine, t.microsoft, t.config))
    }

    /** Module load, before the initial `initTranslator()` has completed. */
    constructor (local: LocalArea, sync: SyncArea)
      ensures this.local == local && this.sync == sync
      ensures translator.None? && Valid()
    {
      this.local := local;
      this.sync := sync;
      translator := None;
    }

    /** `initTranslator`: a new translator from the configuration currently stored. */
    method InitTranslator()
      modifies this
      ensures Valid()
      ensures State() == Some(HandlesOf(Storage.GetConfig(sync.items)))
      ensures translator.Some? && fresh(translator.value)
    {
      var config := Storage.GetConfig(sync.items);
      var t := new Orchestrator.Translator(config, local);
      translator := Some(t);
    }

    method HandleTranslate(message: Message, w: World)
      returns (r: Result<Reply, string>, ghost calls: seq<ProviderCall>)
      requires Valid()
      modifies this, local
      ensures Valid()
      ensures Outcome(r, State(), local.items, calls)
              == HandleRun(old(State()), old(local.items), sync.items, message, w)
    {
      var text := ValidatedText(message.text);
      if text.None? {
        return Ok(Failed(EmptyTextError)), [];
      }
      ghost var h := InUse(State(), sync.items);
      ghost var items := local.items;
      if translator.None? {
        InitTranslator();
      }
      var t := translator.value;
      assert State() == Some(h);
      var target := TargetLanguage(message.targetLang);
      var result;
      result, calls := t.Translate(text.value, Some(target), w);
      ghost var run := TranslateRun(h, items, text.value, message, w);
      assert Run(result, local.items, calls) == run;
      if result.Err? {
        return Err(result.error.Message()), calls;
      }
      var error := Storage.AddHistory(local, sync, result.value, w.historyWrite);
      if error.Some? {
        return Err(error.value), calls;
      }
      return Ok(Translated(result.value)), calls;
    }

    method OnMessage(message: Message, w: World)
      returns (reply: Option<Reply>, ghost calls: seq<ProviderCall>)
      requires Valid()
      modifies this, local
      ensures Valid()
      ensures Outcome(reply, State(), local.items, calls)
              == Dispatch(old(State()), old(local.items), sync.items, message, w)
    {
      if message.kind == Some("TRANSLATE") {
        var r;
        r, calls := HandleTranslate(message, w);
        if r.Ok? {
          return Some(r.value), calls;
        }
        return Some(Failed(r.error)), calls;
      }
      calls := [];
      if message.kind == Some("RELOAD_CONFIG") {
        InitTranslator();
        return Some(Reloaded), calls;
      }
      if message.kind == Some("GET_SELECTION") {
        return Some(Selection("")), calls;
      }
      return None, calls;
    }

    method OnStorageChanged(areaName: string, changes: set<string>)
      requires Valid()
      modifies this
      ensures Valid()
      ensures State() == if ReloadsOn(areaName, changes) then Some(HandlesOf(Storage.GetConfig(sync.items)))
                         else old(State())
    {
      if areaName == "sync" && "config" in changes {
        InitTranslator();
      }
    }
  }

  // ---------------------------------------------------------------------
  // Properties of the dispatcher
  // ---------------------------------------------------------------------

  /** Rejected text gets the fixed error reply and touches neither the translator nor the storage. */
  lemma InvalidTextTouchesNothing(state: Option<Handles>, items: map<string, LocalValue>,
                                  sync: map<string, PartialConfig>, message: Message, w: World)
    requires message.text.Missing? || message.text.NonString? || (message.text.Str? && Trim(message.text.s) == [])
    ensures HandleRun(state, items, sync, message, w) == Outcome(Ok(Failed(EmptyTextError)), state, items, [])
  {
  }

  /** Whitespace-only text is rejected, however long it is. */
  lemma WhitespaceOnlyIsRejected(s: Text)
    requires forall i | 0 <= i < |s| :: IsWhitespace(s[i])
    ensures ValidatedText(Str(s)).None?
  {
    TrimEmptyIff(s);
  }

  /** Accepted text means a translator exists afterwards, the existing one or one built from the
      stored configuration, and `translate` ran on the trimmed text and the defaulted target;
      history is added only after a successful translation and then starts with its result. */
  lemma TranslatesTrimmedText(state: Option<Handles>, items: map<string, LocalValue>,
                              sync: map<string, PartialConfig>, message: Message, w: World)
    requires ValidatedText(message.text).Some?
    ensures var o := HandleRun(state, items, sync, message, w);
      var h := InUse(state, sync);
      var run := RunTranslate(h.volcengine, h.microsoft, h.config.enableCache, items, Trim(message.text.s),
                              TargetLanguage(message.targetLang), w);
      && o == Finish(h, run, sync, w)
      && (state.None? ==> o.state == Some(HandlesOf(Storage.GetConfig(sync))))
      && (state.Some? ==> o.state == state)
  {
  }

  /** The TRANSLATE route always answers: a result or an error reply, never a rejection. */
  lemma TranslateRouteAlwaysReplies(state: Option<Handles>, items: map<string, LocalValue>,
                                    sync: map<string, PartialConfig>, message: Message, w: World)
    requires message.kind == Some("TRANSLATE")
    ensures var o := Dispatch(state, items, sync, message, w);
      o.reply.Some? && (o.reply.value.Translated? || o.reply.value.Failed?)
  {
  }

  /** The other routes: a rebuilt translator, an empty selection, or no answer at all;
      none of them sends a request or touches the local area. */
  lemma OtherRoutes(state: Option<Handles>, items: map<string, LocalValue>,
                    sync: map<string, PartialConfig>, message: Message, w: World)
    requires message.kind != Some("TRANSLATE")
    ensures var o := Dispatch(state, items, sync, message, w);
      && o.items == items && o.calls == []
      && (message.kind == Some("RELOAD_CONFIG") ==>
            o.reply == Some(Reloaded) && o.state == Some(HandlesOf(Storage.GetConfig(sync))))
      && (message.kind == Some("GET_SELECTION") ==> o.reply == Some(Selection("")) && o.state == state)
      && (message.kind != Some("RELOAD_CONFIG") && message.kind != Some("GET_SELECTION") ==>
            o.reply.None? && o.state == state)
  {
  }

  /** What follows `translate` keeps the layout: only a history addition can change the area. */
  lemma FinishKeepsLayout(h: Handles, run: Run, sync: map<string, PartialConfig>, w: World)
    requires Storage.LocalWellFormed(run.items)
    ensures Storage.LocalWellFormed(Finish(h, run, sync, w).items)
  {
    if run.result.Ok? {
      Storage.HistoryAddedKeepsLayout(run.items, sync, run.result.value);
    }
  }

  /** Every event keeps the layout of the local area. */
  lemma DispatchKeepsLayout(state: Option<Handles>, items: map<string, LocalValue>,
                            sync: map<string, PartialConfig>, message: Message, w: World)
    requires Storage.LocalWellFormed(items)
    ensures Storage.LocalWellFormed(Dispatch(state, items, sync, message, w).items)
  {
    var text := ValidatedText(message.text);
    if message.kind == Some("TRANSLATE") && text.Some? {
      var h := InUse(state, sync);
      var target := TargetLanguage(message.targetLang);
      TranslateKeepsLayout(h.volcengine, h.microsoft, h.config.enableCache, items, text.value, target, w);
      FinishKeepsLayout(h, TranslateRun(h, items, text.value, message, w), sync, w);
    }
  }
}
