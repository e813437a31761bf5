/** `StorageManager` (src/utils/storage.ts): the configuration record in
    the sync area, read as defaults overridden by the stored fields, and
    the newest-first translation history in the local area, capped at
    `maxHistoryItems`. */
module Storage {
  import opened Types
  import opened Platform
  import opened Cache

  const ConfigKey: string := "config"
  const HistoryKey: string := "history"

  const DefaultConfig: TranslationConfig :=
    TranslationConfig(None, None, None, None, "zh", true, true, 100)

  // ---------------------------------------------------------------------
  // Configuration: object spread on records
  // ---------------------------------------------------------------------

  /** The first option if it is present, else the second (spread of one field). */
  function Prefer<T>(first: Option<T>, second: Option<T>): (r: Option<T>)
    ensures first.Some? ==> r == first
    ensures first.None? ==> r == second
  {
    if first.Some? then first else second
  }

  /** A full record seen as a partial one: the four required fields are always present. */
  function AsPartial(c: TranslationConfig): PartialConfig {
    PartialConfig(c.volcengineApiKey, c.volcengineSecretKey, c.microsoftApiKey, c.microsoftRegion,
                  Some(c.defaultTargetLang), Some(c.autoDetect), Some(c.enableCache), Some(c.maxHistoryItems))
  }

  /** `{ ...a, ...b }` on partial records. */
  function Overlay(a: PartialConfig, b: PartialConfig): PartialConfig {
    PartialConfig(
      Prefer(b.volcengineApiKey, a.volcengineApiKey),
      Prefer(b.volcengineSecretKey, a.volcengineSecretKey),
      Prefer(b.microsoftApiKey, a.microsoftApiKey),
      Prefer(b.microsoftRegion, a.microsoftRegion),
      Prefer(b.defaultTargetLang, a.defaultTargetLang),
      Prefer(b.autoDetect, a.autoDetect),
      Prefer(b.enableCache, a.enableCache),
      Prefer(b.maxHistoryItems, a.maxHistoryItems))
  }

  /** Every field of `c` is the one given in `p` when `p` has it, and `base`'s otherwise. */
  predicate TakesFieldsFrom(c: TranslationConfig, p: PartialConfig, base: TranslationConfig) {
    && c.volcengineApiKey == Prefer(p.volcengineApiKey, base.volcengineApiKey)
    && c.volcengineSecretKey == Prefer(p.volcengineSecretKey, base.volcengineSecretKey)
    && c.microsoftApiKey == Prefer(p.microsoftApiKey, base.microsoftApiKey)
    && c.microsoftRegion == Prefer(p.microsoftRegion, base.microsoftRegion)
    && c.defaultTargetLang == GetOr(p.defaultTargetLang, base.defaultTargetLang)
    && c.autoDetect == GetOr(p.autoDetect, base.autoDetect)
    && c.enableCache == GetOr(p.enableCache, base.enableCache)
    && c.maxHistoryItems == GetOr(p.maxHistoryItems, base.maxHistoryItems)
  }

  /** `{ ...base, ...p }` as a full record. */
  function Merge(base: TranslationConfig, p: PartialConfig): (c: TranslationConfig)
    ensures TakesFieldsFrom(c, p, base)
    ensures AsPartial(c) == Overlay(AsPartial(base), p)
  {
    TranslationConfig(
      Prefer(p.volcengineApiKey, base.volcengineApiKey),
      Prefer(p.volcengineSecretKey, base.volcengineSecretKey),
      Prefer(p.microsoftApiKey, base.microsoftApiKey),
      Prefer(p.microsoftRegion, base.microsoftRegion),
      GetOr(p.defaultTargetLang, base.defaultTargetLang),
      GetOr(p.autoDetect, base.autoDetect),
      GetOr(p.enableCache, base.enableCache),
      GetOr(p.maxHistoryItems, base.maxHistoryItems))
  }

  /** `getConfig`: the defaults, overridden by whatever fields are stored under `config`. */
  function GetConfig(sync: map<string, PartialConfig>): (c: TranslationConfig)
    ensures ConfigKey !in sync ==> c == DefaultConfig
    ensures ConfigKey in sync ==> TakesFieldsFrom(c, sync[ConfigKey], DefaultConfig)
  {
    Merge(DefaultConfig, if ConfigKey in sync then sync[ConfigKey] else NoFields)
  }

  /** The sync area after `setConfig(p)`: the current configuration, overridden by `p`, is written back. */
  function StoreConfig(sync: map<string, PartialConfig>, p: PartialConfig): (r: map<string, PartialConfig>)
    ensures ConfigKey in r
    ensures forall k :: k != ConfigKey ==> (k in r <==> k in sync)
    ensures forall k :: k in sync && k != ConfigKey ==> r[k] == sync[k]
  {
    sync[ConfigKey := Overlay(AsPartial(GetConfig(sync)), p)]
  }

  /** After `setConfig(p)`, the fields in `p` read back as `p`'s and every other field as before. */
  lemma SetConfigEffect(sync: map<string, PartialConfig>, p: PartialConfig)
    ensures TakesFieldsFrom(GetConfig(StoreConfig(sync, p)), p, GetConfig(sync))
  {
  }

  /** `setConfig(p)` twice leaves the same store as once. */
  lemma SetConfigIdempotent(sync: map<string, PartialConfig>, p: PartialConfig)
    ensures StoreConfig(StoreConfig(sync, p), p) == StoreConfig(sync, p)
  {
  }

  /** With nothing stored, the defaults are 'zh', auto-detect on, cache on, 100 history items. */
  lemma NothingStoredGivesDefaults()
    ensures var c := GetConfig(map[]);
      && c.defaultTargetLang == "zh" && c.autoDetect && c.enableCache && c.maxHistoryItems == 100
      && c.volcengineApiKey.None? && c.microsoftApiKey.None?
  {
  }

  method SetConfig(sync: SyncArea, p: PartialConfig)
    modifies sync
    ensures sync.items == StoreConfig(old(sync.items), p)
  {
    var current := GetConfig(sync.items);
    sync.items := sync.items[ConfigKey := Overlay(AsPartial(current), p)];
  }

  // ---------------------------------------------------------------------
  // History
  // ---------------------------------------------------------------------

  /** `getHistory`: the stored list, or the empty list when nothing is stored. */
  function GetHistory(local: map<string, LocalValue>): (h: seq<TranslationResult>)
    ensures HistoryKey !in local ==> h == []
    ensures HistoryKey in local && local[HistoryKey].HistoryList? ==> h == local[HistoryKey].entries
  {
    if HistoryKey in local && local[HistoryKey].HistoryList? then local[HistoryKey].entries else []
  }

  function Min(a: int, b: int): int { if a < b then a else b }
  function Max(a: int, b: int): int { if a < b then b else a }

  /** `Array.prototype.slice(0, end)`: a negative end counts back from the length. */
  function SliceTo<T>(s: seq<T>, end: int): (r: seq<T>)
    ensures r <= s
    ensures end >= 0 ==> |r| == Min(end, |s|)
    ensures end < 0 ==> |r| == Max(|s| + end, 0)
  {
    s[..if end < 0 then Max(|s| + end, 0) else Min(end, |s|)]
  }

  /** The history after `addHistory(result)`: `unshift`, then `slice(0, maxItems)`. */
  function PushHistory(history: seq<TranslationResult>, result: TranslationResult, maxItems: int): seq<TranslationResult> {
    SliceTo([result] + history, maxItems)
  }

  /** Newest first, capped at `maxItems`, the rest an order-preserving prefix of the old history. */
  lemma PushHistoryShape(history: seq<TranslationResult>, result: TranslationResult, maxItems: int)
    ensures var h := PushHistory(history, result, maxItems);
      && (maxItems >= 0 ==> |h| == Min(|history| + 1, maxItems))
      && (maxItems < 0 ==> |h| == Max(|history| + 1 + maxItems, 0))
      && (h != [] ==> h[0] == result && h[1..] <= history)
  {
    var h := PushHistory(history, result, maxItems);
    if h != [] {
      assert h[0] == ([result] + history)[0];
      assert h[1..] == ([result] + history)[1..|h|];
    }
  }

  /** The local area after `addHistory(result)`, using the stored configuration's cap. */
  function HistoryAdded(local: map<string, LocalValue>, sync: map<string, PartialConfig>,
                        result: TranslationResult): map<string, LocalValue> {
    local[HistoryKey := HistoryList(PushHistory(GetHistory(local), result, GetConfig(sync).maxHistoryItems))]
  }

  function Reversed<T>(s: seq<T>): (r: seq<T>)
    ensures |r| == |s|
  {
    if s == [] then [] else Reversed(s[1..]) + [s[0]]
  }

  /** Adding `results` one after another, oldest first. */
  function Replay(history: seq<TranslationResult>, results: seq<TranslationResult>, maxItems: int): seq<TranslationResult>
    decreases |results|
  {
    if results == [] then history
    else Replay(PushHistory(history, results[0], maxItems), results[1..], maxItems)
  }

  lemma PrefixOfShortenedTail<T>(a: seq<T>, b: seq<T>, m: nat, n: nat)
    requires m <= |b| && n <= |a| + m
    ensures (a + b[..m])[..n] == (a + b)[..n]
  {
    assert forall i | 0 <= i < n :: (a + b[..m])[i] == (a + b)[i];
  }

  /** A history that starts within the cap keeps exactly the most recent entries, newest first. */
  lemma {:induction false} ReplayKeepsMostRecent(history: seq<TranslationResult>, results: seq<TranslationResult>, maxItems: nat)
    requires |history| <= maxItems
    ensures Replay(history, results, maxItems)
            == (Reversed(results) + history)[..Min(|results| + |history|, maxItems)]
    decreases |results|
  {
    if results == [] {
      assert (Reversed(results) + history)[..|history|] == history;
    } else {
      var x, rest := results[0], results[1..];
      var pushed := PushHistory(history, x, maxItems);
      var m := Min(|history| + 1, maxItems);
      assert pushed == ([x] + history)[..m];
      ReplayKeepsMostRecent(pushed, rest, maxItems);
      assert Reversed(results) == Reversed(rest) + [x];
      assert Reversed(results) + history == Reversed(rest) + ([x] + history);
      PrefixOfShortenedTail(Reversed(rest), [x] + history, m, Min(|rest| + m, maxItems));
    }
  }

  /** Starting from an empty history, after any number of additions the cap holds and the newest come first. */
  lemma HistoryRetention(results: seq<TranslationResult>, maxItems: nat)
    ensures Replay([], results, maxItems) == Reversed(results)[..Min(|results|, maxItems)]
  {
    ReplayKeepsMostRecent([], results, maxItems);
    assert Reversed(results) + [] == Reversed(results);
  }

  /** `addHistory`; `write` is the local area's answer, and a rejection is returned as its message. */
  method AddHistory(local: LocalArea, sync: SyncArea, result: TranslationResult, write: WriteOutcome)
    returns (error: Option<string>)
    modifies local
    ensures error == if write.Accepted? then None else Some(write.message)
    ensures local.items == if write.Accepted? then HistoryAdded(old(local.items), sync.items, result)
                           else old(local.items)
  {
    var history := GetHistory(local.items);
    history := [result] + history;
    var config := GetConfig(sync.items);
    var trimmed := SliceTo(history, config.maxHistoryItems);
    if write.Rejected? {
      return Some(write.message);
    }
    local.items := local.items[HistoryKey := HistoryList(trimmed)];
    return None;
  }

  method ClearHistory(local: LocalArea)
    modifies local
    ensures local.items == old(local.items) - {HistoryKey}
  {
    local.items := local.items - {HistoryKey};
  }

  /** `clearHistory` followed by `getHistory` gives the empty list; cache entries are untouched. */
  lemma ClearHistoryThenGet(local: map<string, LocalValue>)
    ensures GetHistory(local - {HistoryKey}) == []
    ensures forall k :: CachePrefix <= k ==> (k in local - {HistoryKey} <==> k in local)
  {
    HistoryKeyIsNotCacheKey();
  }

  // ---------------------------------------------------------------------
  // Layout of the local area
  // ---------------------------------------------------------------------

  /** The local area holds cache items under prefixed keys (each knowing its own key) and the history list. */
  predicate LocalWellFormed(local: map<string, LocalValue>) {
    forall k | k in local ::
      if CachePrefix <= k then local[k].CachedItem? && local[k].item.key == k
      else k == HistoryKey && local[k].HistoryList?
  }

  lemma HistoryKeyIsNotCacheKey()
    ensures !(CachePrefix <= HistoryKey)
  {
    assert HistoryKey[0] != CachePrefix[0];
  }

  /** A cache write keeps the layout: the new item carries its own key. */
  lemma CacheSetKeepsLayout(local: map<string, LocalValue>, text: Text, targetLang: string,
                            result: TranslationResult, now: int)
    requires LocalWellFormed(local)
    ensures LocalWellFormed(CacheSet(local, text, targetLang, result, now))
  {
  }

  /** A cache read keeps the layout: it can only remove a key. */
  lemma CacheGetKeepsLayout(local: map<string, LocalValue>, text: Text, targetLang: string, now: int)
    requires LocalWellFormed(local)
    ensures LocalWellFormed(CacheGet(local, text, targetLang, now).items)
  {
  }

  lemma CacheClearKeepsLayout(local: map<string, LocalValue>)
    requires LocalWellFormed(local)
    ensures LocalWellFormed(CacheClear(local))
  {
  }

  /** A history addition keeps the layout: "history" is not a cache key. */
  lemma HistoryAddedKeepsLayout(local: map<string, LocalValue>, sync: map<string, PartialConfig>,
                                result: TranslationResult)
    requires LocalWellFormed(local)
    ensures LocalWellFormed(HistoryAdded(local, sync, result))
  {
    HistoryKeyIsNotCacheKey();
  }

  lemma HistoryRemovalKeepsLayout(local: map<string, LocalValue>)
    requires LocalWellFormed(local)
    ensures LocalWellFormed(local - {HistoryKey})
  {
  }

  /** In a well-formed area every prefixed key is a cache item, so a read never takes the odd branch. */
  lemma WellFormedReadsItems(local: map<string, LocalValue>, text: Text, targetLang: string)
    requires LocalWellFormed(local)
    requires CacheKey(text, targetLang) in local
    ensures local[CacheKey(text, targetLang)].CachedItem?
  {
  }

  /** `clear` removes no history. */
  lemma ClearKeepsHistory(local: map<string, LocalValue>)
    ensures GetHistory(CacheClear(local)) == GetHistory(local)
  {
    HistoryKeyIsNotCacheKey();
  }
}
