/** `CacheManager` (src/utils/cache.ts): translations kept in the local
    storage area under `translation_cache_<targetLang>_<hash>` keys, each
    valid for seven days from the moment it was written and evicted
    lazily when a read finds it expired. */
module Cache {
  import opened Types
  import opened Platform

  const CachePrefix: string := "translation_cache_"

  /** Seven days in milliseconds. */
  const CacheExpiry: int := 7 * 24 * 60 * 60 * 1000

  // ---------------------------------------------------------------------
  // 32-bit arithmetic of the hash
  // ---------------------------------------------------------------------

  const TwoTo31: int := 0x8000_0000
  const TwoTo32: int := 0x1_0000_0000

  predicate IsInt32(x: int) {
    -TwoTo31 <= x < TwoTo31
  }

  /** ECMAScript ToInt32: keep the low 32 bits and read them as two's complement. */
  function ToInt32(x: int): (r: int)
    ensures IsInt32(r)
    ensures IsInt32(x) ==> r == x
  {
    (x + TwoTo31) % TwoTo32 - TwoTo31
  }

  lemma ToInt32Periodic(x: int, k: int)
    ensures ToInt32(x + TwoTo32 * k) == ToInt32(x)
  {
    var a := x + TwoTo31;
    var q, r := a / TwoTo32, a % TwoTo32;
    assert a == TwoTo32 * q + r && 0 <= r < TwoTo32;
    assert a + TwoTo32 * k == TwoTo32 * (q + k) + r;
    assert (a + TwoTo32 * k) % TwoTo32 == r;
  }

  /** One iteration of the loop exactly as written:
      `hash = ((hash << 5) - hash) + char` followed by `hash = hash & hash`.
      `<<` and `&` both convert their operands with ToInt32; the subtraction
      and addition in between are exact in double precision. */
  function HashStepAsWritten(h: int, c: CodeUnit): int {
    var shifted := ToInt32(ToInt32(h) * 32);
    var sum := (shifted - h) + c;
    ToInt32(sum)
  }

  /** The same step as the 31-polynomial it computes. */
  function HashStep(h: int, c: CodeUnit): (r: int)
    ensures IsInt32(r)
  {
    ToInt32(31 * h + c)
  }

  /** The shift-and-subtract step is multiplication by 31 modulo 2^32. */
  lemma HashStepIsPolynomial(h: int, c: CodeUnit)
    requires IsInt32(h)
    ensures HashStepAsWritten(h, c) == HashStep(h, c)
  {
    var a := h * 32 + TwoTo31;
    var q := a / TwoTo32;
    assert a == TwoTo32 * q + a % TwoTo32;
    assert ToInt32(h * 32) == h * 32 - TwoTo32 * q;
    assert (ToInt32(h * 32) - h) + c == (31 * h + c) + TwoTo32 * (-q);
    ToInt32Periodic(31 * h + c, -q);
  }

  /** The hash state after folding the step over `s`, starting from 0. */
  function HashFold(s: Text): (h: int)
    ensures IsInt32(h)
  {
    if s == [] then 0 else HashStep(HashFold(s[..|s| - 1]), s[|s| - 1])
  }

  function Abs(x: int): nat {
    if x < 0 then -x else x
  }

  // ---------------------------------------------------------------------
  // Number.prototype.toString(36) on a non-negative integer
  // ---------------------------------------------------------------------

  const Base36Digits: string := "0123456789abcdefghijklmnopqrstuvwxyz"

  predicate IsBase36Digit(c: char) {
    '0' <= c <= '9' || 'a' <= c <= 'z'
  }

  function Base36(n: nat): (s: string)
    ensures |s| >= 1
    ensures forall i | 0 <= i < |s| :: IsBase36Digit(s[i])
    ensures s[0] == '0' <==> n == 0
  {
    if n < 36 then [Base36Digits[n]] else Base36(n / 36) + [Base36Digits[n % 36]]
  }

  function DigitValue(c: char): nat {
    if '0' <= c <= '9' then c as int - '0' as int
    else if 'a' <= c <= 'z' then c as int - 'a' as int + 10
    else 0
  }

  /** Reads a base-36 numeral back, most significant digit first. */
  function FromBase36(s: string): nat {
    if s == [] then 0 else FromBase36(s[..|s| - 1]) * 36 + DigitValue(s[|s| - 1])
  }

  lemma DigitRoundTrip(d: nat)
    requires d < 36
    ensures DigitValue(Base36Digits[d]) == d
  {
  }

  lemma {:induction false} Base36RoundTrip(n: nat)
    ensures FromBase36(Base36(n)) == n
  {
    if n < 36 {
      DigitRoundTrip(n);
    } else {
      var s := Base36(n);
      assert s[..|s| - 1] == Base36(n / 36);
      Base36RoundTrip(n / 36);
      DigitRoundTrip(n % 36);
    }
  }

  /** `hashCode(str)`: base 36 of the absolute value of the folded hash,
      so no minus sign and no `_` ever appears in it. */
  function HashString(s: Text): (h: string)
    ensures |h| >= 1
    ensures forall i | 0 <= i < |h| :: IsBase36Digit(h[i])
    ensures '-' !in h && '_' !in h
    ensures |h| > 1 ==> h[0] != '0'
    ensures FromBase36(h) == Abs(HashFold(s))
  {
    var n := Abs(HashFold(s));
    Base36RoundTrip(n);
    Base36(n)
  }

  /** The loop of `hashCode`, step by step, with the shift written as in the source. */
  method HashCode(str: Text) returns (hash36: string)
    ensures hash36 == HashString(str)
  {
    var hash := 0;
    var i := 0;
    while i < |str|
      invariant 0 <= i <= |str|
      invariant hash == HashFold(str[..i])
    {
      var unit := str[i];
      HashStepIsPolynomial(hash, unit);
      assert str[..i + 1][..i] == str[..i];
      hash := HashStepAsWritten(hash, unit);
      i := i + 1;
    }
    assert str[..|str|] == str;
    hash36 := Base36(Abs(hash));
  }

  // ---------------------------------------------------------------------
  // Keys
  // ---------------------------------------------------------------------

  /** `getCacheKey`: the namespaced key of a (text, target language) pair. */
  function CacheKey(text: Text, targetLang: string): (key: string)
    ensures CachePrefix <= key
    ensures |key| == |CachePrefix| + |targetLang| + 1 + |HashString(text)|
  {
    CachePrefix + targetLang + "_" + HashString(text)
  }

  /** Index of the last occurrence of `c` in `s`, or -1. */
  function LastIndexOf(s: string, c: char): int {
    if s == [] then -1
    else if s[|s| - 1] == c then |s| - 1
    else LastIndexOf(s[..|s| - 1], c)
  }

  lemma {:induction false} LastIndexPastSeparator(a: string, c: char, h: string)
    requires c !in h
    ensures LastIndexOf(a + [c] + h, c) == |a|
  {
    var s := a + [c] + h;
    if h == [] {
      assert s[|s| - 1] == c;
    } else {
      assert s[|s| - 1] == h[|h| - 1];
      assert s[..|s| - 1] == a + [c] + h[..|h| - 1];
      LastIndexPastSeparator(a, c, h[..|h| - 1]);
    }
  }

  /** Two strings that split around their last separator split the same way. */
  lemma SplitAtLastSeparator(a1: string, h1: string, a2: string, h2: string, c: char)
    requires c !in h1 && c !in h2
    requires a1 + [c] + h1 == a2 + [c] + h2
    ensures a1 == a2 && h1 == h2
  {
    var k := a1 + [c] + h1;
    LastIndexPastSeparator(a1, c, h1);
    LastIndexPastSeparator(a2, c, h2);
    assert a1 == k[..|a1|];
    assert a2 == k[..|a2|];
    assert h1 == k[|a1| + 1..];
    assert h2 == k[|a2| + 1..];
  }

  /** The hash part contains no `_`, so a key determines the target language and the hash. */
  lemma CacheKeyInjective(t1: Text, l1: string, t2: Text, l2: string)
    requires CacheKey(t1, l1) == CacheKey(t2, l2)
    ensures l1 == l2 && HashString(t1) == HashString(t2)
  {
    var h1, h2 := HashString(t1), HashString(t2);
    assert CacheKey(t1, l1) == (CachePrefix + l1) + ['_'] + h1;
    assert CacheKey(t2, l2) == (CachePrefix + l2) + ['_'] + h2;
    SplitAtLastSeparator(CachePrefix + l1, h1, CachePrefix + l2, h2, '_');
    assert l1 == (CachePrefix + l1)[|CachePrefix|..];
    assert l2 == (CachePrefix + l2)[|CachePrefix|..];
  }

  /** The method form of `getCacheKey`, hashing with the loop. */
  method Key(text: Text, targetLang: string) returns (key: string)
    ensures key == CacheKey(text, targetLang)
  {
    var hash36 := HashCode(text);
    key := CachePrefix + targetLang + "_" + hash36;
  }

  // ---------------------------------------------------------------------
  // The storage operations on values
  // ---------------------------------------------------------------------

  /** What a read returns and the storage it leaves behind. */
  datatype CacheRead = CacheRead(result: Option<TranslationResult>, items: map<string, LocalValue>)

  /** `get` on one key at instant `now`. */
  function Lookup(items: map<string, LocalValue>, key: string, now: int): (r: CacheRead)
    // absent: a miss, storage untouched
    ensures key !in items ==> r == CacheRead(None, items)
    // expired (strictly after the expiry instant): that key alone is removed
    ensures key in items && items[key].CachedItem? && now > items[key].item.expiry ==>
              r == CacheRead(None, items - {key})
    // live (up to and including the expiry instant): the stored result, storage untouched
    ensures key in items && items[key].CachedItem? && now <= items[key].item.expiry ==>
              r == CacheRead(Some(items[key].item.result), items)
    // a value that is not a cache item reads as a miss
    ensures key in items && !items[key].CachedItem? ==> r == CacheRead(None, items)
    ensures r.items.Keys <= items.Keys
  {
    if key !in items then CacheRead(None, items)
    else match items[key]
      case HistoryList(_) => CacheRead(None, items)
      case CachedItem(item) =>
        if now > item.expiry then CacheRead(None, items - {key})
        else CacheRead(Some(item.result), items)
  }

  function CacheGet(items: map<string, LocalValue>, text: Text, targetLang: string, now: int): CacheRead {
    Lookup(items, CacheKey(text, targetLang), now)
  }

  /** `set`: (over)writes its own key with a fresh seven-day expiry; every other key is untouched. */
  function CacheSet(items: map<string, LocalValue>, text: Text, targetLang: string,
                    result: TranslationResult, now: int): (r: map<string, LocalValue>)
    ensures var key := CacheKey(text, targetLang);
      key in r && r[key] == CachedItem(CacheItem(key, result, now + CacheExpiry))
    ensures forall k :: k != CacheKey(text, targetLang) ==> (k in r <==> k in items)
    ensures forall k :: k in items && k != CacheKey(text, targetLang) ==> r[k] == items[k]
  {
    var key := CacheKey(text, targetLang);
    items[key := CachedItem(CacheItem(key, result, now + CacheExpiry))]
  }

  /** `clear`: exactly the keys that start with the prefix are removed. */
  function CacheClear(items: map<string, LocalValue>): (r: map<string, LocalValue>)
    ensures forall k :: k in r <==> k in items && !(CachePrefix <= k)
    ensures forall k :: k in r ==> r[k] == items[k]
  {
    map k | k in items && !(CachePrefix <= k) :: items[k]
  }

  // ---------------------------------------------------------------------
  // Properties
  // ---------------------------------------------------------------------

  /** Round trip: a read no later than the TTL after a write returns what was written, and changes nothing. */
  lemma SetThenGet(items: map<string, LocalValue>, text: Text, targetLang: string,
                   result: TranslationResult, written: int, now: int)
    requires now <= written + CacheExpiry
    ensures var stored := CacheSet(items, text, targetLang, result, written);
      CacheGet(stored, text, targetLang, now) == CacheRead(Some(result), stored)
  {
  }

  /** Past the TTL the entry is evicted by the read, and the next read is a plain miss. */
  lemma ExpiredGetEvicts(items: map<string, LocalValue>, text: Text, targetLang: string,
                         result: TranslationResult, written: int, now: int, later: int)
    requires now > written + CacheExpiry
    ensures var stored := CacheSet(items, text, targetLang, result, written);
      var first := CacheGet(stored, text, targetLang, now);
      && first == CacheRead(None, stored - {CacheKey(text, targetLang)})
      && CacheGet(first.items, text, targetLang, later) == CacheRead(None, first.items)
  {
  }

  /** At a fixed instant a second read sees exactly what the first one saw and changes nothing more. */
  lemma GetIdempotent(items: map<string, LocalValue>, text: Text, targetLang: string, now: int)
    ensures var first := CacheGet(items, text, targetLang, now);
      CacheGet(first.items, text, targetLang, now) == CacheRead(first.result, first.items)
  {
  }

  /** After `clear`, every cache read is a miss. */
  lemma ClearThenGet(items: map<string, LocalValue>, text: Text, targetLang: string, now: int)
    ensures var cleared := CacheClear(items);
      CacheGet(cleared, text, targetLang, now) == CacheRead(None, cleared)
  {
    assert CacheKey(text, targetLang) !in CacheClear(items);
  }

  /** The hash is not collision-free: "Aa" and "BB" (code units 65 97 and 66 66) share a key. */
  lemma HashCollision(targetLang: string)
    ensures HashString([65, 97]) == HashString([66, 66])
    ensures CacheKey([65, 97], targetLang) == CacheKey([66, 66], targetLang)
  {
    assert [65, 97][..1] == [65];
    assert [66, 66][..1] == [66];
    assert HashFold([65, 97]) == 2112;
    assert HashFold([66, 66]) == 2112;
  }

  /** So a read for "BB" returns the translation that was stored for "Aa". */
  lemma CollidingTextsShareEntries(items: map<string, LocalValue>, targetLang: string,
                                   result: TranslationResult, now: int)
    ensures var stored := CacheSet(items, [65, 97], targetLang, result, now);
      CacheGet(stored, [66, 66], targetLang, now).result == Some(result)
  {
    HashCollision(targetLang);
  }

  // ---------------------------------------------------------------------
  // The methods, in place on the local storage area
  // ---------------------------------------------------------------------

  method Get(area: LocalArea, text: Text, targetLang: string, now: int) returns (cached: Option<TranslationResult>)
    modifies area
    ensures CacheRead(cached, area.items) == CacheGet(old(area.items), text, targetLang, now)
  {
    var key := Key(text, targetLang);
    if key !in area.items {
      return None;
    }
    var stored := area.items[key];
    if !stored.CachedItem? {
      // not a cache item: `expiry` and `result` read as undefined
      return None;
    }
    if now > stored.item.expiry {
      area.items := area.items - {key};
      return None;
    }
    return Some(stored.item.result);
  }

  /** `set`; `write` is the storage area's answer, and `written` is false when it rejected the write. */
  method Set(area: LocalArea, text: Text, targetLang: string, result: TranslationResult,
             now: int, write: WriteOutcome) returns (written: bool)
    modifies area
    ensures written == write.Accepted?
    ensures area.items == if written then CacheSet(old(area.items), text, targetLang, result, now)
                          else old(area.items)
  {
    var key := Key(text, targetLang);
    var cacheItem := CacheItem(key, result, now + CacheExpiry);
    if write.Rejected? {
      return false;
    }
    area.items := area.items[key := CachedItem(cacheItem)];
    written := true;
  }

  method Clear(area: LocalArea)
    modifies area
    ensures area.items == CacheClear(old(area.items))
  {
    var all := area.items;
    var cacheKeys := set key | key in all && CachePrefix <= key;
    area.items := all - cacheKeys;
  }
}
