/** `LanguageDetector` (src/utils/language.ts): a script classifier that
    tests the text for code units in four ranges, in a fixed priority
    order, and the rule that picks a target language from a source. */
module Language {
  import opened Types

  /** The regular-expression test `/[\uLO-\uHI]/.test(s)`: some code unit lies in the range. */
  predicate HasUnitIn(s: Text, lo: int, hi: int) {
    exists i | 0 <= i < |s| :: lo <= s[i] <= hi
  }

  predicate HasHan(s: Text) { HasUnitIn(s, 0x4E00, 0x9FA5) }
  /** Hiragana U+3040-U+309F and katakana U+30A0-U+30FF, one contiguous range. */
  predicate HasKana(s: Text) { HasUnitIn(s, 0x3040, 0x30FF) }
  predicate HasHangul(s: Text) { HasUnitIn(s, 0xAC00, 0xD7AF) }
  predicate HasCyrillic(s: Text) { HasUnitIn(s, 0x0400, 0x04FF) }

  /** `detect`: Han wins over kana, kana over hangul, hangul over Cyrillic, and anything else is English. */
  function Detect(text: Text): (lang: SupportedLanguage)
    ensures lang in {Zh, Ja, Ko, Ru, En}
    ensures lang != Auto
    ensures lang == Zh <==> HasHan(text)
    ensures lang == Ja <==> !HasHan(text) && HasKana(text)
    ensures lang == Ko <==> !HasHan(text) && !HasKana(text) && HasHangul(text)
    ensures lang == Ru <==> !HasHan(text) && !HasKana(text) && !HasHangul(text) && HasCyrillic(text)
    ensures lang == En <==> !HasHan(text) && !HasKana(text) && !HasHangul(text) && !HasCyrillic(text)
  {
    if HasHan(text) then Zh
    else if HasKana(text) then Ja
    else if HasHangul(text) then Ko
    else if HasCyrillic(text) then Ru
    else En
  }

  /** `getTargetLanguage`: Chinese goes to English, everything else to the default ("zh" when none is given). */
  function GetTargetLanguage(sourceLang: SupportedLanguage, defaultTarget: Option<string>): (target: string)
    ensures sourceLang == Zh ==> target == "en"
    ensures sourceLang != Zh ==> target == GetOr(defaultTarget, "zh")
  {
    if sourceLang == Zh then "en" else GetOr(defaultTarget, "zh")
  }

  // ---------------------------------------------------------------------
  // An independent reference definition: classify each code unit on its
  // own and keep the highest-priority answer.
  // ---------------------------------------------------------------------

  /** Priority of a detector answer; higher wins. */
  function Rank(l: SupportedLanguage): nat {
    match l
    case Zh => 4
    case Ja => 3
    case Ko => 2
    case Ru => 1
    case _ => 0
  }

  function Higher(a: SupportedLanguage, b: SupportedLanguage): SupportedLanguage {
    if Rank(a) >= Rank(b) then a else b
  }

  function Classify(c: CodeUnit): SupportedLanguage {
    if 0x4E00 <= c <= 0x9FA5 then Zh
    else if 0x3040 <= c <= 0x30FF then Ja
    else if 0xAC00 <= c <= 0xD7AF then Ko
    else if 0x0400 <= c <= 0x04FF then Ru
    else En
  }

  function DetectByScan(s: Text): SupportedLanguage {
    if s == [] then En else Higher(Classify(s[0]), DetectByScan(s[1..]))
  }

  lemma HasUnitInConcat(a: Text, b: Text, lo: int, hi: int)
    ensures HasUnitIn(a + b, lo, hi) <==> HasUnitIn(a, lo, hi) || HasUnitIn(b, lo, hi)
  {
    if HasUnitIn(a + b, lo, hi) {
      var i :| 0 <= i < |a + b| && lo <= (a + b)[i] <= hi;
      if i < |a| { assert a[i] == (a + b)[i]; } else { assert b[i - |a|] == (a + b)[i]; }
    }
    if HasUnitIn(b, lo, hi) {
      var j :| 0 <= j < |b| && lo <= b[j] <= hi;
      assert (a + b)[|a| + j] == b[j];
    }
    if HasUnitIn(a, lo, hi) {
      var j :| 0 <= j < |a| && lo <= a[j] <= hi;
      assert (a + b)[j] == a[j];
    }
  }

  /** Detecting a concatenation gives the higher-priority of the two parts' answers. */
  lemma DetectConcat(a: Text, b: Text)
    ensures Detect(a + b) == Higher(Detect(a), Detect(b))
  {
    HasUnitInConcat(a, b, 0x4E00, 0x9FA5);
    HasUnitInConcat(a, b, 0x3040, 0x30FF);
    HasUnitInConcat(a, b, 0xAC00, 0xD7AF);
    HasUnitInConcat(a, b, 0x0400, 0x04FF);
  }

  /** A single Han code unit anywhere decides the answer, whatever else the text contains. */
  lemma HanDominates(a: Text, b: Text)
    requires Detect(a) == Zh
    ensures Detect(a + b) == Zh && Detect(b + a) == Zh
  {
    DetectConcat(a, b);
    DetectConcat(b, a);
  }

  /** The empty string is English. */
  lemma DetectEmpty()
    ensures Detect([]) == En
  {
    assert !HasUnitIn([], 0, 0x1_0000);
  }

  /** The ordered range tests agree with the per-code-unit scan. */
  lemma {:induction false} DetectIsScan(s: Text)
    ensures Detect(s) == DetectByScan(s)
  {
    if s == [] {
      DetectEmpty();
    } else {
      DetectIsScan(s[1..]);
      DetectConcat([s[0]], s[1..]);
      assert [s[0]] + s[1..] == s;
      assert HasUnitIn([s[0]], 0x4E00, 0x9FA5) <==> 0x4E00 <= s[0] <= 0x9FA5;
      assert HasUnitIn([s[0]], 0x3040, 0x30FF) <==> 0x3040 <= s[0] <= 0x30FF;
      assert HasUnitIn([s[0]], 0xAC00, 0xD7AF) <==> 0xAC00 <= s[0] <= 0xD7AF;
      assert HasUnitIn([s[0]], 0x0400, 0x04FF) <==> 0x0400 <= s[0] <= 0x04FF;
    }
  }

  /** With the default target, the chosen target never equals the detected source language. */
  lemma TargetDiffersFromSource(text: Text)
    ensures GetTargetLanguage(Detect(text), None) != Detect(text).Code()
  {
  }
}
