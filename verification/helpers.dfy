/** The pure helpers of the utilities file: time and level arithmetic, shuffling, lookups. */
module Helpers {
  import opened Text
  import opened Random
  import opened Types

  // ---------------------------------------------------------------------------
  // Time

  /** JavaScript's `a % b`: the remainder takes the sign of the dividend. */
  function JsRemainder(a: int, b: int): (r: int)
    requires 0 < b
    ensures a >= 0 ==> 0 <= r < b && a == b * (a / b) + r
    ensures a < 0 ==> -b < r <= 0 && -a == b * ((-a) / b) - r
  {
    if a >= 0 then a % b else -((-a) % b)
  }

  /** `formatTime`: whole minutes (`Math.floor`), a colon, the remaining seconds. */
  function FormatTime(seconds: int): (t: string)
    ensures seconds >= 0 ==> ClockShaped(t)
  {
    var minutes := seconds / 60;
    var remainingSeconds := JsRemainder(seconds, 60);
    ClockShapedFields(minutes, remainingSeconds);
    PadStart2(IntToString(minutes)) + ":" + PadStart2(IntToString(remainingSeconds))
  }

  /** Padded minutes and padded seconds below 60 make a clock reading. */
  lemma ClockShapedFields(minutes: int, remainingSeconds: int)
    ensures 0 <= minutes && 0 <= remainingSeconds < 60 ==>
              ClockShaped(PadStart2(IntToString(minutes)) + ":" + PadStart2(IntToString(remainingSeconds)))
  {
    if 0 <= minutes && 0 <= remainingSeconds < 60 {
      var mm := IntToString(minutes);
      var ss := IntToString(remainingSeconds);
      PadStart2Value(mm);
      PadStart2Value(ss);
      TwoDigitsAtMost(remainingSeconds);
      ClockFields(PadStart2(mm), PadStart2(ss));
    }
  }

  /** A number below 100 prints with at most two digits. */
  lemma TwoDigitsAtMost(n: int)
    requires 0 <= n < 100
    ensures |IntToString(n)| <= 2
  {
    if n >= 10 {
      assert |NatToString(n / 10)| == 1;
    }
  }

  /** A clock reading: at least two minute digits, a colon, two second digits. */
  predicate ClockShaped(t: string)
  {
    && 5 <= |t|
    && t[|t| - 3] == ':'
    && AllDigits(t[..|t| - 3])
    && AllDigits(t[|t| - 2..])
  }

  function MinutesField(t: string): nat
    requires ClockShaped(t)
  {
    DecimalValue(t[..|t| - 3])
  }

  function SecondsField(t: string): nat
    requires ClockShaped(t)
  {
    DecimalValue(t[|t| - 2..])
  }

  /** `PadStart2` keeps the value of a digit string. */
  lemma PadStart2Value(s: string)
    requires 1 <= |s| && AllDigits(s)
    ensures AllDigits(PadStart2(s))
    ensures DecimalValue(PadStart2(s)) == DecimalValue(s)
  {
    if |s| == 1 {
      DecimalValueLeadingZero(s);
    }
  }

  /** The two fields of `mm + ":" + ss` are `mm` and `ss`. */
  lemma ClockFields(mm: string, ss: string)
    requires 2 <= |mm| && AllDigits(mm) && |ss| == 2 && AllDigits(ss)
    ensures ClockShaped(mm + ":" + ss)
    ensures MinutesField(mm + ":" + ss) == DecimalValue(mm)
    ensures SecondsField(mm + ":" + ss) == DecimalValue(ss)
  {
    var t := mm + ":" + ss;
    assert t[..|t| - 3] == mm;
    assert t[|t| - 2..] == ss;
  }

  /** Reading the clock back gives the seconds it was made from, for every non-negative input. */
  lemma FormatTimeRoundTrip(seconds: nat)
    ensures ClockShaped(FormatTime(seconds))
    ensures SecondsField(FormatTime(seconds)) < 60
    ensures 60 * MinutesField(FormatTime(seconds)) + SecondsField(FormatTime(seconds)) == seconds
  {
    var m := seconds / 60;
    var r := seconds % 60;
    assert JsRemainder(seconds, 60) == r;
    var mm := PadStart2(IntToString(m));
    var ss := PadStart2(IntToString(r));
    assert FormatTime(seconds) == mm + ":" + ss;
    PadStart2Value(IntToString(m));
    PadStart2Value(IntToString(r));
    DecimalValueOfNatToString(m);
    DecimalValueOfNatToString(r);
    ClockFields(mm, ss);
  }

  /** Below 100 minutes the reading is exactly five characters, `MM:SS`. */
  lemma FormatTimeFiveChars(seconds: int)
    requires 0 <= seconds < 6000
    ensures |FormatTime(seconds)| == 5
    ensures FormatTime(seconds)[2] == ':'
  {
    assert seconds / 60 < 100;
  }

  // ---------------------------------------------------------------------------
  // Levels

  /** `calculateLevel`: one level per hundred experience points, starting at 1. */
  function CalculateLevel(xp: int): (level: int)
    ensures (level - 1) * 100 <= xp < level * 100
    ensures xp >= 0 ==> level >= 1
  {
    1 + xp / 100
  }

  /** `xpForNextLevel`: the experience at which `level + 1` is reached. */
  function XpForNextLevel(level: int): (xp: int)
    ensures CalculateLevel(xp) == level + 1
  {
    level * 100
  }

  /** The level of `xp` is the one whose threshold interval contains it. */
  lemma LevelBracket(xp: int)
    ensures XpForNextLevel(CalculateLevel(xp) - 1) <= xp < XpForNextLevel(CalculateLevel(xp))
  {
  }

  lemma CalculateLevelMonotone(a: int, b: int)
    requires a <= b
    ensures CalculateLevel(a) <= CalculateLevel(b)
  {
  }

  /**
   * `levelProgress` in exact arithmetic: the share of the current level's
   * hundred points already earned, as a whole percentage.
   */
  function LevelProgress(xp: int): (p: int)
    ensures 0 <= p < 100
    ensures p == xp - XpForNextLevel(CalculateLevel(xp) - 1)
    ensures p == xp % 100
  {
    var currentLevel := CalculateLevel(xp);
    var xpForCurrentLevel := (currentLevel - 1) * 100;
    var xpForNext := currentLevel * 100;
    var xpInCurrentLevel := xp - xpForCurrentLevel;
    var xpNeededForNextLevel := xpForNext - xpForCurrentLevel;
    (xpInCurrentLevel * 100) / xpNeededForNextLevel
  }

  // ---------------------------------------------------------------------------
  // Shuffling

  /**
   * `shuffleArray`: Fisher-Yates on a copy of the input. Swap `i` (from the
   * last index down to 1) with a drawn index `j <= i`.
   */
  method ShuffleArray<T>(xs: seq<T>, rand: Rand, pos: nat) returns (r: seq<T>, next: nat)
    ensures |r| == |xs|
    ensures multiset(r) == multiset(xs)
    ensures next == pos + (if |xs| == 0 then 0 else |xs| - 1)
  {
    var a := new T[|xs|](k requires 0 <= k < |xs| => xs[k]);
    assert a[..] == xs;
    var i := |xs| - 1;
    next := pos;
    while i > 0
      invariant a.Length == |xs|
      invariant -1 <= i < |xs|
      invariant |xs| > 0 ==> 0 <= i
      invariant multiset(a[..]) == multiset(xs)
      invariant next == pos + (|xs| - 1 - i)
    {
      var j := rand(next) % (i + 1);
      a[i], a[j] := a[j], a[i];
      i := i - 1;
      next := next + 1;
    }
    r := a[..];
  }

  // ---------------------------------------------------------------------------
  // Lookups

  /** The phrase tables of `translateText`, per language name. */
  const Translations: map<string, map<string, string>> :=
  map[
    "hindi" := map[
      "Correct!" := "सही!",
      "Wrong!" := "गलत!",
      "Try again" := "फिर से प्रयास करें",
      "Next" := "अगला",
      "Submit" := "जमा करें",
      "Start" := "शुरू करें",
      "Finish" := "समाप्त",
      "Score" := "अंक",
      "Time" := "समय",
      "Level" := "स्तर",
      "Easy" := "आसान",
      "Medium" := "मध्यम",
      "Hard" := "कठिन",
      "Math" := "गणित",
      "Quiz" := "प्रश्नोत्तरी",
      "Guess" := "अनुमान"
    ],
    "marathi" := map[
      "Correct!" := "बरोबर!",
      "Wrong!" := "चूक!",
      "Try again" := "पुन्हा प्रयत्न करा",
      "Next" := "पुढे",
      "Submit" := "सबमिट करा",
      "Start" := "सुरू करा",
      "Finish" := "समाप्त",
      "Score" := "गुण",
      "Time" := "वेळ",
      "Level" := "स्तर",
      "Easy" := "सोपे",
      "Medium" := "मध्यम",
      "Hard" := "कठीण",
      "Math" := "गणित",
      "Quiz" := "प्रश्नोत्तरी",
      "Guess" := "अंदाज"
    ],
    "tamil" := map[
      "Correct!" := "சரி!",
      "Wrong!" := "தவறு!",
      "Try again" := "மீண்டும் முயற்சிக்கவும்",
      "Next" := "அடுத்து",
      "Submit" := "சமர்ப்பிக்கவும்",
      "Start" := "தொடங்கு",
      "Finish" := "முடிக்க",
      "Score" := "மதிப்பெண்",
      "Time" := "நேரம்",
      "Level" := "நிலை",
      "Easy" := "எளிது",
      "Medium" := "நடுத்தரம்",
      "Hard" := "கடினம்",
      "Math" := "கணிதம்",
      "Quiz" := "வினாடி வினா",
      "Guess" := "ஊகிக்க"
    ],
    "bengali" := map[
      "Correct!" := "সঠিক!",
      "Wrong!" := "ভুল!",
      "Try again" := "আবার চেষ্টা করুন",
      "Next" := "পরবর্তী",
      "Submit" := "জমা দিন",
      "Start" := "শুরু করুন",
      "Finish" := "শেষ করুন",
      "Score" := "স্কোর",
      "Time" := "সময়",
      "Level" := "স্তর",
      "Easy" := "সহজ",
      "Medium" := "মাঝারি",
      "Hard" := "কঠিন",
      "Math" := "গণিত",
      "Quiz" := "কুইজ",
      "Guess" := "অনুমান"
    ]
  ]

  /** The phrases every translated language covers. */
  const Phrases: set<string> :=
    {"Correct!", "Wrong!", "Try again", "Next", "Submit", "Start", "Finish", "Score",
     "Time", "Level", "Easy", "Medium", "Hard", "Math", "Quiz", "Guess"}

  /**
   * `translateText`: English and unknown languages pass the text through; a
   * known language replaces a listed phrase and passes any other text through.
   */
  function TranslateText(text: string, language: string): (r: string)
    ensures language == "english" || language !in Translations ==> r == text
    ensures language in Translations && text !in Translations[language] ==> r == text
    ensures language != "english" && language in Translations && text in Translations[language]
            ==> r == Translations[language][text]
  {
    if language == "english" then text
    else if language !in Translations then text
    else
      var languageTranslations := Translations[language];
      if text in languageTranslations && languageTranslations[text] != "" then languageTranslations[text]
      else text
  }

  /** The four translated languages each cover exactly the sixteen phrases. */
  lemma TranslationTablesCoverPhrases()
    ensures Translations.Keys == {"hindi", "marathi", "tamil", "bengali"}
    ensures forall l :: l in Translations ==> Translations[l].Keys == Phrases
  {
  }

  /** Only the listed phrases are ever changed by a translation. */
  lemma TranslateOnlyChangesPhrases(text: string, language: string)
    ensures TranslateText(text, language) != text ==> text in Phrases && language in Translations
  {
    TranslationTablesCoverPhrases();
  }

  /** The speech-synthesis code of each language name of `getLanguageCode`. */
  const LanguageCodes: map<string, string> :=
    map["english" := "en-IN", "hindi" := "hi-IN", "marathi" := "mr-IN",
        "tamil" := "ta-IN", "bengali" := "bn-IN"]

  const Codes: set<string> := {"en-IN", "hi-IN", "mr-IN", "ta-IN", "bn-IN"}

  /** `getLanguageCode`: the table entry, or `en-IN` for any other input. */
  function GetLanguageCode(language: string): (code: string)
    ensures code in Codes
    ensures language !in LanguageCodes ==> code == "en-IN"
    ensures language in LanguageCodes ==> code == LanguageCodes[language]
  {
    if language in LanguageCodes && LanguageCodes[language] != "" then LanguageCodes[language] else "en-IN"
  }

  /** Every language of the profile has its own code; only English falls on `en-IN`. */
  lemma LanguageCodeOfEachLanguage(l: Language)
    ensures GetLanguageCode(l.Name()) == "en-IN" <==> l == English
    ensures forall m: Language :: m != l ==> GetLanguageCode(m.Name()) != GetLanguageCode(l.Name())
  {
  }
}
