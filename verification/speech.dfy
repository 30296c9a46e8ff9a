/** The speech utilities' own language-code table (its browser calls are not modelled). */
module Speech {
  import Helpers

  /** `getLanguageCode` of the speech utilities: the table entry, or `en-IN`. */
  function GetLanguageCode(language: string): (code: string)
    ensures language == "english" ==> code == "en-IN"
    ensures language == "hindi" ==> code == "hi-IN"
    ensures language == "marathi" ==> code == "mr-IN"
    ensures language == "tamil" ==> code == "ta-IN"
    ensures language == "bengali" ==> code == "bn-IN"
    ensures language !in {"english", "hindi", "marathi", "tamil", "bengali"} ==> code == "en-IN"
  {
    var languageCodes := map[
      "english" := "en-IN",
      "hindi" := "hi-IN",
      "marathi" := "mr-IN",
      "tamil" := "ta-IN",
      "bengali" := "bn-IN"
    ];
    if language in languageCodes && languageCodes[language] != "" then languageCodes[language] else "en-IN"
  }

  /** The result is always one of the five codes. */
  lemma CodeIsOneOfFive(language: string)
    ensures GetLanguageCode(language) in {"en-IN", "hi-IN", "mr-IN", "ta-IN", "bn-IN"}
  {
  }

  /** The two copies of the table agree on every input. */
  lemma AgreesWithHelpers(language: string)
    ensures GetLanguageCode(language) == Helpers.GetLanguageCode(language)
  {
  }
}
