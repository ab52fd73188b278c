/**
 * dictionaries/index.ts: the choice of the interface text table by locale.
 * The tables themselves are not part of this model; a Dictionary names
 * which one is chosen.
 */
module Dictionaries {
  datatype Dictionary = English | Spanish

  /** `getDictionary` (lines 7-16); the promise is written as its value. */
  function GetDictionary(locale: string): (d: Dictionary)
    ensures d == English <==> locale == "en"
  {
    if locale == "en" then English
    else if locale == "es" then Spanish
    else Spanish
  }

  /** `getDictionaryClient` (lines 19-28). */
  function GetDictionaryClient(locale: string): (d: Dictionary)
    ensures d == English <==> locale == "en"
  {
    if locale == "en" then English
    else if locale == "es" then Spanish
    else Spanish
  }

  /** The two selectors agree on every locale, and every locale but `en` gets Spanish. */
  lemma SelectorsAgree(locale: string)
    ensures GetDictionary(locale) == GetDictionaryClient(locale)
    ensures locale != "en" ==> GetDictionary(locale) == Spanish
  {
  }
}
