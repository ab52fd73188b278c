/**
 * components/language-switcher.tsx, `switchToLocale`: the path the router
 * is sent to when the user picks a language. None stands for returning
 * without navigating.
 */
module LanguageSwitcher {
  import opened Wrappers
  import opened Strings

  /** Lines 25-33. */
  function SwitchToLocale(pathName: string, currentLocale: string, newLocale: string): (r: Option<string>)
    ensures r.None? <==> newLocale == currentLocale
    ensures r.Some? ==> StartsWith(r.value, "/" + newLocale)
  {
    if newLocale == currentLocale then None
    else Some("/" + newLocale + ReplaceFirst(pathName, "/" + currentLocale, ""))
  }

  /**
   * The new path is `/` and the new locale, then the old path with the
   * first occurrence of `/` and the current locale cut out, wherever it
   * is; without an occurrence the old path is kept whole.
   */
  lemma RemovesFirstOccurrence(pathName: string, currentLocale: string, newLocale: string)
    requires newLocale != currentLocale
    ensures var pat := "/" + currentLocale;
      match IndexOf(pathName, pat)
      case None => SwitchToLocale(pathName, currentLocale, newLocale) == Some("/" + newLocale + pathName)
      case Some(i) =>
        && (forall j: nat :: j < i ==> !OccursAt(pathName, pat, j))
        && SwitchToLocale(pathName, currentLocale, newLocale) == Some("/" + newLocale + pathName[..i] + pathName[i + |pat|..])
  {
    var pat := "/" + currentLocale;
    match IndexOf(pathName, pat)
    case None =>
    case Some(i) =>
      assert "/" + newLocale + (pathName[..i] + "" + pathName[i + |pat|..]) == "/" + newLocale + pathName[..i] + pathName[i + |pat|..];
  }

  /** On a path that starts with the current locale, the locale segment is swapped. */
  lemma SwapsLeadingLocale(rest: string, a: string, b: string)
    requires a != b
    ensures SwitchToLocale("/" + a + rest, a, b) == Some("/" + b + rest)
  {
    var path := "/" + a + rest;
    assert StartsWith(path, "/" + a);
    ReplaceFirstOfPrefix(path, "/" + a, "");
    assert path[|"/" + a|..] == rest;
    assert ReplaceFirst(path, "/" + a, "") == rest;
  }

  /** Switching A to B and back restores a path that begins with `/A`. */
  lemma SwitchBackRestores(pathName: string, a: string, b: string)
    requires a != b && StartsWith(pathName, "/" + a)
    ensures var there := SwitchToLocale(pathName, a, b);
      there.Some? && SwitchToLocale(there.value, b, a) == Some(pathName)
  {
    var rest := pathName[|"/" + a|..];
    assert pathName == "/" + a + rest;
    SwapsLeadingLocale(rest, a, b);
    SwapsLeadingLocale(rest, b, a);
  }
}
