/**
 * lib/supabase.ts, `isAdmin`: the predicate that decides whether a
 * signed-in user is an administrator.
 */
module AdminRole {
  import opened Wrappers
  import opened Strings

  /** A property of the user object: absent (`undefined`/`null`), a string, or another value. */
  datatype Property = Missing | Text(s: string) | NonText

  datatype User = User(role: Property, email: Property)

  /** The truthiness of `isAdmin(user)`, or `Throws` when `endsWith` is called on a non-string. */
  datatype Verdict = Admin | NotAdmin | Throws

  /** Line 33: `user?.role === "admin" || user?.email?.endsWith("@admin.com")`. */
  function IsAdmin(user: Option<User>): (v: Verdict)
    ensures user.None? ==> v == NotAdmin
    ensures user.Some? && user.value.role == Text("admin") ==> v == Admin
    ensures v == Throws <==> user.Some? && user.value.role != Text("admin") && user.value.email == NonText
  {
    if user.None? then NotAdmin
    else if user.value.role == Text("admin") then Admin
    else match user.value.email
      case Missing => NotAdmin
      case NonText => Throws
      case Text(e) => if EndsWith(e, "@admin.com") then Admin else NotAdmin
  }

  /**
   * Exactly two kinds of user are administrators: role `admin`, whatever
   * the email, and an email ending in `@admin.com` (case-sensitive),
   * whatever the role.
   */
  lemma AdminExactly(user: Option<User>)
    ensures IsAdmin(user) == Admin <==>
      user.Some? && (user.value.role == Text("admin") || (user.value.email.Text? && EndsWith(user.value.email.s, "@admin.com")))
  {
  }

  /** The suffix test is case-sensitive: `@ADMIN.COM` does not make an administrator. */
  lemma SuffixIsCaseSensitive(local: string)
    ensures IsAdmin(Some(User(Missing, Text(local + "@ADMIN.COM")))) == NotAdmin
  {
    var e := local + "@ADMIN.COM";
    assert e[|e| - 10..] == "@ADMIN.COM";
    assert e[|e| - 10..][1] != "@admin.com"[1];
  }
}
