/**
 * app/api/admin/verify-credentials/route.ts: the comparison of submitted
 * credentials with the configured administrator account.
 */
module Credentials {
  import opened Wrappers
  import opened Strings

  /** Lines 9-10: the account used when the variables are unset or empty. */
  const DefaultEmail: string := "admin@example.com"
  const DefaultPassword: string := "password123"

  /**
   * The request body: unreadable JSON or the `null` literal (both make line
   * 6 throw), or a value whose `username` and `password` are read (None for
   * a property that is absent or not a string).
   */
  datatype Body = Unparsable | NullJson | Submitted(username: Option<string>, password: Option<string>)

  datatype Env = Env(adminEmail: Option<string>, adminPassword: Option<string>)

  datatype Response = Response(status: nat, success: bool)

  function ExpectedEmail(env: Env): string {
    OrElse(env.adminEmail, DefaultEmail)
  }

  function ExpectedPassword(env: Env): string {
    OrElse(env.adminPassword, DefaultPassword)
  }

  /** Lines 4-21. */
  function Verify(body: Body, env: Env): (r: Response)
    ensures body.Submitted? ==> r.status == 200
    ensures !body.Submitted? ==> r == Response(500, false)
    ensures r.success <==> body.Submitted? && body.username == Some(ExpectedEmail(env)) && body.password == Some(ExpectedPassword(env))
  {
    match body
    case Unparsable => Response(500, false)
    case NullJson => Response(500, false)
    case Submitted(username, password) =>
      Response(200, username == Some(ExpectedEmail(env)) && password == Some(ExpectedPassword(env)))
  }

  /** With the variables unset or empty, only `admin@example.com` / `password123` succeeds. */
  lemma DefaultAccount(env: Env, username: string, password: string)
    requires !Truthy(env.adminEmail) && !Truthy(env.adminPassword)
    ensures Verify(Submitted(Some(username), Some(password)), env).success <==>
      username == DefaultEmail && password == DefaultPassword
  {
  }

  /** A configured account replaces the default: the default password no longer works. */
  lemma ConfiguredAccountReplacesDefault(env: Env, username: string)
    requires Truthy(env.adminPassword) && env.adminPassword.value != DefaultPassword
    ensures !Verify(Submitted(Some(username), Some(DefaultPassword)), env).success
  {
  }
}
