/**
 * The server action (src/lib/actions.ts): its form schema and the
 * credentials payload `authenticate` builds for the sign-in call.
 */
module Actions {
  import opened Schema
  import LoginPage

  /** `formSchema`: a non-empty identifier and a password of at least six characters. */
  function FormSchemaIssues(c: Credentials): (issues: seq<Issue>)
    ensures issues == [] <==> |c.identifier| >= 1 && |c.password| >= 6
  {
    MinLength("identifier", c.identifier, 1, "Please enter a username or email.") +
    MinLength("password", c.password, 6, "Password must be at least 6 characters.")
  }

  /** The action's schema reports exactly what the login page's schema reports. */
  lemma SameSchemaAsLoginPage(c: Credentials)
    ensures FormSchemaIssues(c) == LoginPage.FormSchemaIssues(c)
  {
  }

  /** The payload key chosen by `isEmail`. */
  function IdentifierKey(isEmail: bool): (k: string)
    ensures k == "email" <==> isEmail
    ensures !isEmail ==> k == "username"
  {
    if isEmail then "email" else "username"
  }

  /** The payload `authenticate` passes to the sign-in call: the identifier under the chosen key, and the password. */
  function AuthenticatePayload(c: Credentials, isEmail: bool): (payload: map<string, string>)
    ensures payload.Keys == {IdentifierKey(isEmail), "password"} && |payload| == 2
    ensures payload[IdentifierKey(isEmail)] == c.identifier
    ensures payload["password"] == c.password
    ensures isEmail ==> "username" !in payload
    ensures !isEmail ==> "email" !in payload
  {
    map[IdentifierKey(isEmail) := c.identifier, "password" := c.password]
  }
}
