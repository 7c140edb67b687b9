/**
 * The part of zod's string schemas the forms use: length bounds, each
 * reported as an issue on the field's path with the schema's message.
 */
module Schema {

  /** A validation issue: the field path and its message. */
  datatype Issue = Issue(path: string, message: string)

  /** `z.string().min(n, { message })` on the field at `path`. */
  function MinLength(path: string, value: string, n: nat, message: string): (issues: seq<Issue>)
    ensures issues == [] <==> |value| >= n
    ensures issues != [] ==> issues == [Issue(path, message)]
  {
    if |value| < n then [Issue(path, message)] else []
  }

  /** The values of the login form: an email or username, and a password. */
  datatype Credentials = Credentials(identifier: string, password: string)
}
