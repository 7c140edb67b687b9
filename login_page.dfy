/**
 * The login page (src/app/login/page.tsx): its form schema, the
 * email/username toggle with the label and input type it selects, the
 * password-visibility toggle, and the submit handler.
 */
module LoginPage {
  import opened Schema

  const IdentifierMessage: string := "Please enter a username or email."
  const PasswordMessage: string := "Password must be at least 6 characters."

  /** `formSchema`: a non-empty identifier and a password of at least six characters. */
  function FormSchemaIssues(c: Credentials): (issues: seq<Issue>)
    ensures issues == [] <==> |c.identifier| >= 1 && |c.password| >= 6
    ensures |c.identifier| == 0 ==> Issue("identifier", IdentifierMessage) in issues
    ensures |c.password| < 6 ==> Issue("password", PasswordMessage) in issues
  {
    MinLength("identifier", c.identifier, 1, IdentifierMessage) +
    MinLength("password", c.password, 6, PasswordMessage)
  }

  /** The identifier field's label. */
  function IdentifierLabel(isEmail: bool): (caption: string)
    ensures caption == "Email" <==> isEmail
    ensures !isEmail ==> caption == "Username"
  {
    if isEmail then "Email" else "Username"
  }

  /** The identifier input's `type`. */
  function IdentifierInputType(isEmail: bool): (t: string)
    ensures t == "email" <==> isEmail
    ensures !isEmail ==> t == "text"
  {
    if isEmail then "email" else "text"
  }

  /** The password input's `type`: shown as text only when `showPassword`. */
  function PasswordInputType(showPassword: bool): (t: string)
    ensures t == "text" <==> showPassword
    ensures !showPassword ==> t == "password"
  {
    if showPassword then "text" else "password"
  }

  /** The outcome of the page's own login request (a parsed body, or an exception). */
  datatype SubmitOutcome = Parsed | Threw

  /**
   * `onSubmit`: posts the form values as they are — under `identifier`, not
   * under `email` or `username`. A parsed body is only logged and an
   * exception is caught and logged, so `outcome` has no effect: every
   * outcome completes with the page unchanged and no token stored. Returns
   * the JSON body sent.
   */
  function OnSubmit(c: Credentials, outcome: SubmitOutcome): (body: map<string, string>)
    ensures body.Keys == {"identifier", "password"}
    ensures body["identifier"] == c.identifier && body["password"] == c.password
  {
    map["identifier" := c.identifier, "password" := c.password]
  }

  /** The page's `useState` hooks. */
  class LoginView {
    var showPassword: bool
    var isEmail: bool

    /** The page on mount: password hidden, email mode. */
    constructor ()
      ensures !showPassword && isEmail
    {
      showPassword := false;
      isEmail := true;
    }

    /** The "Use Username"/"Use Email" button: `setIsEmail(!isEmail)`. */
    method ToggleIdentifierKind()
      modifies this
      ensures isEmail == !old(isEmail) && showPassword == old(showPassword)
    {
      isEmail := !isEmail;
    }

    /** The "Show"/"Hide" button: `setShowPassword(!showPassword)`. */
    method TogglePasswordVisibility()
      modifies this
      ensures showPassword == !old(showPassword) && isEmail == old(isEmail)
    {
      showPassword := !showPassword;
    }
  }

  /** Pressing the identifier toggle twice gives back the mode and the label the page had. */
  method ToggleTwiceRestores(view: LoginView)
    modifies view
    ensures view.isEmail == old(view.isEmail)
    ensures IdentifierLabel(view.isEmail) == old(IdentifierLabel(view.isEmail))
  {
    view.ToggleIdentifierKind();
    view.ToggleIdentifierKind();
  }
}
