/**
 * The signup page (src/app/signup/page.tsx): its form schema with the
 * password-match refinement, the FormData the submit handler builds, and the
 * handler's loading flag and notifications. The register request's outcome
 * is a parameter.
 */
module SignupPage {
  import opened Js
  import opened Schema

  /** A selected file. */
  datatype File = File(name: string)

  /** The validated form values; a file field is the input's `FileList`, or `undefined` when never set. */
  datatype SignupValues = SignupValues(
    username: string,
    email: string,
    password: string,
    confirmPassword: string,
    fullName: string,
    avatar: Option<seq<File>>,
    coverImage: Option<seq<File>>)

  const UsernameMessage: string := "Username must be at least 2 characters."
  const EmailMessage: string := "Please enter a valid email address."
  const PasswordMessage: string := "Password must be at least 6 characters."
  const ConfirmMessage: string := "Please confirm your password."
  const FullNameMessage: string := "Full name must be at least 2 characters."
  const MismatchMessage: string := "Passwords do not match."

  /**
   * `formSchema`. zod's email syntax is the library's own, so it is the
   * parameter `isEmail`; `avatar` and `coverImage` accept anything.
   */
  function FormSchemaIssues(v: SignupValues, isEmail: string -> bool): (issues: seq<Issue>)
    ensures issues == [] <==>
              |v.username| >= 2 && isEmail(v.email) && |v.password| >= 6 &&
              |v.confirmPassword| >= 6 && |v.fullName| >= 2 && v.password == v.confirmPassword
    ensures |v.username| < 2 ==> Issue("username", UsernameMessage) in issues
    ensures !isEmail(v.email) ==> Issue("email", EmailMessage) in issues
    ensures |v.fullName| < 2 ==> Issue("fullName", FullNameMessage) in issues
    ensures |v.password| < 6 ==> Issue("password", PasswordMessage) in issues
    ensures |v.confirmPassword| < 6 ==> Issue("confirmPassword", ConfirmMessage) in issues
    ensures v.password != v.confirmPassword ==> Issue("confirmPassword", MismatchMessage) in issues
  {
    var fields :=
      MinLength("username", v.username, 2, UsernameMessage) +
      (if isEmail(v.email) then [] else [Issue("email", EmailMessage)]) +
      MinLength("password", v.password, 6, PasswordMessage) +
      MinLength("confirmPassword", v.confirmPassword, 6, ConfirmMessage) +
      MinLength("fullName", v.fullName, 2, FullNameMessage);
    fields + (if v.password == v.confirmPassword then [] else [Issue("confirmPassword", MismatchMessage)])
  }

  /** The file fields never cause or prevent a rejection. */
  lemma FileFieldsNeverReject(v: SignupValues, isEmail: string -> bool, avatar: Option<seq<File>>, coverImage: Option<seq<File>>)
    ensures FormSchemaIssues(v.(avatar := avatar, coverImage := coverImage), isEmail) == FormSchemaIssues(v, isEmail)
  {
  }

  /** A value of the form object: a string field or a file field. */
  datatype Field = Text(text: string) | FileList(files: Option<seq<File>>)

  /** What is appended to the FormData: a field's value as it is, or one file. */
  datatype FormValue = Value(field: Field) | Upload(file: File)

  datatype FormEntry = FormEntry(key: string, value: FormValue)

  predicate IsFileKey(key: string) {
    key == "avatar" || key == "coverImage"
  }

  /** `Object.keys(values)` with `values[key]`, in the schema's key order. */
  function Entries(v: SignupValues): (entries: seq<(string, Field)>)
    ensures |entries| == 7
    ensures forall i, j :: 0 <= i < j < |entries| ==> entries[i].0 != entries[j].0
    ensures forall i :: 0 <= i < |entries| ==> (IsFileKey(entries[i].0) <==> entries[i].1.FileList?)
  {
    [("username", Text(v.username)), ("email", Text(v.email)), ("password", Text(v.password)),
     ("confirmPassword", Text(v.confirmPassword)), ("fullName", Text(v.fullName)),
     ("avatar", FileList(v.avatar)), ("coverImage", FileList(v.coverImage))]
  }

  /**
   * What one run of the `forEach` callback appends: a file field only when
   * it holds at least one file, and then only its first; any other field as
   * it is.
   */
  function Appended(key: string, value: Field): (appended: seq<FormEntry>)
    ensures |appended| <= 1
    ensures forall e :: e in appended ==> e.key == key
    ensures !IsFileKey(key) ==> appended == [FormEntry(key, Value(value))]
    ensures IsFileKey(key) ==>
              (appended != [] <==> value.FileList? && value.files.Some? && |value.files.value| > 0)
    ensures IsFileKey(key) && appended != [] ==> appended[0].value == Upload(value.files.value[0])
  {
    if IsFileKey(key) then
      match value
      case FileList(Some(files)) =>
        if |files| > 0 then [FormEntry(key, Upload(files[0]))] else []
      case _ => []
    else
      [FormEntry(key, Value(value))]
  }

  /** The FormData after the callback has run on `entries` in order. */
  function FormDataOf(entries: seq<(string, Field)>): (formData: seq<FormEntry>)
    ensures |formData| <= |entries|
    decreases |entries|
  {
    if entries == [] then []
    else FormDataOf(entries[..|entries| - 1]) + Appended(entries[|entries| - 1].0, entries[|entries| - 1].1)
  }

  /** `formData.getAll(key)`: every value appended under `key`, in order. */
  function GetAll(formData: seq<FormEntry>, key: string): seq<FormValue>
    decreases |formData|
  {
    if formData == [] then []
    else (if formData[0].key == key then [formData[0].value] else []) + GetAll(formData[1..], key)
  }

  lemma {:induction false} GetAllConcat(a: seq<FormEntry>, b: seq<FormEntry>, key: string)
    ensures GetAll(a + b, key) == GetAll(a, key) + GetAll(b, key)
    decreases |a|
  {
    if a != [] {
      assert (a + b)[0] == a[0] && (a + b)[1..] == a[1..] + b;
      GetAllConcat(a[1..], b, key);
      calc {
        GetAll(a + b, key);
        (if a[0].key == key then [a[0].value] else []) + GetAll(a[1..] + b, key);
        (if a[0].key == key then [a[0].value] else []) + (GetAll(a[1..], key) + GetAll(b, key));
      }
    } else {
      assert a + b == b;
    }
  }

  /** What a file field contributes to the FormData. */
  function FirstFile(files: Option<seq<File>>): seq<FormValue> {
    match files
    case Some(fs) => if |fs| > 0 then [Upload(fs[0])] else []
    case None => []
  }

  lemma GetAllSingleton(e: FormEntry, key: string)
    ensures GetAll([e], key) == if e.key == key then [e.value] else []
  {
    assert [e][1..] == [];
  }

  /** One run of the callback appends under its own key only: the field as it is, or the first file. */
  lemma AppendedUnderKey(key: string, value: Field, other: string)
    ensures other != key ==> GetAll(Appended(key, value), other) == []
    ensures other == key && !IsFileKey(key) ==> GetAll(Appended(key, value), other) == [Value(value)]
    ensures other == key && IsFileKey(key) && value.FileList? ==>
              GetAll(Appended(key, value), other) == FirstFile(value.files)
  {
    var a := Appended(key, value);
    if a != [] {
      GetAllSingleton(a[0], other);
    }
  }

  /**
   * With distinct keys, `getAll(key)` on the built FormData is what the
   * field with that key appended, or nothing when no field has that key.
   */
  lemma {:induction false} GetAllFormDataOf(entries: seq<(string, Field)>, key: string)
    requires forall i, j :: 0 <= i < j < |entries| ==> entries[i].0 != entries[j].0
    ensures forall i :: 0 <= i < |entries| && entries[i].0 == key ==>
              GetAll(FormDataOf(entries), key) == GetAll(Appended(key, entries[i].1), key)
    ensures (forall i :: 0 <= i < |entries| ==> entries[i].0 != key) ==>
              GetAll(FormDataOf(entries), key) == []
    decreases |entries|
  {
    if entries != [] {
      var n := |entries| - 1;
      var init := entries[..n];
      GetAllFormDataOf(init, key);
      GetAllConcat(FormDataOf(init), Appended(entries[n].0, entries[n].1), key);
      AppendedUnderKey(entries[n].0, entries[n].1, key);
      forall i | 0 <= i < |entries| && entries[i].0 == key
        ensures GetAll(FormDataOf(entries), key) == GetAll(Appended(key, entries[i].1), key)
      {
        if i < n {
          assert init[i] == entries[i];
        }
      }
    }
  }

  /**
   * The FormData `onSubmit` builds: each string field exactly once with its
   * value unchanged; a file field only when it holds a file, then its first.
   */
  lemma SignupFormData(v: SignupValues)
    ensures GetAll(FormDataOf(Entries(v)), "username") == [Value(Text(v.username))]
    ensures GetAll(FormDataOf(Entries(v)), "email") == [Value(Text(v.email))]
    ensures GetAll(FormDataOf(Entries(v)), "password") == [Value(Text(v.password))]
    ensures GetAll(FormDataOf(Entries(v)), "confirmPassword") == [Value(Text(v.confirmPassword))]
    ensures GetAll(FormDataOf(Entries(v)), "fullName") == [Value(Text(v.fullName))]
    ensures GetAll(FormDataOf(Entries(v)), "avatar") == FirstFile(v.avatar)
    ensures GetAll(FormDataOf(Entries(v)), "coverImage") == FirstFile(v.coverImage)
  {
    var es := Entries(v);
    GetAllFormDataOf(es, "username");
    assert es[0].0 == "username";
    AppendedUnderKey(es[0].0, es[0].1, "username");
    GetAllFormDataOf(es, "email");
    assert es[1].0 == "email";
    AppendedUnderKey(es[1].0, es[1].1, "email");
    GetAllFormDataOf(es, "password");
    assert es[2].0 == "password";
    AppendedUnderKey(es[2].0, es[2].1, "password");
    GetAllFormDataOf(es, "confirmPassword");
    assert es[3].0 == "confirmPassword";
    AppendedUnderKey(es[3].0, es[3].1, "confirmPassword");
    GetAllFormDataOf(es, "fullName");
    assert es[4].0 == "fullName";
    AppendedUnderKey(es[4].0, es[4].1, "fullName");
    GetAllFormDataOf(es, "avatar");
    assert es[5].0 == "avatar";
    AppendedUnderKey(es[5].0, es[5].1, "avatar");
    GetAllFormDataOf(es, "coverImage");
    assert es[6].0 == "coverImage";
    AppendedUnderKey(es[6].0, es[6].1, "coverImage");
  }

  /** The `forEach` loop of `onSubmit`, appending to a fresh FormData. */
  method BuildFormData(v: SignupValues) returns (formData: seq<FormEntry>)
    ensures formData == FormDataOf(Entries(v))
    ensures GetAll(formData, "username") == [Value(Text(v.username))]
    ensures GetAll(formData, "password") == [Value(Text(v.password))]
    ensures GetAll(formData, "avatar") == FirstFile(v.avatar)
    ensures GetAll(formData, "coverImage") == FirstFile(v.coverImage)
  {
    var entries := Entries(v);
    formData := [];
    for i := 0 to |entries|
      invariant formData == FormDataOf(entries[..i])
    {
      var (key, value) := entries[i];
      if key == "avatar" || key == "coverImage" {
        if value.FileList? && value.files.Some? && |value.files.value| > 0 {
          formData := formData + [FormEntry(key, Upload(value.files.value[0]))];
        }
      } else {
        formData := formData + [FormEntry(key, Value(value))];
      }
      assert entries[..i + 1][..i] == entries[..i];
    }
    assert entries[..|entries|] == entries;
    SignupFormData(v);
  }

  /** The outcome of the register request: a parsed body (with its `message`, if any), or an exception. */
  datatype SignupResponse = Responded(ok: bool, message: Option<string>) | Threw

  /** A toast notification. */
  datatype Toast = SuccessToast(text: string) | ErrorToast(text: string)

  const CreatedMessage: string := "Account created successfully! Please login."
  const DefaultFailure: string := "Failed to create account. Please try again."
  const GenericFailure: string := "An error occurred. Please try again."

  /** The toast `onSubmit` shows for an outcome; a falsy server `message` falls back to the default. */
  function SignupToast(response: SignupResponse): (t: Toast)
    ensures t.SuccessToast? <==> response.Responded? && response.ok
    ensures response.Responded? && !response.ok && Truthy(response.message) ==>
              t == ErrorToast(response.message.value)
    ensures response.Responded? && !response.ok && !Truthy(response.message) ==>
              t == ErrorToast(DefaultFailure)
    ensures response.Threw? ==> t == ErrorToast(GenericFailure)
  {
    match response
    case Threw => ErrorToast(GenericFailure)
    case Responded(ok, message) =>
      if ok then SuccessToast(CreatedMessage)
      else ErrorToast(if Truthy(message) then message.value else DefaultFailure)
  }

  /** The page's `useState` hooks, the toasts shown and the navigations scheduled. */
  class SignupView {
    var loading: bool
    var toasts: seq<Toast>
    var navigations: seq<string>

    constructor ()
      ensures !loading && toasts == [] && navigations == []
    {
      loading, toasts, navigations := false, [], [];
    }

    /** `onSubmit` up to the request: build the FormData, then `setLoading(true)`. */
    method Submit(v: SignupValues) returns (formData: seq<FormEntry>)
      modifies this
      ensures formData == FormDataOf(Entries(v))
      ensures loading && toasts == old(toasts) && navigations == old(navigations)
    {
      formData := BuildFormData(v);
      loading := true;
    }

    /**
     * `onSubmit` after the request settles: one toast, a navigation to
     * `/login` (after a delay) on success, and `setLoading(false)` from
     * `finally` on every path.
     */
    method Settle(response: SignupResponse)
      modifies this
      ensures !loading
      ensures toasts == old(toasts) + [SignupToast(response)]
      ensures navigations == old(navigations) + (if response.Responded? && response.ok then ["/login"] else [])
    {
      match response {
        case Threw =>
          toasts := toasts + [ErrorToast(GenericFailure)];
        case Responded(ok, message) =>
          if ok {
            toasts := toasts + [SuccessToast(CreatedMessage)];
            navigations := navigations + ["/login"];
          } else {
            toasts := toasts + [ErrorToast(if Truthy(message) then message.value else DefaultFailure)];
          }
      }
      loading := false;
    }
  }
}
