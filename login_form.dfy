/** The login form (`frontend/src/components/auth/LoginForm.js`): the typed credentials, the
    per-field error messages, and the call to `login` once both fields pass. */
module LoginForm {
  import opened Common

  const UsernameRequired := "Username is required"
  const PasswordRequired := "Password is required"

  class LoginPage {
    /** `formData`, by input name. */
    var formData: map<string, string>
    /** `errors`, by input name; '' is a cleared error. */
    var errors: map<string, string>
    /** Every credential object handed to `login`, in order. */
    var loginCalls: seq<map<string, string>>

    /** Both credential fields exist. */
    predicate Valid()
      reads this
    {
      "username" in formData && "password" in formData
    }

    constructor ()
      ensures Valid()
      ensures formData == map["username" := "", "password" := ""] && errors == map[] && loginCalls == []
    {
      formData := map["username" := "", "password" := ""];
      errors := map[];
      loginCalls := [];
    }

    /** `handleSubmit`: start from no errors, flag a username blank after `trim()` and an
        empty password (which is not trimmed), and call `login` with the form only when no
        field was flagged. */
    method HandleSubmit() returns (submitted: bool)
      requires Valid()
      modifies this
      ensures Valid() && formData == old(formData)
      ensures "username" in errors <==> Trim(formData["username"]) == ""
      ensures "password" in errors <==> formData["password"] == ""
      ensures "username" in errors ==> errors["username"] == UsernameRequired
      ensures "password" in errors ==> errors["password"] == PasswordRequired
      ensures forall k :: k in errors ==> k == "username" || k == "password"
      ensures submitted <==> errors == map[]
      ensures submitted ==> loginCalls == old(loginCalls) + [formData]
      ensures !submitted ==> loginCalls == old(loginCalls)
      ensures errors == SubmitErrors(formData["username"], formData["password"])
    {
      errors := map[];
      var newErrors := SubmitErrors(formData["username"], formData["password"]);
      if |newErrors| > 0 {
        errors := newErrors;
        return false;
      }
      loginCalls := loginCalls + [formData];
      submitted := true;
    }

    /** `handleChange`: store the typed value; a field showing an error has that error
        cleared, and no other error is touched. */
    method HandleChange(name: string, value: string)
      requires Valid()
      modifies this
      ensures Valid()
      ensures formData == old(formData)[name := value]
      ensures name in old(errors) && old(errors)[name] != "" ==> errors == old(errors)[name := ""]
      ensures !(name in old(errors) && old(errors)[name] != "") ==> errors == old(errors)
      ensures loginCalls == old(loginCalls)
    {
      formData := formData[name := value];
      if name in errors && errors[name] != "" {
        errors := errors[name := ""];
      }
    }
  }

  /** The errors `handleSubmit` collects: a username blank after `trim()` and an empty
      password (which is not trimmed), each with its message, and nothing else. */
  function SubmitErrors(username: string, password: string): (e: map<string, string>)
    ensures "username" in e <==> AllIn(username, JsWhitespace)
    ensures "password" in e <==> password == ""
    ensures "username" in e ==> e["username"] == UsernameRequired
    ensures "password" in e ==> e["password"] == PasswordRequired
    ensures forall k :: k in e ==> k == "username" || k == "password"
  {
    var u: map<string, string> := if Trim(username) == "" then map["username" := UsernameRequired] else map[];
    if password == "" then u["password" := PasswordRequired] else u
  }

  /** The same run of spaces is rejected as a username but accepted as a password. */
  lemma BlankUsernameNotPassword(t: string)
    requires t != "" && AllIn(t, JsWhitespace)
    ensures "username" in SubmitErrors(t, t) && "password" !in SubmitErrors(t, t)
  {
  }

  /** The form is submitted exactly when the username has a non-whitespace character and the
      password is not empty. */
  lemma SubmitErrorsNone(username: string, password: string)
    ensures SubmitErrors(username, password) == map[] <==> !AllIn(username, JsWhitespace) && password != ""
  {
    if SubmitErrors(username, password) == map[] {
      assert "username" !in SubmitErrors(username, password);
    }
  }
}
