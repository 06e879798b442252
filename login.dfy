/** The login form: two text fields, a Login button and an inline error line. */
module Login {
  import opened Wrappers

  /** The form's state: what has been typed, and the error shown, if any. */
  datatype Form = Form(username: string, password: string, errorMessage: Option<string>)

  /** A form as it is when the login screen is entered. */
  const EmptyForm := Form("", "", None)

  /** The one error the form can show. */
  const WrongCredentials := "Wrong username or password (use root / root)."

  /** The single hard-coded credential pair. */
  predicate Accepts(username: string, password: string) {
    username == "root" && password == "root"
  }

  /** The form after a tap on Login, and whether the success callback fired. */
  datatype Submission = Submission(form: Form, success: bool)

  /** A tap on Login: success only for root/root; the fields keep what was typed. */
  function SubmitForm(f: Form): (r: Submission)
    ensures r.success <==> f.username == "root" && f.password == "root"
    ensures r.form.username == f.username && r.form.password == f.password
    ensures r.success ==> r.form.errorMessage == None
    ensures !r.success ==> r.form.errorMessage == Some(WrongCredentials) && |r.form.errorMessage.value| > 0
  {
    if Accepts(f.username, f.password) then Submission(f.(errorMessage := None), true)
    else Submission(f.(errorMessage := Some(WrongCredentials)), false)
  }

  /** Exactly one credential pair is accepted: root/root. */
  lemma SingleCredentialPair(username: string, password: string, otherName: string, otherPassword: string)
    ensures Accepts("root", "root")
    ensures Accepts(username, password) && Accepts(otherName, otherPassword) ==>
              username == otherName && password == otherPassword
  {
  }

  /** Tapping Login again without editing gives the same outcome and the same form. */
  lemma SubmitAgainIsStable(f: Form)
    ensures SubmitForm(SubmitForm(f).form) == SubmitForm(f)
  {
  }

  /** The login screen's own state, kept while the screen is shown. */
  class LoginForm {
    var username: string
    var password: string
    var errorMessage: Option<string>

    /** The form as a value. */
    function Value(): Form
      reads this
    {
      Form(username, password, errorMessage)
    }

    /** Entering the login screen: empty fields, no error. */
    constructor ()
      ensures Value() == EmptyForm
    {
      username, password, errorMessage := "", "", None;
    }

    /** Typing into the username field replaces it and nothing else. */
    method EditUsername(text: string)
      modifies this
      ensures username == text
      ensures password == old(password) && errorMessage == old(errorMessage)
    {
      username := text;
    }

    /** Typing into the password field replaces it and nothing else. */
    method EditPassword(text: string)
      modifies this
      ensures password == text
      ensures username == old(username) && errorMessage == old(errorMessage)
    {
      password := text;
    }

    /** A tap on Login; `success` says whether the success callback fired. */
    method Submit() returns (success: bool)
      modifies this
      ensures success <==> Accepts(old(username), old(password))
      ensures username == old(username) && password == old(password)
      ensures errorMessage == if success then None else Some(WrongCredentials)
      ensures SubmitForm(old(Value())) == Submission(Value(), success)
    {
      if Accepts(username, password) {
        errorMessage := None;
        success := true;
      } else {
        errorMessage := Some(WrongCredentials);
        success := false;
      }
    }
  }
}
