/** The login form: the empty-field check and the loading flag around sign-in. */
module Login {
  import opened Kotlin

  const MissingFields: string := "Please enter email and password"

  /** What sign-in is started with: the trimmed email and the raw password. */
  datatype Credentials = Credentials(email: KString, password: KString)

  /** The check of `doLogin`. The email is trimmed; the password is not, so a password of
      spaces passes here and is left to the identity provider. */
  function ValidateLogin(email: KString, password: KString): (r: Result<Credentials, string>)
    ensures r.Err? <==> IsBlank(email) || password == []
    ensures r.Err? ==> r.error == MissingFields
    ensures r.Ok? ==> r.value == Credentials(Trim(email), password) && r.value.email != []
  {
    TrimEmptyIffBlank(email);
    var e := Trim(email);
    if e == [] || password == [] then Err(MissingFields) else Ok(Credentials(e, password))
  }

  /** The login screen's state. */
  class LoginScreen {
    var isLoading: bool

    constructor ()
      ensures !isLoading
    {
      isLoading := false;
    }

    /** `doLogin`, run by the button (enabled only while not loading) and also by the
        keyboard's Done action (whatever the flag): checks the fields and, when they pass,
        raises the flag and starts sign-in with the returned credentials. A failed check
        leaves the flag as it was. */
    method DoLogin(email: KString, password: KString) returns (r: Result<Credentials, string>)
      modifies this
      ensures r == ValidateLogin(email, password)
      ensures isLoading == if r.Ok? then true else old(isLoading)
    {
      r := ValidateLogin(email, password);
      if r.Ok? {
        isLoading := true;
      }
    }

    /** The completion listener of sign-in: loading stops whatever the outcome; only a
        success goes on to the home screen. */
    method OnSignInComplete(succeeded: bool, failure: Option<string>) returns (goHome: bool, toast: string)
      modifies this
      ensures !isLoading
      ensures goHome == succeeded
      ensures toast == if succeeded then "Login successful \U{2705}" else failure.GetOr("Login failed")
    {
      isLoading := false;
      goHome := succeeded;
      toast := if succeeded then "Login successful \U{2705}" else failure.GetOr("Login failed");
    }
  }
}
