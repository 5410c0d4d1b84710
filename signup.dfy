/** The sign-up form: an ordered chain of checks on the entered fields, the account
    creation it starts, and the initial profile document written afterwards. */
module SignUp {
  import opened Kotlin

  /** The checks of `doSignup`, in the order they run. */
  datatype SignupError = NameMissing | EmailMissing | PasswordTooShort | PasswordMismatch

  /** The toast shown for a failed check. */
  function Message(e: SignupError): (m: string)
    ensures m != []
  {
    match e
    case NameMissing => "Please enter your name"
    case EmailMissing => "Please enter your email"
    case PasswordTooShort => "Password must be at least 6 characters"
    case PasswordMismatch => "Passwords do not match"
  }

  /** Each failed check has its own toast. */
  lemma MessagesDistinct(e1: SignupError, e2: SignupError)
    ensures e1 != e2 ==> Message(e1) != Message(e2)
  {
  }

  const MinPasswordLength: nat := 6

  /** What account creation is started with: the trimmed name and email, the raw password. */
  datatype SignupRequest = SignupRequest(name: KString, email: KString, password: KString)

  /** The `when` chain of `doSignup`: the first failing check, or the request to send. Name and
      email are trimmed; the password and its confirmation are compared untrimmed. */
  function ValidateSignup(fullName: KString, email: KString, password: KString, confirmPassword: KString)
    : (r: Result<SignupRequest, SignupError>)
    ensures r == Err(NameMissing) <==> IsBlank(fullName)
    ensures r == Err(EmailMissing) <==> !IsBlank(fullName) && IsBlank(email)
    ensures r == Err(PasswordTooShort) <==>
      !IsBlank(fullName) && !IsBlank(email) && |password| < MinPasswordLength
    ensures r == Err(PasswordMismatch) <==>
      !IsBlank(fullName) && !IsBlank(email) && |password| >= MinPasswordLength && password != confirmPassword
    ensures r.Ok? <==>
      !IsBlank(fullName) && !IsBlank(email) && |password| >= MinPasswordLength && password == confirmPassword
    ensures r.Ok? ==> r.value == SignupRequest(Trim(fullName), Trim(email), password)
  {
    TrimEmptyIffBlank(fullName);
    TrimEmptyIffBlank(email);
    var n := Trim(fullName);
    var e := Trim(email);
    if n == [] then Err(NameMissing)
    else if e == [] then Err(EmailMissing)
    else if |password| < MinPasswordLength then Err(PasswordTooShort)
    else if password != confirmPassword then Err(PasswordMismatch)
    else Ok(SignupRequest(n, e, password))
  }

  /** An accepted request carries a non-empty name and email with no surrounding whitespace,
      and a password of at least 6 code units that the confirmation repeats. */
  lemma AcceptedRequestIsClean(fullName: KString, email: KString, password: KString, confirmPassword: KString)
    requires ValidateSignup(fullName, email, password, confirmPassword).Ok?
    ensures var req := ValidateSignup(fullName, email, password, confirmPassword).value;
      && req.name != [] && Trim(req.name) == req.name
      && req.email != [] && Trim(req.email) == req.email
      && |req.password| >= MinPasswordLength && req.password == confirmPassword
  {
    TrimEmptyIffBlank(fullName);
    TrimEmptyIffBlank(email);
    TrimIdempotent(fullName);
    TrimIdempotent(email);
  }

  /** The profile document stored under the new account's uid. */
  datatype UserDoc = UserDoc(uid: KString, name: KString, email: KString, createdAt: Int64,
                             totalQuizzes: Int32, bestScore: Int32)

  /** `userDoc`: the trimmed name and email, the clock reading, and zeroed statistics. */
  function InitialProfile(uid: KString, req: SignupRequest, now: Int64): (doc: UserDoc)
    ensures doc.uid == uid && doc.name == req.name && doc.email == req.email && doc.createdAt == now
    ensures doc.totalQuizzes == 0 && doc.bestScore == 0
  {
    UserDoc(uid, req.name, req.email, now, 0, 0)
  }

  /** How account creation completed: failed (with the exception's message, if any), or
      succeeded with the current user's uid, if there is one. */
  datatype CreateResult = CreateFailed(message: Option<string>) | Created(uid: Option<KString>)

  /** How the profile write completed. */
  datatype SaveResult = Saved | SaveFailed(message: Option<string>)

  /** The sign-up screen's state across the asynchronous steps. */
  class SignUpScreen {
    var isLoading: bool

    constructor ()
      ensures !isLoading
    {
      isLoading := false;
    }

    /** `doSignup`, run by the button (enabled only while not loading) and also by the
        keyboard's Done action (whatever the flag): runs the checks and, when all pass,
        raises the flag and starts account creation with the returned request. A failed
        check leaves the flag as it was. */
    method DoSignup(fullName: KString, email: KString, password: KString, confirmPassword: KString)
      returns (r: Result<SignupRequest, SignupError>)
      modifies this
      ensures r == ValidateSignup(fullName, email, password, confirmPassword)
      ensures isLoading == if r.Ok? then true else old(isLoading)
    {
      r := ValidateSignup(fullName, email, password, confirmPassword);
      if r.Ok? {
        isLoading := true;
      }
    }

    /** The completion listener of the account creation started for `req`: on success with
        a uid, returns the profile to write and keeps loading; otherwise stops loading and
        returns the toast. */
    method OnCreateComplete(req: SignupRequest, result: CreateResult, now: Int64)
      returns (profile: Option<UserDoc>, toast: Option<string>)
      modifies this
      ensures result.CreateFailed? ==>
        !isLoading && profile == None && toast == Some(result.message.GetOr("Signup failed"))
      ensures result == Created(None) ==>
        !isLoading && profile == None && toast == Some("User created but UID missing")
      ensures result.Created? && result.uid.Some? ==>
        isLoading == old(isLoading) && profile == Some(InitialProfile(result.uid.value, req, now)) && toast == None
    {
      match result
      case CreateFailed(message) =>
        isLoading := false;
        profile, toast := None, Some(message.GetOr("Signup failed"));
      case Created(None) =>
        isLoading := false;
        profile, toast := None, Some("User created but UID missing");
      case Created(Some(uid)) =>
        profile, toast := Some(InitialProfile(uid, req, now)), None;
    }

    /** The listeners of the profile write: either way loading stops and the user goes on to
        the home screen; a failure only changes the toast. */
    method OnProfileSaved(result: SaveResult) returns (goHome: bool, toast: string)
      modifies this
      ensures !isLoading && goHome
      ensures result == Saved ==> toast == "Account created \U{2705}"
      ensures result.SaveFailed? ==>
        toast == "Account created but profile save failed: " + result.message.GetOr("null")
    {
      isLoading := false;
      goHome := true;
      match result
      case Saved => toast := "Account created \U{2705}";
      case SaveFailed(message) => toast := "Account created but profile save failed: " + message.GetOr("null");
    }
  }
}
