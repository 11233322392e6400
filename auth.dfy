/**
 * The sign-up / login form of src/Auth.js: the request a submit sends, the
 * classification of the auth reply into one of four outcomes, and the form's
 * `loading`/`error` bookkeeping around it.
 */
module Auth {
  import opened Results
  import opened Records

  const UnknownErrorMessage := "An unknown error occurred."

  /** An auth reply: the error's message when there is an error object, and the session and user it carries. */
  datatype AuthResult = AuthResult(error: Option<string>, session: Option<Session>, user: Option<User>)

  /** What the form does with a reply. */
  datatype AuthOutcome =
    | ShowError(message: string)
    | LoggedIn(session: Session, role: string)
    | PendingConfirmation
    | NoChange

  /** `err.message || "An unknown error occurred."`. */
  function ErrorText(message: string): (text: string)
    ensures text != ""
    ensures message != "" ==> text == message
    ensures message == "" ==> text == UnknownErrorMessage
  {
    if message == "" then UnknownErrorMessage else message
  }

  /** The request a submit sends: sign-up carries the selected role as metadata, login only the credentials. */
  function Request(isSignUp: bool, email: string, password: string, role: string): (c: Call)
    ensures isSignUp <==> c.SignUp?
    ensures c.SignUp? ==> c.email == email && c.password == password && c.userType == role
    ensures !isSignUp ==> c == SignInWithPassword(email, password)
  {
    if isSignUp then SignUp(email, password, role) else SignInWithPassword(email, password)
  }

  /**
   * The branches of `handleSubmit` after the reply: an error wins; otherwise a
   * session together with a user logs in with the selected role; otherwise a
   * sign-up without a session awaits e-mail confirmation; otherwise nothing.
   */
  function Classify(isSignUp: bool, role: string, result: AuthResult): (o: AuthOutcome)
    ensures o.ShowError? <==> result.error.Some?
    ensures o.ShowError? ==> o.message == ErrorText(result.error.value) && o.message != ""
    ensures o.LoggedIn? <==> result.error.None? && result.session.Some? && result.user.Some?
    ensures o.LoggedIn? ==> o.session == result.session.value && o.role == role
    ensures o.PendingConfirmation? <==> result.error.None? && isSignUp && result.session.None?
    ensures o.NoChange? <==>
      result.error.None? && (result.session.None? || result.user.None?) && !(isSignUp && result.session.None?)
  {
    if result.error.Some? then ShowError(ErrorText(result.error.value))
    else if result.session.Some? && result.user.Some? then LoggedIn(result.session.value, role)
    else if isSignUp && result.session.None? then PendingConfirmation
    else NoChange
  }

  class AuthForm {
    var email: string
    var password: string
    var isSignUp: bool
    var userType: string
    var loading: bool
    var error: string
    const storage: DeviceStorage

    /** The form starts empty, in login mode, with the role "tenant" selected. */
    constructor (storage: DeviceStorage)
      ensures this.storage == storage
      ensures email == "" && password == "" && !isSignUp && userType == TenantRole && !loading && error == ""
    {
      this.storage := storage;
      email := "";
      password := "";
      isSignUp := false;
      userType := TenantRole;
      loading := false;
      error := "";
    }

    method SetEmail(value: string)
      modifies this
      ensures email == value
      ensures password == old(password) && isSignUp == old(isSignUp) && userType == old(userType)
      ensures loading == old(loading) && error == old(error)
    {
      email := value;
    }

    method SetPassword(value: string)
      modifies this
      ensures password == value
      ensures email == old(email) && isSignUp == old(isSignUp) && userType == old(userType)
      ensures loading == old(loading) && error == old(error)
    {
      password := value;
    }

    /** The mode link: sign-up and login swap; nothing else changes. */
    method ToggleMode()
      modifies this
      ensures isSignUp == !old(isSignUp)
      ensures email == old(email) && password == old(password) && userType == old(userType)
      ensures loading == old(loading) && error == old(error)
    {
      isSignUp := !isSignUp;
    }

    /** A role radio button: the selection becomes its value. */
    method SelectRole(role: string)
      modifies this
      ensures userType == role
      ensures email == old(email) && password == old(password) && isSignUp == old(isSignUp)
      ensures loading == old(loading) && error == old(error)
    {
      userType := role;
    }

    /** The start of `handleSubmit`: busy, no error shown, and the request for the current mode. */
    method BeginSubmit() returns (request: Call)
      modifies this
      ensures loading && error == ""
      ensures request == Request(isSignUp, email, password, userType)
      ensures email == old(email) && password == old(password) && isSignUp == old(isSignUp) && userType == old(userType)
    {
      loading := true;
      error := "";
      request := Request(isSignUp, email, password, userType);
    }

    /**
     * The rest of `handleSubmit`, on the reply: not busy any more; an error
     * shows its text; a login stores the selected role (and only then);
     * the outcome tells the caller whether to call `onLogin`.
     */
    method FinishSubmit(result: AuthResult) returns (outcome: AuthOutcome)
      modifies this, storage
      ensures outcome == Classify(isSignUp, userType, result)
      ensures !loading
      ensures error == (if outcome.ShowError? then outcome.message else old(error))
      ensures outcome.LoggedIn? ==> storage.userType == Some(userType)
      ensures !outcome.LoggedIn? ==> storage.userType == old(storage.userType)
      ensures email == old(email) && password == old(password) && isSignUp == old(isSignUp) && userType == old(userType)
    {
      outcome := Classify(isSignUp, userType, result);
      if outcome.ShowError? {
        error := outcome.message;
      } else if outcome.LoggedIn? {
        storage.SetUserType(userType);
      }
      loading := false;
    }

    /** A whole submit: the request it sends, and the outcome with the flags as they end. */
    method HandleSubmit(result: AuthResult) returns (request: Call, outcome: AuthOutcome)
      modifies this, storage
      ensures request == Request(old(isSignUp), old(email), old(password), old(userType))
      ensures outcome == Classify(old(isSignUp), old(userType), result)
      ensures !loading
      ensures outcome.ShowError? ==> error == outcome.message
      ensures !outcome.ShowError? ==> error == ""
      ensures outcome.LoggedIn? ==> storage.userType == Some(old(userType))
      ensures !outcome.LoggedIn? ==> storage.userType == old(storage.userType)
      ensures email == old(email) && password == old(password) && isSignUp == old(isSignUp) && userType == old(userType)
    {
      request := BeginSubmit();
      outcome := FinishSubmit(result);
    }
  }
}
