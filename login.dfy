/** The login screen's form: two fields, their validators, the touched-gated messages,
    and the message shown when the login request fails. */
module Login {
  import opened Wrappers
  import ErrorHandler

  datatype LoginField = Username | Password

  /** `values`, `errors` and `touched` of the screen; `general` is the optional
      `errors.general`. */
  datatype LoginState = LoginState(
    username: string,
    password: string,
    usernameError: string,
    passwordError: string,
    general: Option<string>,
    usernameTouched: bool,
    passwordTouched: bool)

  const INITIAL_STATE: LoginState := LoginState("", "", "", "", None, false, false)

  const USERNAME_REQUIRED: string := "El username es requerido"
  const USERNAME_TOO_SHORT: string := "El username debe tener al menos 3 caracteres"
  /** The source's text holds the character U+CE58 where "á" was meant; it is kept as written. */
  const USERNAME_TOO_LONG: string := "El username no puede tener m\U{ce58}s de 20 caracteres"
  /** The source's text holds the character U+CE68 where "ñ" was meant; it is kept as written. */
  const PASSWORD_REQUIRED: string := "La contrase\U{ce68}a es requerida"
  const PASSWORD_TOO_SHORT: string := "La contrase\U{ce68}a debe tener al menos 12 caracteres"

  /** `validateUsername`: required, then at least 3, then at most 20 characters. */
  function ValidateUsername(username: string): (r: string)
    ensures username == "" ==> r == USERNAME_REQUIRED
    ensures 1 <= |username| < 3 ==> r == USERNAME_TOO_SHORT
    ensures |username| > 20 ==> r == USERNAME_TOO_LONG
    ensures r == "" <==> 3 <= |username| <= 20
  {
    if username == "" then USERNAME_REQUIRED
    else if |username| < 3 then USERNAME_TOO_SHORT
    else if |username| > 20 then USERNAME_TOO_LONG
    else ""
  }

  /** `validatePassword`: required, then at least 12 characters; no upper bound. */
  function ValidatePassword(password: string): (r: string)
    ensures password == "" ==> r == PASSWORD_REQUIRED
    ensures 1 <= |password| < 12 ==> r == PASSWORD_TOO_SHORT
    ensures r == "" <==> |password| >= 12
  {
    if password == "" then PASSWORD_REQUIRED
    else if |password| < 12 then PASSWORD_TOO_SHORT
    else ""
  }

  function Validate(field: LoginField, value: string): string {
    match field
    case Username => ValidateUsername(value)
    case Password => ValidatePassword(value)
  }

  function ValueOf(s: LoginState, field: LoginField): string {
    match field
    case Username => s.username
    case Password => s.password
  }

  function ErrorOf(s: LoginState, field: LoginField): string {
    match field
    case Username => s.usernameError
    case Password => s.passwordError
  }

  predicate IsTouched(s: LoginState, field: LoginField) {
    match field
    case Username => s.usernameTouched
    case Password => s.passwordTouched
  }

  function Other(field: LoginField): LoginField {
    if field == Username then Password else Username
  }

  /** `handleChange`: stores the value; recomputes the field's message only when the field
      was touched, and leaves it alone otherwise. */
  function HandleChange(s: LoginState, field: LoginField, value: string): (r: LoginState)
    ensures ValueOf(r, field) == value && ValueOf(r, Other(field)) == ValueOf(s, Other(field))
    ensures ErrorOf(r, field) == (if IsTouched(s, field) then Validate(field, value) else ErrorOf(s, field))
    ensures ErrorOf(r, Other(field)) == ErrorOf(s, Other(field))
    ensures r.general == s.general && r.usernameTouched == s.usernameTouched && r.passwordTouched == s.passwordTouched
  {
    match field
    case Username =>
      var t := s.(username := value);
      if s.usernameTouched then t.(usernameError := ValidateUsername(value)) else t
    case Password =>
      var t := s.(password := value);
      if s.passwordTouched then t.(passwordError := ValidatePassword(value)) else t
  }

  /** `handleBlur`: marks the field touched and shows the validation of its current value. */
  function HandleBlur(s: LoginState, field: LoginField): (r: LoginState)
    ensures IsTouched(r, field) && (IsTouched(r, Other(field)) <==> IsTouched(s, Other(field)))
    ensures ErrorOf(r, field) == Validate(field, ValueOf(s, field))
    ensures ErrorOf(r, Other(field)) == ErrorOf(s, Other(field))
    ensures r.username == s.username && r.password == s.password && r.general == s.general
  {
    match field
    case Username => s.(usernameTouched := true, usernameError := ValidateUsername(s.username))
    case Password => s.(passwordTouched := true, passwordError := ValidatePassword(s.password))
  }

  /** `isFormValid`: both fields filled and both validators silent, which comes down to a
      username of 3 to 20 characters and a password of at least 12. */
  function IsFormValid(s: LoginState): (r: bool)
    ensures r <==> 3 <= |s.username| <= 20 && |s.password| >= 12
  {
    s.username != "" && s.password != "" && ValidateUsername(s.username) == "" && ValidatePassword(s.password) == ""
  }

  /** The error branch of `handleSubmit`: the classified error's message becomes the general
      message; the field messages and values stay. */
  function SubmitFailed(s: LoginState, error: ErrorHandler.RequestError): (r: LoginState)
    ensures r.general == Some(ErrorHandler.Handle(error).message)
    ensures r == s.(general := r.general)
    ensures r.general.value != ""
  {
    s.(general := Some(ErrorHandler.Handle(error).message))
  }

  /** What a field shows agrees with its value: a touched field shows its validation, an
      untouched one shows nothing. */
  predicate ErrorsInSync(s: LoginState) {
    forall field: LoginField :: ErrorOf(s, field) == (if IsTouched(s, field) then Validate(field, ValueOf(s, field)) else "")
  }

  /** The screen starts in sync, and every change, blur and failed submission keeps it so. */
  lemma TransitionsKeepErrorsInSync(s: LoginState, field: LoginField, value: string, error: ErrorHandler.RequestError)
    requires ErrorsInSync(s)
    ensures ErrorsInSync(INITIAL_STATE)
    ensures ErrorsInSync(HandleChange(s, field, value))
    ensures ErrorsInSync(HandleBlur(s, field))
    ensures ErrorsInSync(SubmitFailed(s, error))
  {
    var c := HandleChange(s, field, value);
    var b := HandleBlur(s, field);
    forall g: LoginField
      ensures ErrorOf(c, g) == (if IsTouched(c, g) then Validate(g, ValueOf(c, g)) else "")
      ensures ErrorOf(b, g) == (if IsTouched(b, g) then Validate(g, ValueOf(b, g)) else "")
    {
      assert ErrorOf(s, g) == (if IsTouched(s, g) then Validate(g, ValueOf(s, g)) else "");
      if g != field {
        assert g == Other(field);
      }
    }
  }

  /** With both fields touched and in sync, the login button is enabled exactly when
      neither field shows a message. */
  lemma ValidIffNoMessageShown(s: LoginState)
    requires ErrorsInSync(s) && s.usernameTouched && s.passwordTouched
    ensures IsFormValid(s) <==> s.usernameError == "" && s.passwordError == ""
  {
    assert s.usernameError == ValidateUsername(s.username) by {
      assert ErrorOf(s, Username) == (if IsTouched(s, Username) then Validate(Username, ValueOf(s, Username)) else "");
    }
    assert s.passwordError == ValidatePassword(s.password) by {
      assert ErrorOf(s, Password) == (if IsTouched(s, Password) then Validate(Password, ValueOf(s, Password)) else "");
    }
  }
}
