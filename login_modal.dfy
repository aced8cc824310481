/**
 * The sign-in / sign-up form of components/auth/LoginModal.tsx: its fields,
 * the order of its checks, and how it drives the session of module Auth.
 *
 * Alerts are returned as values instead of being shown. Lengths are counted
 * in characters.
 */
module LoginForm {
  import opened Wrappers
  import opened Auth

  datatype AuthMode = LoginMode | RegisterMode

  /** Every alert the form can raise. */
  datatype FormAlert =
    | LoginIncomplete
    | LoginFailed
    | RegisterIncomplete
    | PasswordMismatch
    | PasswordTooShort
    | RegisterSucceeded
    | RegisterFailed

  /** The title of the alert box. */
  function AlertTitle(a: FormAlert): string {
    match a
    case LoginIncomplete => "ข้อมูลไม่ครบ"
    case LoginFailed => "เข้าสู่ระบบไม่สำเร็จ"
    case RegisterIncomplete => "ข้อมูลไม่ครบ"
    case PasswordMismatch => "รหัสผ่านไม่ตรงกัน"
    case PasswordTooShort => "รหัสผ่านสั้นเกินไป"
    case RegisterSucceeded => "สมัครสมาชิกสำเร็จ"
    case RegisterFailed => "สมัครสมาชิกไม่สำเร็จ"
  }

  /** The line under the title. */
  function AlertMessage(a: FormAlert): string {
    match a
    case LoginIncomplete => "กรุณากรอกอีเมลและรหัสผ่าน"
    case LoginFailed => "กรุณาตรวจสอบอีเมลและรหัสผ่าน"
    case RegisterIncomplete => "กรุณากรอกข้อมูลให้ครบถ้วน"
    case PasswordMismatch => "กรุณากรอกรหัสผ่านให้ตรงกัน"
    case PasswordTooShort => "รหัสผ่านต้องมีอย่างน้อย 6 ตัวอักษร"
    case RegisterSucceeded => "ยินดีต้อนรับ!"
    case RegisterFailed => "กรุณาลองใหม่อีกครั้ง"
  }

  /** The alert box as shown: title and message. Two alerts share a title
      only when both report missing fields, and no two share a box. */
  function AlertText(a: FormAlert): (box: (string, string))
    ensures box.0 == AlertTitle(a) && box.1 == AlertMessage(a)
    ensures box.0 != "" && box.1 != ""
  {
    (AlertTitle(a), AlertMessage(a))
  }

  lemma AlertTitlesDistinct(a: FormAlert, b: FormAlert)
    requires a != b
    ensures AlertTitle(a) == AlertTitle(b) <==>
      (a == LoginIncomplete && b == RegisterIncomplete) || (a == RegisterIncomplete && b == LoginIncomplete)
    ensures AlertText(a) != AlertText(b)
  {
  }

  const MIN_PASSWORD_LENGTH: int := 6

  /** The sign-in check: both fields must be filled in. */
  function CheckLogin(email: string, password: string): (r: Option<FormAlert>)
    ensures r.None? <==> email != "" && password != ""
    ensures r.Some? ==> r.value == LoginIncomplete
  {
    if email == "" || password == "" then Some(LoginIncomplete) else None
  }

  /** The sign-up checks, in order; the first that fails is the one reported. */
  function CheckRegister(name: string, email: string, password: string, confirmPassword: string)
    : (r: Option<FormAlert>)
    ensures r.None? <==>
      (name != "" && email != "" && password != ""
       && password == confirmPassword && |password| >= MIN_PASSWORD_LENGTH)
    ensures r == Some(RegisterIncomplete) <==> (name == "" || email == "" || password == "")
    ensures r == Some(PasswordMismatch) <==>
      (name != "" && email != "" && password != "" && password != confirmPassword)
    ensures r == Some(PasswordTooShort) <==>
      (name != "" && email != "" && password != ""
       && password == confirmPassword && |password| < MIN_PASSWORD_LENGTH)
  {
    if name == "" || email == "" || password == "" then Some(RegisterIncomplete)
    else if password != confirmPassword then Some(PasswordMismatch)
    else if |password| < MIN_PASSWORD_LENGTH then Some(PasswordTooShort)
    else None
  }

  /** Exactly one reason is reported for a refused sign-up, and it is one of
      the three sign-up reasons. */
  lemma RegisterReasonIsOneOfThree(name: string, email: string, password: string, confirmPassword: string)
    ensures var r := CheckRegister(name, email, password, confirmPassword);
      r.Some? ==> (r.value == RegisterIncomplete || r.value == PasswordMismatch || r.value == PasswordTooShort)
  {
  }

  /** An empty confirmation is not an error of its own: with the other
      fields filled in, it is reported as a mismatch. */
  lemma EmptyConfirmationIsMismatch(name: string, email: string, password: string)
    requires name != "" && email != "" && password != ""
    ensures CheckRegister(name, email, password, "") == Some(PasswordMismatch)
  {
  }

  /** A short password that also differs from its confirmation is reported
      as a mismatch, since that check comes first. */
  lemma MismatchReportedBeforeLength(name: string, email: string, password: string, confirmPassword: string)
    requires name != "" && email != "" && password != ""
    requires |password| < MIN_PASSWORD_LENGTH && password != confirmPassword
    ensures CheckRegister(name, email, password, confirmPassword) == Some(PasswordMismatch)
  {
  }

  class LoginModal {
    const auth: AuthProvider
    var mode: AuthMode
    var email: string
    var password: string
    var confirmPassword: string
    var name: string
    var showPassword: bool

    /** Name, email, both passwords empty and the password hidden. */
    predicate FormCleared()
      reads this
    {
      email == "" && password == "" && confirmPassword == "" && name == "" && !showPassword
    }

    predicate FormUnchanged(e: string, p: string, c: string, n: string, s: bool)
      reads this
    {
      email == e && password == p && confirmPassword == c && name == n && showPassword == s
    }

    /** The session exactly as the given snapshot left it. */
    ghost predicate SessionIs(u: Option<User>, busy: bool, shown: bool, saved: Option<User>,
                              message: string, history: seq<bool>)
      reads this, auth
    {
      auth.user == u && auth.isLoading == busy && auth.showLoginModal == shown
      && auth.stored == saved && auth.loginModalMessage == message && auth.loadingHistory == history
    }

    /** The session after one completed sign-in or sign-up call that put `u`
        in the session, starting from the given snapshot. */
    ghost predicate SessionAfterCall(u: User, saveOk: bool, shown: bool, saved: Option<User>,
                                     message: string, history: seq<bool>)
      reads this, auth
    {
      SessionIs(Some(u), false, if saveOk then false else shown,
        if saveOk then Some(u) else saved, message, history + [true, false])
    }

    constructor (session: AuthProvider)
      ensures auth == session && mode == LoginMode && FormCleared()
    {
      auth := session;
      mode := LoginMode;
      email := "";
      password := "";
      confirmPassword := "";
      name := "";
      showPassword := false;
    }

    method SetEmail(value: string)
      modifies this`email
      ensures email == value
    {
      email := value;
    }

    method SetPassword(value: string)
      modifies this`password
      ensures password == value
    {
      password := value;
    }

    method SetConfirmPassword(value: string)
      modifies this`confirmPassword
      ensures confirmPassword == value
    {
      confirmPassword := value;
    }

    method SetName(value: string)
      modifies this`name
      ensures name == value
    {
      name := value;
    }

    /** The eye button flips whether the password is shown. */
    method TogglePassword()
      modifies this`showPassword
      ensures showPassword == !old(showPassword)
    {
      showPassword := !showPassword;
    }

    method ResetForm()
      modifies this`email, this`password, this`confirmPassword, this`name, this`showPassword
      ensures FormCleared()
    {
      email := "";
      password := "";
      confirmPassword := "";
      name := "";
      showPassword := false;
    }

    /** Closing hides the prompt, clears the form and returns to sign-in. */
    method HandleClose()
      modifies this, auth`showLoginModal
      ensures !auth.showLoginModal && FormCleared() && mode == LoginMode
    {
      auth.SetShowLoginModal(false);
      ResetForm();
      mode := LoginMode;
    }

    /** The link under the form flips between sign-in and sign-up and clears the form. */
    method SwitchMode()
      modifies this
      ensures mode == (if old(mode) == LoginMode then RegisterMode else LoginMode)
      ensures FormCleared()
    {
      mode := if mode == LoginMode then RegisterMode else LoginMode;
      ResetForm();
    }

    /** Sign-in: the session is asked only when both fields are filled in;
        the form is cleared after a success and kept after a failure. */
    method HandleLogin(saveOk: bool) returns (called: bool, alert: Option<FormAlert>)
      modifies this, auth
      ensures called <==> CheckLogin(old(email), old(password)).None?
      ensures !called ==> (alert == Some(LoginIncomplete)
        && FormUnchanged(old(email), old(password), old(confirmPassword), old(name), old(showPassword))
        && SessionIs(old(auth.user), old(auth.isLoading), old(auth.showLoginModal), old(auth.stored),
             old(auth.loginModalMessage), old(auth.loadingHistory)))
      ensures called ==> SessionAfterCall(LoggedInUser(old(email)), saveOk, old(auth.showLoginModal),
        old(auth.stored), old(auth.loginModalMessage), old(auth.loadingHistory))
      ensures called && saveOk ==> alert.None? && FormCleared()
      ensures called && !saveOk ==> (alert == Some(LoginFailed)
        && FormUnchanged(old(email), old(password), old(confirmPassword), old(name), old(showPassword)))
      ensures mode == old(mode)
    {
      alert := CheckLogin(email, password);
      if alert.Some? {
        return false, alert;
      }
      called := true;
      var success := auth.Login(email, password, saveOk);
      if success {
        ResetForm();
        alert := None;
      } else {
        alert := Some(LoginFailed);
      }
    }

    /** Sign-up: the session is asked only when every check passes; the
        first failed check is the one reported. */
    method HandleRegister(now: int, encodedName: string, saveOk: bool)
      returns (called: bool, alert: Option<FormAlert>)
      modifies this, auth
      ensures called <==> CheckRegister(old(name), old(email), old(password), old(confirmPassword)).None?
      ensures !called ==> (alert == CheckRegister(old(name), old(email), old(password), old(confirmPassword))
        && FormUnchanged(old(email), old(password), old(confirmPassword), old(name), old(showPassword))
        && SessionIs(old(auth.user), old(auth.isLoading), old(auth.showLoginModal), old(auth.stored),
             old(auth.loginModalMessage), old(auth.loadingHistory)))
      ensures called ==> SessionAfterCall(RegisteredUser(now, old(email), old(name), encodedName), saveOk,
        old(auth.showLoginModal), old(auth.stored), old(auth.loginModalMessage), old(auth.loadingHistory))
      ensures called && saveOk ==> alert == Some(RegisterSucceeded) && FormCleared()
      ensures called && !saveOk ==> (alert == Some(RegisterFailed)
        && FormUnchanged(old(email), old(password), old(confirmPassword), old(name), old(showPassword)))
      ensures mode == old(mode)
    {
      alert := CheckRegister(name, email, password, confirmPassword);
      if alert.Some? {
        return false, alert;
      }
      called := true;
      var success := auth.Register(email, password, name, now, encodedName, saveOk);
      if success {
        ResetForm();
        alert := Some(RegisterSucceeded);
      } else {
        alert := Some(RegisterFailed);
      }
    }

    /** The main button: disabled while the session is busy, otherwise the
        handler of the current mode, with that handler's outcome. */
    method Submit(now: int, encodedName: string, saveOk: bool) returns (called: bool, alert: Option<FormAlert>)
      modifies this, auth
      ensures mode == old(mode)
      ensures old(auth.isLoading) ==> (!called && alert.None?
        && FormUnchanged(old(email), old(password), old(confirmPassword), old(name), old(showPassword))
        && SessionIs(old(auth.user), old(auth.isLoading), old(auth.showLoginModal), old(auth.stored),
             old(auth.loginModalMessage), old(auth.loadingHistory)))
      // sign-in mode: HandleLogin's outcome
      ensures !old(auth.isLoading) && old(mode) == LoginMode ==>
        (called <==> CheckLogin(old(email), old(password)).None?)
      ensures !old(auth.isLoading) && old(mode) == LoginMode && !called ==> (alert == Some(LoginIncomplete)
        && FormUnchanged(old(email), old(password), old(confirmPassword), old(name), old(showPassword))
        && SessionIs(old(auth.user), old(auth.isLoading), old(auth.showLoginModal), old(auth.stored),
             old(auth.loginModalMessage), old(auth.loadingHistory)))
      ensures !old(auth.isLoading) && old(mode) == LoginMode && called ==>
        (SessionAfterCall(LoggedInUser(old(email)), saveOk, old(auth.showLoginModal),
           old(auth.stored), old(auth.loginModalMessage), old(auth.loadingHistory))
         && (saveOk ==> alert.None? && FormCleared())
         && (!saveOk ==> (alert == Some(LoginFailed)
               && FormUnchanged(old(email), old(password), old(confirmPassword), old(name), old(showPassword)))))
      // sign-up mode: HandleRegister's outcome
      ensures !old(auth.isLoading) && old(mode) == RegisterMode ==>
        (called <==> CheckRegister(old(name), old(email), old(password), old(confirmPassword)).None?)
      ensures !old(auth.isLoading) && old(mode) == RegisterMode && !called ==>
        (alert == CheckRegister(old(name), old(email), old(password), old(confirmPassword))
         && FormUnchanged(old(email), old(password), old(confirmPassword), old(name), old(showPassword))
         && SessionIs(old(auth.user), old(auth.isLoading), old(auth.showLoginModal), old(auth.stored),
              old(auth.loginModalMessage), old(auth.loadingHistory)))
      ensures !old(auth.isLoading) && old(mode) == RegisterMode && called ==>
        (SessionAfterCall(RegisteredUser(now, old(email), old(name), encodedName), saveOk,
           old(auth.showLoginModal), old(auth.stored), old(auth.loginModalMessage), old(auth.loadingHistory))
         && (saveOk ==> alert == Some(RegisterSucceeded) && FormCleared())
         && (!saveOk ==> (alert == Some(RegisterFailed)
               && FormUnchanged(old(email), old(password), old(confirmPassword), old(name), old(showPassword)))))
    {
      if auth.isLoading {
        return false, None;
      }
      if mode == LoginMode {
        called, alert := HandleLogin(saveOk);
      } else {
        called, alert := HandleRegister(now, encodedName, saveOk);
      }
    }
  }
}
