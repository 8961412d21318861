/** The checks the registration form runs before signing up
    (`RegisterPage`) and the password-strength meter shown under the password
    field. Lengths are `.length`, in UTF-16 code units. */
module RegisterPage {
  import opened Wrappers
  import JsText
  import LoginPage

  const ShortNameMessage := "用户名至少需要 2 个字符"
  const PasswordMismatchMessage := "两次输入的密码不一致"

  const MinNameLength := 2

  /** The form's four fields. */
  datatype RegisterForm = RegisterForm(name: string, email: string, password: string, confirmPassword: string)

  predicate AnyEmpty(f: RegisterForm) {
    f.name == "" || f.email == "" || f.password == "" || f.confirmPassword == ""
  }

  /** The message `handleSubmit` shows for the form, or `None` when it goes on
      to register. Checks run in order: a missing field, a short name, an
      email without `@`, a short password, differing passwords. */
  function RegisterError(f: RegisterForm): (r: Option<string>)
    ensures AnyEmpty(f) ==> r == Some(LoginPage.FillAllFieldsMessage)
    ensures !AnyEmpty(f) && JsText.Utf16Length(f.name) < MinNameLength ==> r == Some(ShortNameMessage)
    ensures !AnyEmpty(f) && JsText.Utf16Length(f.name) >= MinNameLength && !LoginPage.HasAt(f.email) ==>
      r == Some(LoginPage.InvalidEmailMessage)
    ensures !AnyEmpty(f) && JsText.Utf16Length(f.name) >= MinNameLength && LoginPage.HasAt(f.email)
            && JsText.Utf16Length(f.password) < LoginPage.MinPasswordLength ==>
      r == Some(LoginPage.ShortPasswordMessage)
    ensures !AnyEmpty(f) && JsText.Utf16Length(f.name) >= MinNameLength && LoginPage.HasAt(f.email)
            && JsText.Utf16Length(f.password) >= LoginPage.MinPasswordLength && f.password != f.confirmPassword ==>
      r == Some(PasswordMismatchMessage)
    ensures r.None? <==>
      && JsText.Utf16Length(f.name) >= MinNameLength
      && LoginPage.HasAt(f.email)
      && JsText.Utf16Length(f.password) >= LoginPage.MinPasswordLength
      && f.password == f.confirmPassword
  {
    if AnyEmpty(f) then Some(LoginPage.FillAllFieldsMessage)
    else if JsText.Utf16Length(f.name) < MinNameLength then Some(ShortNameMessage)
    else if !LoginPage.HasAt(f.email) then Some(LoginPage.InvalidEmailMessage)
    else if JsText.Utf16Length(f.password) < LoginPage.MinPasswordLength then Some(LoginPage.ShortPasswordMessage)
    else if f.password != f.confirmPassword then Some(PasswordMismatchMessage)
    else None
  }

  /** An email and password the registration form accepts are accepted by
      the login form too. */
  lemma RegisteredCredentialsLogIn(f: RegisterForm)
    requires RegisterError(f).None?
    ensures LoginPage.LoginError(f.email, f.password).None?
  {
  }

  /** `getPasswordStrength(password)`: a level and its label. */
  datatype Strength = Strength(level: nat, text: string)

  function PasswordStrength(password: string): (s: Strength)
    ensures s.level == 0 <==> password == ""
    ensures s.level == 1 <==> 1 <= JsText.Utf16Length(password) < 6
    ensures s.level == 2 <==> 6 <= JsText.Utf16Length(password) < 10
    ensures s.level == 3 <==> 10 <= JsText.Utf16Length(password)
    ensures s.text == ["", "弱", "中", "强"][s.level]
  {
    var n := JsText.Utf16Length(password);
    if n == 0 then Strength(0, "")
    else if n < 6 then Strength(1, "弱")
    else if n < 10 then Strength(2, "中")
    else Strength(3, "强")
  }

  /** A longer password never rates weaker. */
  lemma StrengthMonotone(a: string, b: string)
    requires JsText.Utf16Length(a) <= JsText.Utf16Length(b)
    ensures PasswordStrength(a).level <= PasswordStrength(b).level
  {
  }

  /** A password the form accepts rates at least medium. */
  lemma AcceptedPasswordAtLeastMedium(f: RegisterForm)
    requires RegisterError(f).None?
    ensures PasswordStrength(f.password).level >= 2
  {
  }
}
