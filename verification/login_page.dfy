/** The checks the login form runs before signing in (`LoginPage`): both
    fields filled, an `@` in the email, a password of at least six UTF-16 code
    units. The first failing check gives the message shown. */
module LoginPage {
  import opened Wrappers
  import JsText

  const FillAllFieldsMessage := "请填写所有字段"
  const InvalidEmailMessage := "请输入有效的邮箱地址"
  const ShortPasswordMessage := "密码长度至少为 6 位"

  /** The shortest password the forms accept, in UTF-16 code units. */
  const MinPasswordLength := 6

  /** `email.includes("@")`. */
  predicate HasAt(email: string) {
    JsText.Contains(email, "@")
  }

  /** A string contains `@` exactly when one of its characters is `@`. */
  lemma HasAtIffAtChar(email: string)
    ensures HasAt(email) <==> '@' in email
  {
    if '@' in email {
      var i :| 0 <= i < |email| && email[i] == '@';
      assert email[i..i + 1] == "@";
      assert JsText.OccursAt(email, "@", i);
    }
    if HasAt(email) {
      var i :| 0 <= i <= |email| - 1 && JsText.OccursAt(email, "@", i);
      assert email[i] == email[i..i + 1][0];
    }
  }

  /** The message `handleSubmit` shows for the entered email and password,
      or `None` when it goes on to sign in. */
  function LoginError(email: string, password: string): (r: Option<string>)
    ensures email == "" || password == "" ==> r == Some(FillAllFieldsMessage)
    ensures email != "" && password != "" && !HasAt(email) ==> r == Some(InvalidEmailMessage)
    ensures email != "" && password != "" && HasAt(email) && JsText.Utf16Length(password) < MinPasswordLength ==>
      r == Some(ShortPasswordMessage)
    ensures r.None? <==> HasAt(email) && JsText.Utf16Length(password) >= MinPasswordLength
  {
    if email == "" || password == "" then Some(FillAllFieldsMessage)
    else if !HasAt(email) then Some(InvalidEmailMessage)
    else if JsText.Utf16Length(password) < MinPasswordLength then Some(ShortPasswordMessage)
    else None
  }
}
