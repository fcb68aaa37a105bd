/**
 * The e-mail and password checks shared by the sign-in and sign-up forms,
 * each giving the message the form shows next to the field, or None.
 */
module AuthChecks {
  import opened Common
  import opened Text
  import opened EmailRule

  /** Empty e-mail first, then the e-mail pattern. */
  function EmailError(email: string): (r: Option<string>)
    ensures r.None? <==> WellFormedEmail(email)
    ensures email == "" ==> r == Some("Email is required")
    ensures email != "" && r.Some? ==> r == Some("Please enter a valid email")
  {
    EmailPatternIff(email);
    if email == "" then
      Some("Email is required")
    else if !EmailPattern(email) then
      Some("Please enter a valid email")
    else
      None
  }

  /** Empty password first, then the minimum of six UTF-16 code units (`password.length`). */
  function PasswordError(password: string): (r: Option<string>)
    ensures r.None? <==> Utf16Length(password) >= 6
    ensures password == "" ==> r == Some("Password is required")
    ensures password != "" && r.Some? ==> r == Some("Password must be at least 6 characters")
  {
    if password == "" then Some("Password is required")
    else if Utf16Length(password) < 6 then Some("Password must be at least 6 characters")
    else None
  }

  /** `newErrors[key] = message` when there is a message. */
  function Record(errors: map<string, string>, key: string, message: Option<string>): (r: map<string, string>)
    ensures key in r <==> key in errors || message.Some?
    ensures message.Some? ==> r[key] == message.value
    ensures forall k :: k != key ==> (k in r <==> k in errors) && (k in r ==> r[k] == errors[k])
  {
    if message.Some? then errors[key := message.value] else errors
  }

  /** `Object.keys(newErrors).length === 0`. */
  lemma NoKeysIsEmpty(errors: map<string, string>)
    ensures |errors| == 0 <==> errors == map[]
  {
    if errors != map[] {
      var k :| k in errors;
    }
  }
}
