/**
 * The sign-up form: its validator, and the user it signs in when the form
 * is valid.
 */
module SignUp {
  import opened Common
  import opened Text
  import opened EmailRule
  import opened Invoices
  import opened AuthChecks
  import Store

  /**
   * Empty name first, then the minimum of two UTF-16 code units
   * (`fullName.length`); the name is not trimmed.
   */
  function NameError(fullName: string): (r: Option<string>)
    ensures r.None? <==> Utf16Length(fullName) >= 2
    ensures fullName == "" ==> r == Some("Full name is required")
    ensures fullName != "" && r.Some? ==> r == Some("Name must be at least 2 characters")
  {
    if fullName == "" then Some("Full name is required")
    else if Utf16Length(fullName) < 2 then Some("Name must be at least 2 characters")
    else None
  }

  /** A single character outside the Basic Multilingual Plane is two code units long, so it passes as a name. */
  lemma AstralCharIsLongEnough(c: char)
    requires c as int >= 0x10000
    ensures NameError([c]).None?
  {
    assert [c][..0] == [];
  }

  /** `validateForm`: the error recorded for each field that fails. */
  function SignUpErrors(fullName: string, email: string, password: string): (e: map<string, string>)
    ensures e.Keys <= {"fullName", "email", "password"}
    ensures "fullName" in e <==> NameError(fullName).Some?
    ensures "fullName" in e ==> e["fullName"] == NameError(fullName).value
    ensures "email" in e <==> EmailError(email).Some?
    ensures "email" in e ==> e["email"] == EmailError(email).value
    ensures "password" in e <==> PasswordError(password).Some?
    ensures "password" in e ==> e["password"] == PasswordError(password).value
  {
    var e1 := Record(map[], "fullName", NameError(fullName));
    var e2 := Record(e1, "email", EmailError(email));
    Record(e2, "password", PasswordError(password))
  }

  /**
   * The form is valid exactly when the name is at least two code units long
   * (blanks count), the e-mail is well formed and the password is at least
   * six code units long.
   */
  lemma SignUpValidIff(fullName: string, email: string, password: string)
    ensures |SignUpErrors(fullName, email, password)| == 0 <==>
      Utf16Length(fullName) >= 2 && WellFormedEmail(email) && Utf16Length(password) >= 6
  {
    var e := SignUpErrors(fullName, email, password);
    NoKeysIsEmpty(e);
    if Utf16Length(fullName) < 2 {
      assert "fullName" in e;
    }
  }

  /** The user created on success: id "1", the typed name and e-mail, and the initials as avatar. */
  function NewUser(fullName: string, email: string): (u: User)
    ensures u.id == "1" && u.name == fullName && u.email == email
    ensures u.avatar == Some(Initials(fullName))
    ensures |u.avatar.value| == Min(2, |fullName|)
  {
    User("1", fullName, email, Some(Initials(fullName)))
  }

  /**
   * `handleSubmit`: an invalid form records its errors and leaves the store
   * alone; a valid one sets the new user, which reloads that user's invoices
   * (`fetched` is what the reload returned, None when it failed).
   */
  method Submit(store: Store.InvoiceStore, fullName: string, email: string, password: string,
                fetched: Option<seq<Document>>) returns (errors: map<string, string>)
    requires store.Valid()
    modifies store
    ensures store.Valid() && store.isLoading == old(store.isLoading) && errors == SignUpErrors(fullName, email, password)
    ensures errors != map[] ==> store.user == old(store.user) && store.invoices == old(store.invoices)
    ensures errors == map[] ==> store.user == Some(NewUser(fullName, email))
    ensures errors == map[] && fetched.Some? ==> store.invoices == Store.Fetched(fetched.value)
    ensures errors == map[] && fetched.None? ==> store.invoices == old(store.invoices)
  {
    errors := SignUpErrors(fullName, email, password);
    NoKeysIsEmpty(errors);
    if |errors| != 0 {
      return;
    }
    store.SetUser(Some(NewUser(fullName, email)), fetched);
  }
}
