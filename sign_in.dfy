/**
 * The sign-in form: its validator, and the fixed demonstration user it
 * signs in when the form is valid.
 */
module SignIn {
  import opened Common
  import opened Text
  import opened EmailRule
  import opened Invoices
  import opened AuthChecks
  import Store

  /** `validateForm`: at most one message per field, the "required" one winning. */
  function SignInErrors(email: string, password: string): (e: map<string, string>)
    ensures e.Keys <= {"email", "password"}
    ensures "email" in e <==> !WellFormedEmail(email)
    ensures "email" in e ==> e["email"] == (if email == "" then "Email is required" else "Please enter a valid email")
    ensures "password" in e <==> Utf16Length(password) < 6
    ensures "password" in e ==> e["password"] == (if password == "" then "Password is required" else "Password must be at least 6 characters")
  {
    Record(Record(map[], "email", EmailError(email)), "password", PasswordError(password))
  }

  /** The form is valid exactly when the e-mail is well formed and the password is at least six code units long. */
  lemma SignInValidIff(email: string, password: string)
    ensures |SignInErrors(email, password)| == 0 <==> WellFormedEmail(email) && Utf16Length(password) >= 6
  {
    var e := SignInErrors(email, password);
    NoKeysIsEmpty(e);
    if !WellFormedEmail(email) {
      assert "email" in e;
    }
  }

  /** The user signed in: only the e-mail comes from the form; id, name and avatar are fixed. */
  function SignedInUser(email: string): (u: User)
    ensures u.email == email
    ensures u == User("1", "Mahfuzul Nabil", email, Some("MN"))
  {
    User("1", "Mahfuzul Nabil", email, Some("MN"))
  }

  /** `handleSubmit`: an invalid form never sets a user; a valid one sets the fixed user. */
  method Submit(store: Store.InvoiceStore, email: string, password: string,
                fetched: Option<seq<Document>>) returns (errors: map<string, string>)
    requires store.Valid()
    modifies store
    ensures store.Valid() && store.isLoading == old(store.isLoading) && errors == SignInErrors(email, password)
    ensures errors != map[] ==> store.user == old(store.user) && store.invoices == old(store.invoices)
    ensures errors == map[] ==> store.user == Some(SignedInUser(email))
    ensures errors == map[] && fetched.Some? ==> store.invoices == Store.Fetched(fetched.value)
    ensures errors == map[] && fetched.None? ==> store.invoices == old(store.invoices)
  {
    errors := SignInErrors(email, password);
    NoKeysIsEmpty(errors);
    if |errors| != 0 {
      return;
    }
    store.SetUser(Some(SignedInUser(email)), fetched);
  }
}
