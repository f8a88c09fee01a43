/**
 * The save check of the profile dialog (src/components/EditProfileModal.tsx):
 * the username is checked first, then the email, and only a pair that passes
 * both is saved and closes the dialog.
 */
module EditProfile {

  datatype SaveOutcome = UsernameInvalid | EmailInvalid | Saved

  /** `!username || username.length < 3`. */
  predicate BadUsername(username: string) {
    |username| < 3
  }

  /** `!email || !email.includes('@')`. */
  predicate BadEmail(email: string) {
    email == "" || '@' !in email
  }

  function Validate(username: string, email: string): (o: SaveOutcome)
    ensures o == UsernameInvalid <==> |username| < 3
    ensures o == EmailInvalid <==> |username| >= 3 && '@' !in email
    ensures o == Saved <==> |username| >= 3 && '@' in email
  {
    if BadUsername(username) then UsernameInvalid
    else if BadEmail(email) then EmailInvalid
    else Saved
  }

  /** What the dialog shows after the check: the loading flag is back to false on every path, and it closes only on success. */
  datatype DialogState = DialogState(isLoading: bool, open: bool)

  function AfterSave(s: DialogState, username: string, email: string): (r: DialogState)
    ensures !r.isLoading
    ensures r.open == (s.open && Validate(username, email) != Saved)
  {
    if Validate(username, email) == Saved then DialogState(false, false) else s.(isLoading := false)
  }

  /** With both fields invalid only the username error is raised. */
  lemma UsernameCheckedFirst(username: string, email: string)
    requires BadUsername(username) && BadEmail(email)
    ensures Validate(username, email) == UsernameInvalid
  {
  }

  /** An empty email always fails once the username passes. */
  lemma EmptyEmailRejected(username: string)
    requires |username| >= 3
    ensures Validate(username, "") == EmailInvalid
  {
  }

  /** The email check only asks for an `@` somewhere: a bare `@` is accepted. */
  lemma BareAtAccepted(username: string)
    requires |username| >= 3
    ensures Validate(username, "@") == Saved
  {
    assert "@"[0] == '@';
  }
}
