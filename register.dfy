/** The registration form's submit handler (src/pages/auth/Register.tsx):
    its field checks, the church id it makes up and where it goes next. */
module Register {
  import opened Wrappers
  import opened Text

  datatype Fields = Fields(email: string, password: string, firstName: string, lastName: string, churchName: string)

  /** The arguments of the `signUp` call; the church name is not among them. */
  datatype SignUpCall = SignUpCall(email: string, password: string, firstName: string, lastName: string, churchId: string)

  datatype Check = Refuse(msg: string) | Call(args: SignUpCall)

  /** What the page shows after the call: the dashboard (replacing the
      history entry) or an error toast. */
  datatype After = Dashboard | ErrorToast(msg: string)

  const MinPasswordLength: nat := 6

  predicate AllFilled(f: Fields) {
    f.email != "" && f.password != "" && f.firstName != "" && f.lastName != "" && f.churchName != ""
  }

  /** `church-<ms since the epoch>`. */
  function ChurchIdAt(now: nat): string {
    "church-" + NatToDecimal(now)
  }

  /** The checks, in order, and the call they lead to. */
  function Submit(f: Fields, now: nat): (c: Check)
    ensures c == Refuse("Please fill in all fields") <==> !AllFilled(f)
    ensures c == Refuse("Password must be at least 6 characters") <==> AllFilled(f) && |f.password| < MinPasswordLength
    ensures c.Call? <==> AllFilled(f) && |f.password| >= MinPasswordLength
    ensures c.Call? ==> c.args == SignUpCall(f.email, f.password, f.firstName, f.lastName, ChurchIdAt(now))
  {
    if !Truthy(f.email) || !Truthy(f.password) || !Truthy(f.firstName) || !Truthy(f.lastName) || !Truthy(f.churchName) then
      Refuse("Please fill in all fields")
    else if |f.password| < MinPasswordLength then
      Refuse("Password must be at least 6 characters")
    else
      Call(SignUpCall(f.email, f.password, f.firstName, f.lastName, ChurchIdAt(now)))
  }

  /** The call's outcome: `thrown` is the message of the error `signUp`
      rethrows, if it fails. */
  function AfterSignUp(thrown: Option<string>): (a: After)
    ensures thrown.None? <==> a == Dashboard
    ensures thrown.Some? ==> a == ErrorToast(if thrown.value != "" then thrown.value else "Failed to create account")
  {
    if thrown.None? then Dashboard else ErrorToast(OrElse(thrown, "Failed to create account"))
  }

  /** The church name does not reach the call: two forms that differ only
      in a non-empty church name lead to the same call. */
  lemma ChurchNameNotPassed(f: Fields, otherName: string, now: nat)
    requires otherName != ""
    ensures f.churchName != "" ==> Submit(f.(churchName := otherName), now) == Submit(f, now)
    ensures Submit(f.(churchName := otherName), now).Call? ==>
              Submit(f.(churchName := otherName), now).args == SignUpCall(f.email, f.password, f.firstName, f.lastName, ChurchIdAt(now))
  {
  }

  /** The generated church ids start with "church-", and two registrations
      at different milliseconds get different ids. */
  lemma ChurchIdsDiffer(t1: nat, t2: nat)
    ensures StartsWith(ChurchIdAt(t1), "church-")
    ensures ChurchIdAt(t1) == ChurchIdAt(t2) ==> t1 == t2
  {
    if ChurchIdAt(t1) == ChurchIdAt(t2) {
      assert NatToDecimal(t1) == ChurchIdAt(t1)[7..];
      NatToDecimalInjective(t1, t2);
    }
  }
}
