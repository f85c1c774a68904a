/**
 * The sign-in hook shared by the customer and the administrator login
 * pages: sign in, and in the administrator variant check the privilege
 * and sign out again when it is missing.
 */
module LoginHook {
  import opened Options
  import opened Remote

  const NotAdmin := "You do not have administrator privileges"
  const Unexpected := "An unexpected error occurred. Please try again."

  datatype Call = SignIn(email: string, password: string) | CheckAdmin | SignOut

  /** The attempt ends on the target page: sign-in succeeded and, for administrators, the check said yes. */
  predicate Navigates(adminOnly: bool, signIn: Outcome<Option<Failure>>, check: Outcome<bool>) {
    signIn == Returned(None) && (!adminOnly || check == Returned(true))
  }

  class Login {
    const redirectPath: string
    const adminOnly: bool
    var loading: bool
    var error: Option<string>
    var calls: seq<Call>
    var navigatedTo: seq<string>

    constructor(redirectPath: string, adminOnly: bool)
      ensures this.redirectPath == redirectPath && this.adminOnly == adminOnly
      ensures !loading && error.None? && calls == [] && navigatedTo == []
    {
      this.redirectPath := redirectPath;
      this.adminOnly := adminOnly;
      loading := false;
      error := None;
      calls := [];
      navigatedTo := [];
    }

    /**
     * `handleLogin`. `signIn`, `check` and `signOut` are how the three
     * awaited calls end; a call that is not reached is not made.
     */
    method HandleLogin(email: string, password: string,
                       signIn: Outcome<Option<Failure>>, check: Outcome<bool>, signOut: Outcome<()>)
      modifies this
      ensures !loading
      ensures Navigates(adminOnly, signIn, check) ==> navigatedTo == old(navigatedTo) + [redirectPath]
      ensures !Navigates(adminOnly, signIn, check) ==> navigatedTo == old(navigatedTo)
      ensures error.None? <==> Navigates(adminOnly, signIn, check)
      ensures signIn.Threw? ==> error == Some(Unexpected) && calls == old(calls) + [SignIn(email, password)]
      ensures signIn.Returned? && signIn.value.Some? ==>
                error == Some(signIn.value.value.message) && calls == old(calls) + [SignIn(email, password)]
      ensures signIn == Returned(None) && !adminOnly ==> calls == old(calls) + [SignIn(email, password)]
      ensures signIn == Returned(None) && adminOnly && check != Returned(false) ==>
                calls == old(calls) + [SignIn(email, password), CheckAdmin]
      ensures signIn == Returned(None) && adminOnly && check == Returned(false) ==>
                calls == old(calls) + [SignIn(email, password), CheckAdmin, SignOut] &&
                error == Some(if signOut.Threw? then Unexpected else NotAdmin)
      ensures signIn == Returned(None) && adminOnly && check.Threw? ==> error == Some(Unexpected)
    {
      loading := true;
      error := None;
      calls := calls + [SignIn(email, password)];
      if signIn.Threw? {
        error := Some(Unexpected);
      } else if signIn.value.Some? {
        error := Some(signIn.value.value.message);
      } else {
        var refused := false;
        if adminOnly {
          calls := calls + [CheckAdmin];
          if check.Threw? {
            error := Some(Unexpected);
            refused := true;
          } else if !check.value {
            calls := calls + [SignOut];
            error := Some(if signOut.Threw? then Unexpected else NotAdmin);
            refused := true;
          }
        }
        if !refused {
          navigatedTo := navigatedTo + [redirectPath];
        }
      }
      loading := false;
    }
  }
}
