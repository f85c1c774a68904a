/**
 * The "set a new password" form: the confirmation check, the password
 * update and the delayed return to the sign-in page.
 */
module ResetPasswordForm {
  import opened Options
  import opened Remote

  const Mismatch := "Passwords do not match"
  const Updated := "Password updated successfully. You can now sign in."
  const LoginPath := "/login"

  class ResetPassword {
    var password: string
    var confirmPassword: string
    var loading: bool
    var error: string
    var message: string
    /** The passwords sent to the backend, one per update call. */
    var updates: seq<string>
    /** The navigation the 1.2 s timer will perform. */
    var scheduled: Option<string>
    var navigatedTo: seq<string>

    constructor()
      ensures password == "" && confirmPassword == "" && !loading && error == "" && message == ""
      ensures updates == [] && scheduled.None? && navigatedTo == []
    {
      password := "";
      confirmPassword := "";
      loading := false;
      error := "";
      message := "";
      updates := [];
      scheduled := None;
      navigatedTo := [];
    }

    /** The submit button is enabled only when not loading and both fields are filled. */
    predicate CanSubmit()
      reads this
    {
      !loading && password != "" && confirmPassword != ""
    }

    /**
     * `handleSubmit`; `reply` is the failure the update call reports, if
     * any. A mismatch stops before the call and never sets loading.
     */
    method HandleSubmit(reply: Option<Failure>)
      modifies this
      ensures password == old(password) && confirmPassword == old(confirmPassword)
      ensures navigatedTo == old(navigatedTo)
      ensures password != confirmPassword ==>
                error == Mismatch && message == "" && updates == old(updates) &&
                scheduled == old(scheduled) && loading == old(loading)
      ensures password == confirmPassword ==> updates == old(updates) + [password] && !loading
      ensures password == confirmPassword && reply.Some? ==>
                error == reply.value.message && message == "" && scheduled == old(scheduled)
      ensures password == confirmPassword && reply.None? ==>
                error == "" && message == Updated && scheduled == Some(LoginPath)
    {
      error := "";
      message := "";
      if password != confirmPassword {
        error := Mismatch;
        return;
      }
      loading := true;
      updates := updates + [password];
      if reply.Some? {
        error := reply.value.message;
      } else {
        message := Updated;
        scheduled := Some(LoginPath);
      }
      loading := false;
    }

    /** The timer fires: the scheduled navigation happens once. */
    method TimerFires()
      modifies this
      ensures scheduled.None?
      ensures old(scheduled).Some? ==> navigatedTo == old(navigatedTo) + [old(scheduled).value]
      ensures old(scheduled).None? ==> navigatedTo == old(navigatedTo)
      ensures password == old(password) && confirmPassword == old(confirmPassword) && loading == old(loading)
      ensures error == old(error) && message == old(message) && updates == old(updates)
    {
      if scheduled.Some? {
        navigatedTo := navigatedTo + [scheduled.value];
      }
      scheduled := None;
    }
  }

  /** A successful update leads to the sign-in page once its timer fires. */
  method SuccessLeadsToLogin(r: ResetPassword)
    requires r.password == r.confirmPassword
    modifies r
    ensures r.navigatedTo == old(r.navigatedTo) + [LoginPath]
    ensures r.message == Updated && r.error == ""
  {
    r.HandleSubmit(None);
    r.TimerFires();
  }
}
