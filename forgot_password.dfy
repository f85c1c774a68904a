/**
 * The "forgot password" form: one request for a reset link, whose link
 * leads back to this site's reset page.
 */
module ForgotPasswordForm {
  import opened Options
  import opened Remote

  const CheckEmail := "Check your email for the password reset link."

  /** A reset-link request: the address and the page the link opens. */
  datatype Request = Request(email: string, redirectTo: string)

  /** `${origin}/reset-password`. */
  function RedirectFor(origin: string): (r: string)
    ensures origin <= r && r[|origin|..] == "/reset-password"
  {
    origin + "/reset-password"
  }

  class ForgotPassword {
    var email: string
    var loading: bool
    var message: string
    var error: string
    var requests: seq<Request>

    constructor()
      ensures email == "" && !loading && message == "" && error == "" && requests == []
    {
      email := "";
      loading := false;
      message := "";
      error := "";
      requests := [];
    }

    predicate CanSubmit()
      reads this
    {
      !loading && email != ""
    }

    /** `handleSubmit` on the page served from `origin`; `reply` is the failure the call reports, if any. */
    method HandleSubmit(origin: string, reply: Option<Failure>)
      modifies this
      ensures requests == old(requests) + [Request(email, RedirectFor(origin))]
      ensures email == old(email) && !loading
      ensures reply.Some? ==> error == reply.value.message && message == ""
      ensures reply.None? ==> message == CheckEmail && error == ""
    {
      loading := true;
      message := "";
      error := "";
      var redirectTo := origin + "/reset-password";
      requests := requests + [Request(email, redirectTo)];
      if reply.Some? {
        error := reply.value.message;
      } else {
        message := CheckEmail;
      }
      loading := false;
    }
  }
}
