/** The page a reset link opens, web/pages/reset-password.js: it takes the
    token from the link, checks the new password twice typed and sends the
    token with the password to `POST /auth/reset-password`. */
module ResetPasswordPage {
  import opened Wrappers

  /** The body of `POST /auth/reset-password`. */
  datatype ResetCall = ResetCall(token: string, password: string)

  const MinPasswordLength := 6
  const Mismatch := "Passwords do not match"
  const TooShort := "Password must be at least 6 characters long"
  const Done := "Password reset successfully! Redirecting to login..."
  const NetworkError := "Network error. Please try again."

  datatype View = InvalidLink | ResetForm

  /** Lines 56-66: without a token only the invalid-link view shows. */
  function ViewFor(token: string): (v: View)
    ensures v == InvalidLink <==> token == ""
    ensures v == ResetForm <==> token != ""
  {
    if token == "" then InvalidLink else ResetForm
  }

  /** What `submit` refuses before sending, checked in this order. */
  function Refusal(password: string, confirm: string): (r: Option<string>)
    ensures r == Some(Mismatch) <==> password != confirm
    ensures r == Some(TooShort) <==> password == confirm && |password| < MinPasswordLength
    ensures r == None <==> password == confirm && |password| >= MinPasswordLength
  {
    if password != confirm then Some(Mismatch)
    else if |password| < MinPasswordLength then Some(TooShort)
    else None
  }

  /** A mismatch is reported even when the password is also too short. */
  lemma MismatchReportedFirst(password: string, confirm: string)
    requires password != confirm && |password| < MinPasswordLength
    ensures Refusal(password, confirm) == Some(Mismatch)
  {
  }

  class Page {
    var token: string
    var password: string
    var confirm: string
    var message: string
    var error: string
    var loading: bool
    var sent: seq<ResetCall>
    var route: Option<string>

    /** No request is in flight between events, and every request sent
        carried a password typed the same twice and long enough. */
    predicate Valid()
      reads this
    {
      && !loading
      && forall i :: 0 <= i < |sent| ==> |sent[i].password| >= MinPasswordLength
    }

    /** Lines 14-19: the token comes from the link's `token` parameter, if any. */
    constructor (urlToken: string)
      ensures Valid()
      ensures token == urlToken && password == "" && confirm == "" && message == "" && error == ""
      ensures sent == [] && route == None
    {
      token := urlToken;
      password := "";
      confirm := "";
      message := "";
      error := "";
      loading := false;
      sent := [];
      route := None;
    }

    method Type(password: string, confirm: string)
      requires Valid()
      modifies this
      ensures Valid()
      ensures this.password == password && this.confirm == confirm
      ensures token == old(token) && sent == old(sent) && message == old(message) && error == old(error)
      ensures loading == old(loading) && route == old(route)
    {
      this.password := password;
      this.confirm := confirm;
    }

    /** `submit`, lines 21-54. `failure` is the request's outcome: `None` on
        success, otherwise the error's message ('' when it has none). The
        redirect that follows a success after two seconds is recorded at
        once in `route`. */
    method Submit(failure: Option<string>)
      requires Valid()
      modifies this
      ensures Valid()
      ensures token == old(token) && password == old(password) && confirm == old(confirm)
      ensures var refusal := Refusal(password, confirm);
              refusal.Some? ==> error == refusal.value && message == "" && sent == old(sent) && route == old(route)
      ensures var refusal := Refusal(password, confirm);
              refusal.None? ==> sent == old(sent) + [ResetCall(token, password)]
      ensures var refusal := Refusal(password, confirm);
              refusal.None? && failure.None? ==> message == Done && error == "" && route == Some("/login")
      ensures var refusal := Refusal(password, confirm);
              refusal.None? && failure.Some? ==>
                message == "" && route == old(route)
                && error == (if failure.value != "" then failure.value else NetworkError)
    {
      error := "";
      message := "";
      loading := true;
      if password != confirm {
        error := Mismatch;
        loading := false;
        return;
      }
      if |password| < MinPasswordLength {
        error := TooShort;
        loading := false;
        return;
      }
      sent := sent + [ResetCall(token, password)];
      if failure.None? {
        message := Done;
        route := Some("/login");
      } else {
        error := if failure.value != "" then failure.value else NetworkError;
      }
      loading := false;
    }
  }
}
