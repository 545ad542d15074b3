/**
 * The log-in / sign-up form. A handler that awaits the auth service is split at
 * its `await`: the first method runs up to the call and leaves it `pending`; the
 * second resumes it with the service's answer (`None` for success, `Some(m)` for
 * an error with message `m`). While a call is pending every control of the form
 * is disabled (`disabled={loading}`), so no new submission starts.
 */
module AuthForm {
  import opened Common

  datatype Mode = Login | Signup

  /** The calls the form makes into the auth service. */
  datatype AuthCall =
    | SignUp(email: string, password: string)
    | SignInWithPassword(email: string, password: string)
    | SignInWithGoogle

  const TermsError := "You must agree to the Terms of Use and Privacy Policy."
  const MismatchError := "Passwords do not match."

  /** Every mutable field of the form, so that handlers can say what they leave alone. */
  datatype Snapshot = Snapshot(
    email: string, password: string, confirmPassword: string, agreedToTerms: bool,
    error: Option<string>, loading: bool, showSuccessMessage: bool,
    calls: seq<AuthCall>, pending: Option<AuthCall>, navigations: seq<string>)

  class Form {
    const mode: Mode
    var email: string
    var password: string
    var confirmPassword: string
    var agreedToTerms: bool
    var error: Option<string>
    var loading: bool
    var showSuccessMessage: bool
    /** Every call into the auth service, oldest first. */
    var calls: seq<AuthCall>
    /** The call whose answer the suspended handler awaits. */
    var pending: Option<AuthCall>
    /** Every `router.push` target, oldest first (each push is followed by `router.refresh()`). */
    var navigations: seq<string>

    ghost function State(): Snapshot
      reads this
    {
      Snapshot(email, password, confirmPassword, agreedToTerms, error, loading,
               showSuccessMessage, calls, pending, navigations)
    }

    /**
     * What every state of the form satisfies: a call is only ever pending with the
     * error cleared and `loading` set, and it is the last call made; sign-up calls
     * and the success notice belong to sign-up mode, password log-ins and
     * navigation to log-in mode. The notice appears only after a successful
     * sign-up, with no error and nothing pending.
     */
    ghost predicate Valid()
      reads this
    {
      && (pending.Some? ==> loading && error.None? && calls != [] && calls[|calls| - 1] == pending.value)
      && (forall k :: 0 <= k < |calls| ==> (calls[k].SignUp? ==> mode == Signup))
      && (forall k :: 0 <= k < |calls| ==> (calls[k].SignInWithPassword? ==> mode == Login))
      && (showSuccessMessage ==> mode == Signup && error.None? && pending.None?)
      && (navigations != [] ==> mode == Login)
    }

    constructor (mode: Mode)
      ensures Valid() && this.mode == mode
      ensures State() == Snapshot("", "", "", false, None, false, false, [], None, [])
    {
      this.mode := mode;
      email, password, confirmPassword, agreedToTerms := "", "", "", false;
      error, loading, showSuccessMessage := None, false, false;
      calls, pending, navigations := [], None, [];
    }

    /** The `onChange` handlers of the four inputs. */
    method Edit(newEmail: string, newPassword: string, newConfirm: string, agreed: bool)
      requires Valid()
      modifies this
      ensures Valid()
      ensures State() == old(State()).(email := newEmail, password := newPassword,
                                       confirmPassword := newConfirm, agreedToTerms := agreed)
    {
      email, password, confirmPassword, agreedToTerms := newEmail, newPassword, newConfirm, agreed;
    }

    /**
     * `handleEmailAuth` up to its `await`. In sign-up mode the terms check comes
     * first and touches only `error`; then the error is cleared and `loading` set;
     * a password mismatch stops there with `loading` false again; otherwise the
     * sign-up or log-in call is made. Once the sign-up notice is shown it
     * replaces the whole form, buttons included, so neither submit handler runs.
     */
    method SubmitEmail()
      requires Valid() && pending.None? && !showSuccessMessage
      modifies this
      ensures Valid()
      ensures mode == Signup && !old(agreedToTerms) ==>
        State() == old(State()).(error := Some(TermsError))
      ensures mode == Signup && old(agreedToTerms) && old(password) != old(confirmPassword) ==>
        State() == old(State()).(error := Some(MismatchError), loading := false)
      ensures mode == Signup && old(agreedToTerms) && old(password) == old(confirmPassword) ==>
        var call := SignUp(old(email), old(password));
        State() == old(State()).(error := None, loading := true, calls := old(calls) + [call], pending := Some(call))
      ensures mode == Login ==>
        var call := SignInWithPassword(old(email), old(password));
        State() == old(State()).(error := None, loading := true, calls := old(calls) + [call], pending := Some(call))
    {
      if mode == Signup && !agreedToTerms {
        error := Some(TermsError);
        return;
      }
      error := None;
      loading := true;
      var call;
      if mode == Signup {
        if password != confirmPassword {
          error := Some(MismatchError);
          loading := false;
          return;
        }
        call := SignUp(email, password);
      } else {
        call := SignInWithPassword(email, password);
      }
      calls := calls + [call];
      pending := Some(call);
    }

    /**
     * `handleEmailAuth` after its `await`. A sign-up success shows the notice and
     * stays on the page; a log-in success navigates to "/"; an error shows the
     * service's message. `loading` ends false in every case.
     */
    method EmailAuthSettled(authError: Option<string>)
      requires Valid() && pending.Some? && !pending.value.SignInWithGoogle?
      modifies this
      ensures Valid() && pending.None? && !loading
      ensures authError.Some? ==> !showSuccessMessage
      ensures authError.Some? ==>
        State() == old(State()).(error := authError, loading := false, pending := None)
      ensures authError.None? && old(pending).value.SignUp? ==>
        State() == old(State()).(showSuccessMessage := true, loading := false, pending := None)
      ensures authError.None? && old(pending).value.SignInWithPassword? ==>
        State() == old(State()).(navigations := old(navigations) + ["/"], loading := false, pending := None)
    {
      if authError.Some? {
        error := authError;
      } else if pending.value.SignUp? {
        showSuccessMessage := true;
      } else {
        navigations := navigations + ["/"];
      }
      loading := false;
      pending := None;
    }

    /** `handleGoogleAuth` up to its `await`: clear the error, set `loading`, start the OAuth sign-in. */
    method GoogleAuth()
      requires Valid() && pending.None? && !showSuccessMessage
      modifies this
      ensures Valid()
      ensures State() == old(State()).(error := None, loading := true,
                                       calls := old(calls) + [SignInWithGoogle], pending := Some(SignInWithGoogle))
    {
      error := None;
      loading := true;
      calls := calls + [SignInWithGoogle];
      pending := Some(SignInWithGoogle);
    }

    /**
     * `handleGoogleAuth` after its `await`. Only an error resets `loading`; on
     * success the browser is leaving for the provider and `loading` stays true.
     */
    method GoogleAuthSettled(authError: Option<string>)
      requires Valid() && pending == Some(SignInWithGoogle)
      modifies this
      ensures Valid() && pending.None?
      ensures authError.Some? ==> State() == old(State()).(error := authError, loading := false, pending := None)
      ensures authError.None? ==> State() == old(State()).(pending := None) && loading
    {
      if authError.Some? {
        error := authError;
        loading := false;
      }
      pending := None;
    }
  }

  /**
   * A complete sign-up without accepting the terms: the auth service is never
   * called, and the only visible change is the terms error.
   */
  method SignUpWithoutTerms(email: string, password: string) returns (error: Option<string>, calls: seq<AuthCall>, loading: bool)
    ensures error == Some(TermsError) && calls == [] && !loading
  {
    var form := new Form(Signup);
    form.Edit(email, password, password, false);
    form.SubmitEmail();
    error, calls, loading := form.error, form.calls, form.loading;
  }

  /** A complete password log-in the service accepts: one call, then navigation to "/". */
  method SuccessfulLogin(email: string, password: string) returns (calls: seq<AuthCall>, navigations: seq<string>, loading: bool)
    ensures calls == [SignInWithPassword(email, password)] && navigations == ["/"] && !loading
  {
    var form := new Form(Login);
    form.Edit(email, password, "", false);
    form.SubmitEmail();
    form.EmailAuthSettled(None);
    calls, navigations, loading := form.calls, form.navigations, form.loading;
  }
}
