/**
 * The reset-password page. As in the auth form, the submit handler is split at
 * its `await` on the password update; while it is pending the form is disabled.
 * The redirect "/" scheduled three seconds after a success is the flag
 * `redirectScheduled`; the timer itself is not modelled.
 */
module ResetPassword {
  import opened Common

  const MismatchError := "Passwords do not match."

  datatype Snapshot = Snapshot(
    password: string, confirmPassword: string, loading: bool, error: Option<string>,
    success: bool, updates: seq<string>, pending: bool, redirectScheduled: bool)

  class Page {
    var password: string
    var confirmPassword: string
    var loading: bool
    var error: Option<string>
    var success: bool
    /** The passwords sent to `updateUser`, oldest first. */
    var updates: seq<string>
    /** An `updateUser` call is awaited. */
    var pending: bool
    /** `router.push('/')` has been scheduled. */
    var redirectScheduled: bool

    ghost function State(): Snapshot
      reads this
    {
      Snapshot(password, confirmPassword, loading, error, success, updates, pending, redirectScheduled)
    }

    /**
     * `loading` is on exactly while an update is awaited, and then the error is
     * clear and no update has succeeded yet; a redirect is scheduled exactly
     * when the update succeeded.
     */
    ghost predicate Valid()
      reads this
    {
      && (loading <==> pending)
      && (pending ==> error.None? && updates != [] && !success)
      && (success <==> redirectScheduled)
    }

    constructor ()
      ensures Valid() && State() == Snapshot("", "", false, None, false, [], false, false)
    {
      password, confirmPassword, loading, error := "", "", false, None;
      success, updates, pending, redirectScheduled := false, [], false, false;
    }

    /** The `onChange` handlers of the two password fields. */
    method Edit(newPassword: string, newConfirm: string)
      requires Valid()
      modifies this
      ensures Valid() && State() == old(State()).(password := newPassword, confirmPassword := newConfirm)
    {
      password, confirmPassword := newPassword, newConfirm;
    }

    /**
     * `handlePasswordUpdate` up to its `await`. A mismatch only sets the error;
     * otherwise the error is cleared, `loading` set and the update requested.
     * Once an update has succeeded the form is replaced by the success alert
     * (src/app/reset-password/page.tsx:50-53), so there is nothing to submit.
     */
    method Submit()
      requires Valid() && !pending && !success
      modifies this
      ensures Valid()
      ensures old(password) != old(confirmPassword) ==> State() == old(State()).(error := Some(MismatchError))
      ensures old(password) == old(confirmPassword) ==>
        State() == old(State()).(error := None, loading := true,
                                 updates := old(updates) + [old(password)], pending := true)
    {
      if password != confirmPassword {
        error := Some(MismatchError);
        return;
      }
      error := None;
      loading := true;
      updates := updates + [password];
      pending := true;
    }

    /**
     * `handlePasswordUpdate` after its `await`: an error shows its message and
     * leaves `success` false; a success sets it and schedules the redirect.
     * `loading` ends false either way.
     */
    method UpdateSettled(updateError: Option<string>)
      requires Valid() && pending
      modifies this
      ensures Valid() && !loading
      ensures updateError.Some? ==> !success
      ensures updateError.Some? ==>
        State() == old(State()).(error := updateError, loading := false, pending := false)
      ensures updateError.None? ==>
        State() == old(State()).(success := true, redirectScheduled := true, loading := false, pending := false)
    {
      if updateError.Some? {
        error := updateError;
      } else {
        success := true;
        redirectScheduled := true;
      }
      loading := false;
      pending := false;
    }
  }

  /** Two different passwords never reach the auth service. */
  method MismatchedReset(newPassword: string, confirm: string) returns (updates: seq<string>, error: Option<string>, loading: bool)
    requires newPassword != confirm
    ensures updates == [] && error == Some(MismatchError) && !loading
  {
    var page := new Page();
    page.Edit(newPassword, confirm);
    page.Submit();
    updates, error, loading := page.updates, page.error, page.loading;
  }
}
