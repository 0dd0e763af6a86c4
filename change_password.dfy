/**
 * The password settings panel
 * (src/components/ui/ProfileSettings/ChangePassword.tsx): two guards on the
 * new password and its confirmation, in a fixed order, and the panel's
 * editing, loading and input state across save and cancel.
 *
 * The backend's `updateUser` call is not modelled: whether it failed, and
 * with which message, is a parameter of the method that finishes the save.
 */
module ChangePassword {
  import opened Js
  import opened Store

  /** The first guard's toast; the title's spelling is the component's. */
  const EmptyPassword := ToastRequest("password cannot be empyt", None, Error)
  const Mismatch := ToastRequest("Passwords do not match", None, Error)
  const PasswordUpdated := ToastRequest("Password updated", None, Success)

  function UpdateFailed(message: string): ToastRequest {
    ToastRequest("Failed to update password", Some(message), Error)
  }

  /** Which guard, if any, refuses a new password and its confirmation. */
  function Refusal(newPassword: string, confirm: string): (t: Option<ToastRequest>)
    ensures t.None? <==> !AllWhiteSpace(newPassword) && newPassword == confirm
    ensures AllWhiteSpace(newPassword) ==> t == Some(EmptyPassword)
    ensures !AllWhiteSpace(newPassword) && newPassword != confirm ==> t == Some(Mismatch)
  {
    TrimEmptyIffBlank(newPassword);
    if Trim(newPassword) == "" then Some(EmptyPassword)
    else if newPassword != confirm then Some(Mismatch)
    else None
  }

  /**
   * Because the blank test comes first, a blank password with a different
   * confirmation reports the empty password, not the mismatch; and a blank
   * password is refused even when the confirmation repeats it.
   */
  lemma BlankReportedBeforeMismatch(newPassword: string, confirm: string)
    requires AllWhiteSpace(newPassword)
    ensures Refusal(newPassword, confirm) == Some(EmptyPassword)
    ensures Refusal(newPassword, newPassword) == Some(EmptyPassword)
  {
  }

  class PasswordSettings {
    var newPassword: string
    var confirmPassword: string
    var isEditing: bool
    /**
     * Set while an update is pending. It disables the two native inputs
     * only: the Cancel and Save buttons are the project's `Button`, which
     * drops its `disabled` property.
     */
    var loading: bool

    constructor ()
      ensures newPassword == "" && confirmPassword == "" && !isEditing && !loading
    {
      newPassword, confirmPassword, isEditing, loading := "", "", false, false;
    }

    /** The Edit button. */
    method StartEditing()
      modifies this
      ensures isEditing && newPassword == old(newPassword) && confirmPassword == old(confirmPassword)
      ensures loading == old(loading)
    {
      isEditing := true;
    }

    /** The two inputs' `onChange`, possible only while not loading. */
    method SetInputs(password: string, confirm: string)
      requires isEditing && !loading
      modifies this
      ensures newPassword == password && confirmPassword == confirm && isEditing && !loading
    {
      newPassword, confirmPassword := password, confirm;
    }

    /**
     * The first part of `handleSavePassword`, on any click of Save, pending
     * update or not: a refused password raises the guard's toast and changes
     * nothing; otherwise `loading` is set and the backend is asked for the
     * password exactly as typed, untrimmed.
     */
    method BeginSave() returns (toasts: seq<ToastRequest>, request: Option<string>)
      requires isEditing
      modifies this
      ensures newPassword == old(newPassword) && confirmPassword == old(confirmPassword) && isEditing
      ensures Refusal(newPassword, confirmPassword).Some? ==>
        toasts == [Refusal(newPassword, confirmPassword).value] && request.None? && loading == old(loading)
      ensures Refusal(newPassword, confirmPassword).None? ==>
        toasts == [] && request == Some(newPassword) && loading
    {
      var refusal := Refusal(newPassword, confirmPassword);
      if refusal.Some? {
        return [refusal.value], None;
      }
      loading := true;
      toasts, request := [], Some(newPassword);
    }

    /**
     * The rest of `handleSavePassword`, whenever an update answers: loading
     * stops whatever the outcome; a failure keeps both inputs and the panel
     * as they are now, a success clears both and closes it.
     */
    method FinishSave(error: Option<string>) returns (toasts: seq<ToastRequest>)
      modifies this
      ensures !loading
      ensures error.Some? ==>
        && toasts == [UpdateFailed(error.value)] && isEditing == old(isEditing)
        && newPassword == old(newPassword) && confirmPassword == old(confirmPassword)
      ensures error.None? ==>
        toasts == [PasswordUpdated] && !isEditing && newPassword == "" && confirmPassword == ""
    {
      loading := false;
      if error.Some? {
        return [UpdateFailed(error.value)];
      }
      toasts := [PasswordUpdated];
      newPassword, confirmPassword, isEditing := "", "", false;
    }

    /** `handleCancel`: both inputs cleared and the panel closed; a pending update goes on. */
    method Cancel()
      modifies this
      ensures newPassword == "" && confirmPassword == "" && !isEditing && loading == old(loading)
    {
      newPassword, confirmPassword, isEditing := "", "", false;
    }
  }

  /** A password padded with spaces is sent with its spaces when the confirmation matches it. */
  method PaddedPasswordSentUntrimmed() returns (request: Option<string>)
    ensures request == Some(" pass word ")
  {
    var panel := new PasswordSettings();
    panel.StartEditing();
    panel.SetInputs(" pass word ", " pass word ");
    assert !IsWhiteSpace(" pass word "[1]);
    var toasts;
    toasts, request := panel.BeginSave();
  }

  /**
   * A Cancel click while an update is pending closes the panel, and the
   * update's later success still lands: the panel stays closed, both inputs
   * are cleared and loading stops.
   */
  method CancelDuringUpdate(password: string) returns (toasts: seq<ToastRequest>, closed: bool)
    requires !AllWhiteSpace(password)
    ensures toasts == [PasswordUpdated] && closed
  {
    var panel := new PasswordSettings();
    panel.StartEditing();
    panel.SetInputs(password, password);
    var request;
    toasts, request := panel.BeginSave();
    panel.Cancel();
    toasts := panel.FinishSave(None);
    closed := !panel.isEditing && !panel.loading && panel.newPassword == "" && panel.confirmPassword == "";
  }
}
