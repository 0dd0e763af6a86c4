/**
 * The email settings panel (src/components/ui/ProfileSettings/ChangeEmail.tsx):
 * the validity test the new address must pass, and the panel's editing,
 * loading and input state across save and cancel.
 *
 * The backend's `updateUser` call is not modelled: whether it failed, and
 * with which message, is a parameter of the method that finishes the save.
 */
module ChangeEmail {
  import opened Js
  import opened Store

  /** A character the class `[^\s@]` matches. */
  predicate Plain(c: char) {
    !IsWhiteSpace(c) && c != '@'
  }

  predicate AllPlain(s: string) {
    forall k :: 0 <= k < |s| ==> Plain(s[k])
  }

  /**
   * The pattern `^[^\s@]+@[^\s@]+\.[^\s@]+$`, as the regular expression
   * reads: a first run of plain characters, an `@` at `i`, a second run, a `.`
   * at `j`, and a last run, none of them empty.
   */
  ghost predicate MatchesEmailPattern(s: string) {
    exists i, j :: 0 < i && i + 1 < j && j + 1 < |s| && s[i] == '@' && s[j] == '.'
      && AllPlain(s[..i]) && AllPlain(s[i + 1..j]) && AllPlain(s[j + 1..])
  }

  /**
   * `isValidEmail`, decided without the regular expression: there is an `@`;
   * the part before the first one is non-empty; neither part holds white
   * space or another `@`; and the part after has a `.` that is neither its
   * first nor its last character.
   */
  predicate IsValidEmail(s: string) {
    match AfterFirst(s, '@')
    case None => false
    case Some(domain) =>
      var local := BeforeFirst(s, '@');
      && local != [] && AllPlain(local) && AllPlain(domain)
      && |domain| >= 3 && '.' in domain[1..|domain| - 1]
  }

  lemma AllPlainSlice(s: string, a: int, b: int)
    requires AllPlain(s) && 0 <= a <= b <= |s|
    ensures AllPlain(s[a..b])
  {
    forall k | 0 <= k < b - a ensures Plain(s[a..b][k]) {
      assert s[a..b][k] == s[a + k];
    }
  }

  /** An `@` at `i` and a `.` at `j` with plain runs around them are a match. */
  lemma PatternAt(s: string, i: int, j: int)
    requires 0 < i && i + 1 < j && j + 1 < |s| && s[i] == '@' && s[j] == '.'
    requires AllPlain(s[..i]) && AllPlain(s[i + 1..j]) && AllPlain(s[j + 1..])
    ensures MatchesEmailPattern(s)
  {
  }

  /** A plain domain cut at a `.` at `k + 1` leaves plain runs on both sides. */
  lemma DomainSplit(domain: string, k: int)
    requires AllPlain(domain) && 0 <= k && k + 2 <= |domain|
    ensures AllPlain(domain[..k + 1]) && AllPlain(domain[k + 2..])
  {
    AllPlainSlice(domain, 0, k + 1);
    AllPlainSlice(domain, k + 2, |domain|);
    assert domain[0..k + 1] == domain[..k + 1];
    assert domain[k + 2..|domain|] == domain[k + 2..];
  }

  /** An accepted address, read by position: the first `@` at `i` and the domain after it. */
  lemma ValidEmailParts(s: string)
    requires IsValidEmail(s)
    ensures var i := |BeforeFirst(s, '@')|;
      && 0 < i < |s| && s[i] == '@' && AllPlain(s[..i]) && AllPlain(s[i + 1..])
      && |s[i + 1..]| >= 3 && '.' in s[i + 1..][1..|s[i + 1..]| - 1]
  {
    var local := BeforeFirst(s, '@');
    assert local == s[..|local|];
  }

  /** An `@` at `i` after a plain run, followed by a plain domain with an inner `.`, is a match. */
  lemma DomainMatches(s: string, i: int)
    requires 0 < i < |s| && s[i] == '@' && AllPlain(s[..i]) && AllPlain(s[i + 1..])
    requires |s[i + 1..]| >= 3 && '.' in s[i + 1..][1..|s[i + 1..]| - 1]
    ensures MatchesEmailPattern(s)
  {
    var domain := s[i + 1..];
    var k :| 0 <= k < |domain| - 2 && domain[1..|domain| - 1][k] == '.';
    assert domain[k + 1] == '.';
    DomainSplit(domain, k);
    SliceOfSuffix(s, i + 1, k + 1);
    SliceOfSuffix(s, i + 1, k + 2);
    PatternAt(s, i, i + 2 + k);
  }

  /** Every address the decision procedure accepts matches the pattern. */
  lemma ValidEmailMatches(s: string)
    requires IsValidEmail(s)
    ensures MatchesEmailPattern(s)
  {
    ValidEmailParts(s);
    DomainMatches(s, |BeforeFirst(s, '@')|);
  }

  /** The first part of a match runs up to the first `@`. */
  lemma MatchSplitsAtFirstAt(s: string, i: int)
    requires 0 < i < |s| && s[i] == '@' && AllPlain(s[..i])
    ensures BeforeFirst(s, '@') == s[..i] && AfterFirst(s, '@') == Some(s[i + 1..])
  {
    var local, domain := s[..i], s[i + 1..];
    assert s == local + ['@'] + domain;
    assert '@' !in local by {
      forall k | 0 <= k < |local| ensures local[k] != '@' {
        assert Plain(local[k]);
      }
    }
    BeforeFirstConcat(local, '@', domain);
  }

  /** Plain runs joined by a `.` are plain. */
  lemma JoinedPlain(a: string, b: string)
    requires AllPlain(a) && AllPlain(b)
    ensures AllPlain(a + ['.'] + b)
  {
    var d := a + ['.'] + b;
    forall k | 0 <= k < |d| ensures Plain(d[k]) {
      if k < |a| {
        assert d[k] == a[k];
      } else if k > |a| {
        assert d[k] == b[k - |a| - 1];
      }
    }
  }

  /** A match with its `@` at `i` and its `.` at `j` is accepted by the decision procedure. */
  lemma MatchAtIsValidEmail(s: string, i: int, j: int)
    requires 0 < i && i + 1 < j && j + 1 < |s| && s[i] == '@' && s[j] == '.'
    requires AllPlain(s[..i]) && AllPlain(s[i + 1..j]) && AllPlain(s[j + 1..])
    ensures IsValidEmail(s)
  {
    MatchSplitsAtFirstAt(s, i);
    var domain := s[i + 1..];
    assert domain == s[i + 1..j] + ['.'] + s[j + 1..];
    JoinedPlain(s[i + 1..j], s[j + 1..]);
    assert |domain| >= 3;
    assert domain[1..|domain| - 1][j - i - 2] == '.';
    assert '.' in domain[1..|domain| - 1];
  }

  /** Every address the pattern matches is accepted by the decision procedure. */
  lemma MatchIsValidEmail(s: string)
    requires MatchesEmailPattern(s)
    ensures IsValidEmail(s)
  {
    var i, j :| 0 < i && i + 1 < j && j + 1 < |s| && s[i] == '@' && s[j] == '.'
      && AllPlain(s[..i]) && AllPlain(s[i + 1..j]) && AllPlain(s[j + 1..]);
    MatchAtIsValidEmail(s, i, j);
  }

  /** The decision procedure accepts exactly the strings the pattern matches. */
  lemma IsValidEmailMatchesPattern(s: string)
    ensures IsValidEmail(s) <==> MatchesEmailPattern(s)
  {
    if IsValidEmail(s) {
      ValidEmailMatches(s);
    }
    if MatchesEmailPattern(s) {
      MatchIsValidEmail(s);
    }
  }

  /** An address with no dot after its `@`, or with the dot right after it, is refused. */
  lemma NoDotOrLeadingDotRejected()
    ensures !IsValidEmail("a@b") && !IsValidEmail("a@.b")
  {
    MatchSplitsAtFirstAt("a@b", 1);
    MatchSplitsAtFirstAt("a@.b", 1);
  }

  /** An address with white space before its `@` is refused. */
  lemma SpaceRejected()
    ensures !IsValidEmail("a b@c.d")
  {
    assert BeforeFirst("a b@c.d", '@') == "a b";
    assert !Plain("a b"[1]);
  }

  /** An address with a second `@` is refused. */
  lemma SecondAtRejected()
    ensures !IsValidEmail("a@b@c.d")
  {
    MatchSplitsAtFirstAt("a@b@c.d", 1);
    assert !Plain("b@c.d"[1]);
  }

  /** A plain address with a dotted domain is accepted. */
  lemma PlainAddressAccepted()
    ensures IsValidEmail("a@b.c")
  {
    var s := "a@b.c";
    assert s[..1] == "a" && s[2..3] == "b" && s[4..] == "c";
    MatchAtIsValidEmail(s, 1, 3);
  }

  const InvalidFormat := ToastRequest("Invalid email format", None, Error)
  const ConfirmationSent := ToastRequest("Confirmation email sent",
    Some("Please check your inbox and confirm the new email. After confirmation, log in again to see the changes."), Success)

  function UpdateFailed(message: string): ToastRequest {
    ToastRequest("Failed to update email", Some(message), Error)
  }

  class EmailSettings {
    var newEmail: string
    var isEditing: bool
    /**
     * Set while an update is pending. It disables the native input only: the
     * Cancel and Save buttons are the project's `Button`, which drops its
     * `disabled` property, so they stay clickable.
     */
    var loading: bool

    constructor ()
      ensures newEmail == "" && !isEditing && !loading
    {
      newEmail, isEditing, loading := "", false, false;
    }

    /** The Edit button. */
    method StartEditing()
      modifies this
      ensures isEditing && newEmail == old(newEmail) && loading == old(loading)
    {
      isEditing := true;
    }

    /** The input's `onChange`, possible only while not loading. */
    method SetNewEmail(text: string)
      requires isEditing && !loading
      modifies this
      ensures newEmail == text && isEditing && !loading
    {
      newEmail := text;
    }

    /**
     * The first part of `handleSaveEmail`, on any click of Save, pending
     * update or not. An invalid address raises one toast and changes
     * nothing; a valid one sets `loading` and is the address the backend is
     * asked to switch to.
     */
    method BeginSave() returns (toasts: seq<ToastRequest>, request: Option<string>)
      requires isEditing
      modifies this
      ensures newEmail == old(newEmail) && isEditing
      ensures !IsValidEmail(newEmail) ==> toasts == [InvalidFormat] && request.None? && loading == old(loading)
      ensures IsValidEmail(newEmail) ==> toasts == [] && request == Some(newEmail) && loading
    {
      if !IsValidEmail(newEmail) {
        return [InvalidFormat], None;
      }
      loading := true;
      toasts, request := [], Some(newEmail);
    }

    /**
     * The rest of `handleSaveEmail` as written, whenever an update answers:
     * a failure stops loading and keeps the panel and the input as they are
     * now; a success clears the input and closes the panel but leaves
     * `loading` as it is.
     */
    method FinishSaveAsWritten(error: Option<string>) returns (toasts: seq<ToastRequest>)
      modifies this
      ensures error.Some? ==>
        && toasts == [UpdateFailed(error.value)]
        && !loading && isEditing == old(isEditing) && newEmail == old(newEmail)
      ensures error.None? ==>
        && toasts == [ConfirmationSent]
        && loading == old(loading) && !isEditing && newEmail == ""
    {
      if error.Some? {
        loading := false;
        return [UpdateFailed(error.value)];
      }
      toasts := [ConfirmationSent];
      newEmail, isEditing := "", false;
    }

    /** The rest of `handleSaveEmail` with `loading` cleared on both paths, as the password panel does. */
    method FinishSave(error: Option<string>) returns (toasts: seq<ToastRequest>)
      modifies this
      ensures !loading
      ensures error.Some? ==>
        && toasts == [UpdateFailed(error.value)]
        && isEditing == old(isEditing) && newEmail == old(newEmail)
      ensures error.None? ==> toasts == [ConfirmationSent] && !isEditing && newEmail == ""
    {
      loading := false;
      if error.Some? {
        return [UpdateFailed(error.value)];
      }
      toasts := [ConfirmationSent];
      newEmail, isEditing := "", false;
    }

    /** `handleCancel`: the input is cleared and the panel closed; a pending update goes on. */
    method Cancel()
      modifies this
      ensures newEmail == "" && !isEditing && loading == old(loading)
    {
      newEmail, isEditing := "", false;
    }

    /**
     * A click on Save through a button that honours `disabled={loading}`:
     * while an update is pending nothing happens, otherwise it is `BeginSave`.
     */
    method SaveWhenEnabled() returns (toasts: seq<ToastRequest>, request: Option<string>)
      requires isEditing
      modifies this
      ensures old(loading) ==> toasts == [] && request.None? && loading && newEmail == old(newEmail) && isEditing
      ensures !old(loading) ==> newEmail == old(newEmail) && isEditing
      ensures !old(loading) && !IsValidEmail(newEmail) ==> toasts == [InvalidFormat] && request.None? && !loading
      ensures !old(loading) && IsValidEmail(newEmail) ==> toasts == [] && request == Some(newEmail) && loading
    {
      if loading {
        return [], None;
      }
      toasts, request := BeginSave();
    }
  }

  /** The empty input the panel reopens with after a success is refused by the format test. */
  lemma EmptyAddressRejected()
    ensures !IsValidEmail("")
  {
  }

  /**
   * As written, after one successful change the reopened panel's input is
   * empty and stays disabled, because `loading` is still set. Save then only
   * answers "Invalid email format" and sends nothing; cancelling and
   * reopening leaves the input disabled. No second address can be entered.
   */
  method SecondEditBlockedAsWritten(address: string)
    returns (toasts: seq<ToastRequest>, request: Option<string>, inputDisabled: bool, stillDisabled: bool)
    requires IsValidEmail(address)
    ensures toasts == [InvalidFormat] && request.None?
    ensures inputDisabled && stillDisabled
  {
    var panel := new EmailSettings();
    panel.StartEditing();
    panel.SetNewEmail(address);
    var first, sent := panel.BeginSave();
    first := panel.FinishSaveAsWritten(None);
    panel.StartEditing();
    inputDisabled := panel.isEditing && panel.loading;
    EmptyAddressRejected();
    toasts, request := panel.BeginSave();
    panel.Cancel();
    panel.StartEditing();
    stillDisabled := panel.isEditing && panel.loading;
  }

  /** With `loading` cleared, a second change can be made right after a successful one. */
  method SecondEditAllowed(first: string, second: string) returns (request: Option<string>)
    requires IsValidEmail(first) && IsValidEmail(second)
    ensures request == Some(second)
  {
    var panel := new EmailSettings();
    panel.StartEditing();
    panel.SetNewEmail(first);
    var toasts, r := panel.BeginSave();
    toasts := panel.FinishSave(None);
    panel.StartEditing();
    panel.SetNewEmail(second);
    toasts, request := panel.BeginSave();
  }

  /**
   * As written, a second click on Save while the first update is pending
   * sends the same address again: the button ignores `disabled`.
   */
  method DoubleSaveAsWritten(address: string) returns (first: Option<string>, second: Option<string>)
    requires IsValidEmail(address)
    ensures first == Some(address) && second == Some(address)
  {
    var panel := new EmailSettings();
    panel.StartEditing();
    panel.SetNewEmail(address);
    var toasts;
    toasts, first := panel.BeginSave();
    toasts, second := panel.BeginSave();
  }

  /** Through a button that honours `disabled`, the second click sends nothing. */
  method DoubleSaveWhenEnabled(address: string) returns (first: Option<string>, second: Option<string>)
    requires IsValidEmail(address)
    ensures first == Some(address) && second.None?
  {
    var panel := new EmailSettings();
    panel.StartEditing();
    panel.SetNewEmail(address);
    var toasts;
    toasts, first := panel.SaveWhenEnabled();
    toasts, second := panel.SaveWhenEnabled();
  }
}
