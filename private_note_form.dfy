/**
 * The private note form (src/components/recording/PrivateNoteForm.tsx): a
 * title, a reflection and three self-assessment scores for one recording,
 * filled from the recording, and a save handler whose guards run in a fixed
 * order before the backend is asked to update the recording.
 *
 * The backend call is not modelled: its outcome is a parameter of the
 * method that finishes the save, and the toasts raised through the store's
 * `addToast` are results, in the order they are raised.
 */
module PrivateNoteForm {
  import opened Js
  import opened Store

  /** `x || 5` for a score that may be missing: a missing or zero score reads as 5. */
  function ScoreOr5(v: Option<int>): (s: int)
    ensures v.Some? && v.value != 0 ==> s == v.value
    ensures v.None? || v.value == 0 ==> s == 5
  {
    if v.Some? && v.value != 0 then v.value else 5
  }

  /** The form's fields. */
  datatype Fields = Fields(title: string, reflection: string, metrics: Metrics)

  /** The fields the form starts with, and is reset to whenever the `recording` property changes. */
  function Defaults(rec: Option<Recording>): (f: Fields) {
    var m: Option<Metrics> := if rec.Some? then rec.value.metrics else None;
    Fields(
      if rec.Some? then OrElse(Some(rec.value.title), "") else "",
      if rec.Some? then OrElse(rec.value.reflection, "") else "",
      Metrics(ScoreOr5(if m.Some? then Some(m.value.confidence) else None),
              ScoreOr5(if m.Some? then Some(m.value.fluency) else None),
              ScoreOr5(if m.Some? then Some(m.value.tone) else None)))
  }

  /**
   * Without a recording the form is blank with every score 5; with one, it
   * holds the recording's title, its reflection or "", and its scores, a
   * missing or zero one replaced by 5.
   */
  lemma DefaultsSpec(rec: Option<Recording>)
    ensures rec.None? ==> Defaults(rec) == Fields("", "", Metrics(5, 5, 5))
    ensures rec.Some? ==> Defaults(rec).title == rec.value.title
    ensures rec.Some? ==> Defaults(rec).reflection == rec.value.reflection.GetOr("")
    ensures rec.Some? && rec.value.metrics.Some? ==>
      var m := rec.value.metrics.value;
      Defaults(rec).metrics == Metrics(if m.confidence != 0 then m.confidence else 5,
                                       if m.fluency != 0 then m.fluency else 5,
                                       if m.tone != 0 then m.tone else 5)
    ensures rec.Some? && rec.value.metrics.None? ==> Defaults(rec).metrics == Metrics(5, 5, 5)
  {
  }

  /**
   * `hasChanged`: the title, the reflection or the scores differ from the
   * recording's. A recording's missing reflection differs from every text.
   */
  predicate HasChanged(rec: Recording, f: Fields) {
    rec.title != f.title || rec.reflection != Some(f.reflection) || rec.metrics != Some(f.metrics)
  }

  /**
   * A form freshly filled from a recording counts as changed exactly when the
   * recording has no reflection, has no scores, or has a zero score: those
   * are the fields the defaults replace.
   */
  lemma FreshFormChanged(rec: Recording)
    ensures HasChanged(rec, Defaults(Some(rec))) <==>
      rec.reflection.None? || rec.metrics.None?
      || rec.metrics.value.confidence == 0 || rec.metrics.value.fluency == 0 || rec.metrics.value.tone == 0
  {
  }

  datatype MetricName = Tone | Confidence | Fluency

  /** `{ ...prev, [metric]: value }` */
  function WithMetric(ms: Metrics, m: MetricName, v: int): Metrics {
    match m
    case Tone => ms.(tone := v)
    case Confidence => ms.(confidence := v)
    case Fluency => ms.(fluency := v)
  }

  function Score(ms: Metrics, m: MetricName): int {
    match m
    case Tone => ms.tone
    case Confidence => ms.confidence
    case Fluency => ms.fluency
  }

  /** Setting one score sets it and leaves the other two unchanged; setting it again to the same value is a no-op. */
  lemma WithMetricSpec(ms: Metrics, m: MetricName, v: int, other: MetricName)
    ensures Score(WithMetric(ms, m, v), m) == v
    ensures other != m ==> Score(WithMetric(ms, m, v), other) == Score(ms, other)
    ensures WithMetric(WithMetric(ms, m, v), m, v) == WithMetric(ms, m, v)
    ensures WithMetric(ms, m, Score(ms, m)) == ms
  {
  }

  /**
   * A save under way, as `handleSave`'s closure sees it: the recording and
   * the fields at the moment Save was pressed, and the signed-in user. The
   * backend is asked to update the row `recording.id` with `fields` for `userId`.
   */
  datatype SaveCall = SaveCall(recording: Recording, fields: Fields, userId: string)

  /** How the update call ended: its boolean answer, or a thrown error whose message may be empty. */
  datatype SaveOutcome = Answered(success: bool) | Threw(message: Option<string>)

  /** `{ ...recording, title, reflection, metrics }` */
  function Updated(rec: Recording, f: Fields): (r: Recording)
    ensures r.title == f.title && r.reflection == Some(f.reflection) && r.metrics == Some(f.metrics)
    ensures r.(title := rec.title, reflection := rec.reflection, metrics := rec.metrics) == rec
    ensures !HasChanged(r, f)
  {
    rec.(title := f.title, reflection := Some(f.reflection), metrics := Some(f.metrics))
  }

  const NoRecording := ToastRequest("No recording selected", Some("Please select a recording to save notes."), Error)
  const AuthFailed := ToastRequest("Authentication Error", Some("Please wait for authentication or log in again."), Error)
  const NoChanges := ToastRequest("No changes to save", None, Info)
  const UpdatedToast := ToastRequest("Recording Updated", None, Success)
  const NotUpdated := ToastRequest("Your recording could not be updated.", Some("Check your internet connection and try again."), Error)

  /** What a thrown error raises: its message, or a generic one when it has none. */
  function ErrorToast(message: Option<string>): (t: ToastRequest)
    ensures t.title == "Error Saving Recording" && t.kind == Error
    ensures t.description.Some? && t.description.value != ""
    ensures message.Some? && message.value != "" ==> t.description == message
    ensures !(message.Some? && message.value != "") ==> t.description == Some("An unexpected error occurred.")
  {
    ToastRequest("Error Saving Recording", Some(OrElse(message, "An unexpected error occurred.")), Error)
  }

  class NoteForm {
    /** The `recording` property. */
    var recording: Option<Recording>
    var fields: Fields
    var isSaving: bool

    constructor (rec: Option<Recording>)
      ensures recording == rec && fields == Defaults(rec) && !isSaving
    {
      recording, fields, isSaving := rec, Defaults(rec), false;
    }

    /** The effect on a new `recording` property: the fields are refilled from it. */
    method Load(rec: Option<Recording>)
      modifies this
      ensures recording == rec && fields == Defaults(rec)
      ensures isSaving == old(isSaving)
    {
      recording, fields := rec, Defaults(rec);
    }

    /** The title input's `onChange`. */
    method SetTitle(text: string)
      modifies this
      ensures fields == old(fields).(title := text)
      ensures recording == old(recording) && isSaving == old(isSaving)
    {
      fields := fields.(title := text);
    }

    /** The reflection text area's `onChange`. */
    method SetReflection(text: string)
      modifies this
      ensures fields == old(fields).(reflection := text)
      ensures recording == old(recording) && isSaving == old(isSaving)
    {
      fields := fields.(reflection := text);
    }

    /** `handleMetricChange` from a slider, whose value is one of 1 to 10. */
    method SetMetric(m: MetricName, v: int)
      requires 1 <= v <= 10
      modifies this
      ensures fields == old(fields).(metrics := WithMetric(old(fields).metrics, m, v))
      ensures 1 <= Score(fields.metrics, m) <= 10
      ensures recording == old(recording) && isSaving == old(isSaving)
    {
      fields := fields.(metrics := WithMetric(fields.metrics, m, v));
    }

    /**
     * The first part of `handleSave`. The guards run in order: no recording,
     * then authentication still loading or no user, then nothing changed;
     * each raises one toast and starts nothing. Otherwise the form is saving
     * and the update of the current fields is under way. The Save button is
     * not disabled while saving, so this may start a second save.
     */
    method BeginSave(authLoading: bool, userId: Option<string>)
      returns (toasts: seq<ToastRequest>, call: Option<SaveCall>)
      modifies this
      ensures recording == old(recording) && fields == old(fields)
      ensures recording.None? ==> toasts == [NoRecording] && call.None? && isSaving == old(isSaving)
      ensures recording.Some? && (authLoading || userId.None?) ==>
        toasts == [AuthFailed] && call.None? && isSaving == old(isSaving)
      ensures recording.Some? && !authLoading && userId.Some? && !HasChanged(recording.value, fields) ==>
        toasts == [NoChanges] && call.None? && isSaving == old(isSaving)
      ensures recording.Some? && !authLoading && userId.Some? && HasChanged(recording.value, fields) ==>
        toasts == [] && isSaving && call == Some(SaveCall(recording.value, fields, userId.value))
    {
      if recording.None? {
        return [NoRecording], None;
      }
      if authLoading || userId.None? {
        return [AuthFailed], None;
      }
      if !HasChanged(recording.value, fields) {
        return [NoChanges], None;
      }
      isSaving := true;
      toasts, call := [], Some(SaveCall(recording.value, fields, userId.value));
    }

    /**
     * The rest of `handleSave`, once the update `call` ends: on success the
     * caller gets the captured recording with the captured fields merged in;
     * every outcome raises one toast, and the form stops saving.
     */
    method FinishSave(call: SaveCall, outcome: SaveOutcome) returns (toasts: seq<ToastRequest>, updated: Option<Recording>)
      modifies this
      ensures !isSaving
      ensures recording == old(recording) && fields == old(fields)
      ensures outcome == Answered(true) ==>
        updated == Some(Updated(call.recording, call.fields)) && toasts == [UpdatedToast]
      ensures outcome == Answered(false) ==> updated.None? && toasts == [NotUpdated]
      ensures outcome.Threw? ==> updated.None? && toasts == [ErrorToast(outcome.message)]
    {
      match outcome {
        case Answered(ok) =>
          if ok {
            toasts, updated := [UpdatedToast], Some(Updated(call.recording, call.fields));
          } else {
            toasts, updated := [NotUpdated], None;
          }
        case Threw(message) =>
          toasts, updated := [ErrorToast(message)], None;
      }
      isSaving := false;
    }
  }

  /**
   * Saving an untouched form for a recording that has a reflection and
   * non-zero scores asks for nothing and reports that there is nothing to save.
   */
  method UntouchedFormSavesNothing(rec: Recording, user: string) returns (toasts: seq<ToastRequest>, call: Option<SaveCall>)
    requires rec.reflection.Some? && rec.metrics.Some?
    requires rec.metrics.value.confidence != 0 && rec.metrics.value.fluency != 0 && rec.metrics.value.tone != 0
    ensures toasts == [NoChanges] && call.None?
  {
    var form := new NoteForm(Some(rec));
    FreshFormChanged(rec);
    toasts, call := form.BeginSave(false, Some(user));
  }
}
