/**
 * The community page (src/pages/CommunityPage.tsx): the shared recordings,
 * the name shown on each card, the one card whose feedback is expanded, and
 * the feedback submission handler.
 *
 * The backend is not modelled: each query's outcome is a parameter, and the
 * toasts a handler raises through the store's `addToast` are its result,
 * in the order it raises them.
 */
module CommunityPage {
  import opened Js
  import opened Store

  /** The outcome of a backend call: its data, or an error with a message. */
  datatype Outcome<T> = Ok(data: T) | Failed(message: string)

  /** What `supabase.auth.getUser()` answers: an error, or a user that may be null. */
  datatype AuthAnswer = AuthError(message: string) | SignedIn(userId: Option<Option<string>>)

  /** The row `handleFeedbackSubmit` inserts into the feedback table. */
  datatype FeedbackRow = FeedbackRow(recordingId: string, commentType: string, comment: string, userId: Option<string>)

  function IsShared(r: Recording): bool {
    r.visibility == Public || r.visibility == Anonymous
  }

  /** `publicRecordings`: the public and anonymous recordings, in order. */
  function PublicRecordings(recs: seq<Recording>): (out: seq<Recording>)
    ensures forall r :: r in out ==> r.visibility != Private
  {
    Filter(recs, IsShared)
  }

  /**
   * The shared list keeps every public or anonymous recording, as often as
   * it occurs, in the original order, and drops every private one.
   */
  lemma PublicRecordingsSpec(recs: seq<Recording>, r: Recording)
    ensures r in PublicRecordings(recs) <==> r in recs && r.visibility != Private
    ensures multiset(PublicRecordings(recs))[r] == if r.visibility == Private then 0 else multiset(recs)[r]
    ensures SubsequenceOf(PublicRecordings(recs), recs)
  {
    FilterCounts(recs, IsShared, r);
    FilterSubsequence(recs, IsShared);
  }

  /** The name on a card: "Anonymous", else the username, else the email, else "Unknown User". */
  function DisplayName(r: Recording): (name: string)
    ensures name != ""
    ensures r.visibility == Anonymous ==> name == "Anonymous"
  {
    if r.visibility == Anonymous then "Anonymous"
    else OrElse(r.username, OrElse(r.email, "Unknown User"))
  }

  /**
   * An anonymous card hides who made it, whatever the username and email;
   * any other card shows the first non-empty of username and email.
   */
  lemma DisplayNameSpec(r: Recording, username: Option<string>, email: Option<string>)
    ensures r.visibility == Anonymous ==> DisplayName(r.(username := username, email := email)) == "Anonymous"
    ensures r.visibility != Anonymous && r.username.Some? && r.username.value != "" ==>
      DisplayName(r) == r.username.value
    ensures r.visibility != Anonymous && (r.username.None? || r.username.value == "") ==>
      DisplayName(r) == OrElse(r.email, "Unknown User")
    ensures (&& r.visibility != Anonymous
             && (r.username.None? || r.username.value == "")
             && (r.email.None? || r.email.value == "")) ==> DisplayName(r) == "Unknown User"
  {
  }

  /** `isSelected`: the card's recording has the selected recording's id. */
  predicate IsExpanded(selected: Option<Recording>, r: Recording) {
    selected.Some? && selected.value.id == r.id
  }

  /** With distinct ids on the cards, at most one card is expanded; with no selection, none is. */
  lemma AtMostOneExpanded(selected: Option<Recording>, cards: seq<Recording>, i: int, j: int)
    requires forall a, b :: 0 <= a < b < |cards| ==> cards[a].id != cards[b].id
    requires 0 <= i < |cards| && 0 <= j < |cards|
    ensures IsExpanded(selected, cards[i]) && IsExpanded(selected, cards[j]) ==> i == j
    ensures selected.None? ==> !IsExpanded(selected, cards[i])
  {
    if i < j {
      assert cards[i].id != cards[j].id;
    } else if j < i {
      assert cards[j].id != cards[i].id;
    }
  }

  /** `user?.id || null` */
  function UserIdOrNull(user: Option<Option<string>>): (id: Option<string>)
    ensures id.Some? <==> user.Some? && user.value.Some? && user.value.value != ""
    ensures id.Some? ==> id.value == user.value.value
  {
    if user.Some? && user.value.Some? && user.value.value != "" then user.value else None
  }

  const LoadFailed := ToastRequest("Failed to load feedback", None, Error)
  const EmptyFeedback := ToastRequest("Please enter feedback", None, Error)

  class CommunityPage {
    /** The fetched community recordings. */
    var recordings: seq<Recording>
    /** `selectedRecording`: the recording whose feedback is open, with its feedback loaded. */
    var selected: Option<Recording>

    constructor ()
      ensures recordings == [] && selected == None
    {
      recordings := [];
      selected := None;
    }

    /** The mount effect's `setRecordings(res)`. */
    method SetRecordings(res: seq<Recording>)
      modifies this
      ensures recordings == res && selected == old(selected)
    {
      recordings := res;
    }

    /**
     * `loadFeedbacks`: on success the selection becomes the recording with
     * the loaded feedback; on failure the selection stays and one error toast
     * is raised.
     */
    method LoadFeedbacks(rec: Recording, query: Outcome<seq<Feedback>>) returns (toasts: seq<ToastRequest>)
      modifies this
      ensures recordings == old(recordings)
      ensures query.Ok? ==> selected == Some(rec.(feedback := Some(query.data))) && toasts == []
      ensures query.Failed? ==> selected == old(selected) && toasts == [LoadFailed]
    {
      match query
      case Ok(feedbacks) =>
        selected := Some(rec.(feedback := Some(feedbacks)));
        toasts := [];
      case Failed(_) =>
        toasts := [LoadFailed];
    }

    /** `handleOpenFeedback`: loads the recording's feedback. */
    method OpenFeedback(rec: Recording, query: Outcome<seq<Feedback>>) returns (toasts: seq<ToastRequest>)
      modifies this
      ensures recordings == old(recordings)
      ensures query.Ok? ==> selected.Some? && selected.value.id == rec.id && toasts == []
      ensures query.Ok? ==> forall c :: IsExpanded(selected, c) <==> c.id == rec.id
      ensures query.Failed? ==> selected == old(selected) && toasts == [LoadFailed]
    {
      toasts := LoadFeedbacks(rec, query);
    }

    /** `handleCloseFeedback`: no card is expanded afterwards. */
    method CloseFeedback()
      modifies this
      ensures recordings == old(recordings) && selected == None
      ensures forall c :: !IsExpanded(selected, c)
    {
      selected := None;
    }

    /**
     * `handleFeedbackSubmit`. The guards run in order: a missing recording or
     * a blank comment, then an authentication error, each raising one toast
     * and inserting nothing. Otherwise the untrimmed comment is inserted, a
     * failure or success toast is raised, and the recording's feedback is
     * reloaded whatever the insert's outcome.
     */
    method HandleFeedbackSubmit(recording: Option<Recording>, commentType: string, comment: string,
                                auth: AuthAnswer, insertError: Option<string>,
                                reload: Outcome<seq<Feedback>>)
      returns (toasts: seq<ToastRequest>, inserted: Option<FeedbackRow>)
      modifies this
      ensures recordings == old(recordings)
      ensures recording.None? || Trim(comment) == "" ==>
        toasts == [EmptyFeedback] && inserted.None? && selected == old(selected)
      ensures recording.Some? && Trim(comment) != "" && auth.AuthError? ==>
        toasts == [ToastRequest("User authentication error", Some(auth.message), Error)]
        && inserted.None? && selected == old(selected)
      ensures recording.Some? && Trim(comment) != "" && auth.SignedIn? ==>
        && inserted == Some(FeedbackRow(recording.value.id, commentType, comment, UserIdOrNull(auth.userId)))
        && |toasts| >= 1
        && toasts[0] == (if insertError.Some? then ToastRequest("Failed to submit feedback", insertError, Error)
                         else ToastRequest("Feedback submitted!", None, Success))
        && toasts[1..] == (if reload.Ok? then [] else [LoadFailed])
        && (reload.Ok? ==> selected == Some(recording.value.(feedback := Some(reload.data))))
        && (reload.Failed? ==> selected == old(selected))
    {
      if recording.None? || Trim(comment) == "" {
        toasts, inserted := [EmptyFeedback], None;
        return;
      }
      if auth.AuthError? {
        toasts := [ToastRequest("User authentication error", Some(auth.message), Error)];
        inserted := None;
        return;
      }
      var rec := recording.value;
      inserted := Some(FeedbackRow(rec.id, commentType, comment, UserIdOrNull(auth.userId)));
      if insertError.Some? {
        toasts := [ToastRequest("Failed to submit feedback", insertError, Error)];
      } else {
        toasts := [ToastRequest("Feedback submitted!", None, Success)];
      }
      var more := LoadFeedbacks(rec, reload);
      toasts := toasts + more;
    }
  }

  /** A white-space-only comment is refused before anything reaches the backend. */
  method BlankCommentRefused(rec: Recording) returns (toasts: seq<ToastRequest>, inserted: Option<FeedbackRow>)
    ensures toasts == [EmptyFeedback] && inserted.None?
  {
    var page := new CommunityPage();
    TrimEmptyIffBlank(" \t ");
    toasts, inserted := page.HandleFeedbackSubmit(Some(rec), "encouragement", " \t ",
                                                  SignedIn(Some(Some("u1"))), None, Ok([]));
  }
}
