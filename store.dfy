/**
 * The client-side store (`useStore`, src/store/store.ts): one state object
 * whose actions overwrite some of its fields. The entity types every other
 * component works on are declared here, as the store file declares them.
 *
 * What the store takes from its environment is passed in: the fresh
 * identifiers `crypto.randomUUID()` would produce, the value `Math.random()`
 * would draw, and the ISO-8601 text of the current instant.
 */
module Store {
  import opened Js

  datatype Visibility = Private | Public | Anonymous

  /** Self-assessment of a recording (the field order is the declared one). */
  datatype Metrics = Metrics(confidence: int, fluency: int, tone: int)

  /** A row of the feedback table, as the community page loads it. */
  datatype Feedback = Feedback(
    id: string, recordingId: string, userId: Option<string>,
    commentType: string, comment: string, createdAt: string)

  /**
   * A recording. `date` and `isPublic` are not in the declared type but are
   * read by the progress views and the profile page; a missing `isPublic`
   * reads as false, and `date` is None when it is not a string.
   */
  datatype Recording = Recording(
    id: string, userId: string, email: Option<string>, username: Option<string>,
    prompt: string, audioUrl: string, visibility: Visibility, createdAt: string,
    reflection: Option<string>, title: string, metrics: Option<Metrics>,
    feedback: Option<seq<Feedback>>, date: Option<string>, isPublic: bool)

  /**
   * `Partial<Recording>`: every property may be absent (None). For an
   * optional property, `Some(None)` is a property present with value undefined.
   */
  datatype RecordingPatch = RecordingPatch(
    id: Option<string>, userId: Option<string>, email: Option<Option<string>>,
    username: Option<Option<string>>, prompt: Option<string>, audioUrl: Option<string>,
    visibility: Option<Visibility>, createdAt: Option<string>,
    reflection: Option<Option<string>>, title: Option<string>,
    metrics: Option<Option<Metrics>>, feedback: Option<Option<seq<Feedback>>>,
    date: Option<Option<string>>, isPublic: Option<bool>)

  /** The patch with no properties. */
  const NoChange := RecordingPatch(None, None, None, None, None, None, None,
                                   None, None, None, None, None, None, None)

  datatype User = User(
    id: string, username: string, email: string, joinedDate: string,
    streakCount: int, lastActive: string)

  datatype ProgressMetric = ProgressMetric(date: string, tone: int, confidence: int, fluency: int)

  /** An entry of the store's `activityData`: a day key and a count. */
  datatype ActivityEntry = ActivityEntry(date: string, count: nat)

  datatype ToastKind = Default | Success | Error | Info

  datatype Toast = Toast(id: string, title: string, description: Option<string>, kind: ToastKind)

  /** `Omit<Toast, "id">`: what a caller of `addToast` passes. */
  datatype ToastRequest = ToastRequest(title: string, description: Option<string>, kind: ToastKind)

  type Chunk = seq<bv8>

  /** An audio blob: the recorded chunks and a MIME type. */
  datatype Blob = Blob(parts: seq<Chunk>, mimeType: string)

  const MockPrompts: seq<string> := [
    "What's your favorite place you've ever visited and why?",
    "If you could have dinner with anyone, living or dead, who would it be and why?",
    "Describe the most beautiful thing you've ever seen.",
    "What's a skill you'd like to learn and why?",
    "Describe a perfect day from morning to night.",
    "What's a book or movie that changed your perspective?",
    "If you could live anywhere in the world, where would it be?",
    "What's a small everyday thing that brings you joy?",
    "What advice would you give to your younger self?",
    "Describe a challenge you've overcome and how it changed you."
  ]

  /** A draw in [0, 1) scaled by a positive length, rounded down, is an index below that length. */
  lemma DrawBelow(draw: real, n: nat)
    requires 0.0 <= draw < 1.0 && n > 0
    ensures 0 <= (draw * n as real).Floor < n
  {
    var x := draw * n as real;
    assert 0.0 <= x < n as real;
  }

  /** `xs[Math.floor(draw * xs.length)]` for a draw in [0, 1). */
  function Pick(xs: seq<string>, draw: real): (p: string)
    requires |xs| > 0 && 0.0 <= draw < 1.0
    ensures p in xs
  {
    DrawBelow(draw, |xs|);
    xs[(draw * |xs| as real).Floor]
  }

  /**
   * `getRandomPrompt`: `mockPrompts[Math.floor(draw * mockPrompts.length)]`,
   * where `draw` is the value of `Math.random()`, so in [0, 1).
   */
  function RandomPrompt(draw: real): (p: string)
    requires 0.0 <= draw < 1.0
    ensures p in MockPrompts
  {
    Pick(MockPrompts, draw)
  }

  /** The draw k/n is in [0, 1) and scales back to k. */
  lemma ScaledDraw(k: nat, n: nat)
    requires k < n
    ensures 0.0 <= k as real / n as real < 1.0
    ensures (k as real / n as real * n as real).Floor == k
  {
    assert k as real / n as real * n as real == k as real;
  }

  /** The draw k/n selects entry k of a list of n entries. */
  lemma PickReachable(xs: seq<string>, k: nat)
    requires k < |xs|
    ensures 0.0 <= k as real / |xs| as real < 1.0
    ensures Pick(xs, k as real / |xs| as real) == xs[k]
  {
    ScaledDraw(k, |xs|);
  }

  /** Every prompt can be drawn: the draw k/10 selects prompt k. */
  lemma EveryPromptReachable(k: nat)
    requires k < |MockPrompts|
    ensures RandomPrompt(k as real / |MockPrompts| as real) == MockPrompts[k]
  {
    PickReachable(MockPrompts, k);
  }

  /** `{ ...r, ...p }`: every property present in `p` overrides the one of `r`. */
  function Merge(r: Recording, p: RecordingPatch): Recording {
    Recording(
      p.id.GetOr(r.id), p.userId.GetOr(r.userId), p.email.GetOr(r.email),
      p.username.GetOr(r.username), p.prompt.GetOr(r.prompt), p.audioUrl.GetOr(r.audioUrl),
      p.visibility.GetOr(r.visibility), p.createdAt.GetOr(r.createdAt),
      p.reflection.GetOr(r.reflection), p.title.GetOr(r.title), p.metrics.GetOr(r.metrics),
      p.feedback.GetOr(r.feedback), p.date.GetOr(r.date), p.isPublic.GetOr(r.isPublic))
  }

  /** Merging the empty patch changes nothing, and merging a patch twice is merging it once. */
  lemma MergeLaws(r: Recording, p: RecordingPatch)
    ensures Merge(r, NoChange) == r
    ensures Merge(Merge(r, p), p) == Merge(r, p)
    ensures p.id.None? ==> Merge(r, p).id == r.id
    ensures p.title.Some? ==> Merge(r, p).title == p.title.value
  {
  }

  /** `recordings.map(r => r.id === id ? { ...r, ...p } : r)` */
  function Patched(rs: seq<Recording>, id: string, p: RecordingPatch): (out: seq<Recording>)
    ensures |out| == |rs|
    ensures forall i :: 0 <= i < |rs| && rs[i].id != id ==> out[i] == rs[i]
    ensures forall i :: 0 <= i < |rs| && rs[i].id == id ==> out[i] == Merge(rs[i], p)
  {
    if rs == [] then []
    else [if rs[0].id == id then Merge(rs[0], p) else rs[0]] + Patched(rs[1..], id, p)
  }

  /** Patching an id that no recording has leaves the list as it was. */
  lemma PatchedAbsent(rs: seq<Recording>, id: string, p: RecordingPatch)
    ensures (forall r :: r in rs ==> r.id != id) ==> Patched(rs, id, p) == rs
  {
    if forall r :: r in rs ==> r.id != id {
      var out := Patched(rs, id, p);
      forall i | 0 <= i < |rs| ensures out[i] == rs[i] {
        assert rs[i] in rs;
      }
    }
  }

  function RecordingId(r: Recording): string { r.id }
  function ToastId(t: Toast): string { t.id }

  /** `xs.filter(x => idOf(x) !== id)` */
  function WithoutId<T(!new)>(xs: seq<T>, idOf: T -> string, id: string): seq<T> {
    Filter(xs, x => idOf(x) != id)
  }

  /**
   * Removing an id drops exactly the entries with that id, keeps every other
   * entry as often as it occurred, and keeps their order.
   */
  lemma WithoutIdSpec<T(!new)>(xs: seq<T>, ys: seq<T>, idOf: T -> string, id: string, x: T)
    ensures multiset(WithoutId(xs, idOf, id))[x] == if idOf(x) == id then 0 else multiset(xs)[x]
    ensures WithoutId(xs + ys, idOf, id) == WithoutId(xs, idOf, id) + WithoutId(ys, idOf, id)
  {
    FilterCounts(xs, x => idOf(x) != id, x);
    FilterAppend(xs, ys, x => idOf(x) != id);
  }

  /** Removing an id no entry has is a no-op; removing an id twice is removing it once. */
  lemma WithoutIdAbsent<T(!new)>(xs: seq<T>, idOf: T -> string, id: string)
    ensures (forall x :: x in xs ==> idOf(x) != id) ==> WithoutId(xs, idOf, id) == xs
    ensures WithoutId(WithoutId(xs, idOf, id), idOf, id) == WithoutId(xs, idOf, id)
  {
    if forall x :: x in xs ==> idOf(x) != id {
      FilterAll(xs, x => idOf(x) != id);
    }
    FilterIdempotent(xs, x => idOf(x) != id);
  }

  /** No two toasts share an id. */
  predicate UniqueIds(ts: seq<Toast>) {
    forall i, j :: 0 <= i < j < |ts| ==> ts[i].id != ts[j].id
  }

  /** The filter keeps unique ids unique. */
  lemma {:induction false} WithoutIdUnique(ts: seq<Toast>, id: string)
    requires UniqueIds(ts)
    ensures UniqueIds(WithoutId(ts, ToastId, id))
  {
    if ts != [] {
      WithoutIdUnique(ts[1..], id);
      var rest := WithoutId(ts[1..], ToastId, id);
      forall t | t in rest ensures t.id != ts[0].id {
        var k :| 0 <= k < |ts[1..]| && ts[1..][k] == t;
        assert ts[k + 1] == t;
      }
    }
  }

  /** The value of every store field, used to state what an action leaves alone. */
  datatype StoreState = StoreState(
    isAuthenticated: bool, user: Option<User>, token: Option<string>,
    recordings: seq<Recording>, dailyPrompt: string, progressData: seq<ProgressMetric>,
    activityData: seq<ActivityEntry>, toasts: seq<Toast>, isRecording: bool,
    currentAudioBlob: Option<Blob>, pendingExpiries: set<string>)

  class Store {
    var isAuthenticated: bool
    var user: Option<User>
    var token: Option<string>
    var recordings: seq<Recording>
    var dailyPrompt: string
    var progressData: seq<ProgressMetric>
    var activityData: seq<ActivityEntry>
    var toasts: seq<Toast>
    var isRecording: bool
    var currentAudioBlob: Option<Blob>
    /** Ids of the toasts whose 5-second expiry timer has not fired yet. */
    var pendingExpiries: set<string>

    /**
     * The store's invariant: the daily prompt is one of the mock prompts, no
     * two live toasts share an id, and every live toast still has its expiry
     * timer pending (so every toast is eventually removed).
     */
    ghost predicate Valid()
      reads this
    {
      && dailyPrompt in MockPrompts
      && UniqueIds(toasts)
      && (forall t :: t in toasts ==> t.id in pendingExpiries)
    }

    function State(): StoreState
      reads this
    {
      StoreState(isAuthenticated, user, token, recordings, dailyPrompt, progressData,
                 activityData, toasts, isRecording, currentAudioBlob, pendingExpiries)
    }

    /** The initial state; `draw` is the `Math.random()` value for the first prompt. */
    constructor (draw: real)
      requires 0.0 <= draw < 1.0
      ensures Valid()
      ensures State() == StoreState(false, None, None, [], RandomPrompt(draw), [], [], [],
                                    false, None, {})
    {
      isAuthenticated, user, token := false, None, None;
      recordings, dailyPrompt, progressData, activityData := [], RandomPrompt(draw), [], [];
      toasts, isRecording, currentAudioBlob, pendingExpiries := [], false, None, {};
    }

    /** `authenticateUser(user, token)` (the `localStorage` write is not modelled). */
    method AuthenticateUser(u: User, tok: string)
      requires Valid()
      modifies this
      ensures Valid()
      ensures State() == old(State()).(isAuthenticated := true, user := Some(u), token := Some(tok))
    {
      isAuthenticated, user, token := true, Some(u), Some(tok);
    }

    /**
     * The mock `login`: user id "1", the username is the part of the email
     * before the first `@`, both timestamps are `now`, and the streak is 0.
     */
    method Login(email: string, password: string, now: string)
      requires Valid()
      modifies this
      ensures Valid()
      ensures State() == old(State()).(isAuthenticated := true,
        user := Some(User("1", BeforeFirst(email, '@'), email, now, 0, now)))
      ensures '@' !in user.value.username && user.value.username <= email
    {
      isAuthenticated := true;
      user := Some(User("1", BeforeFirst(email, '@'), email, now, 0, now));
    }

    /** `logout`: the token, recordings and toasts stay as they are. */
    method Logout()
      requires Valid()
      modifies this
      ensures Valid()
      ensures State() == old(State()).(isAuthenticated := false, user := None)
    {
      isAuthenticated, user := false, None;
    }

    /**
     * `addRecording`: appends the recording under the fresh id `newId`, logs
     * one activity entry for the UTC day of `nowIso`, and redraws the prompt.
     */
    method AddRecording(rec: Recording, newId: string, nowIso: string, draw: real)
      requires Valid()
      requires forall r :: r in recordings ==> r.id != newId
      requires 0.0 <= draw < 1.0
      modifies this
      ensures Valid()
      ensures State() == old(State()).(
        recordings := old(recordings) + [rec.(id := newId)],
        dailyPrompt := RandomPrompt(draw),
        activityData := old(activityData) + [ActivityEntry(BeforeFirst(nowIso, 'T'), 1)])
      ensures |recordings| == |old(recordings)| + 1 && recordings[|recordings| - 1].id == newId
    {
      recordings := recordings + [rec.(id := newId)];
      dailyPrompt := RandomPrompt(draw);
      activityData := activityData + [ActivityEntry(BeforeFirst(nowIso, 'T'), 1)];
    }

    /** `updateRecording(id, data)`: merges `data` into every recording with that id. */
    method UpdateRecording(id: string, data: RecordingPatch)
      requires Valid()
      modifies this
      ensures Valid()
      ensures State() == old(State()).(recordings := Patched(old(recordings), id, data))
      ensures (forall r :: r in old(recordings) ==> r.id != id) ==> recordings == old(recordings)
    {
      PatchedAbsent(recordings, id, data);
      recordings := Patched(recordings, id, data);
    }

    /** `deleteRecording(id)`: removes exactly the recordings with that id. */
    method DeleteRecording(id: string)
      requires Valid()
      modifies this
      ensures Valid()
      ensures State() == old(State()).(recordings := WithoutId(old(recordings), RecordingId, id))
    {
      recordings := WithoutId(recordings, RecordingId, id);
    }

    method SetIsRecording(b: bool)
      requires Valid()
      modifies this
      ensures Valid()
      ensures State() == old(State()).(isRecording := b)
    {
      isRecording := b;
    }

    method SetCurrentAudioBlob(blob: Option<Blob>)
      requires Valid()
      modifies this
      ensures Valid()
      ensures State() == old(State()).(currentAudioBlob := blob)
    {
      currentAudioBlob := blob;
    }

    /**
     * `addToast`: appends the toast under the fresh id `id` and starts its
     * 5-second expiry timer.
     */
    method AddToast(req: ToastRequest, id: string)
      requires Valid()
      requires id !in pendingExpiries
      modifies this
      ensures Valid()
      ensures State() == old(State()).(
        toasts := old(toasts) + [Toast(id, req.title, req.description, req.kind)],
        pendingExpiries := old(pendingExpiries) + {id})
    {
      toasts := toasts + [Toast(id, req.title, req.description, req.kind)];
      pendingExpiries := pendingExpiries + {id};
    }

    /**
     * The expiry timer of toast `id` fires: the toast is removed if it is
     * still there (it may have been dismissed already).
     */
    method Expire(id: string)
      requires Valid()
      requires id in pendingExpiries
      modifies this
      ensures Valid()
      ensures State() == old(State()).(
        toasts := WithoutId(old(toasts), ToastId, id),
        pendingExpiries := old(pendingExpiries) - {id})
      ensures forall t :: t in toasts ==> t.id != id
    {
      WithoutIdUnique(toasts, id);
      toasts := WithoutId(toasts, ToastId, id);
      pendingExpiries := pendingExpiries - {id};
    }

    /** `removeToast(id)`: dismissal; the toast's timer stays pending and later finds nothing. */
    method RemoveToast(id: string)
      requires Valid()
      modifies this
      ensures Valid()
      ensures State() == old(State()).(toasts := WithoutId(old(toasts), ToastId, id))
      ensures forall t :: t in toasts ==> t.id != id
    {
      WithoutIdUnique(toasts, id);
      toasts := WithoutId(toasts, ToastId, id);
    }
  }

  /**
   * A toast that is never dismissed is gone once its timer fires, and
   * dismissing it first makes the expiry a no-op.
   */
  method ToastLifecycle(req: ToastRequest, id: string) returns (afterExpiry: seq<Toast>, afterBoth: seq<Toast>)
    ensures afterExpiry == [] && afterBoth == []
  {
    var s := new Store(0.0);
    s.AddToast(req, id);
    s.Expire(id);
    afterExpiry := s.toasts;
    var t := new Store(0.0);
    t.AddToast(req, id);
    t.RemoveToast(id);
    t.Expire(id);
    afterBoth := t.toasts;
  }
}
