/**
 * The voice recorder (src/components/recording/VoiceRecorder.tsx): the
 * elapsed-time label, the choice of the prompt a recording is saved under,
 * and the recorder session, whose chunk buffer fills while recording and
 * becomes the current audio blob when the recorder stops.
 *
 * The browser's media devices, `MediaRecorder` and object URLs are not
 * modelled: whether the microphone could be opened, each recorded chunk and
 * each created URL are parameters, and the recorder's events are methods.
 */
module VoiceRecorder {
  import opened Js
  import opened Store

  /** The label of `mins` minutes and `secs` seconds: the minutes, a colon and the seconds padded to two digits. */
  function Label(mins: nat, secs: nat): (t: string)
    ensures ':' in t
  {
    var m := NatToString(mins);
    var t := m + [':'] + PadStart(NatToString(secs), 2, '0');
    assert t[|m|] == ':';
    t
  }

  /** `formatTime`, with `Math.floor(seconds / 60)` minutes and `seconds % 60` seconds. */
  function FormatTime(seconds: nat): (t: string)
    ensures ':' in t
  {
    Label(seconds / 60, seconds % 60)
  }

  /** Reads an `M:SS` label back as a number of seconds. */
  function ParseTime(t: string): Option<nat> {
    match AfterFirst(t, ':')
    case None => None
    case Some(secs) =>
      var mins := BeforeFirst(t, ':');
      if mins != [] && AllDigits(mins) && |secs| == 2 && AllDigits(secs)
      then Some(ParseNat(mins) * 60 + ParseNat(secs))
      else None
  }

  /** The seconds of a minute, zero-padded, read back. */
  lemma PaddedSeconds(secs: nat)
    requires secs < 60
    ensures var p := PadStart(NatToString(secs), 2, '0');
      |p| == 2 && AllDigits(p) && ParseNat(p) == secs
  {
    var s := NatToString(secs);
    var p := PadStart(s, 2, '0');
    ParseNatToString(secs);
    if secs < 10 {
      assert p == ['0'] + s;
      assert p[..1] == ['0'];
    } else {
      assert p == s;
    }
  }

  /** Decimal minutes, a colon and two decimal digits read back as their value. */
  lemma ParseLabel(m: string, p: string, mins: nat, secs: nat)
    requires m != [] && AllDigits(m) && ParseNat(m) == mins
    requires |p| == 2 && AllDigits(p) && ParseNat(p) == secs
    ensures ParseTime(m + [':'] + p) == Some(mins * 60 + secs)
  {
    assert ':' !in m by {
      forall i | 0 <= i < |m| ensures m[i] != ':' {
        assert IsDigit(m[i]);
      }
    }
    BeforeFirstConcat(m, ':', p);
  }

  /**
   * A label splits at its one colon into the decimal minutes, with no
   * leading zero, and exactly two digits of seconds, and reads back as the
   * total number of seconds.
   */
  lemma LabelRoundTrip(mins: nat, secs: nat)
    requires secs < 60
    ensures BeforeFirst(Label(mins, secs), ':') == NatToString(mins)
    ensures AfterFirst(Label(mins, secs), ':') == Some(PadStart(NatToString(secs), 2, '0'))
    ensures |AfterFirst(Label(mins, secs), ':').value| == 2
    ensures ParseTime(Label(mins, secs)) == Some(mins * 60 + secs)
  {
    var m := NatToString(mins);
    var p := PadStart(NatToString(secs), 2, '0');
    assert ':' !in m by {
      forall i | 0 <= i < |m| ensures m[i] != ':' {
        assert IsDigit(m[i]);
      }
    }
    BeforeFirstConcat(m, ':', p);
    PaddedSeconds(secs);
    ParseNatToString(mins);
    ParseLabel(m, p, mins, secs);
  }

  /** Reading `formatTime(seconds)` back gives `seconds`. */
  lemma FormatTimeRoundTrip(seconds: nat)
    ensures ParseTime(FormatTime(seconds)) == Some(seconds)
    ensures |AfterFirst(FormatTime(seconds), ':').value| == 2
  {
    var q, r := seconds / 60, seconds % 60;
    assert q * 60 + r == seconds;
    LabelRoundTrip(q, r);
  }

  datatype PromptMode = Daily | Custom

  /** `promptMode`'s initial value: daily when a prompt is given. */
  function InitialMode(prompt: string): (m: PromptMode)
    ensures m == Daily <==> prompt != ""
  {
    if Truthy(prompt) then Daily else Custom
  }

  /** The prompt `handleSave` passes on: the trimmed custom prompt if one was typed, else the given prompt. */
  function EffectivePrompt(mode: PromptMode, customPrompt: string, prompt: string): (p: string)
    ensures mode == Custom && Trim(customPrompt) != "" ==> p == Trim(customPrompt)
    ensures !(mode == Custom && Trim(customPrompt) != "") ==> p == prompt
  {
    var clean := Trim(customPrompt);
    if mode == Custom && clean != "" then clean else prompt
  }

  /**
   * A custom prompt with any visible character is saved trimmed (and so
   * unchanged by a second trim); a white-space-only one falls back to the
   * given prompt, as does the daily mode whatever was typed.
   */
  lemma EffectivePromptSpec(mode: PromptMode, customPrompt: string, prompt: string)
    ensures mode == Custom && !AllWhiteSpace(customPrompt) ==>
      EffectivePrompt(mode, customPrompt, prompt) == Trim(customPrompt)
      && Trim(EffectivePrompt(mode, customPrompt, prompt)) == EffectivePrompt(mode, customPrompt, prompt)
    ensures AllWhiteSpace(customPrompt) ==> EffectivePrompt(mode, customPrompt, prompt) == prompt
    ensures EffectivePrompt(Daily, customPrompt, prompt) == prompt
  {
    TrimEmptyIffBlank(customPrompt);
    TrimIdempotent(customPrompt);
  }

  /** The blob and prompt `handleSave` hands to `onSave`. */
  datatype Saved = Saved(blob: Blob, prompt: string)

  class Recorder {
    const store: Store
    /** The `prompt` property. */
    const prompt: string
    var recordingTime: nat
    var localAudioUrl: Option<string>
    /** `chunksRef.current` */
    var chunks: seq<Chunk>
    /** `mediaRecorderRef.current` is set. */
    var hasRecorder: bool
    /** The one-second interval is running. */
    var timerActive: bool
    var customPrompt: string
    var promptMode: PromptMode

    /** The store is consistent, and the timer only runs while the store says a recording is on. */
    ghost predicate Valid()
      reads this, store
    {
      store.Valid() && (timerActive ==> store.isRecording)
    }

    constructor (s: Store, p: string)
      requires s.Valid()
      ensures Valid() && store == s && prompt == p
      ensures promptMode == InitialMode(p) && customPrompt == ""
      ensures recordingTime == 0 && localAudioUrl.None? && chunks == []
      ensures !hasRecorder && !timerActive
    {
      store, prompt := s, p;
      recordingTime, localAudioUrl, chunks := 0, None, [];
      hasRecorder, timerActive := false, false;
      customPrompt := "";
      promptMode := if Truthy(p) then Daily else Custom;
    }

    /**
     * `startRecording`: with the microphone granted, a recorder is created,
     * the buffer emptied, the store told a recording is on and the timer
     * started; otherwise (the alert) nothing changes.
     */
    method StartRecording(micGranted: bool)
      requires Valid()
      modifies this, store
      ensures Valid()
      ensures micGranted ==>
        && hasRecorder && chunks == [] && timerActive
        && store.State() == old(store.State()).(isRecording := true)
      ensures !micGranted ==>
        && hasRecorder == old(hasRecorder) && chunks == old(chunks)
        && timerActive == old(timerActive) && store.State() == old(store.State())
      ensures recordingTime == old(recordingTime) && localAudioUrl == old(localAudioUrl)
      ensures customPrompt == old(customPrompt) && promptMode == old(promptMode)
    {
      if micGranted {
        hasRecorder := true;
        chunks := [];
        store.SetIsRecording(true);
        timerActive := true;
      }
    }

    /** The recorder's `dataavailable` event: one chunk is appended. */
    method OnDataAvailable(chunk: Chunk)
      requires Valid()
      modifies this
      ensures Valid()
      ensures chunks == old(chunks) + [chunk]
      ensures recordingTime == old(recordingTime) && localAudioUrl == old(localAudioUrl)
      ensures hasRecorder == old(hasRecorder) && timerActive == old(timerActive)
      ensures customPrompt == old(customPrompt) && promptMode == old(promptMode)
    {
      chunks := chunks + [chunk];
    }

    /**
     * The recorder's `stop` event: the buffered chunks, in order, become a
     * `audio/webm` blob, which is the store's current blob and is returned
     * for `onRecordingComplete`; `url` is its object URL. The buffer is emptied.
     */
    method OnStop(url: string) returns (blob: Blob)
      requires Valid()
      modifies this, store
      ensures Valid()
      ensures blob == Blob(old(chunks), "audio/webm")
      ensures store.State() == old(store.State()).(currentAudioBlob := Some(blob))
      ensures chunks == [] && localAudioUrl == Some(url)
      ensures recordingTime == old(recordingTime)
      ensures hasRecorder == old(hasRecorder) && timerActive == old(timerActive)
      ensures customPrompt == old(customPrompt) && promptMode == old(promptMode)
    {
      blob := Blob(chunks, "audio/webm");
      localAudioUrl := Some(url);
      store.SetCurrentAudioBlob(Some(blob));
      chunks := [];
    }

    /**
     * `stopRecording`: acts only when a recorder exists and a recording is
     * on; it then stops the timer and clears the store's flag.
     */
    method StopRecording()
      requires Valid()
      modifies this, store
      ensures Valid()
      ensures old(hasRecorder && store.isRecording) ==>
        && !timerActive
        && store.State() == old(store.State()).(isRecording := false)
      ensures !old(hasRecorder && store.isRecording) ==>
        && timerActive == old(timerActive)
        && store.State() == old(store.State())
      ensures chunks == old(chunks) && hasRecorder == old(hasRecorder)
      ensures recordingTime == old(recordingTime) && localAudioUrl == old(localAudioUrl)
      ensures customPrompt == old(customPrompt) && promptMode == old(promptMode)
    {
      if hasRecorder && store.isRecording {
        timerActive := false;
        store.SetIsRecording(false);
      }
    }

    /** One tick of the running interval: a second more, which only happens while recording. */
    method Tick()
      requires Valid() && timerActive
      modifies this
      ensures Valid() && store.isRecording
      ensures recordingTime == old(recordingTime) + 1
      ensures chunks == old(chunks) && hasRecorder == old(hasRecorder) && timerActive
      ensures localAudioUrl == old(localAudioUrl)
      ensures customPrompt == old(customPrompt) && promptMode == old(promptMode)
    {
      recordingTime := recordingTime + 1;
    }

    /** `reset`: the time is zero and there is neither a local URL nor a current blob. */
    method Reset()
      requires Valid()
      modifies this, store
      ensures Valid()
      ensures recordingTime == 0 && localAudioUrl.None?
      ensures store.State() == old(store.State()).(currentAudioBlob := None)
      ensures chunks == old(chunks) && hasRecorder == old(hasRecorder) && timerActive == old(timerActive)
      ensures customPrompt == old(customPrompt) && promptMode == old(promptMode)
    {
      recordingTime := 0;
      localAudioUrl := None;
      store.SetCurrentAudioBlob(None);
    }

    /**
     * `handleSave`: without a current blob nothing happens; otherwise the
     * blob and the effective prompt are handed on, the recorder is reset and
     * the custom prompt cleared.
     */
    method HandleSave() returns (saved: Option<Saved>)
      requires Valid()
      modifies this, store
      ensures Valid()
      ensures old(store.currentAudioBlob).None? ==>
        && saved.None? && store.State() == old(store.State())
        && recordingTime == old(recordingTime) && localAudioUrl == old(localAudioUrl)
        && customPrompt == old(customPrompt)
      ensures old(store.currentAudioBlob).Some? ==>
        && saved == Some(Saved(old(store.currentAudioBlob).value, EffectivePrompt(promptMode, old(customPrompt), prompt)))
        && store.State() == old(store.State()).(currentAudioBlob := None)
        && recordingTime == 0 && localAudioUrl.None? && customPrompt == ""
      ensures chunks == old(chunks) && hasRecorder == old(hasRecorder) && timerActive == old(timerActive)
      ensures promptMode == old(promptMode)
    {
      if store.currentAudioBlob.None? {
        return None;
      }
      saved := Some(Saved(store.currentAudioBlob.value, EffectivePrompt(promptMode, customPrompt, prompt)));
      Reset();
      customPrompt := "";
    }

    /** The custom prompt input's `onChange`. */
    method SetCustomPrompt(text: string)
      requires Valid()
      modifies this
      ensures Valid()
      ensures customPrompt == text && promptMode == old(promptMode)
      ensures recordingTime == old(recordingTime) && localAudioUrl == old(localAudioUrl)
      ensures chunks == old(chunks) && hasRecorder == old(hasRecorder) && timerActive == old(timerActive)
    {
      customPrompt := text;
    }

    /** The daily/custom switch: disabled (no change) when no prompt is given. */
    method TogglePromptMode()
      requires Valid()
      modifies this
      ensures Valid()
      ensures prompt == "" ==> promptMode == old(promptMode)
      ensures prompt != "" ==> promptMode == (if old(promptMode) == Daily then Custom else Daily)
      ensures customPrompt == old(customPrompt)
      ensures recordingTime == old(recordingTime) && localAudioUrl == old(localAudioUrl)
      ensures chunks == old(chunks) && hasRecorder == old(hasRecorder) && timerActive == old(timerActive)
    {
      if Truthy(prompt) {
        promptMode := if promptMode == Daily then Custom else Daily;
      }
    }
  }

  /** Without a given prompt the recorder starts in custom mode and stays there. */
  method NoPromptStaysCustom(s: Store) returns (mode: PromptMode)
    requires s.Valid()
    modifies s
    ensures mode == Custom
  {
    var r := new Recorder(s, "");
    r.TogglePromptMode();
    r.TogglePromptMode();
    mode := r.promptMode;
  }

  /**
   * A session: start, two chunks, stop, the stop event and save. The saved
   * blob holds exactly the two chunks, in order, and the recorder is left
   * with an empty buffer and no current blob.
   */
  method RecordTwoChunks(s: Store, first: Chunk, second: Chunk, url: string) returns (saved: Option<Saved>)
    requires s.Valid()
    modifies s
    ensures saved.Some? && saved.value.blob == Blob([first, second], "audio/webm")
    ensures s.currentAudioBlob.None? && !s.isRecording
  {
    var r := new Recorder(s, "Describe a perfect day from morning to night.");
    r.StartRecording(true);
    r.Tick();
    r.OnDataAvailable(first);
    r.OnDataAvailable(second);
    r.StopRecording();
    var blob := r.OnStop(url);
    saved := r.HandleSave();
  }
}
