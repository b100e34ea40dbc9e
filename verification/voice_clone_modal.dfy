/** The voice-cloning dialog. In Express mode it checks the form and the
    reference clip, saves a zero-shot voice and closes; in Pro mode it
    starts a few-shot training and follows the manager's progress,
    saving the trained voice when the training completes. Also the checks
    and trimming of microphone recordings, the 100-line log window and the
    clean-up of leftover recordings. Widgets, audio devices and threads are
    not modelled: what the user typed, what the clock, the microphone and
    the file system answered are parameters or fields. */
module VoiceCloneModal {
  import opened Wrappers
  import opened Strings
  import opened VoiceData
  import VoicePersistence
  import TrainingManager

  datatype CloneMode = Express | Pro

  datatype RecordingStatus =
    | RecordingIdle | Recording | Transcribing | RecordingCompleted | RecordingError(message: string)

  /** Shortest and longest reference clip of a zero-shot voice, in seconds. */
  const MinCloneSeconds: real := 3.0
  const MaxCloneSeconds: real := 10.0
  /** Shortest training recording, in seconds. */
  const MinTrainingSeconds: real := 10.0
  /** Longest training recording before a warning, in seconds. */
  const LongTrainingSeconds: real := 600.0
  /** A processed Express recording: 16 kHz, at most ten seconds. */
  const CloneSampleRate: nat := 16000
  const MaxCloneSamples: nat := 10 * CloneSampleRate
  /** A training recording is stored at 32 kHz. */
  const TrainingSampleRate: nat := 32000
  /** Lines of a log the dialog displays. */
  const LogWindowLines: nat := 100
  /** Leftover recordings older than this many seconds are removed. */
  const TempMaxAge: nat := 3600
  const TempPrefix: string := "voice_clone_recording_"
  const TempSuffix: string := ".wav"

  const SavedLine: string := "\U{2713} Voice created successfully!"
  const NameRequired: string := "Voice name is required"
  const NoTrainingAudio: string :=
    "No training audio available. Please record or upload at least 10 seconds of audio first."
  const NotStarted: string := "Failed to start training process"

  // ------------------------------------------------------------------
  // Express mode: the checks before a zero-shot voice is saved

  /** The message of the first check of `save_voice` that fails, none when
      all pass: a name and a transcript that are not blank once trimmed, a
      selected file, and a validated clip of 3 to 10 seconds. `fmt` is the
      one-decimal formatting of a duration. */
  function SaveCheck(name: string, prompt: string, file: Option<string>, duration: Option<real>,
                     fmt: real -> string): Option<string>
  {
    if RustTrim(name) == [] then Some("Please enter a voice name")
    else if RustTrim(prompt) == [] then Some("Please enter the reference text")
    else if file.None? then Some("Please select a reference audio file")
    else if duration.None? then Some("Audio file not validated. Please re-select the file")
    else if duration.value < MinCloneSeconds then
      Some("Audio too short (" + fmt(duration.value) + "s). Required: 3-10 seconds")
    else if duration.value > MaxCloneSeconds then
      Some("Audio too long (" + fmt(duration.value) + "s). Required: 3-10 seconds")
    else None
  }

  /** The checks pass exactly when the trimmed name and transcript hold a
      non-blank character, a file is selected and its validated duration
      lies in [3, 10] seconds. */
  lemma SaveCheckAccepts(name: string, prompt: string, file: Option<string>, duration: Option<real>,
                         fmt: real -> string)
    ensures SaveCheck(name, prompt, file, duration, fmt).None? <==>
      (exists k :: 0 <= k < |name| && !IsRustWhitespace(name[k]))
      && (exists k :: 0 <= k < |prompt| && !IsRustWhitespace(prompt[k]))
      && file.Some? && duration.Some? && MinCloneSeconds <= duration.value <= MaxCloneSeconds
  {
    TrimEmpty(name, IsRustWhitespace);
    TrimEmpty(prompt, IsRustWhitespace);
  }

  // ------------------------------------------------------------------
  // Pro mode: the checks before a training starts

  /** The message of the first check of `start_training` that fails: the
      name is tested untrimmed, unlike in Express mode. */
  function StartCheck(name: string, audioFile: Option<string>): Option<string>
  {
    if name == [] then Some(NameRequired)
    else if audioFile.None? then Some(NoTrainingAudio)
    else None
  }

  /** A training starts exactly when the name is non-empty and there is a
      training recording. */
  lemma StartCheckAccepts(name: string, audioFile: Option<string>)
    ensures StartCheck(name, audioFile).None? <==> |name| > 0 && audioFile.Some?
    ensures StartCheck(name, audioFile) == Some(NameRequired) <==> name == []
  {
  }

  /** A name made only of blanks passes the Pro check though Express mode
      refuses it. */
  lemma BlankNameOnlyRefusedInExpress(name: string, prompt: string, file: Option<string>,
                                      duration: Option<real>, fmt: real -> string, audioFile: string)
    requires |name| > 0 && forall k :: 0 <= k < |name| ==> IsRustWhitespace(name[k])
    ensures StartCheck(name, Some(audioFile)).None?
    ensures SaveCheck(name, prompt, file, duration, fmt) == Some("Please enter a voice name")
  {
    TrimEmpty(name, IsRustWhitespace);
  }

  /** What `start_training` asks the training manager for. */
  datatype TrainingRequest = TrainingRequest(voiceId: string, voiceName: string, audioFile: string,
                                             language: string)

  /** How `start_training` ended: refused by a check, the request queued
      or not, or a panic because the dialog holds no manager. */
  datatype StartOutcome =
    | Refused(message: string)
    | Queued(request: TrainingRequest)
    | NotQueued(request: TrainingRequest)
    | ManagerMissing

  // ------------------------------------------------------------------
  // Recordings

  /** An Express recording is kept for processing unless it lasts under
      3 seconds, `len / rate < 3` in floating point: with a zero rate the
      quotient is infinite and the recording is kept. */
  predicate LongEnough(count: nat, sampleRate: nat) {
    sampleRate == 0 || !(count as real / sampleRate as real < MinCloneSeconds)
  }

  /** Recorded samples brought to `targetRate`: `resample` converts them
      when the recording rate differs, otherwise they are kept as they are. */
  function Resampled(samples: seq<real>, sourceRate: nat, targetRate: nat,
                     resample: (seq<real>, nat, nat) -> seq<real>): (r: seq<real>)
    ensures sourceRate == targetRate ==> r == samples
  {
    if sourceRate != targetRate then resample(samples, sourceRate, targetRate) else samples
  }

  /** A processed recording cut to its first ten seconds at 16 kHz. */
  function ClipSamples(resampled: seq<real>): (r: seq<real>)
  {
    if |resampled| > MaxCloneSamples then resampled[..MaxCloneSamples] else resampled
  }

  /** The clip is the longest prefix of at most ten seconds, and clipping
      again changes nothing. */
  lemma ClipIsPrefix(resampled: seq<real>)
    ensures |ClipSamples(resampled)| == if |resampled| <= MaxCloneSamples then |resampled| else MaxCloneSamples
    ensures ClipSamples(resampled) == resampled[..|ClipSamples(resampled)|]
    ensures ClipSamples(ClipSamples(resampled)) == ClipSamples(resampled)
  {
  }

  /** Name of the file a processed recording is saved to: the process
      identifier and the clock in nanoseconds make it unique. */
  function TempRecordingName(pid: nat, nanos: nat): string {
    TempPrefix + NatToDecimal(pid) + "_" + NatToDecimal(nanos) + TempSuffix
  }

  /** The clean-up only looks at files named like a saved recording. */
  predicate IsRecordingTempFile(name: string) {
    StartsWith(name, TempPrefix) && EndsWith(name, TempSuffix)
  }

  /** Every saved recording is a file the clean-up looks at. */
  lemma TempNameMatches(pid: nat, nanos: nat)
    ensures IsRecordingTempFile(TempRecordingName(pid, nanos))
  {
    var middle := NatToDecimal(pid) + "_" + NatToDecimal(nanos);
    assert TempRecordingName(pid, nanos) == TempPrefix + (middle + TempSuffix);
    assert TempRecordingName(pid, nanos) == (TempPrefix + middle) + TempSuffix;
    PrefixOfAppend(TempPrefix, middle + TempSuffix);
    SuffixOfAppend(TempPrefix + middle, TempSuffix);
  }

  lemma PrefixOfAppend(a: string, b: string)
    ensures StartsWith(a + b, a)
  {
    assert (a + b)[..|a|] == a;
  }

  lemma SuffixOfAppend(a: string, b: string)
    ensures EndsWith(a + b, b)
  {
    assert (a + b)[|a + b| - |b|..] == b;
  }

  /** A processed recording saved to a temporary file. */
  datatype SavedClip = SavedClip(name: string, samples: seq<real>)

  /** The background processing of an Express recording: nothing when no
      sample was recorded, when it is shorter than 3 seconds or when the
      file cannot be written; otherwise the audio at 16 kHz cut to ten
      seconds, saved under a fresh temporary name. The rate conversion
      itself is the parameter `resample`. */
  function ProcessRecording(recorded: seq<real>, sourceRate: nat, resample: (seq<real>, nat, nat) -> seq<real>,
                            pid: nat, nanos: nat, saved: bool): (r: Option<SavedClip>)
  {
    if recorded == [] || !LongEnough(|recorded|, sourceRate) || !saved then None
    else Some(SavedClip(TempRecordingName(pid, nanos),
                        ClipSamples(Resampled(recorded, sourceRate, CloneSampleRate, resample))))
  }

  /** A processed recording exists exactly when the recording was long
      enough and written; it holds at most ten seconds and is a file the
      clean-up looks at; a recording already at 16 kHz is not converted. */
  lemma ProcessedClipIsBounded(recorded: seq<real>, sourceRate: nat, resample: (seq<real>, nat, nat) -> seq<real>,
                               pid: nat, nanos: nat, saved: bool)
    ensures var r := ProcessRecording(recorded, sourceRate, resample, pid, nanos, saved);
      var resampled := Resampled(recorded, sourceRate, CloneSampleRate, resample);
      (r.Some? <==> recorded != [] && LongEnough(|recorded|, sourceRate) && saved)
      && (r.Some? ==> |r.value.samples| <= MaxCloneSamples && IsRecordingTempFile(r.value.name)
                      && r.value.samples == resampled[..|r.value.samples|])
      && (r.Some? && sourceRate == CloneSampleRate ==> r.value.samples == recorded[..|r.value.samples|])
  {
    ClipIsPrefix(Resampled(recorded, sourceRate, CloneSampleRate, resample));
    TempNameMatches(pid, nanos);
  }

  /** A directory entry the clean-up sees: its name and its modification
      time in seconds, when the metadata could be read. */
  datatype TempEntry = TempEntry(name: string, modified: Option<int>)

  /** The entries the clean-up removes: saved recordings modified before
      the threshold, in directory order. */
  function Stale(entries: seq<TempEntry>, threshold: int): (r: seq<string>)
    ensures |r| <= |entries|
  {
    if entries == [] then []
    else
      var e := entries[|entries| - 1];
      Stale(entries[..|entries| - 1], threshold)
        + (if IsRecordingTempFile(e.name) && e.modified.Some? && e.modified.value < threshold then [e.name] else [])
  }

  /** A name is removed exactly when some entry of that name is a saved
      recording older than the threshold. */
  lemma {:induction false} StaleMembers(entries: seq<TempEntry>, threshold: int)
    ensures forall n :: n in Stale(entries, threshold) <==>
      exists k :: 0 <= k < |entries| && entries[k].name == n && IsRecordingTempFile(n)
                  && entries[k].modified.Some? && entries[k].modified.value < threshold
    decreases |entries|
  {
    if entries != [] {
      var init := entries[..|entries| - 1];
      StaleMembers(init, threshold);
      forall n | n in Stale(entries, threshold)
        ensures exists k :: 0 <= k < |entries| && entries[k].name == n && IsRecordingTempFile(n)
                  && entries[k].modified.Some? && entries[k].modified.value < threshold
      {
        if n in Stale(init, threshold) {
          var k :| 0 <= k < |init| && init[k].name == n && IsRecordingTempFile(n)
                   && init[k].modified.Some? && init[k].modified.value < threshold;
          assert entries[k] == init[k];
        } else {
          assert entries[|entries| - 1].name == n;
        }
      }
      forall n | exists k :: 0 <= k < |entries| && entries[k].name == n && IsRecordingTempFile(n)
                  && entries[k].modified.Some? && entries[k].modified.value < threshold
        ensures n in Stale(entries, threshold)
      {
        var k :| 0 <= k < |entries| && entries[k].name == n && IsRecordingTempFile(n)
                 && entries[k].modified.Some? && entries[k].modified.value < threshold;
        if k < |init| {
          assert init[k] == entries[k];
        }
      }
    }
  }

  /** `cleanup_old_temp_files`: walks the temporary directory and removes
      every saved recording older than an hour; nothing when the directory
      cannot be listed. Returns the names removed (a failed removal is
      only reported). */
  method CleanupOldTempFiles(listing: Option<seq<TempEntry>>, now: int) returns (removed: seq<string>)
    ensures listing.None? ==> removed == []
    ensures listing.Some? ==> removed == Stale(listing.value, now - TempMaxAge)
  {
    removed := [];
    if listing.None? {
      return;
    }
    var entries := listing.value;
    var threshold := now - TempMaxAge;
    var i := 0;
    while i < |entries|
      invariant 0 <= i <= |entries|
      invariant removed == Stale(entries[..i], threshold)
    {
      var e := entries[i];
      assert entries[..i + 1][..i] == entries[..i];
      if IsRecordingTempFile(e.name) && e.modified.Some? && e.modified.value < threshold {
        removed := removed + [e.name];
      }
      i := i + 1;
    }
    assert entries[..i] == entries;
  }

  // ------------------------------------------------------------------
  // Logs

  function Reverse<T>(s: seq<T>): (r: seq<T>)
    ensures |r| == |s|
    ensures forall k :: 0 <= k < |s| ==> r[k] == s[|s| - 1 - k]
  {
    if s == [] then [] else Reverse(s[1..]) + [s[0]]
  }

  function Take<T>(s: seq<T>, n: nat): (r: seq<T>)
  {
    if |s| <= n then s else s[..n]
  }

  /** The lines a log display shows: `iter().rev().take(100).rev()`. */
  function LogWindow(lines: seq<string>): seq<string> {
    Reverse(Take(Reverse(lines), LogWindowLines))
  }

  /** The display shows the newest 100 lines in their order: the same cut
      the training manager applies at 500 lines. */
  lemma LogWindowIsNewest(lines: seq<string>)
    ensures LogWindow(lines) == TrainingManager.KeepNewest(lines, LogWindowLines)
  {
    var w := LogWindow(lines);
    var n := TrainingManager.KeepNewest(lines, LogWindowLines);
    assert |w| == |n|;
    forall k | 0 <= k < |w| ensures w[k] == n[k] {
      var t := Take(Reverse(lines), LogWindowLines);
      assert w[k] == t[|t| - 1 - k];
      assert t[|t| - 1 - k] == Reverse(lines)[|t| - 1 - k];
      assert n[k] == lines[|lines| - |n| + k];
    }
  }

  /** The text of a log label: the lines joined with newlines. */
  function LogText(lines: seq<string>): string {
    Join(lines, '\n')
  }

  // ------------------------------------------------------------------
  // The dialog

  /** The Express part of the dialog: visibility, the two text inputs,
      the selected clip and its validated duration, the cloning status,
      its log and error label, and the microphone recording. */
  datatype ExpressForm = ExpressForm(
    visible: bool,
    voiceNameInput: string,
    promptTextInput: string,
    selectedFile: Option<string>,
    audioDuration: Option<real>,
    cloningStatus: CloningStatus,
    logMessages: seq<string>,
    errorMessage: string,
    recordingStatus: RecordingStatus,
    recordedAudioPath: Option<string>)

  /** The Express part after `close`: hidden, emptied and idle. */
  const ClosedForm: ExpressForm :=
    ExpressForm(false, [], [], None, None, CloningIdle, [], [], RecordingIdle, None)

  /** The Pro part of the dialog: its name input, the training recording
      and the dialog's copy of the manager's progress. */
  datatype ProForm = ProForm(
    proNameInput: string,
    trainingAudioFile: Option<string>,
    trainingAudioSamples: seq<real>,
    trainingProgress: TrainingManager.Progress)

  /** A voice trained few-shot, as the dialog saves it when training
      completes. */
  function TrainedVoice(id: string, name: string, language: string, gpt: string, sovits: string,
                        referenceAudio: string, referenceText: string, now: nat): (v: Voice)
    ensures v.id == id && v.name == name && v.IsTrained() && v.HasCustomModels()
    ensures v.gptWeights == Some(gpt) && v.sovitsWeights == Some(sovits)
    ensures v.referenceAudioPath == Some(referenceAudio) && v.previewAudio == v.referenceAudioPath
    ensures v.promptText == Some(referenceText)
  {
    Voice(id, name, "Custom trained voice (Few-Shot)", Character, language, Some(referenceAudio),
          Trained, Some(referenceAudio), Some(referenceText), Some(gpt), Some(sovits), Some(now))
  }


  /** The lines a save logs up to the copy of the clip. */
  function CopyingLog(id: string): seq<string> {
    ["[INFO] Starting voice creation...", "[INFO] Voice ID: " + id, "[INFO] Copying reference audio..."]
  }

  /** The warning a training recording over ten minutes draws. */
  function TooLongLine(duration: real, fmt: real -> string): string {
    "[WARNING] Recording too long: " + fmt(duration) + "s (will be trimmed to 600s = 10 minutes)"
  }

  /** The lines the dialog adds to the training log when it adopts a
      snapshot of status `status`; `duplicate` says whether the trained
      voice's identifier `id` is already stored. */
  function Reaction(status: TrainingManager.TrainingStatus, duplicate: bool, id: string): seq<string> {
    match status
    case Completed(_, _, _, _) =>
      if duplicate then ["[ERROR] Failed to save voice: " + VoicePersistence.AlreadyExists(id)]
      else ["[SUCCESS] Voice saved successfully!"]
    case Failed(e) => ["[ERROR] Training failed: " + e]
    case Cancelled => ["[INFO] Training cancelled"]
    case _ => []
  }

  /** The dialog. Its Express widgets are one `ExpressForm` value and its
      Pro widgets one `ProForm` value, which the methods replace. */
  class Modal {
    var form: ExpressForm
    var cloneMode: CloneMode
    var selectedLanguage: string
    var pro: ProForm
    /** whether the dialog holds a training manager */
    var hasManager: bool

    /** The dialog as first built: hidden, in Express mode, with nothing
        entered and the manager's default progress. */
    constructor(language: string, hasManager: bool, now: nat)
      ensures form == ClosedForm && cloneMode == Express && selectedLanguage == language
      ensures pro == ProForm([], None, [], TrainingManager.DefaultProgress(now))
      ensures this.hasManager == hasManager
    {
      form, cloneMode, selectedLanguage := ClosedForm, Express, language;
      pro := ProForm([], None, [], TrainingManager.DefaultProgress(now));
      this.hasManager := hasManager;
    }

    /** `add_log`: appends a line to the Express log. */
    method AddLog(message: string)
      modifies this
      ensures form == old(form).(logMessages := old(form.logMessages) + [message])
      ensures pro == old(pro)
      ensures unchanged(this`cloneMode, this`selectedLanguage, this`hasManager)
    {
      form := form.(logMessages := form.logMessages + [message]);
    }

    /** `add_training_log`: appends a line to the training log the dialog
        keeps; the label shows `LogWindow` of it. */
    method AddTrainingLog(message: string)
      modifies this
      ensures pro == old(pro).(trainingProgress :=
        old(pro.trainingProgress).(logLines := old(pro.trainingProgress.logLines) + [message]))
      ensures form == old(form)
      ensures unchanged(this`cloneMode, this`selectedLanguage, this`hasManager)
    {
      var p := pro.trainingProgress;
      pro := pro.(trainingProgress := p.(logLines := p.logLines + [message]));
    }

    /** `close`: stops recording and previewing, empties the Express form
        and its log and hides the dialog; the Pro part is kept. */
    method Close()
      modifies this
      ensures form == ClosedForm
      ensures pro == old(pro)
      ensures unchanged(this`cloneMode, this`selectedLanguage, this`hasManager)
    {
      form := form.(recordingStatus := RecordingIdle, selectedFile := None, audioDuration := None,
                    cloningStatus := CloningIdle, recordedAudioPath := None);
      form := form.(logMessages := [], errorMessage := []);
      form := form.(voiceNameInput := [], promptTextInput := [], visible := false);
    }

    /** `switch_to_mode`: selects a tab; selecting the current one does
        nothing. */
    method SwitchToMode(mode: CloneMode)
      modifies this
      ensures cloneMode == mode
      ensures form == old(form) && pro == old(pro)
      ensures unchanged(this`selectedLanguage, this`hasManager)
    {
      if cloneMode == mode {
        return;
      }
      cloneMode := mode;
    }

    /** `save_voice`: the error label is cleared first; on a failed check
        only the error label changes. Otherwise the status passes through
        validation and copying; a
        failed copy or save ends in an error status with the reason
        logged, and a save ends with the voice stored and the dialog
        closed. `faults` are the file system's refusals while copying the
        clip, if any, and `now` the clock in seconds. Returns the voice whose
        creation the dialog announces. */
    method SaveVoice(store: VoicePersistence.VoiceStore, now: nat, faults: VoicePersistence.CopyFaults,
                     fmt: real -> string)
      returns (created: Option<Voice>)
      modifies this, store
      ensures pro == old(pro)
      ensures unchanged(this`cloneMode, this`selectedLanguage, this`hasManager)
      ensures var check := SaveCheck(old(form.voiceNameInput), old(form.promptTextInput),
                                     old(form.selectedFile), old(form.audioDuration), fmt);
        check.Some? ==>
          form == old(form).(errorMessage := check.value) && created.None?
          && store.file == old(store.file) && store.voiceDirs == old(store.voiceDirs)
      ensures var check := SaveCheck(old(form.voiceNameInput), old(form.promptTextInput),
                                     old(form.selectedFile), old(form.audioDuration), fmt);
        var id := VoicePersistence.GenerateVoiceId(old(form.voiceNameInput), now);
        var started := old(form.logMessages) + CopyingLog(id);
        var copyError := VoicePersistence.CopyError(faults, id in old(store.voiceDirs));
        check.None? ==>
          store.voiceDirs == (if VoicePersistence.DirReady(faults, id in old(store.voiceDirs))
                              then old(store.voiceDirs) + {id} else old(store.voiceDirs))
          && (copyError.Some? ==>
                var e := copyError.value;
                created.None?
                && form == old(form).(errorMessage := [], cloningStatus := CloningError(e),
                                      logMessages := started + ["[ERROR] " + e])
                && store.file == old(store.file))
          && (copyError.None? && VoicePersistence.HasId(old(store.Voices()), id) ==>
                var e := VoicePersistence.AlreadyExists(id);
                created.None?
                && form == old(form).(errorMessage := [], cloningStatus := CloningError(e),
                                      logMessages := started + ["[INFO] Audio file copied successfully"]
                                        + ["[INFO] Saving voice configuration..."] + ["[ERROR] Failed to save: " + e])
                && store.file == old(store.file))
          && (copyError.None? && !VoicePersistence.HasId(old(store.Voices()), id) ==>
                var v := NewCustom(id, RustTrim(old(form.voiceNameInput)), selectedLanguage,
                                   VoicePersistence.RelativeRefPath(id), RustTrim(old(form.promptTextInput)), now);
                created == Some(v) && store.Voices() == old(store.Voices()) + [v]
                && form == ClosedForm)
    {
      created := None;
      form := form.(errorMessage := []);
      var check := SaveCheck(form.voiceNameInput, form.promptTextInput, form.selectedFile, form.audioDuration, fmt);
      if check.Some? {
        form := form.(errorMessage := check.value);
        return;
      }
      var name, prompt := form.voiceNameInput, form.promptTextInput;
      var id := VoicePersistence.GenerateVoiceId(name, now);
      var existed := id in store.voiceDirs;
      Copy(store, id, faults);
      if VoicePersistence.CopyError(faults, existed).Some? {
        return;
      }
      assert store.Voices() == old(store.Voices());
      var v := NewCustom(id, RustTrim(name), selectedLanguage, VoicePersistence.RelativeRefPath(id),
                         RustTrim(prompt), now);
      var added := Store(store, v);
      if !added {
        ghost var e := VoicePersistence.AlreadyExists(id);
        return;
      }
      created := Some(v);
    }

    /** The first half of a save: validation, the voice identifier and the
        copy of the clip. */
    method Copy(store: VoicePersistence.VoiceStore, id: string, faults: VoicePersistence.CopyFaults)
      modifies this, store
      ensures pro == old(pro)
      ensures unchanged(this`cloneMode, this`selectedLanguage, this`hasManager)
      ensures store.file == old(store.file)
      ensures store.voiceDirs == if VoicePersistence.DirReady(faults, id in old(store.voiceDirs))
                                 then old(store.voiceDirs) + {id} else old(store.voiceDirs)
      ensures var started := old(form.logMessages) + CopyingLog(id);
        var copyError := VoicePersistence.CopyError(faults, id in old(store.voiceDirs));
        copyError.Some? ==>
          var e := copyError.value;
          form == old(form).(cloningStatus := CloningError(e), logMessages := started + ["[ERROR] " + e])
      ensures var started := old(form.logMessages) + CopyingLog(id);
        VoicePersistence.CopyError(faults, id in old(store.voiceDirs)).None? ==>
          form == old(form).(cloningStatus := CopyingFiles,
                                logMessages := started + ["[INFO] Audio file copied successfully"])
    {
      form := form.(cloningStatus := ValidatingAudio);
      AddLog("[INFO] Starting voice creation...");
      AddLog("[INFO] Voice ID: " + id);
      form := form.(cloningStatus := CopyingFiles);
      AddLog("[INFO] Copying reference audio...");
      assert form == old(form).(cloningStatus := CopyingFiles, logMessages := old(form.logMessages) + CopyingLog(id));
      ghost var copyError := VoicePersistence.CopyError(faults, id in store.voiceDirs);
      var copied := store.CopyReferenceAudio(id, faults);
      assert copied.Err? <==> copyError.Some?;
      if copied.Err? {
        assert copied.error == copyError.value;
        AddLog("[ERROR] " + copied.error);
        form := form.(cloningStatus := CloningError(copied.error));
        return;
      }
      AddLog("[INFO] Audio file copied successfully");
    }

    /** The second half of a save: the voice added to the configuration,
        then the completion shown and the dialog closed. */
    method Store(store: VoicePersistence.VoiceStore, v: Voice) returns (added: bool)
      modifies this, store
      ensures added <==> !VoicePersistence.HasId(old(store.Voices()), v.id)
      ensures pro == old(pro)
      ensures unchanged(this`cloneMode, this`selectedLanguage, this`hasManager)
      ensures store.voiceDirs == old(store.voiceDirs)
      ensures var saving := old(form.logMessages) + ["[INFO] Saving voice configuration..."];
        var e := VoicePersistence.AlreadyExists(v.id);
        VoicePersistence.HasId(old(store.Voices()), v.id) ==>
          store.file == old(store.file)
          && form == old(form).(cloningStatus := CloningError(e), logMessages := saving + ["[ERROR] Failed to save: " + e])
      ensures !VoicePersistence.HasId(old(store.Voices()), v.id) ==>
        store.Voices() == old(store.Voices()) + [v] && form == ClosedForm
    {
      form := form.(cloningStatus := SavingConfig);
      AddLog("[INFO] Saving voice configuration...");
      var saved := store.Add(v);
      if saved.Err? {
        AddLog("[ERROR] Failed to save: " + saved.error);
        form := form.(cloningStatus := CloningError(saved.error));
        return false;
      }
      added := true;
      AddLog("");
      AddLog(SavedLine);
      AddLog("You can now close this dialog.");
      form := form.(cloningStatus := CloningCompleted);
      Close();
    }

    /** `stop_recording` in Express mode, for a recording of `duration`
        seconds: under 3 seconds it fails, otherwise it moves on to
        processing, with a warning above 10 seconds. */
    method StopRecording(duration: real, fmt: real -> string)
      modifies this
      ensures pro == old(pro)
      ensures unchanged(this`cloneMode, this`selectedLanguage, this`hasManager)
      ensures var stopped := old(form.logMessages) + ["[INFO] Recording stopped (" + fmt(duration) + "s)"];
        duration < MinCloneSeconds ==>
          form == old(form).(recordingStatus := RecordingError("Recording too short"),
            logMessages := stopped + ["[ERROR] Recording too short. Please record at least 3 seconds."])
      ensures var stopped := old(form.logMessages) + ["[INFO] Recording stopped (" + fmt(duration) + "s)"];
        var warned := if duration > MaxCloneSeconds then ["[WARN] Recording over 10s will be trimmed to 10s"] else [];
        duration >= MinCloneSeconds ==>
          form == old(form).(recordingStatus := Transcribing,
            logMessages := stopped + warned + ["[INFO] Processing recorded audio..."])
    {
      AddLog("[INFO] Recording stopped (" + fmt(duration) + "s)");
      if duration < MinCloneSeconds {
        AddLog("[ERROR] Recording too short. Please record at least 3 seconds.");
        form := form.(recordingStatus := RecordingError("Recording too short"));
        return;
      }
      if duration > MaxCloneSeconds {
        AddLog("[WARN] Recording over 10s will be trimmed to 10s");
      }
      form := form.(recordingStatus := Transcribing);
      AddLog("[INFO] Processing recorded audio...");
    }

    /** `stop_training_recording`, for a recording of `duration` seconds
        whose samples `recorded` were taken at `sourceRate` and are brought
        to 32 kHz by `resample` when that rate differs: under 10 seconds the training
        file is dropped; otherwise the samples are kept whole (a recording
        over ten minutes is announced as trimmed but is not) and written
        to a temporary file named after the clock `secs`, which becomes the
        training file unless the write failed with `saveError`. */
    method StopTrainingRecording(duration: real, recorded: seq<real>, sourceRate: nat,
                                 resample: (seq<real>, nat, nat) -> seq<real>, secs: nat, saveError: Option<string>,
                                 fmt: real -> string)
      modifies this
      ensures form == old(form)
      ensures unchanged(this`cloneMode, this`selectedLanguage, this`hasManager)
      ensures pro.proNameInput == old(pro.proNameInput)
      ensures pro.trainingProgress == old(pro.trainingProgress).(logLines := pro.trainingProgress.logLines)
      ensures var stopped := old(pro.trainingProgress.logLines) + ["[INFO] Recording stopped (" + fmt(duration) + "s)"];
        duration < MinTrainingSeconds ==>
          pro.trainingAudioFile.None? && pro.trainingAudioSamples == old(pro.trainingAudioSamples)
          && pro.trainingProgress.logLines
             == stopped + ["[ERROR] Recording too short: " + fmt(duration) + "s (minimum: 10s)"]
      ensures var stopped := old(pro.trainingProgress.logLines) + ["[INFO] Recording stopped (" + fmt(duration) + "s)"];
        var warned := if duration > LongTrainingSeconds then [TooLongLine(duration, fmt)] else [];
        var resampled := Resampled(recorded, sourceRate, TrainingSampleRate, resample);
        var mb := (|resampled| * 4) as real / 1000000.0;
        duration >= MinTrainingSeconds ==>
          pro.trainingAudioSamples == resampled
          && (sourceRate == TrainingSampleRate ==> pro.trainingAudioSamples == recorded)
          && (saveError.None? ==>
                pro.trainingAudioFile == Some("training_audio_" + NatToDecimal(secs) + ".wav")
                && pro.trainingProgress.logLines == stopped + warned
                   + ["[SUCCESS] Recording saved (" + fmt(duration) + "s, " + fmt(mb) + " MB)"])
          && (saveError.Some? ==>
                pro.trainingAudioFile == old(pro.trainingAudioFile)
                && pro.trainingProgress.logLines == stopped + warned
                   + ["[ERROR] Failed to save audio: " + saveError.value])
    {
      AddTrainingLog("[INFO] Recording stopped (" + fmt(duration) + "s)");
      if duration < MinTrainingSeconds {
        AddTrainingLog("[ERROR] Recording too short: " + fmt(duration) + "s (minimum: 10s)");
        pro := pro.(trainingAudioFile := None);
        return;
      }
      if duration > LongTrainingSeconds {
        AddTrainingLog(TooLongLine(duration, fmt));
      }
      pro := pro.(trainingAudioSamples := Resampled(recorded, sourceRate, TrainingSampleRate, resample));
      if saveError.None? {
        pro := pro.(trainingAudioFile := Some("training_audio_" + NatToDecimal(secs) + ".wav"));
        var mb := (|pro.trainingAudioSamples| * 4) as real / 1000000.0;
        AddTrainingLog("[SUCCESS] Recording saved (" + fmt(duration) + "s, " + fmt(mb) + " MB)");
      } else {
        AddTrainingLog("[ERROR] Failed to save audio: " + saveError.value);
      }
    }

    /** `start_training`: refuses a missing name or recording with the
        reason logged and shown; otherwise asks the manager (which must
        exist) to start, `queued` being whether the request was accepted. */
    method StartTraining(now: nat, queued: bool) returns (outcome: StartOutcome)
      modifies this
      ensures unchanged(this`cloneMode, this`selectedLanguage, this`hasManager)
      ensures pro == old(pro).(trainingProgress := pro.trainingProgress)
      ensures pro.trainingProgress == old(pro.trainingProgress).(logLines := pro.trainingProgress.logLines)
      ensures var check := StartCheck(old(pro.proNameInput), old(pro.trainingAudioFile));
        check.Some? ==>
          outcome == Refused(check.value) && form == old(form).(errorMessage := check.value)
          && pro.trainingProgress.logLines == old(pro.trainingProgress.logLines) + ["[ERROR] " + check.value]
      ensures var check := StartCheck(old(pro.proNameInput), old(pro.trainingAudioFile));
        var request := TrainingRequest(VoicePersistence.GenerateVoiceId(old(pro.proNameInput), now),
                                       old(pro.proNameInput), old(pro.trainingAudioFile).GetOr([]), selectedLanguage);
        check.None? ==>
          (!hasManager ==> outcome == ManagerMissing && form == old(form) && pro == old(pro))
          && (hasManager && !queued ==>
                outcome == NotQueued(request) && form == old(form).(errorMessage := NotStarted)
                && pro.trainingProgress.logLines == old(pro.trainingProgress.logLines) + ["[ERROR] " + NotStarted])
          && (hasManager && queued ==>
                outcome == Queued(request) && form == old(form)
                && pro.trainingProgress.logLines == old(pro.trainingProgress.logLines)
                     + ["[INFO] Training started...",
                        "[INFO] This will take 30-120 minutes. Do not close the application."])
    {
      var check := StartCheck(pro.proNameInput, pro.trainingAudioFile);
      if check.Some? {
        AddTrainingLog("[ERROR] " + check.value);
        form := form.(errorMessage := check.value);
        return Refused(check.value);
      }
      var request := TrainingRequest(VoicePersistence.GenerateVoiceId(pro.proNameInput, now), pro.proNameInput,
                                     pro.trainingAudioFile.value, selectedLanguage);
      if !hasManager {
        return ManagerMissing;
      }
      if !queued {
        AddTrainingLog("[ERROR] " + NotStarted);
        form := form.(errorMessage := NotStarted);
        return NotQueued(request);
      }
      AddTrainingLog("[INFO] Training started...");
      AddTrainingLog("[INFO] This will take 30-120 minutes. Do not close the application.");
      outcome := Queued(request);
    }

    /** `poll_training_progress`: adopts the manager's snapshot only when
        it is strictly newer than the one held, then reacts to its status
        (`Reaction`): a completed training saves the trained voice under
        the Pro name, a failure or a cancellation is logged. Adopting
        replaces the dialog's own log with the manager's. A snapshot no
        newer than the one held changes nothing, so a completion is saved
        once. */
    method PollTrainingProgress(snapshot: TrainingManager.Progress, store: VoicePersistence.VoiceStore, now: nat)
      returns (saved: Option<Voice>)
      modifies this, store
      ensures form == old(form)
      ensures unchanged(this`cloneMode, this`selectedLanguage, this`hasManager)
      ensures pro == old(pro).(trainingProgress := pro.trainingProgress)
      ensures store.voiceDirs == old(store.voiceDirs)
      ensures !(hasManager && snapshot.lastUpdated > old(pro.trainingProgress.lastUpdated)) ==>
        pro == old(pro) && store.file == old(store.file) && saved.None?
      ensures var c := snapshot.status;
        var id := VoicePersistence.GenerateVoiceId(pro.proNameInput, now);
        var duplicate := c.Completed? && VoicePersistence.HasId(old(store.Voices()), id);
        hasManager && snapshot.lastUpdated > old(pro.trainingProgress.lastUpdated) ==>
          pro.trainingProgress == snapshot.(logLines := snapshot.logLines + Reaction(c, duplicate, id))
          && (saved.Some? <==> c.Completed? && !duplicate)
          && (saved.None? ==> store.file == old(store.file))
      ensures var c := snapshot.status;
        saved.Some? ==>
          c.Completed?
          && saved.value == TrainedVoice(VoicePersistence.GenerateVoiceId(pro.proNameInput, now), pro.proNameInput,
                              selectedLanguage, c.gptWeights, c.sovitsWeights, c.referenceAudio, c.referenceText, now)
          && store.Voices() == old(store.Voices()) + [saved.value]
    {
      saved := None;
      if !hasManager || !(snapshot.lastUpdated > pro.trainingProgress.lastUpdated) {
        return;
      }
      pro := pro.(trainingProgress := snapshot);
      match snapshot.status
      case Completed(gpt, sovits, referenceAudio, referenceText) =>
        var id := VoicePersistence.GenerateVoiceId(pro.proNameInput, now);
        var v := TrainedVoice(id, pro.proNameInput, selectedLanguage, gpt, sovits, referenceAudio, referenceText, now);
        var r := store.Add(v);
        if r.Err? {
          AddTrainingLog("[ERROR] Failed to save voice: " + r.error);
        } else {
          AddTrainingLog("[SUCCESS] Voice saved successfully!");
          saved := Some(v);
        }
      case Failed(e) =>
        AddTrainingLog("[ERROR] Training failed: " + e);
      case Cancelled =>
        AddTrainingLog("[INFO] Training cancelled");
      case _ =>
    }

    /** The text of the training log label. */
    function TrainingLogText(): string
      reads this
    {
      LogText(LogWindow(pro.trainingProgress.logLines))
    }
  }
}
