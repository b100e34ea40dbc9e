# A verified model of Moxin TTS

Moxin TTS is a desktop text-to-speech application built on the Makepad
UI toolkit and the dora dataflow runtime. Speech comes from GPT-SoVITS,
run by the PrimeSpeech dora node. Users can also clone a voice: either
from a short reference clip (express mode) or by fine-tuning the models
on a longer recording (pro mode). This project models the core of that
system in Dafny and proves properties of the model.

- **The PrimeSpeech synthesis node** (`directive.dfy`, `synthesis_node.dfy`):
  - decoding of the `VOICE:` / `VOICE:CUSTOM|…` / `VOICE:TRAINED|…`
    prefixes that travel in front of the text;
  - the language-code check;
  - the test that skips punctuation-only segments;
  - completion of a voice configuration with the global defaults;
  - start-up from the environment;
  - the per-segment loop: rebuild the engine when the voice changes,
    synthesise in streaming or batch mode, and emit audio and
    `segment_complete` outputs.
- **The speech screen** (`prompt_encoder.dfy`, `tts_screen.dfy`, `wav.dfy`):
  - the prompt the screen builds for the selected voice;
  - the round trip of that prompt through the node's decoder;
  - the generate, play, pause, resume and stop logic;
  - the 16-bit mono WAV writer used for downloads.
- **The audio player** (`audio_player.dfy`): the circular sample buffer
  and the playback thread's command loop and output callback.
- **Persistence and voices** (`voice_data.dfy`, `voice_persistence.dfy`,
  `task_persistence.dfy`, `voice_selector.dfy`):
  - the built-in voice list;
  - the custom-voice store: add, remove, update, rename, copy of the
    reference clip, and validation;
  - voice-id generation;
  - the task store;
  - the voice selector's list, selection and actions.
- **Voice training** (`training_manager.dfy`, `training_service.dfy`):
  - the manager's progress state, driven by the service's JSON event
    lines;
  - the service pipeline's stages, events and failure points;
  - the selection of the reference clip;
  - the choice of the final checkpoints.
- **The voice-clone modal** (`voice_clone_modal.dfy`): form checks,
  recording post-processing, save and training flows, the log windows,
  and the clean-up of stale temporary recordings.

Modelling choices:
- Objects whose fields the source updates in place are classes:
  - the circular buffer and the audio thread;
  - the voice and task stores;
  - the selector, the screen, the trainer and the modal;
  - a node wrapper around the synthesis state.
- The synthesis node's logic is also kept as pure functions over a
  state value, because the Python is a loop over events.
- Files, clocks, devices and the synthesis engine are parameters.
- Sample values are reals; integer widths are explicit where the
  source writes bytes.

The node's own warnings say a `VOICE:TRAINED|` or `VOICE:CUSTOM|`
directive needs "6 parts" or "4 parts" (main.py:324, 349). The split
itself takes at most 5 or 3 cuts (main.py:301, 329), so the last field,
the text, may contain `|`, and only too few fields fall back to plain
text. The model follows the split.

## Model

| member | source | states |
|---|---|---|
| AudioPlayer.Newest | apps/mofa-tts/src/audio_player.rs:56-62 | a ring of capacity n written with s keeps the smaller of n and the length of s |
| AudioPlayer.NewestBatches | apps/mofa-tts/src/audio_player.rs:47-65 | writing two batches one after the other leaves the same newest samples as writing them at once |
| AudioPlayer.CircularAudioBuffer.constructor | apps/mofa-tts/src/audio_player.rs:36-45 | a new buffer has size zeroed slots and nothing to play |
| AudioPlayer.CircularAudioBuffer.Contents | apps/mofa-tts/src/audio_player.rs:27-33 | the readable window holds exactly `available` samples |
| AudioPlayer.CircularAudioBuffer.Available | apps/mofa-tts/src/audio_player.rs:88-90 | the count reported is the length of the playable contents |
| AudioPlayer.CircularAudioBuffer.WriteSamples | apps/mofa-tts/src/audio_player.rs:47-65 | every sample is reported written and the contents become the newest bufferSize samples of old contents followed by the input |
| AudioPlayer.CircularAudioBuffer.Store | apps/mofa-tts/src/audio_player.rs:52-63 | one write appends the sample and, when full, drops the oldest |
| AudioPlayer.CircularAudioBuffer.Read | apps/mofa-tts/src/audio_player.rs:67-80 | output gets the oldest min(len, available) samples then zeros, and those samples leave the buffer |
| AudioPlayer.CircularAudioBuffer.Take | apps/mofa-tts/src/audio_player.rs:72-77 | one read returns the oldest sample and removes it |
| AudioPlayer.CircularAudioBuffer.Reset | apps/mofa-tts/src/audio_player.rs:82-86 | reset empties the buffer and leaves the storage untouched |
| AudioPlayer.AudioThread.constructor | apps/mofa-tts/src/audio_player.rs:169-179 | the thread starts stopped with an empty buffer of rate × seconds slots |
| AudioPlayer.AudioThread.HandleCommand | apps/mofa-tts/src/audio_player.rs:331-350 | write appends (keeping the newest) and starts playback once more than half a second is buffered; reset stops and empties; pause/resume flip the flag; stop ends the loop |
| AudioPlayer.AudioThread.Callback | apps/mofa-tts/src/audio_player.rs:227-245 | while playing the callback consumes up to `needed` samples; a read of none stops playback and raises the finished signal |
| AudioPlayer.AudioThread.CheckPlaybackFinished | apps/mofa-tts/src/audio_player.rs:136-139 | the poll reports the finished signal and clears it |
| Directive.Drop | node-hub/dora-primespeech/dora_primespeech/main.py:299-300 | dropping a prefix length leaves the rest of the string, or nothing |
| Directive.CoerceLanguage | node-hub/dora-primespeech/dora_primespeech/main.py:317-318 | a language outside the accepted set becomes "auto"; an accepted one is kept |
| Directive.ParsePrompt | node-hub/dora-primespeech/dora_primespeech/main.py:296-370 | text without the VOICE: prefix passes through unchanged with the current voice; a custom config only comes with CUSTOM or TRAINED; a named voice is a known one or the default |
| Directive.ParsedTextIsSuffix | node-hub/dora-primespeech/dora_primespeech/main.py:296-370 | the text left after decoding is always a suffix of the raw input |
| Directive.ValidateLanguageConfig | node-hub/dora-primespeech/dora_primespeech/main.py:37-66 | the report is for the code checked |
| Directive.LanguageCheckErrors | node-hub/dora-primespeech/dora_primespeech/main.py:37-66 | errors are empty exactly for a valid code; otherwise 3 lines, or 4 with a hint, opening with the INVALID line and closing with the "TTS will fail" line |
| Directive.HintComesSecond | node-hub/dora-primespeech/dora_primespeech/main.py:51-58 | when a hint exists it is the second error line |
| Directive.CnGetsHint | node-hub/dora-primespeech/dora_primespeech/main.py:51-58 | "CN" is invalid and is told to use 'zh' |
| Directive.AllSkipCharsSkipped | node-hub/dora-primespeech/dora_primespeech/main.py:382-406 | text made only of skip characters is skipped |
| Directive.SkippedHasNoWords | node-hub/dora-primespeech/dora_primespeech/main.py:382-406 | skipped text holds only whitespace and skip characters |
| Directive.UnskippableAt | node-hub/dora-primespeech/dora_primespeech/main.py:382-406 | one character outside the skip set, with no blank ends, makes a segment speakable |
| Directive.InnerIdeographicSpaceNotSkipped | node-hub/dora-primespeech/dora_primespeech/main.py:382-406 | an ideographic space between full stops is not stripped, so the segment is not skipped |
| Directive.ApostropheNotSkipped | node-hub/dora-primespeech/dora_primespeech/main.py:382-406 | ASCII apostrophes are not in the skip set |
| Directive.PunctuationSkipped | node-hub/dora-primespeech/dora_primespeech/main.py:382-406 | full stops with surrounding spaces are skipped |
| Directive.MergeGlobalDefaults | node-hub/dora-primespeech/dora_primespeech/main.py:443-448 | the merge loop computes the completed configuration |
| Directive.CompletedKeepsVoice | node-hub/dora-primespeech/dora_primespeech/main.py:443-448 | voice settings win; only override keys present globally are added, with the global value; every such key ends up present |
| PromptEncoder.TrainedRoundTrip | apps/mofa-tts/src/screen_moyoyo.rs:2736-2765 | a TRAINED prompt with pipe-free fields decodes to the same five fields and the text |
| PromptEncoder.CustomRoundTrip | apps/mofa-tts/src/screen_moyoyo.rs:2766-2793 | a CUSTOM prompt with pipe-free fields decodes to the same reference, transcript, language and text |
| PromptEncoder.NamedRoundTrip | apps/mofa-tts/src/screen_moyoyo.rs:2794-2797 | a named prompt decodes to that voice when the node knows it, else to the node's default, with the text intact |
| PromptEncoder.NotReservedPrefix | apps/mofa-tts/src/screen_moyoyo.rs:2794-2797 | a named prompt never looks like a different reserved directive |
| PromptEncoder.PipeInTranscriptShiftsFields | apps/mofa-tts/src/screen_moyoyo.rs:2766-2793 | a pipe in a clone transcript shifts the fields: the node reads the tail as language and the language as text |
| PromptEncoder.DoubaoIsPlain | apps/mofa-tts/src/screen_moyoyo.rs:2794-2797 | the default id is pipe-free, unpadded and not reserved |
| PromptEncoder.DoubaoRoundTrip | apps/mofa-tts/src/screen_moyoyo.rs:2794-2797 | the Doubao prompt decodes as that named voice |
| PromptEncoder.RenderRoundTrip | apps/mofa-tts/src/screen_moyoyo.rs:2735-2801 | every encodable plan decodes to its meaning |
| PromptEncoder.PlanMeansIntended | apps/mofa-tts/src/screen_moyoyo.rs:2735-2801 | the chosen plan means what the selection intends: trained, custom, built-in or unknown voice |
| PromptEncoder.EncodeDecode | apps/mofa-tts/src/screen_moyoyo.rs:2735-2801 | the screen's prompt decodes in the node to the intended voice, config and text |
| PromptEncoder.ByteLen | apps/mofa-tts/src/screen_moyoyo.rs:2804-2808 | UTF-8 length is at least the character count |
| PromptEncoder.CharsWithin | apps/mofa-tts/src/screen_moyoyo.rs:2804-2808 | the longest character prefix that fits n bytes |
| PromptEncoder.PreviewAsWritten | apps/mofa-tts/src/screen_moyoyo.rs:2804-2805 | byte slicing at 150 fails exactly when the prompt is longer and byte 150 is inside a character |
| PromptEncoder.Preview | apps/mofa-tts/src/screen_moyoyo.rs:2804-2808 | a short prompt is shown whole; a long one is cut at a character boundary within 150 bytes and marked "..." |
| PromptEncoder.PreviewAgrees | apps/mofa-tts/src/screen_moyoyo.rs:2804-2808 | wherever the written slice succeeds, the corrected preview gives the same string |
| PromptEncoder.ChineseTextPanicsPreview | apps/mofa-tts/src/screen_moyoyo.rs:2804-2805 | Luo Xiang with 45 Chinese characters makes the written slice panic |
| PromptEncoder.CjkAfterAsciiSplitsByte150 | apps/mofa-tts/src/screen_moyoyo.rs:2804-2805 | any ASCII head followed by CJK text whose 3-byte characters straddle byte 150 panics |
| SynthesisNode.EnvOverrides | node-hub/dora-primespeech/dora_primespeech/main.py:102-120 | non-empty PROMPT_TEXT, TEXT_LANG and PROMPT_LANG replace their keys; every other key is kept |
| SynthesisNode.SetIfGiven | node-hub/dora-primespeech/dora_primespeech/main.py:102-120 | an empty value changes nothing; otherwise only that key is set |
| SynthesisNode.StartupConfig | node-hub/dora-primespeech/dora_primespeech/main.py:122-148 | speed_factor is SPEED_FACTOR when given, else the voice's own, else 1.0; return_fragment is the streaming flag |
| SynthesisNode.WithSpeed | node-hub/dora-primespeech/dora_primespeech/main.py:122-148 | sets speed and streaming and keeps every other key |
| SynthesisNode.WithInterval | node-hub/dora-primespeech/dora_primespeech/main.py:122-148 | a given interval is set; none leaves the config unchanged |
| SynthesisNode.WithTuning | node-hub/dora-primespeech/dora_primespeech/main.py:150-165 | tuning keys from the environment are set; all other keys are kept |
| SynthesisNode.StartupTuning | node-hub/dora-primespeech/dora_primespeech/main.py:150-165 | every tuning key given survives into the start-up config |
| SynthesisNode.StartupKeepsEnv | node-hub/dora-primespeech/dora_primespeech/main.py:102-120 | the environment's prompt text and languages survive later steps |
| SynthesisNode.StartupInterval | node-hub/dora-primespeech/dora_primespeech/main.py:122-148 | fragment_interval is the given one, else the voice's own if any |
| SynthesisNode.EngineVoiceName | node-hub/dora-primespeech/dora_primespeech/main.py:232 | the engine's voice name contains no space |
| SynthesisNode.PreBuild | node-hub/dora-primespeech/dora_primespeech/main.py:219-262 | an engine exists after pre-init exactly when construction succeeds with a live tts, for the chosen voice, mode and config |
| SynthesisNode.Startup | node-hub/dora-primespeech/dora_primespeech/main.py:95-100 | start-up succeeds iff the voice or the fallback is known; it picks that voice, records its config, runs with no outputs and zero statistics, and model_loaded means an engine |
| SynthesisNode.StartupKeepsRegistry | node-hub/dora-primespeech/dora_primespeech/main.py:95-165 | start-up only rewrites the chosen voice's entry |
| SynthesisNode.PassThrough | node-hub/dora-primespeech/dora_primespeech/main.py:391-394 | the forwarded metadata has just question_id and session_status, copied from the request or "default" and "unknown" when absent; the same dict heads the audio outputs and the "completed" completion (main.py:558-562, 606-610, 619-622) |
| SynthesisNode.FragmentOutput | node-hub/dora-primespeech/dora_primespeech/main.py:532-573 | a fragment is sent iff playable, as one output when non-empty and none when empty |
| SynthesisNode.StreamRun | node-hub/dora-primespeech/dora_primespeech/main.py:532-573 | streaming fails iff some fragment is unplayable; every output is non-empty audio carrying the request metadata |
| SynthesisNode.StreamSendsNonEmptyFragments | node-hub/dora-primespeech/dora_primespeech/main.py:532-573 | with playable fragments the audio sent is exactly the non-empty fragments, in order |
| SynthesisNode.StreamRunSticky | node-hub/dora-primespeech/dora_primespeech/main.py:532-573 | once a fragment fails, later fragments change nothing |
| SynthesisNode.StreamErrorIsFragmentError | node-hub/dora-primespeech/dora_primespeech/main.py:532-573 | a streaming failure is one of the two fragment errors |
| SynthesisNode.Attempt | node-hub/dora-primespeech/dora_primespeech/main.py:510-613 | no engine gives the no-engine error; only a successful batch is counted, with one audio output; outputs carry the request metadata |
| SynthesisNode.NoFragmentsIff | node-hub/dora-primespeech/dora_primespeech/main.py:567-573 | streaming reports "no fragments" exactly when the engine yields none |
| SynthesisNode.PromptOf | node-hub/dora-primespeech/dora_primespeech/main.py:280-287 | raw text is the prompt; a JSON object yields its string prompt or ""; a non-string prompt is an error |
| SynthesisNode.ProcessKeepsValid | node-hub/dora-primespeech/dora_primespeech/main.py:372-624 | handling text keeps the state valid, keeps voice, registry and mode, and only appends outputs |
| SynthesisNode.SynthesisKeeps | node-hub/dora-primespeech/dora_primespeech/main.py:510-624 | synthesis changes only outputs and statistics and always ends with a segment_complete |
| SynthesisNode.SkippedSegment | node-hub/dora-primespeech/dora_primespeech/main.py:382-406 | a skippable segment emits "skipped" then "empty" completions and nothing else |
| SynthesisNode.SegmentIndexError | node-hub/dora-primespeech/dora_primespeech/main.py:380 | converting the segment index fails exactly when the metadata holds a string that is not an integer literal; a missing key, numbers and booleans convert |
| SynthesisNode.DigitsConvert | node-hub/dora-primespeech/dora_primespeech/main.py:380 | a run of digits converts, unsigned or with a "+" or "-" sign |
| SynthesisNode.GroupsConvert | node-hub/dora-primespeech/dora_primespeech/main.py:380 | two digit runs joined by one underscore convert |
| SynthesisNode.PaddingIgnored | node-hub/dora-primespeech/dora_primespeech/main.py:380 | surrounding blanks do not change whether a string converts |
| SynthesisNode.LiteralEndsInDigit | node-hub/dora-primespeech/dora_primespeech/main.py:380 | a string that converts ends in a digit once stripped, so an empty string, a lone sign or a trailing underscore fails |
| SynthesisNode.StrayCharRefused | node-hub/dora-primespeech/dora_primespeech/main.py:380 | any character other than a digit, underscore or sign left after stripping, such as a letter or a decimal point, makes the conversion fail |
| SynthesisNode.BadSegmentIndexCrashes | node-hub/dora-primespeech/dora_primespeech/main.py:372-408 | a text input whose segment index does not convert ends the node with that error before any completion, even for text that would be skipped, and nothing is sent afterwards |
| SynthesisNode.NoReloadKeepsEngine | node-hub/dora-primespeech/dora_primespeech/main.py:410-418 | without a voice change the engine stays |
| SynthesisNode.FailedBuildRetries | node-hub/dora-primespeech/dora_primespeech/main.py:485-508 | a failed build emits one "error" completion with stage "init", leaves no model loaded and retries on the next segment |
| SynthesisNode.BuildRecordsVoice | node-hub/dora-primespeech/dora_primespeech/main.py:450-483 | a successful build loads an engine for the requested voice and needs no further reload |
| SynthesisNode.SynthesisOutputs | node-hub/dora-primespeech/dora_primespeech/main.py:510-670 | the segment's audio outputs are followed by one completion: "completed" with the request metadata, or "error" at stage synthesis |
| SynthesisNode.StatisticsOnlyOnBatch | node-hub/dora-primespeech/dora_primespeech/main.py:575-613 | the synthesis count grows by one exactly on a successful batch; streaming never changes statistics |
| SynthesisNode.LanguageIgnoresVoice | node-hub/dora-primespeech/dora_primespeech/main.py:526-528 | the synthesis request depends on the text only, not on the voice directive |
| SynthesisNode.NeverWithoutEngine | node-hub/dora-primespeech/dora_primespeech/main.py:518-524 | with the corrected reload logic a segment never reports "no engine" |
| SynthesisNode.Run | node-hub/dora-primespeech/dora_primespeech/main.py:372-690 | running events, as written or corrected, keeps the state valid, the voice and its config, and only appends outputs |
| SynthesisNode.RunAfterEnd | node-hub/dora-primespeech/dora_primespeech/main.py:686-687 | after STOP or a crash no event changes anything, as written or corrected |
| SynthesisNode.ControlIsInert | node-hub/dora-primespeech/dora_primespeech/main.py:672-684 | control inputs have no effect on the state, as written or corrected |
| SynthesisNode.FailedBuildEndsRunAsWritten | node-hub/dora-primespeech/dora_primespeech/main.py:491-502 | as written, a segment whose engine build fails crashes the loop on the undefined session_id and nothing is sent for it or for any later event |
| SynthesisNode.SecondClonedVoiceKeepsFirstEngine | node-hub/dora-primespeech/dora_primespeech/main.py:411-418 | as written, a second cloned voice is synthesised by the first clone's engine |
| SynthesisNode.ClonedVoiceGetsItsEngine | node-hub/dora-primespeech/dora_primespeech/main.py:410-483 | corrected, a cloned-voice segment is synthesised by an engine built from its own config |
| SynthesisNode.FailedBuildStopsNodeAsWritten | node-hub/dora-primespeech/dora_primespeech/main.py:491-502 | as written, a failed build crashes the node on the undefined session_id, with no completion |
| SynthesisNode.EverySegmentCompletes | node-hub/dora-primespeech/dora_primespeech/main.py:372-670 | corrected, every segment keeps the node running and ends with a segment_complete |
| SynthesisNode.Node.constructor | node-hub/dora-primespeech/dora_primespeech/main.py:190-262 | the node starts in the state start-up computes |
| SynthesisNode.Node.Synthesize | node-hub/dora-primespeech/dora_primespeech/main.py:510-613 | the streaming and batch loops produce the outcome Attempt specifies |
| SynthesisNode.Node.HandleTextInput | node-hub/dora-primespeech/dora_primespeech/main.py:372-624 | one text input moves the node as HandleText says: a segment index that does not convert crashes it first; the reload test and build-error path are as written or corrected |
| SynthesisNode.Node.SegmentStep | node-hub/dora-primespeech/dora_primespeech/main.py:372-624 | one decoded segment moves the node as Segment says, reloading on the written name test or the corrected config test |
| SynthesisNode.Node.RebuildStep | node-hub/dora-primespeech/dora_primespeech/main.py:410-508 | the reload step moves the node as Rebuild says: a failed build crashes the node as written, or sends the "init" error completion corrected |
| SynthesisNode.Node.SynthesisStep | node-hub/dora-primespeech/dora_primespeech/main.py:510-670 | the synthesis step moves the node as Synthesis says |
| SynthesisNode.Node.Handle | node-hub/dora-primespeech/dora_primespeech/main.py:372-690 | one event moves the node as Process says, as written or corrected |
| SynthesisNode.Node.RunAll | node-hub/dora-primespeech/dora_primespeech/main.py:372-690 | the event loop ends in the state Run computes, as written or corrected |
| TaskPersistence.DefaultConfig | apps/mofa-tts/src/task_persistence.rs:45-52 | the default file is the current version with no tasks |
| TaskPersistence.FirstIndex | apps/mofa-tts/src/task_persistence.rs:140-149 | finds the first task with the id, or none exactly when there is none |
| TaskPersistence.GetTask | apps/mofa-tts/src/task_persistence.rs:168-170 | returns a stored task with that id, or none exactly when absent |
| TaskPersistence.Without | apps/mofa-tts/src/task_persistence.rs:152-165 | removal never lengthens the list |
| TaskPersistence.WithoutMembers | apps/mofa-tts/src/task_persistence.rs:152-165 | removal keeps exactly the tasks with another id |
| TaskPersistence.WithoutKeepsOthers | apps/mofa-tts/src/task_persistence.rs:152-165 | removing one id does not change lookups of another |
| TaskPersistence.TaskStore.constructor | apps/mofa-tts/src/task_persistence.rs:91-111 | the store is over the given file and task directories |
| TaskPersistence.TaskStore.Add | apps/mofa-tts/src/task_persistence.rs:133-137 | add appends the task and saves |
| TaskPersistence.TaskStore.Update | apps/mofa-tts/src/task_persistence.rs:140-149 | update replaces the first task with that id, or fails with "Task not found" and changes nothing |
| TaskPersistence.TaskStore.Delete | apps/mofa-tts/src/task_persistence.rs:152-165 | delete saves the list without every task with the id, then removes its directory; an absent id is not an error; a failed directory removal is returned as "Failed to delete task directory: …" with the list already saved and the directory kept |
| TaskPersistence.GetAfterAdd | apps/mofa-tts/src/task_persistence.rs:133-137 | after add, get returns the new task unless an older one has its id |
| TaskPersistence.GetAfterUpdate | apps/mofa-tts/src/task_persistence.rs:140-149 | after update, get returns the updated task |
| TaskPersistence.GetAfterDelete | apps/mofa-tts/src/task_persistence.rs:152-165 | after delete, get finds nothing for the id and the same for other ids |
| TtsScreen.Concat | apps/mofa-tts/src/screen_moyoyo.rs:1483-1514 | the drained audio is empty exactly when every chunk is |
| TtsScreen.ConcatAppend | apps/mofa-tts/src/screen_moyoyo.rs:1483-1514 | draining in two batches equals draining once |
| TtsScreen.PlayedFrom | apps/mofa-tts/src/screen_moyoyo.rs:2842-2857 | playing from the start gives the whole clip; a resume gives a suffix |
| TtsScreen.ResumeSkipsPlayed | apps/mofa-tts/src/screen_moyoyo.rs:2852-2857 | a resume skips exactly floor(time × rate) samples, the ones already heard |
| TtsScreen.StopThenPlayResumes | apps/mofa-tts/src/screen_moyoyo.rs:2873-2892 | since stop keeps the playing time, play after stop resumes mid-clip instead of restarting |
| TtsScreen.Screen.constructor | apps/mofa-tts/src/screen_moyoyo.rs:1423-1426 | the screen starts idle with no audio at 32000 Hz |
| TtsScreen.Screen.GenerateSpeech | apps/mofa-tts/src/screen_moyoyo.rs:2654-2830 | with the dataflow running and text given: drops the clip and sets Generating; as written, a prompt whose byte 150 falls inside a character panics there, with nothing sent and the player not reset; otherwise it sends the encoded prompt (error status if refused), resets the player and logs the 150-byte preview, which both cuts agree on; without running or text nothing changes |
| TtsScreen.Screen.ReceiveAudio | apps/mofa-tts/src/screen_moyoyo.rs:1483-1514 | drained chunks are appended in order, the last rate kept, and generation becomes ready |
| TtsScreen.Screen.PollPlayback | apps/mofa-tts/src/screen_moyoyo.rs:1517-1533 | finished playback returns to ready at time 0; ongoing playback advances the clock by one tick |
| TtsScreen.Screen.TogglePlayback | apps/mofa-tts/src/screen_moyoyo.rs:2832-2871 | pause keeps the position; play resets the player and writes the unplayed suffix, or the whole clip from time 0 |
| TtsScreen.Screen.StopPlayback | apps/mofa-tts/src/screen_moyoyo.rs:2873-2892 | stop ends playing and resets the player, leaving the clip and the clock |
| VoiceData.AsStr | apps/mofa-tts/src/voice_data.rs:60-66 | each category has one of the three display names |
| VoiceData.BuiltinVoice | apps/mofa-tts/src/voice_data.rs:71-286 | a built-in voice has no custom models or reference clip and has its preview |
| VoiceData.BuiltinVoices | apps/mofa-tts/src/voice_data.rs:71-286 | there are 15 built-in voices, 10 Chinese then 5 English, none with custom models |
| VoiceData.BuiltinVoiceAt | apps/mofa-tts/src/voice_data.rs:71-286 | each listed voice is built-in, in its language |
| VoiceData.ChineseVoiceAt | apps/mofa-tts/src/voice_data.rs:71-286 | the first ten voices are Chinese built-ins |
| VoiceData.EnglishVoiceAt | apps/mofa-tts/src/voice_data.rs:71-286 | the last five voices are English built-ins |
| VoiceData.NewCustom | apps/mofa-tts/src/voice_data.rs:323-349 | a new custom voice is custom, not trained, previews its reference clip and records the clock |
| VoicePersistence.FirstIndex | apps/mofa-tts/src/voice_persistence.rs:142-151 | finds the first voice with the id, or none exactly when there is none |
| VoicePersistence.Without | apps/mofa-tts/src/voice_persistence.rs:121-139 | removal never lengthens the list |
| VoicePersistence.WithoutMembers | apps/mofa-tts/src/voice_persistence.rs:121-139 | removal keeps exactly voices with another id and shortens the list iff the id was present |
| VoicePersistence.WithoutAbsent | apps/mofa-tts/src/voice_persistence.rs:121-139 | removing an absent id changes nothing |
| VoicePersistence.AddThenRemove | apps/mofa-tts/src/voice_persistence.rs:108-139 | removing a just-added new voice restores the list |
| VoicePersistence.Sanitize | apps/mofa-tts/src/voice_persistence.rs:236-262 | each name character maps to its sanitized form, same length |
| VoicePersistence.GenerateVoiceId | apps/mofa-tts/src/voice_persistence.rs:236-262 | the id is the sanitized name and the timestamp, or custom_voice_ for an empty name, with no space, pipe or slash |
| VoicePersistence.LatinNameId | apps/mofa-tts/src/voice_persistence.rs:280-289 | "My Custom Voice" yields an id starting my_custom_voice_ |
| VoicePersistence.ChineseNameKeepsCharacters | apps/mofa-tts/src/voice_persistence.rs:236-247 | a Chinese name keeps its characters in the id and does not start with "____", contrary to what the test at voice_persistence.rs:284-288 asserts |
| VoicePersistence.CjkNamesGetDistinctIds | apps/mofa-tts/src/voice_persistence.rs:236-262 | two different same-length names of CJK ideographs created in the same second get different ids |
| VoicePersistence.GetReferenceAudioPath | apps/mofa-tts/src/voice_persistence.rs:265-273 | a path exists iff the voice is custom with a clip, and it is the clip joined to the voices directory |
| VoicePersistence.ValidateAudioFile | apps/mofa-tts/src/voice_persistence.rs:183-223 | missing or unreadable files are errors; otherwise the duration and rate, with warnings exactly outside 3–10 s, each naming the duration to one decimal |
| VoicePersistence.VoiceStore.constructor | apps/mofa-tts/src/voice_persistence.rs:67-87 | the store is over the given file and voice directories |
| VoicePersistence.VoiceStore.AnyWithId | apps/mofa-tts/src/voice_persistence.rs:108-118 | the scan finds the id iff some voice has it |
| VoicePersistence.VoiceStore.Retain | apps/mofa-tts/src/voice_persistence.rs:121-139 | the filter loop keeps exactly the voices Without keeps |
| VoicePersistence.VoiceStore.Find | apps/mofa-tts/src/voice_persistence.rs:142-151 | the search loop finds the first matching index |
| VoicePersistence.VoiceStore.Add | apps/mofa-tts/src/voice_persistence.rs:108-118 | a duplicate id is refused and nothing changes; otherwise the voice is appended and saved |
| VoicePersistence.VoiceStore.Remove | apps/mofa-tts/src/voice_persistence.rs:121-139 | an absent id is "not found"; a failed removal of an existing voice directory is "Failed to delete voice directory: …" with the file and directories unchanged; otherwise its voices and directory are removed |
| VoicePersistence.VoiceStore.Update | apps/mofa-tts/src/voice_persistence.rs:142-151 | replaces the first voice with the id, or "not found" and nothing changes |
| VoicePersistence.VoiceStore.Rename | apps/mofa-tts/src/voice_persistence.rs:154-163 | renames the first voice with the id, or "not found" and nothing changes |
| VoicePersistence.VoiceStore.CopyReferenceAudio | apps/mofa-tts/src/voice_persistence.rs:166-180 | creates the voice directory when missing and returns the relative clip path; otherwise the first failure of creating the directories, creating the voice directory or copying, with the directory kept only if it was in place |
| VoicePersistence.CopyError | apps/mofa-tts/src/voice_persistence.rs:166-180 | a copy succeeds exactly when the directories are created, the voice directory exists or is created, and the file copies; otherwise the first failing step's message |
| VoicePersistence.AddToUnreadableKeepsOnlyNew | apps/mofa-tts/src/voice_persistence.rs:67-118 | adding to an unreadable file saves a file holding only the new voice |
| VoiceSelector.FindVoice | apps/mofa-tts/src/voice_selector.rs:702-707 | lookup returns the first listed voice with the id, or none exactly when absent |
| VoiceSelector.DeleteKeepsSelectionListed | apps/mofa-tts/src/voice_selector.rs:743-761 | after a delete any selection still names a listed voice other than the deleted one |
| VoiceSelector.DeleteKeepsBuiltins | apps/mofa-tts/src/voice_selector.rs:743-761 | deleting a custom id leaves the built-ins in front and untouched |
| VoiceSelector.InitialSelectionIsDoubao | apps/mofa-tts/src/voice_selector.rs:548-555 | the first-draw selection is Doubao |
| VoiceSelector.Selector.constructor | apps/mofa-tts/src/voice_selector.rs:548-555 | a new selector has the built-ins, no list, no selection, nothing playing |
| VoiceSelector.Selector.SelectedVoice | apps/mofa-tts/src/voice_selector.rs:686-693 | returns the selected listed voice, present whenever a listed id is selected |
| VoiceSelector.Selector.GetVoice | apps/mofa-tts/src/voice_selector.rs:702-707 | returns a listed voice with the id, or none exactly when absent |
| VoiceSelector.Selector.IsPreviewPlaying | apps/mofa-tts/src/voice_selector.rs:718-723 | true exactly for the voice being previewed |
| VoiceSelector.Selector.Reload | apps/mofa-tts/src/voice_selector.rs:676-681 | the list becomes built-ins then stored custom voices; the rest is unchanged |
| VoiceSelector.Selector.Initialize | apps/mofa-tts/src/voice_selector.rs:415-422 | the first event loads the list and selects the first voice; later events change nothing |
| VoiceSelector.Selector.AddCustomVoice | apps/mofa-tts/src/voice_selector.rs:734-740 | appends the voice to both lists and keeps the selection valid |
| VoiceSelector.Selector.DeleteCustomVoice | apps/mofa-tts/src/voice_selector.rs:743-761 | an unknown id is "not found" and a failed directory removal is returned, and then the widget and the stored file are unchanged; otherwise it leaves store and lists and the selection moves off it |
| VoiceSelector.Selector.Forget | apps/mofa-tts/src/voice_selector.rs:748-758 | removes the id from both lists and moves the selection off it, keeping it listed |
| VoiceSelector.Selector.SetDoraRunning | apps/mofa-tts/src/voice_selector.rs:764-769 | records the dataflow state and nothing else |
| VoiceSelector.Selector.CloneClick | apps/mofa-tts/src/voice_selector.rs:425-443 | clone opens the modal when the dataflow runs, else asks to start it |
| VoiceSelector.Selector.ItemTap | apps/mofa-tts/src/voice_selector.rs:446-535 | delete on a custom voice asks confirmation; preview toggles that voice's preview; a tap selects the voice; the list never changes |
| Wav.FromLe | apps/mofa-tts/src/screen_moyoyo.rs:2938-2965 | a little-endian value fits its byte width |
| Wav.LeBytes | apps/mofa-tts/src/screen_moyoyo.rs:2938-2965 | encodes a value in the given width so that it reads back |
| Wav.LeBytesFromLe | apps/mofa-tts/src/screen_moyoyo.rs:2938-2965 | decoding then encoding restores the bytes |
| Wav.WriterFieldsExact | apps/mofa-tts/src/screen_moyoyo.rs:2938-2965 | header fields are 16-bit mono PCM: data size 2n, RIFF size 36 + 2n, byte rate 2 × rate |
| Wav.ParseHeader | apps/mofa-tts/src/screen_moyoyo.rs:2938-2965 | a parsed header has the RIFF, WAVE, fmt and data tags in place |
| Wav.HeaderRoundTrip | apps/mofa-tts/src/screen_moyoyo.rs:2938-2965 | the written header parses back to the writer's fields |
| Wav.SampleValue | apps/mofa-tts/src/screen_moyoyo.rs:2967-2971 | samples are clamped to ±1 and scaled to ±32767 |
| Wav.I16Le | apps/mofa-tts/src/screen_moyoyo.rs:2967-2971 | a 16-bit sample takes two bytes |
| Wav.DecodeI16Le | apps/mofa-tts/src/screen_moyoyo.rs:2967-2971 | the two's complement bytes decode to the sample |
| Wav.PcmBody | apps/mofa-tts/src/screen_moyoyo.rs:2967-2971 | the body has two bytes per sample |
| Wav.PcmBodyReadsBack | apps/mofa-tts/src/screen_moyoyo.rs:2967-2971 | each sample's bytes decode to its clamped value |
| Wav.WavFile | apps/mofa-tts/src/screen_moyoyo.rs:2935-2975 | the file is 44 bytes of header plus two per sample |
| Wav.WavFileReadsBack | apps/mofa-tts/src/screen_moyoyo.rs:2935-2975 | the file's header and every sample read back |
| Wav.WriteWav | apps/mofa-tts/src/screen_moyoyo.rs:2935-2975 | the writer produces the specified file |
| Wav.EncodeSamples | apps/mofa-tts/src/screen_moyoyo.rs:2967-2971 | the sample loop produces the specified body |
| TrainingManager.DefaultProgress | apps/mofa-tts/src/training_manager.rs:65-91 | idle, no stage, step 0 of 7, empty log, stamped now |
| TrainingManager.KeepNewest | apps/mofa-tts/src/training_manager.rs:505-509 | keeps the newest n lines, a suffix of the log |
| TrainingManager.KeepNewestLast | apps/mofa-tts/src/training_manager.rs:505-509 | the newest line survives the cut |
| TrainingManager.ApplyLog | apps/mofa-tts/src/training_manager.rs:396-510 | raw lines are appended; an event appends its line and the log keeps the newest 500 |
| TrainingManager.ErrorFails | apps/mofa-tts/src/training_manager.rs:441-455 | ERROR fails the run with its message, logged last, steps unchanged |
| TrainingManager.StageProgress | apps/mofa-tts/src/training_manager.rs:412-428 | STAGE sets the stage and takes current/total from the data when present |
| TrainingManager.CompleteLogsSuccess | apps/mofa-tts/src/training_manager.rs:457-494 | COMPLETE with data ends the log with the success line |
| TrainingManager.CompleteWithData | apps/mofa-tts/src/training_manager.rs:457-494 | COMPLETE with data completes with its four paths, missing ones empty |
| TrainingManager.CompleteWithoutData | apps/mofa-tts/src/training_manager.rs:457-494 | COMPLETE without data only refreshes the timestamp |
| TrainingManager.OnlyErrorOrCompleteEndsRun | apps/mofa-tts/src/training_manager.rs:396-510 | a running job keeps running under any other line |
| TrainingManager.EventsKeepLogBounded | apps/mofa-tts/src/training_manager.rs:505-509 | any sequence of events keeps the log at most 500 lines |
| TrainingManager.Trainer.constructor | apps/mofa-tts/src/training_manager.rs:158-176 | a new manager holds the default progress and no process |
| TrainingManager.Trainer.HandleEvent | apps/mofa-tts/src/training_manager.rs:396-510 | one stdout line moves progress as Apply says |
| TrainingManager.Trainer.Record | apps/mofa-tts/src/training_manager.rs:396-510 | one event is recorded as Recorded says |
| TrainingManager.Trainer.Start | apps/mofa-tts/src/training_manager.rs:207-340 | start resets progress and runs; a serialize, spawn or send failure fails with its message and error line |
| TrainingManager.Trainer.Cancel | apps/mofa-tts/src/training_manager.rs:227-238 | cancel with a process marks cancelled and logs it; with none nothing changes |
| TrainingManager.Trainer.OutputClosed | apps/mofa-tts/src/training_manager.rs:361-372 | closed output while running fails the run with the exit message |
| TrainingService.ExpandUser | node-hub/dora-primespeech/dora_primespeech/moyoyo_tts/training_service.py:68-78 | only "~" and "~/…" are expanded; a non-empty path stays non-empty |
| TrainingService.PretrainedModelsDir | node-hub/dora-primespeech/dora_primespeech/moyoyo_tts/training_service.py:68-78 | the directory ends in /moyoyo; without the variable it is ~/.dora/models/primespeech/moyoyo; otherwise under the variable's path |
| TrainingService.JoinMoyoyo | node-hub/dora-primespeech/dora_primespeech/moyoyo_tts/training_service.py:68-78 | joining moyoyo keeps the base as prefix and ends in /moyoyo |
| TrainingService.HomeModelsDir | node-hub/dora-primespeech/dora_primespeech/moyoyo_tts/training_service.py:68-78 | the home default spelled out segment by segment |
| TrainingService.EmitProgress | node-hub/dora-primespeech/dora_primespeech/moyoyo_tts/training_service.py:81-92 | the event carries type, message and time, with data iff given and non-empty |
| TrainingService.EmptyCompletionCompletesNothing | node-hub/dora-primespeech/dora_primespeech/moyoyo_tts/training_service.py:81-92 | a COMPLETE with empty data is sent without data and the manager only refreshes its timestamp |
| TrainingService.ValidateAudioFile | node-hub/dora-primespeech/dora_primespeech/moyoyo_tts/training_service.py:160-176 | passes iff the file exists and is long enough; warns exactly when too long |
| TrainingService.Rows | node-hub/dora-primespeech/dora_primespeech/moyoyo_tts/training_service.py:121-142 | each ASR line is stripped and split at every pipe |
| TrainingService.RowCandidate | node-hub/dora-primespeech/dora_primespeech/moyoyo_tts/training_service.py:121-142 | a candidate lasts 3–10 s, has at least 10 characters of text and scores its distance to 6 s |
| TrainingService.Candidates | node-hub/dora-primespeech/dora_primespeech/moyoyo_tts/training_service.py:121-142 | every candidate meets the duration and text bounds |
| TrainingService.CandidateFromRow | node-hub/dora-primespeech/dora_primespeech/moyoyo_tts/training_service.py:121-142 | every candidate comes from some row |
| TrainingService.RowGivesCandidate | node-hub/dora-primespeech/dora_primespeech/moyoyo_tts/training_service.py:121-142 | every acceptable row gives a candidate |
| TrainingService.FirstBest | node-hub/dora-primespeech/dora_primespeech/moyoyo_tts/training_service.py:150-152 | the pick has the least score |
| TrainingService.Reference | node-hub/dora-primespeech/dora_primespeech/moyoyo_tts/training_service.py:106-157 | a missing list and no candidates are the two errors; otherwise a pick |
| TrainingService.ReferenceIsBest | node-hub/dora-primespeech/dora_primespeech/moyoyo_tts/training_service.py:106-157 | the pick is a best candidate's path and text |
| TrainingService.BestIsClosestToSixSeconds | node-hub/dora-primespeech/dora_primespeech/moyoyo_tts/training_service.py:106-157 | the best clip is acceptable and no acceptable row is closer to 6 s |
| TrainingService.SelectBestReference | node-hub/dora-primespeech/dora_primespeech/moyoyo_tts/training_service.py:106-157 | the selection loop computes Reference |
| TrainingService.GatherCandidates | node-hub/dora-primespeech/dora_primespeech/moyoyo_tts/training_service.py:121-142 | the scan loop computes the candidates |
| TrainingService.FirstLeastScore | node-hub/dora-primespeech/dora_primespeech/moyoyo_tts/training_service.py:150-152 | the minimum loop finds the first least score |
| TrainingService.Latest | node-hub/dora-primespeech/dora_primespeech/moyoyo_tts/training_service.py:815-823 | the pick is a listed name and no other comes after it |
| TrainingService.Matching | node-hub/dora-primespeech/dora_primespeech/moyoyo_tts/training_service.py:815-823 | keeps exactly the files with the prefix and suffix |
| TrainingService.PickCheckpoint | node-hub/dora-primespeech/dora_primespeech/moyoyo_tts/training_service.py:857-865 | a pick is a matching file |
| TrainingService.PickIsLatest | node-hub/dora-primespeech/dora_primespeech/moyoyo_tts/training_service.py:857-865 | none iff no file matches; else no matching file comes after the pick |
| TrainingService.NamePickIsGreatest | node-hub/dora-primespeech/dora_primespeech/moyoyo_tts/training_service.py:822 | sorting by name picks the lexicographically greatest match |
| TrainingService.EpochPickIsNewest | node-hub/dora-primespeech/dora_primespeech/moyoyo_tts/training_service.py:857-865 | ordering by epoch picks a match with the highest epoch |
| TrainingService.PickOfTwo | node-hub/dora-primespeech/dora_primespeech/moyoyo_tts/training_service.py:857-865 | of two matches the later is picked whatever the listing order |
| TrainingService.NameSortKeepsOlderEpoch | node-hub/dora-primespeech/dora_primespeech/moyoyo_tts/training_service.py:864 | by name e9 beats e10; by epoch e10 wins |
| TrainingService.Stages | node-hub/dora-primespeech/dora_primespeech/moyoyo_tts/training_service.py:692-828 | n stages give n events |
| TrainingService.Reached | node-hub/dora-primespeech/dora_primespeech/moyoyo_tts/training_service.py:692-828 | every failure happens after one to eight stages |
| TrainingService.PrepareAudio | node-hub/dora-primespeech/dora_primespeech/moyoyo_tts/training_service.py:692-740 | workspace, validation and slicing emit three stages or fail after the stage reached |
| TrainingService.Transcribe | node-hub/dora-primespeech/dora_primespeech/moyoyo_tts/training_service.py:741-789 | denoise and ASR add two stages or fail after the stage reached |
| TrainingService.TrainGpt | node-hub/dora-primespeech/dora_primespeech/moyoyo_tts/training_service.py:790-814 | features and GPT training add two stages or fail after the stage reached |
| TrainingService.KeepGpt | node-hub/dora-primespeech/dora_primespeech/moyoyo_tts/training_service.py:815-825 | the GPT checkpoint is the last by name as written (or the newest by epoch, corrected), or failure at stage 7 when none matches |
| TrainingService.TrainSovits | node-hub/dora-primespeech/dora_primespeech/moyoyo_tts/training_service.py:828-856 | SoVITS training adds the last stage or fails there |
| TrainingService.KeepSovits | node-hub/dora-primespeech/dora_primespeech/moyoyo_tts/training_service.py:857-872 | the SoVITS checkpoint is the last by name as written (or the newest by epoch, corrected), or failure at stage 8 |
| TrainingService.RunPipeline | node-hub/dora-primespeech/dora_primespeech/moyoyo_tts/training_service.py:661-891 | with checkpoints kept by name as written (or by epoch, corrected), success emits all eight stages then COMPLETE and exits 0; failure emits the stages reached then ERROR and exits 1 |
| TrainingService.OrderOnlyChangesCheckpoints | node-hub/dora-primespeech/dora_primespeech/moyoyo_tts/training_service.py:815-872 | the checkpoint order cannot change whether or where a run fails, nor its final GPT weights and reference clip |
| TrainingService.Lines | node-hub/dora-primespeech/dora_primespeech/moyoyo_tts/training_service.py:81-92 | one stdout line per event, in order |
| TrainingService.StageEventProgress | apps/mofa-tts/src/training_manager.rs:412-428 | a stage event sets the manager's stage name and step, total 7 |
| TrainingService.StagesProgress | node-hub/dora-primespeech/dora_primespeech/moyoyo_tts/training_service.py:692-828 | after n stages the manager shows the nth stage and its step |
| TrainingService.StagesThen | node-hub/dora-primespeech/dora_primespeech/moyoyo_tts/training_service.py:661-891 | the final event applies on top of the stages |
| TrainingService.CompletionEventCompletes | node-hub/dora-primespeech/dora_primespeech/moyoyo_tts/training_service.py:875-882 | the service's COMPLETE makes the manager complete with the same four paths |
| TrainingService.CompletionDataFields | node-hub/dora-primespeech/dora_primespeech/moyoyo_tts/training_service.py:875-882 | COMPLETE data holds the four paths the manager reads |
| TrainingService.FailureEventFails | node-hub/dora-primespeech/dora_primespeech/moyoyo_tts/training_service.py:884-891 | the service's ERROR makes the manager fail with that message |
| TrainingService.CompletedRunCompletes | node-hub/dora-primespeech/dora_primespeech/moyoyo_tts/training_service.py:661-891 | a whole successful run leaves the manager completed at step 7 of 7 |
| TrainingService.FailedRunFails | node-hub/dora-primespeech/dora_primespeech/moyoyo_tts/training_service.py:661-891 | a whole failed run leaves the manager failed at the last stage's step |
| VoiceCloneModal.SaveCheckAccepts | apps/mofa-tts/src/voice_clone_modal.rs:2295-2350 | save proceeds iff name and transcript are not blank, a file is chosen and its duration is within 3–10 s |
| VoiceCloneModal.StartCheckAccepts | apps/mofa-tts/src/voice_clone_modal.rs:3372-3386 | training starts iff the name is non-empty and audio is chosen; an empty name is the name error |
| VoiceCloneModal.BlankNameOnlyRefusedInExpress | apps/mofa-tts/src/voice_clone_modal.rs:3372-3386 | an all-blank name passes the training check but not the save check |
| VoiceCloneModal.Resampled | apps/mofa-tts/src/voice_clone_modal.rs:2702-2710 | a recording already at the target rate is kept unchanged |
| VoiceCloneModal.ClipIsPrefix | apps/mofa-tts/src/voice_clone_modal.rs:2713-2718 | the clip keeps the first 10 s of audio and clipping is idempotent |
| VoiceCloneModal.TempNameMatches | apps/mofa-tts/src/voice_clone_modal.rs:2738 | the temporary name matches the clean-up pattern |
| VoiceCloneModal.ProcessedClipIsBounded | apps/mofa-tts/src/voice_clone_modal.rs:2660-2750 | a clip is kept iff audio was recorded, long enough and saved; it is at most 10 s, a prefix of the audio at 16 kHz (of the recording itself when that was already 16 kHz), under a clean-up name |
| VoiceCloneModal.Stale | apps/mofa-tts/src/voice_clone_modal.rs:1940-1957 | no more removals than entries |
| VoiceCloneModal.StaleMembers | apps/mofa-tts/src/voice_clone_modal.rs:1940-1957 | removed exactly the recording temp files last modified before the threshold |
| VoiceCloneModal.CleanupOldTempFiles | apps/mofa-tts/src/voice_clone_modal.rs:1925-1963 | an unreadable directory removes nothing; else the stale files older than the cut-off |
| VoiceCloneModal.LogWindowIsNewest | apps/mofa-tts/src/voice_clone_modal.rs:3464-3472 | the shown log window is the newest 100 lines |
| VoiceCloneModal.TrainedVoice | apps/mofa-tts/src/voice_clone_modal.rs:3520-3571 | the saved voice is trained, with both checkpoints, the reference clip and its text |
| VoiceCloneModal.Modal.constructor | apps/mofa-tts/src/voice_clone_modal.rs:1454-1461 | the modal starts closed, in express mode, with default training progress |
| VoiceCloneModal.Modal.AddLog | apps/mofa-tts/src/voice_clone_modal.rs:1966-1981 | appends one line to the clone log |
| VoiceCloneModal.Modal.AddTrainingLog | apps/mofa-tts/src/voice_clone_modal.rs:3598-3616 | appends one line to the training log |
| VoiceCloneModal.Modal.Close | apps/mofa-tts/src/voice_clone_modal.rs:2418-2505 | closing resets the clone form and keeps the training state |
| VoiceCloneModal.Modal.SwitchToMode | apps/mofa-tts/src/voice_clone_modal.rs:2939-2942 | only the mode changes |
| VoiceCloneModal.Modal.SaveVoice | apps/mofa-tts/src/voice_clone_modal.rs:2278-2415 | the error label is cleared first; a failed check shows its error; else the clip is copied and the voice saved and the modal closes, or the copy error (directories, voice directory or file) or the duplicate error is shown and logged |
| VoiceCloneModal.Modal.Copy | apps/mofa-tts/src/voice_clone_modal.rs:2352-2372 | the copy step logs success or the first failing step's error |
| VoiceCloneModal.Modal.Store | apps/mofa-tts/src/voice_clone_modal.rs:2373-2415 | a new id is stored and the modal closes; a duplicate shows the error |
| VoiceCloneModal.Modal.StopRecording | apps/mofa-tts/src/voice_clone_modal.rs:2627-2760 | under 3 s is an error; otherwise it warns over 10 s and starts processing |
| VoiceCloneModal.Modal.StopTrainingRecording | apps/mofa-tts/src/voice_clone_modal.rs:3124-3214 | under 10 s is an error; otherwise the samples at 32 kHz are kept (the recording itself when already at 32 kHz), a long take is warned about, and the file is saved or the save error logged |
| VoiceCloneModal.Modal.StartTraining | apps/mofa-tts/src/voice_clone_modal.rs:3366-3420 | a failed check is shown and logged; with a manager the request is queued or refused, and logged |
| VoiceCloneModal.Modal.PollTrainingProgress | apps/mofa-tts/src/voice_clone_modal.rs:3428-3440 | newer progress is copied with the reaction lines; a completed run saves the trained voice unless its id exists |

## Left out

- The JSON envelope of dora inputs (`json.loads`) is not parsed; a payload is either raw text or an object whose `prompt` field may be a string.
- numpy arrays, resampling, f32 precision and the `{:.1f}` number formats are left out. Samples are reals and formatting is a `fmt` parameter.
- Threads, channels, locks, Makepad drawing and redraws are not modelled. Each thread's loop body is a method or function.
- File I/O is modelled as values: config files, WAV files and directory listings are values. The file system's refusals to create directories, copy a clip or delete a voice or task directory are inputs. Failures to write the voice or task config file are not modelled: `VoiceStore.Add`, `Update`, `Rename` and `Remove` and `TaskStore.Add`, `Update` and `Delete` never fail on the final save. A failed directory deletion is modelled as leaving the directory in place, whatever `remove_dir_all` had already removed inside it.
- The clock is a parameter. One reading stands for both a voice's id timestamp and its `created_at`.
- The synthesis engine (`MoYoYoTTSWrapper` internals, model download, `_validate_models_path`) is an oracle. It is given as construction and synthesis results.
- Logging (`send_log`, `logger`, `print`) is left out, except the log lines the UI shows.
- The voice preview playback (`handle_preview_request`, `load_wav_file`) is not modelled. Only the preview-state toggle is.
- The clone modal's recording threads, audio device, transcription (`transcribe_audio`) and GPU check are not modelled. Their outcomes (duration, samples, recording rate, errors) are inputs, and the rate conversion `resample` is a function parameter.
- File dialogs (`handle_file_selected`, `handle_training_file_selected`), and show and hide of the modal, are not modelled. They only fill fields the model takes as inputs.
- The modal's `cancel_training` only delegates to `Trainer.Cancel` and adds a log line; it is not modelled separately.
- The training service's workspace creation, config generation, feature extraction and the training internals are left out. They appear only as possible failures.
- `~user` home expansion is left out; only `~` and `~/` are expanded.
- The 50-character log preview of the text and `update_playback_progress` labels in the speech screen are not modelled.
- Starting and stopping the dataflow is not modelled. Of the download feature only the WAV writer is modelled.
- VoicePersistence.IsAlphanumeric: Rust's `is_alphanumeric` is approximated by ASCII letters and digits, CJK ideographs U+4E00..U+9FFF and U+3400..U+4DBF, hiragana U+3041..U+3096, katakana U+30A1..U+30FA and Hangul syllables U+AC00..U+D7A3. Every other letter or digit, such as 'é' or Cyrillic, becomes '_' in the model where the source keeps it.
- TrainingService.RunPipeline: only the stage events, the COMPLETE event and the one ERROR event of the outer handler (training_service.py:890) are modelled. The INFO and WARNING events (training_service.py:113, 154, 174, 292, 380, 429, 513, 518, 537, 551, 640, 645, 656, 705, 735, 760, 784, 794, 811, 825, 832, 872) are left out. So are the three ERROR events that `generate_gpt_config` prints before it raises on a missing pretrained GPT model (training_service.py:214-216); that failure is one of the stage-6 exceptions and yields only the final ERROR event.
- SynthesisNode.EngineVoiceName: Python's `str.lower()` (main.py:232, 455) is approximated by lowering ASCII A–Z only. Other uppercase letters stay as they are in the model where Python lowers them, so the directive `VOICE:Émile|…` gives the engine "Émile" in the model and "émile" in the source.
- SynthesisNode.IsIntLiteral: Python's `int()` is approximated by ASCII digits with single underscores between them, an optional sign and surrounding Python whitespace. Unicode digits such as '٣' are refused in the model where Python accepts them, and the error text quotes the string plainly rather than with `repr`.
- A missing training manager, which panics in the source, is the `ManagerMissing` outcome.
- VoiceCloneModal.ProcessedClipIsBounded: the "long enough" test compares sample counts with whole-second thresholds over reals, not f32 arithmetic.
- VoiceCloneModal.Modal.StopTrainingRecording: a recording over 600 s only produces the warning line, as in the source; no limit is enforced.

## Findings

| source | as written | input that shows it | evidently intended | confidence | as-written member | corrected member |
|---|---|---|---|---|---|---|
| node-hub/dora-primespeech/dora_primespeech/main.py:491-502 | the engine-init error handler reads `session_id`, which is not defined in that scope, so a NameError escapes and ends the node without a `segment_complete` | any segment that needs an engine build when `MoYoYoTTSWrapper` raises | send an "error" completion with error_stage "init" and keep serving | not executed | SynthesisNode.FailedBuildStopsNodeAsWritten | SynthesisNode.FailedBuildRetries |
| node-hub/dora-primespeech/dora_primespeech/main.py:411-418 | the reload test compares voice names only, and every cloned voice is named "CUSTOM" | two VOICE:CUSTOM directives in a row, the first with reference a.wav and the second with b.wav | rebuild when the custom config changes | not executed | SynthesisNode.SecondClonedVoiceKeepsFirstEngine | SynthesisNode.ClonedVoiceGetsItsEngine |
| node-hub/dora-primespeech/dora_primespeech/moyoyo_tts/training_service.py:864 | checkpoints are sorted by name and the last is taken, so epoch 9 sorts after epoch 10 | `sovits_model_e9_s90.pth` and `sovits_model_e10_s100.pth` | take the checkpoint with the highest epoch | not executed | TrainingService.NameSortKeepsOlderEpoch | TrainingService.EpochPickIsNewest |
| apps/mofa-tts/src/voice_persistence.rs:284-288 | the test `test_voice_id_with_chinese` asserts that a Chinese name becomes underscores, but `is_alphanumeric` holds for CJK ideographs, so the id starts with the name itself and the assertion fails | the name 我的声音 | the test should expect the ideographs kept, which is what keeps different Chinese names apart | not executed | VoicePersistence.ChineseNameKeepsCharacters | VoicePersistence.CjkNamesGetDistinctIds |
| apps/mofa-tts/src/screen_moyoyo.rs:2804-2805 | the log preview slices the prompt at byte 150, which panics inside a multi-byte character | voice "Luo Xiang" with 45 Chinese characters of text (a 151-byte prompt) | cut at the last character boundary within 150 bytes | not executed | PromptEncoder.ChineseTextPanicsPreview | PromptEncoder.PreviewAgrees |
