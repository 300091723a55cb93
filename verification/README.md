# GhostWriter control logic in Dafny

GhostWriter is a Windows dictation utility. A global hotkey toggles
microphone recording. When recording stops, a worker hands the audio to an
external speech recogniser (`whisper-cli.exe` with the model
`ggml-tiny.bin`) and pastes the recognised text into the focused
application through the clipboard. Background work reports to the UI thread
through a queue of status and transcription updates, which the UI thread
drains on a timer.

This project models the control logic of the `GhostWriterApp` class in
`ghostwriter_app.py` and proves properties of it:

- `wrappers.dfy` (module `Wrappers`): the `Option` datatype.
- `settings.dfy` (module `Settings`): the five recognised options and their
  defaults. It defines the merge of a parsed settings file over the current
  settings and the paste-delay choices of the settings window.
- `hotkey.dfy` (module `Hotkey`): the hotkey recogniser. It covers the key a
  hotkey string names, whether a key event triggers it, and how presses and
  releases update the ctrl/shift/alt flags.
- `text.dfy` (module `Text`): Python's whitespace set, `str.strip()`, and the
  guard of text injection.
- `lifecycle.dfy` (module `Lifecycle`): status states, queue entries, the
  recording buffer, and the updates, recogniser calls and pastes of one
  processing run, written as functions.
- `app.dfy` (module `App`): the application object as a class. Its fields
  are updated in place by methods for start-up, settings loading, the
  missing-file check, the update queue, the paste-delay handler, the
  recording lifecycle, the processing worker, text injection and the key
  handlers. Each method's `ensures` ties the new state to the functions
  above.

How the model treats the parts it does not own:

- The processing worker is a plain sequential call. `StopRecording` counts
  one pending worker, and `ProcessRecording` runs only while a worker is
  pending and consumes one, so each effective stop is followed by at most one
  processing run. `StartRecording` has no guard, so a new recording may start
  before a previous worker has run, as in the source.
- The code outside the model becomes parameters of type `External`. These
  say whether writing the wave file raises, what the recogniser returns
  (`None` for a non-zero exit or a failed launch), and whether the paste
  raises.
- The UI is the log `shown` of applied updates. Tones are the log `beeps`.
  Recogniser calls are the log `recognised`. Pastes are the log `pasted`.
- A settings file is its parsed JSON object, or `None` when there is no file,
  it cannot be read, it is not valid JSON, or its top-level value is not an
  object. In all four of those cases the source leaves the settings unchanged.
- Whether the two required files exist is a pair of boolean parameters.

A recogniser exit code of 1 does not end a run in `error`: `transcribe`
turns a non-zero exit into `None` (ghostwriter_app.py:887-888),
`process_recording` skips the paste, and the run ends in `ready`
(ghostwriter_app.py:850-862). `Lifecycle.NoTextEndsReady` states this. Only an
exception raised while writing the wave file or while pasting ends a run in
`error`.

## Model

| member | source | states |
|---|---|---|
| Settings.OverlayContents | ghostwriter_app.py:386-396 | After the merge loop, a key is present iff it was already there or is a visited key found in the file. A visited key found in the file holds the file's value; every other key keeps its old value. |
| Settings.LoadedHasExactlyDefaultKeys | ghostwriter_app.py:112-118 | Loading over `DEFAULT_SETTINGS` yields exactly the five default keys. Each holds the file's value when the file has that key and the default otherwise. Unknown keys never appear. |
| Settings.ReloadSavedSettings | ghostwriter_app.py:386-407 | Loading a file saved from a complete settings map restores that map exactly. |
| Settings.OverlayIdempotent | ghostwriter_app.py:386-396 | Loading the same file twice gives the same settings as loading it once. |
| Settings.DelayFor | ghostwriter_app.py:660-667 | The result is None iff no option carries the label. Otherwise it is the value of the first option carrying that label, matching the loop's `break`. |
| Settings.EveryDelayLabelSelectsItsValue | ghostwriter_app.py:126-132 | Each of the five labels offered by the settings window selects its own delay value. |
| Hotkey.FunctionKeyNumber | ghostwriter_app.py:926 | A key named `"f" + digits` is only ever a function key from 1 to 20. |
| Hotkey.FunctionKeyNumberIsDecimal | ghostwriter_app.py:944 | The library has a key `"f" + digits` exactly when the digits are the canonical decimal spelling of a number from 1 to 20. |
| Hotkey.FunctionHotkeyKey | ghostwriter_app.py:925-926 | An `"F<digits>"` hotkey always names a function key from 1 to 20. A name the library lacks falls back to F8. |
| Hotkey.HotkeyKey | ghostwriter_app.py:920-936 | `get_hotkey_key` returns a function key for an `"F<digits>"` hotkey, the character `r`, `d` or `v` for the three combinations, and F8 for every other string. |
| Hotkey.IsHotkeyPressed | ghostwriter_app.py:938-955 | A trigger is always the key `get_hotkey_key` names. A function hotkey matches that key exactly, whatever is held. A combination also needs ctrl plus shift (R, D) or ctrl plus alt (V). Any other string never triggers. |
| Hotkey.FunctionHotkeyMatchesExactly | ghostwriter_app.py:943-945 | For n from 1 to 20, the hotkey `"F" + n` triggers on key Fn and on no other key. |
| Hotkey.F9TriggersAndF8DoesNot | ghostwriter_app.py:943-945 | With the hotkey set to "F9", F9 triggers and F8 does not. |
| Hotkey.UnknownFunctionHotkeyFallsBackToF8 | ghostwriter_app.py:943-945 | An `"F<digits>"` hotkey that names no library key, such as "F0", "F08" or "F21", triggers on F8 alone. |
| Hotkey.Pressed | ghostwriter_app.py:960-965 | Pressing a ctrl, shift or alt key sets that modifier's flag. The other flags are unchanged. |
| Hotkey.Released | ghostwriter_app.py:976-981 | Releasing a ctrl, shift or alt key clears that modifier's flag. The other flags are unchanged. |
| Hotkey.HeldAfter | ghostwriter_app.py:957-981 | Start with nothing held and apply any sequence of presses and releases. A modifier's flag is then set iff one of its keys was pressed and none of its keys was released after that press. |
| Text.Strip | ghostwriter_app.py:901 | The result is the text without a whitespace prefix and suffix. It is empty iff the text is all whitespace, and otherwise starts and ends with non-whitespace. |
| Text.StripIsIdempotent | ghostwriter_app.py:901 | Stripping a stripped text changes nothing. |
| Text.PasteText | ghostwriter_app.py:896-901 | Nothing is pasted iff the text is empty or whitespace only. Otherwise the non-empty stripped text is pasted. |
| Lifecycle.ConcatLength | ghostwriter_app.py:829-830 | The joined recording has as many samples as the chunks hold in total. |
| Lifecycle.ConcatAt | ghostwriter_app.py:829 | Sample k of chunk i sits in the joined recording after all samples of the earlier chunks, in chunk order. |
| Lifecycle.TooShortIffUnder8000 | ghostwriter_app.py:830-832 | At 16000 samples a second, a recording lasts under 0.5 s iff it has fewer than 8000 samples. |
| Lifecycle.Pasted | ghostwriter_app.py:850-852 | A run pastes at most one text. It pastes only when the recogniser returned text that is not whitespace only and the paste did not raise. The pasted text is the stripped transcript. |
| Lifecycle.FinalStatus | ghostwriter_app.py:846-862 | A run ends in `ready` or `error`. It ends in `error` iff writing the wave file raised, or a paste was attempted and raised. |
| Lifecycle.WorkerUpdates | ghostwriter_app.py:821-866 | An empty or too-short buffer yields the single update `ready`. Otherwise there are exactly two updates, `transcribing` and the final status, with the transcription between them when the recogniser returned text; a transcription update appears only when the recogniser returned text, and it carries that text. |
| Lifecycle.ShortRecordingSkipsRecogniser | ghostwriter_app.py:823-836 | With fewer than 8000 samples in total, including zero chunks, the recogniser is not invoked. The only update is `ready` and nothing is pasted. |
| Lifecycle.LongRecordingInvokesRecogniser | ghostwriter_app.py:838-848 | With 8000 samples or more, the recogniser is invoked iff writing the wave file succeeds. |
| Lifecycle.NoTextEndsReady | ghostwriter_app.py:850-862 | When the recogniser fails or returns empty text, nothing is pasted and no transcription is shown. The run ends in `ready` unless writing the wave file raised. |
| Lifecycle.ErrorMeansNoPaste | ghostwriter_app.py:853-857 | A run that ends in `error` pastes nothing. |
| App.MissingFiles | ghostwriter_app.py:414-418 | One entry per missing file, the executable before the model. |
| App.BothMissingMessage | ghostwriter_app.py:420-421 | With both files missing, the message is "Missing: whisper-cli.exe, ggml-tiny.bin". |
| App.OneMissingMessage | ghostwriter_app.py:420-421 | With one file missing, the message names that file alone. |
| App.GhostWriterApp.constructor | ghostwriter_app.py:352-384 | Start-up gives the defaults overlaid with the settings file, nothing recording, held or queued, and status `ready`. `files_ok` says whether both files exist, and the error message lists the missing ones. |
| App.GhostWriterApp.LoadSettings | ghostwriter_app.py:386-396 | The loop over the default keys leaves the settings equal to the overlay of the parsed file. |
| App.GhostWriterApp.CheckFilesExist | ghostwriter_app.py:409-423 | Returns false iff a file is missing. In that case the error message becomes "Missing: " followed by the missing names joined by ", ". Otherwise the message is untouched. |
| App.GhostWriterApp.UpdateStatus | ghostwriter_app.py:630-633 | Sets the current status and appends exactly one status entry to the queue. |
| App.GhostWriterApp.UpdateTranscription | ghostwriter_app.py:635-638 | Sets the last transcription and appends exactly one transcription entry to the queue. |
| App.GhostWriterApp.PollUpdates | ghostwriter_app.py:612-622 | Applies every queued entry in enqueue order, with none lost or reordered, and leaves the queue empty. |
| App.GhostWriterApp.OnDelayChanged | ghostwriter_app.py:660-667 | Sets `paste_delay` to the value paired with the chosen label. An unknown label changes nothing. |
| App.GhostWriterApp.AudioCallback | ghostwriter_app.py:785-788 | Appends exactly the one chunk while recording. Otherwise the buffer is unchanged. |
| App.GhostWriterApp.StartRecording | ghostwriter_app.py:790-805 | Without the required files nothing changes. Otherwise recording starts, the buffer is emptied, `recording` is enqueued, and the start tone plays if sound is enabled. |
| App.GhostWriterApp.StopRecording | ghostwriter_app.py:807-819 | When not recording nothing changes. Otherwise recording stops, the stop tone plays if sound is enabled, and exactly one more worker is pending. The buffer is kept. |
| App.GhostWriterApp.ToggleRecording | ghostwriter_app.py:776-781 | Stops when recording and starts otherwise. |
| App.GhostWriterApp.TypeText | ghostwriter_app.py:896-916 | Empty or whitespace-only text pastes nothing and raises nothing. Otherwise the stripped text is pasted unless the paste raises, and the error is passed on. |
| App.GhostWriterApp.ProcessRecording | ghostwriter_app.py:821-866 | The worker enqueues exactly the updates of `WorkerUpdates` and ends in `FinalStatus`. It hands the joined buffer to the recogniser only when the run is not skipped and the wave file is written. It pastes exactly `Pasted`. It runs only while a worker is pending and consumes exactly one. |
| App.GhostWriterApp.OnKeyPress | ghostwriter_app.py:957-972 | Updates the modifier flags as `Pressed`. A hotkey match starts recording when idle and stops it when recording. A hotkey setting that is not a string raises before any toggle. |
| App.GhostWriterApp.OnKeyRelease | ghostwriter_app.py:974-981 | Updates the modifier flags as `Released`. |

## Left out

- The GUI is not modelled: window construction, splash screen, window dragging and status rendering. The UI is only the log of applied updates.
- The floating indicator (`GhostIndicator`) and its show/hide calls are not modelled. They are a cosmetic overlay animated with floating-point colour interpolation.
- The tray icon, the `winreg` autostart entry and `quit_app` are not modelled. They are operating-system integration.
- The other settings handlers (`on_hotkey_changed`, `on_sound_changed`, `on_minimized_changed`, `on_startup_changed`) are not modelled. They are outside the modelled core.
- `save_settings`, the settings file reading and JSON parsing are not modelled. They are file I/O; the model starts from the parsed object.
- The recogniser subprocess in `transcribe` is not modelled. It is an opaque external binary, and its result is the parameter `External.transcript`.
- The wave file writing, the temporary file name and its removal in `finally` are not modelled. They are file I/O; a write failure is the parameter `External.writeError`. Because the removal is left out, the model has no run in which `os.remove` raises, escapes the worker and leaves no final status enqueued; `Lifecycle.FinalStatus`'s "a run ends in `ready` or `error`" holds only for runs where the removal succeeds.
- Lifecycle.External: the transcript is not constrained to stripped text, although `transcribe` returns `stdout.strip()` (ghostwriter_app.py:890). The model therefore also admits a whitespace-only transcript that is shown as a transcription and pastes nothing, a run the source cannot produce.
- The clipboard, `time.sleep(paste_delay)` and the simulated Ctrl+V are not modelled. They are device I/O and timing, and a paste is a log entry. The old clipboard contents are read and never restored, so the model has no restore step.
- Tones are log entries, not sounds on their own threads.
- Threads are not modelled. The queue is a plain sequence, and the worker is a separate sequential call.
- Starting the audio stream and the keyboard listener, and the error status when that fails, are not modelled. They are device I/O.
- Audio samples are abstract integers. Only their count and order matter to the logic.
- The duration test is exact real arithmetic. For buffers of practical size, the source's float division gives the same comparison.
- Hotkey.IsHotkeyPressed: only ASCII '0'-'9' count as digits. Python's `str.isdigit` also accepts other Unicode digits. For such a hotkey the source falls back to F8, while the model never triggers.
- Hotkey.MaxFunctionKey: the keyboard library is taken to name the function keys `f1` to `f20`. A hotkey "F21" to "F24" falls back to F8 under this assumption.
- App.GhostWriterApp.OnKeyPress: a handler that raises stops the keyboard listener in the source. The model only reports it through `ok`.
