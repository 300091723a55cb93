/**
 * The GhostWriter application object: the settings it holds, the recording
 * lifecycle driven by the hotkey and the tray menu, the processing worker,
 * the modifier-key tracker, and the queue that carries status and
 * transcription updates from background work to the UI thread.
 */
module App {
  import opened Wrappers
  import opened Settings
  import opened Hotkey
  import opened Lifecycle
  import Text

  const WhisperExe := "whisper-cli.exe"
  const ModelPath := "ggml-tiny.bin"

  /** Tones as (frequency in Hz, duration in ms). */
  const StartBeep: (nat, nat) := (1000, 150)
  const StopBeep: (nat, nat) := (600, 150)

  /** Python's `sep.join(parts)`. */
  function Join(parts: seq<string>, sep: string): string {
    if parts == [] then ""
    else if |parts| == 1 then parts[0]
    else parts[0] + sep + Join(parts[1..], sep)
  }

  /** The required files that are absent: the executable first, then the model. */
  function MissingFiles(whisperExists: bool, modelExists: bool): (m: seq<string>)
    ensures |m| == (if whisperExists then 0 else 1) + (if modelExists then 0 else 1)
    ensures !whisperExists ==> m[0] == WhisperExe
    ensures !modelExists ==> m[|m| - 1] == ModelPath
  {
    (if whisperExists then [] else [WhisperExe]) + (if modelExists then [] else [ModelPath])
  }

  function MissingMessage(missing: seq<string>): string {
    "Missing: " + Join(missing, ", ")
  }

  /** The message when both required files are missing names the executable, then the model. */
  lemma BothMissingMessage()
    ensures MissingMessage(MissingFiles(false, false)) == "Missing: whisper-cli.exe, ggml-tiny.bin"
  {
  }

  /** The message when exactly one required file is missing names that file alone. */
  lemma OneMissingMessage()
    ensures MissingMessage(MissingFiles(false, true)) == "Missing: whisper-cli.exe"
    ensures MissingMessage(MissingFiles(true, false)) == "Missing: ggml-tiny.bin"
  {
  }

  class GhostWriterApp {
    var settings: map<string, Value>
    var isRecording: bool
    /** The recording buffer: the chunks captured since recording last started. */
    var audioData: seq<Chunk>
    var lastTranscription: string
    var currentStatus: Status
    var errorMessage: string
    /** Whether the recogniser and its model were found at start-up. */
    var filesOk: bool
    var ctrlPressed: bool
    var shiftPressed: bool
    var altPressed: bool
    /** Updates enqueued by any thread, oldest first. */
    var updateQueue: seq<Update>
    /** The updates the UI thread has applied, in the order it applied them. */
    var shown: seq<Update>
    /** Tones played, oldest first. */
    var beeps: seq<(nat, nat)>
    /** Processing workers launched by stopping a recording that have not yet run. */
    var pendingWorkers: nat
    /** The joined recordings handed to the recogniser, oldest first. */
    var recognised: seq<seq<int>>
    /** The texts pasted into the focused application, oldest first. */
    var pasted: seq<string>

    function Mods(): Modifiers
      reads this
    {
      Modifiers(ctrlPressed, shiftPressed, altPressed)
    }

    /** The configured hotkey value, "F8" when the setting is absent. */
    function HotkeySetting(): Value
      reads this
    {
      Get(settings, "hotkey", Str("F8"))
    }

    predicate SoundEnabled()
      reads this
    {
      Truthy(Get(settings, "sound_enabled", Bool(true)))
    }

    /**
     * Start-up: the defaults overlaid with the parsed settings file (None
     * when there is no readable file holding a JSON object), nothing
     * recorded or held, and the required files checked.
     */
    constructor (parsed: Option<map<string, Value>>, whisperExists: bool, modelExists: bool)
      ensures settings == Loaded(parsed)
      ensures !isRecording && audioData == [] && lastTranscription == "" && currentStatus == Ready
      ensures !ctrlPressed && !shiftPressed && !altPressed
      ensures updateQueue == [] && shown == [] && beeps == [] && pendingWorkers == 0
      ensures recognised == [] && pasted == []
      ensures filesOk == (whisperExists && modelExists)
      ensures errorMessage == if filesOk then "" else MissingMessage(MissingFiles(whisperExists, modelExists))
    {
      settings := DefaultSettings;
      isRecording := false;
      audioData := [];
      lastTranscription := "";
      currentStatus := Ready;
      errorMessage := "";
      filesOk := false;
      ctrlPressed, shiftPressed, altPressed := false, false, false;
      updateQueue, shown, beeps := [], [], [];
      pendingWorkers := 0;
      recognised, pasted := [], [];
      new;
      match parsed {
        case None =>
        case Some(p) => LoadSettings(p);
      }
      var ok := CheckFilesExist(whisperExists, modelExists);
      filesOk := ok;
    }

    /** Overlays the recognised keys of a parsed settings file on the current settings. */
    method LoadSettings(loaded: map<string, Value>)
      modifies this`settings
      ensures settings == Overlay(old(settings), loaded, DefaultKeys)
    {
      for i := 0 to |DefaultKeys|
        invariant settings == Overlay(old(settings), loaded, DefaultKeys[..i])
      {
        var key := DefaultKeys[i];
        assert DefaultKeys[..i + 1] == DefaultKeys[..i] + [key];
        if key in loaded {
          settings := settings[key := loaded[key]];
        }
      }
      assert DefaultKeys[..|DefaultKeys|] == DefaultKeys;
    }

    /** Reports whether both required files exist, recording which are missing otherwise. */
    method CheckFilesExist(whisperExists: bool, modelExists: bool) returns (ok: bool)
      modifies this`errorMessage
      ensures ok <==> MissingFiles(whisperExists, modelExists) == []
      ensures errorMessage == if ok then old(errorMessage) else MissingMessage(MissingFiles(whisperExists, modelExists))
    {
      var missing: seq<string> := [];
      if !whisperExists {
        missing := missing + [WhisperExe];
      }
      if !modelExists {
        missing := missing + [ModelPath];
      }
      if missing != [] {
        errorMessage := "Missing: " + Join(missing, ", ");
        return false;
      }
      return true;
    }

    // ----- update queue -----

    method UpdateStatus(state: Status, message: string)
      modifies this`currentStatus, this`updateQueue
      ensures currentStatus == state
      ensures updateQueue == old(updateQueue) + [StatusUpdate(state, message)]
    {
      currentStatus := state;
      updateQueue := updateQueue + [StatusUpdate(state, message)];
    }

    method UpdateTranscription(text: string)
      modifies this`lastTranscription, this`updateQueue
      ensures lastTranscription == text
      ensures updateQueue == old(updateQueue) + [TranscriptionUpdate(text)]
    {
      lastTranscription := text;
      updateQueue := updateQueue + [TranscriptionUpdate(text)];
    }

    /** Drains the queue, applying every entry to the UI in the order it was enqueued. */
    method PollUpdates()
      modifies this`updateQueue, this`shown
      ensures shown == old(shown) + old(updateQueue)
      ensures updateQueue == []
    {
      while updateQueue != []
        invariant shown + updateQueue == old(shown) + old(updateQueue)
        decreases |updateQueue|
      {
        var update := updateQueue[0];
        assert updateQueue == [update] + updateQueue[1..];
        updateQueue := updateQueue[1..];
        match update
        case StatusUpdate(state, message) =>
          shown := shown + [StatusUpdate(state, message)];
        case TranscriptionUpdate(text) =>
          shown := shown + [TranscriptionUpdate(text)];
      }
    }

    // ----- settings window -----

    /** Sets the paste delay to the value of the chosen label; an unknown label changes nothing. */
    method OnDelayChanged(selected: string)
      modifies this`settings
      ensures settings == match DelayFor(PasteDelayOptions, selected)
                          case Some(v) => old(settings)["paste_delay" := Num(v)]
                          case None => old(settings)
    {
      for i := 0 to |PasteDelayOptions|
        invariant forall j :: 0 <= j < i ==> PasteDelayOptions[j].0 != selected
        invariant settings == old(settings)
      {
        var (lbl, val) := PasteDelayOptions[i];
        if lbl == selected {
          settings := settings["paste_delay" := Num(val)];
          assert DelayFor(PasteDelayOptions, selected) == Some(val) by {
            var r := DelayFor(PasteDelayOptions, selected);
            var k :| 0 <= k < |PasteDelayOptions| && PasteDelayOptions[k] == (selected, r.value) &&
                     forall j :: 0 <= j < k ==> PasteDelayOptions[j].0 != selected;
            assert k == i;
          }
          return;
        }
      }
    }

    // ----- recording lifecycle -----

    /** The audio callback: a chunk is kept only while recording. */
    method AudioCallback(chunk: Chunk)
      modifies this`audioData
      ensures audioData == if isRecording then old(audioData) + [chunk] else old(audioData)
    {
      if isRecording {
        audioData := audioData + [chunk];
      }
    }

    /** What `start_recording` does: nothing without the required files; otherwise arm and clear the buffer. */
    twostate predicate StartedRecording()
      reads this
    {
      pendingWorkers == old(pendingWorkers) &&
      if old(filesOk) then
        isRecording && audioData == [] && currentStatus == Recording &&
        updateQueue == old(updateQueue) + [StatusUpdate(Recording, "")] &&
        beeps == old(beeps) + (if SoundEnabled() then [StartBeep] else [])
      else
        isRecording == old(isRecording) && audioData == old(audioData) &&
        currentStatus == old(currentStatus) && updateQueue == old(updateQueue) && beeps == old(beeps)
    }

    /** What `stop_recording` does: nothing unless recording; otherwise disarm and launch one worker. */
    twostate predicate StoppedRecording()
      reads this
    {
      audioData == old(audioData) && currentStatus == old(currentStatus) && updateQueue == old(updateQueue) &&
      if old(isRecording) then
        !isRecording && pendingWorkers == old(pendingWorkers) + 1 &&
        beeps == old(beeps) + (if SoundEnabled() then [StopBeep] else [])
      else
        isRecording == old(isRecording) && pendingWorkers == old(pendingWorkers) && beeps == old(beeps)
    }

    method StartRecording()
      modifies this`isRecording, this`audioData, this`currentStatus, this`updateQueue, this`beeps
      ensures StartedRecording()
    {
      if !filesOk {
        return;
      }
      isRecording := true;
      audioData := [];
      UpdateStatus(Recording, "");
      if SoundEnabled() {
        beeps := beeps + [StartBeep];
      }
    }

    /**
     * Disarms capture and launches the processing worker. The worker runs as
     * the separate call ProcessRecording, so nothing stops a new recording
     * from starting before it has run.
     */
    method StopRecording()
      modifies this`isRecording, this`beeps, this`pendingWorkers
      ensures StoppedRecording()
    {
      if !isRecording {
        return;
      }
      isRecording := false;
      if SoundEnabled() {
        beeps := beeps + [StopBeep];
      }
      pendingWorkers := pendingWorkers + 1;
    }

    /** The tray menu's toggle: stop when recording, start otherwise. */
    method ToggleRecording()
      modifies this`isRecording, this`audioData, this`currentStatus, this`updateQueue, this`beeps,
               this`pendingWorkers
      ensures if old(isRecording) then StoppedRecording() else StartedRecording()
    {
      if isRecording {
        StopRecording();
      } else {
        StartRecording();
      }
    }

    /** Pastes the stripped text unless it is empty or whitespace only; `failure` is an error the paste raises. */
    method TypeText(text: string, failure: Option<string>) returns (raised: Option<string>)
      modifies this`pasted
      ensures Text.PasteText(text).None? ==> raised.None? && pasted == old(pasted)
      ensures Text.PasteText(text).Some? ==>
        raised == failure &&
        pasted == old(pasted) + (if failure.None? then [Text.PasteText(text).value] else [])
    {
      if text == [] || Text.AllSpace(text) {
        return None;
      }
      var stripped := Text.Strip(text);
      if failure.Some? {
        return failure;
      }
      pasted := pasted + [stripped];
      return None;
    }

    /**
     * The processing worker for the current buffer: skip a recording that is
     * empty or too short, otherwise hand the joined recording to the
     * recogniser and paste any text it returns, reporting each phase.
     */
    method ProcessRecording(ext: External)
      requires pendingWorkers > 0
      modifies this`currentStatus, this`updateQueue, this`lastTranscription, this`recognised, this`pasted,
               this`pendingWorkers
      ensures pendingWorkers == old(pendingWorkers) - 1
      ensures updateQueue == old(updateQueue) + WorkerUpdates(old(audioData), ext)
      ensures currentStatus == FinalStatus(old(audioData), ext)
      ensures recognised == old(recognised) + (if Invoked(old(audioData), ext) then [Concat(old(audioData))] else [])
      ensures pasted == old(pasted) + Pasted(old(audioData), ext)
      ensures lastTranscription == if HasText(old(audioData), ext) then ext.transcript.value else old(lastTranscription)
    {
      ghost var queued := updateQueue;
      ghost var expected := WorkerUpdates(audioData, ext);
      pendingWorkers := pendingWorkers - 1;
      if |audioData| == 0 {
        UpdateStatus(Ready, "");
        return;
      }
      var recording := Concat(audioData);
      var duration := |recording| as real / SampleRate as real;
      if duration < MinDuration {
        assert Skipped(audioData);
        UpdateStatus(Ready, "");
        return;
      }
      assert !Skipped(audioData);
      UpdateStatus(Transcribing, "");
      if ext.writeError.Some? {
        UpdateStatus(Error, ext.writeError.value);
        assert expected == [StatusUpdate(Transcribing, "")] + [StatusUpdate(Error, ext.writeError.value)];
        return;
      }
      recognised := recognised + [recording];
      var text := ext.transcript;
      if text.Some? && text.value != "" {
        assert HasText(audioData, ext);
        UpdateTranscription(text.value);
        var raised := TypeText(text.value, ext.pasteError);
        if raised.Some? {
          UpdateStatus(Error, raised.value);
          assert expected == [StatusUpdate(Transcribing, ""), TranscriptionUpdate(text.value)] + [StatusUpdate(Error, raised.value)];
          return;
        }
        UpdateStatus(Ready, "");
        assert expected == [StatusUpdate(Transcribing, ""), TranscriptionUpdate(text.value)] + [StatusUpdate(Ready, "")];
      } else {
        UpdateStatus(Ready, "");
        assert expected == [StatusUpdate(Transcribing, "")] + [StatusUpdate(Ready, "")];
      }
    }

    // ----- keyboard listener -----

    /**
     * A key press: track the modifiers, then toggle recording when the key
     * triggers the hotkey. `ok` is false when the hotkey setting is not a
     * string, where the handler raises before toggling.
     */
    method OnKeyPress(key: Key) returns (ok: bool)
      modifies this`ctrlPressed, this`shiftPressed, this`altPressed,
               this`isRecording, this`audioData, this`currentStatus, this`updateQueue, this`beeps,
               this`pendingWorkers
      ensures Mods() == Pressed(old(Mods()), key)
      ensures ok <==> HotkeySetting().Str?
      ensures if ok && IsHotkeyPressed(HotkeySetting().s, Mods(), key) then
                if old(isRecording) then StoppedRecording() else StartedRecording()
              else
                isRecording == old(isRecording) && audioData == old(audioData) &&
                currentStatus == old(currentStatus) && updateQueue == old(updateQueue) &&
                beeps == old(beeps) && pendingWorkers == old(pendingWorkers)
    {
      if key == CtrlL || key == CtrlR {
        ctrlPressed := true;
      } else if key == ShiftL || key == ShiftR || key == Shift {
        shiftPressed := true;
      } else if key == AltL || key == AltR || key == AltGr {
        altPressed := true;
      }
      assert Mods() == Pressed(old(Mods()), key);
      var hotkey := HotkeySetting();
      if !hotkey.Str? {
        return false;
      }
      var triggered := IsHotkeyPressed(hotkey.s, Mods(), key);
      if triggered {
        if !isRecording {
          StartRecording();
        } else {
          StopRecording();
        }
      }
      return true;
    }

    /** A key release: clear the flag of the released modifier. */
    method OnKeyRelease(key: Key)
      modifies this`ctrlPressed, this`shiftPressed, this`altPressed
      ensures Mods() == Released(old(Mods()), key)
    {
      if key == CtrlL || key == CtrlR {
        ctrlPressed := false;
      } else if key == ShiftL || key == ShiftR || key == Shift {
        shiftPressed := false;
      } else if key == AltL || key == AltR || key == AltGr {
        altPressed := false;
      }
    }
  }
}
