/**
 * The recording lifecycle's values: the status states, the tagged entries of
 * the update queue, the recording buffer, and the sequence of updates the
 * processing worker produces for one recording.
 */
module Lifecycle {
  import opened Wrappers
  import Text

  const SampleRate: nat := 16000

  /** Recordings shorter than this many seconds are not transcribed. */
  const MinDuration: real := 0.5

  /** One block of microphone samples delivered by the audio callback. */
  type Chunk = seq<int>

  datatype Status = Ready | Recording | Transcribing | Error

  /** A tagged entry of the update queue. */
  datatype Update =
    | StatusUpdate(state: Status, message: string)
    | TranscriptionUpdate(text: string)

  /** The chunks joined end to end, as the buffer is concatenated before writing. */
  function Concat(chunks: seq<Chunk>): seq<int> {
    if chunks == [] then [] else Concat(chunks[..|chunks| - 1]) + chunks[|chunks| - 1]
  }

  function TotalSamples(chunks: seq<Chunk>): nat {
    if chunks == [] then 0 else TotalSamples(chunks[..|chunks| - 1]) + |chunks[|chunks| - 1]|
  }

  lemma {:induction false} ConcatLength(chunks: seq<Chunk>)
    ensures |Concat(chunks)| == TotalSamples(chunks)
  {
    if chunks != [] {
      ConcatLength(chunks[..|chunks| - 1]);
    }
  }

  /** Sample `k` of chunk `i` sits in the joined recording after all the samples of the earlier chunks. */
  lemma {:induction false} ConcatAt(chunks: seq<Chunk>, i: nat, k: nat)
    requires i < |chunks| && k < |chunks[i]|
    ensures TotalSamples(chunks[..i]) + k < |Concat(chunks)|
    ensures Concat(chunks)[TotalSamples(chunks[..i]) + k] == chunks[i][k]
  {
    var n := |chunks| - 1;
    assert chunks[..n + 1] == chunks;
    ConcatLength(chunks[..n]);
    ConcatLength(chunks);
    if i < n {
      assert chunks[..n][..i] == chunks[..i];
      ConcatAt(chunks[..n], i, k);
    } else {
      assert chunks[..i] == chunks[..n];
    }
  }

  /** Whether `samples` samples last less than the minimum duration. */
  predicate TooShort(samples: nat) {
    samples as real / SampleRate as real < MinDuration
  }

  /** At 16000 samples a second, a recording is too short exactly when it has fewer than 8000 samples. */
  lemma TooShortIffUnder8000(samples: nat)
    ensures TooShort(samples) <==> samples < 8000
  {
  }

  /** The worker returns without transcribing: no chunks, or too short a recording. */
  predicate Skipped(chunks: seq<Chunk>) {
    |chunks| == 0 || TooShort(|Concat(chunks)|)
  }

  /**
   * What the code outside the model does during one processing run: the
   * error raised while writing the wave file, if any; what the recogniser
   * returned (None for a non-zero exit or a failed launch); the error raised
   * while pasting, if any.
   */
  datatype External = External(writeError: Option<string>, transcript: Option<string>, pasteError: Option<string>)

  /** The recogniser is invoked on the joined recording. */
  predicate Invoked(chunks: seq<Chunk>, ext: External) {
    !Skipped(chunks) && ext.writeError.None?
  }

  /** The recogniser produced text (Python's `if text:`). */
  predicate HasText(chunks: seq<Chunk>, ext: External) {
    Invoked(chunks, ext) && ext.transcript.Some? && ext.transcript.value != ""
  }

  /** A paste is attempted: there is text and it is not whitespace only. */
  predicate PasteAttempted(chunks: seq<Chunk>, ext: External) {
    HasText(chunks, ext) && Text.PasteText(ext.transcript.value).Some?
  }

  /** The texts pasted into the focused application during the run. */
  function Pasted(chunks: seq<Chunk>, ext: External): (r: seq<string>)
    ensures |r| <= 1
    ensures r != [] <==> PasteAttempted(chunks, ext) && ext.pasteError.None?
    ensures r != [] ==> r[0] == Text.Strip(ext.transcript.value) && r[0] != ""
  {
    if PasteAttempted(chunks, ext) && ext.pasteError.None? then [Text.PasteText(ext.transcript.value).value] else []
  }

  /** The status the run ends in. */
  function FinalStatus(chunks: seq<Chunk>, ext: External): (s: Status)
    ensures s == Error <==>
      (!Skipped(chunks) && ext.writeError.Some?) || (PasteAttempted(chunks, ext) && ext.pasteError.Some?)
    ensures s == Ready || s == Error
  {
    if Skipped(chunks) then Ready
    else if ext.writeError.Some? then Error
    else if PasteAttempted(chunks, ext) && ext.pasteError.Some? then Error
    else Ready
  }

  /** The message carried by the final status update. */
  function FinalMessage(chunks: seq<Chunk>, ext: External): string {
    if Skipped(chunks) then ""
    else if ext.writeError.Some? then ext.writeError.value
    else if PasteAttempted(chunks, ext) && ext.pasteError.Some? then ext.pasteError.value
    else ""
  }

  /**
   * The updates the processing worker enqueues for the recording `chunks`:
   * a lone `ready` for a skipped recording; otherwise `transcribing`, then
   * the transcription when there is text, then the final status.
   */
  function WorkerUpdates(chunks: seq<Chunk>, ext: External): (r: seq<Update>)
    ensures |r| >= 1
    ensures r[|r| - 1] == StatusUpdate(FinalStatus(chunks, ext), FinalMessage(chunks, ext))
    ensures Skipped(chunks) ==> r == [StatusUpdate(Ready, "")]
    ensures !Skipped(chunks) ==> |r| == (if HasText(chunks, ext) then 3 else 2) && r[0] == StatusUpdate(Transcribing, "")
    ensures forall i :: 0 <= i < |r| && r[i].TranscriptionUpdate? ==> HasText(chunks, ext) && r[i].text == ext.transcript.value
    ensures HasText(chunks, ext) ==> |r| == 3 && r[1] == TranscriptionUpdate(ext.transcript.value)
  {
    if Skipped(chunks) then [StatusUpdate(Ready, "")]
    else
      var text := if HasText(chunks, ext) then [TranscriptionUpdate(ext.transcript.value)] else [];
      [StatusUpdate(Transcribing, "")] + text + [StatusUpdate(FinalStatus(chunks, ext), FinalMessage(chunks, ext))]
  }

  /** A recording with fewer than 8000 samples ends in `ready` without invoking the recogniser. */
  lemma ShortRecordingSkipsRecogniser(chunks: seq<Chunk>, ext: External)
    requires TotalSamples(chunks) < 8000
    ensures !Invoked(chunks, ext)
    ensures WorkerUpdates(chunks, ext) == [StatusUpdate(Ready, "")]
    ensures Pasted(chunks, ext) == []
  {
    ConcatLength(chunks);
    TooShortIffUnder8000(|Concat(chunks)|);
  }

  /** A recording of 8000 samples or more is handed to the recogniser unless writing it fails. */
  lemma LongRecordingInvokesRecogniser(chunks: seq<Chunk>, ext: External)
    requires TotalSamples(chunks) >= 8000
    ensures Invoked(chunks, ext) <==> ext.writeError.None?
  {
    ConcatLength(chunks);
    TooShortIffUnder8000(|Concat(chunks)|);
  }

  /**
   * When the recogniser fails (it returns None) or returns empty text, nothing
   * is pasted, no transcription is shown, and the run ends in `ready`.
   */
  lemma NoTextEndsReady(chunks: seq<Chunk>, ext: External)
    requires ext.transcript.None? || ext.transcript == Some("")
    ensures Pasted(chunks, ext) == []
    ensures WorkerUpdates(chunks, ext)[|WorkerUpdates(chunks, ext)| - 1].state == Ready
      <==> (Skipped(chunks) || ext.writeError.None?)
    ensures forall u :: u in WorkerUpdates(chunks, ext) ==> !u.TranscriptionUpdate?
  {
  }

  /** A run that ends in `error` pastes nothing. */
  lemma ErrorMeansNoPaste(chunks: seq<Chunk>, ext: External)
    requires FinalStatus(chunks, ext) == Error
    ensures Pasted(chunks, ext) == []
  {
  }
}
