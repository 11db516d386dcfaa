/**
 * The voice-note state holder (VoiceNoteViewModel.kt): recording and
 * processing flags, the note just produced, the history of notes and an
 * optional error string. Stopping a recording runs the processing step,
 * which builds a note from the placeholder transcription and task
 * extraction, shows it and appends it to the history.
 *
 * The launched processing coroutine is one atomic step. Whether it fails,
 * and with which exception message, is an input (`failure`); the note's
 * wall-clock timestamp is an opaque input too.
 */
module VoiceNotes {

  import opened Optional

  /** A transcribed note and the action items taken from it. */
  datatype VoiceNote = VoiceNote(transcribedText: string, extractedTasks: seq<string>, timestamp: nat)

  /** The five observable values of the holder. */
  datatype VoiceState = VoiceState(
    isRecording: bool,
    isProcessing: bool,
    currentNote: Option<VoiceNote>,
    notes: seq<VoiceNote>,
    error: Option<string>)

  const ProcessErrorPrefix: string := "Failed to process recording: "
  const TaskPrefix: string := "Sample task extracted from: "
  const SecondTask: string := "Another task item"

  /** The state of a freshly created holder. */
  function Initial(): VoiceState {
    VoiceState(false, false, None, [], None)
  }

  /** The fixed text the placeholder transcription returns. */
  const Transcription: string := "This is a simulated transcription. Recording functionality will be implemented with the actual RunAnywhere SDK transcription module."

  /** The placeholder transcription: always the fixed text above. (The text
      is a constant so that proofs about notes do not unfold the literal.) */
  function SimulateTranscription(): (r: string)
    ensures r == Transcription
  {
    Transcription
  }

  /** The placeholder task extraction: two items, the first quoting the
      whole text after a fixed lead-in. */
  function ExtractTasks(text: string): (r: seq<string>)
    ensures |r| == 2
    ensures |TaskPrefix| <= |r[0]| && r[0][..|TaskPrefix|] == TaskPrefix && r[0][|TaskPrefix|..] == text
    ensures r[1] == SecondTask
  {
    [TaskPrefix + text, SecondTask]
  }

  /** The note built from the transcription of a recording: its text is the
      transcription, its tasks are extracted from that same text, and its
      timestamp is the given clock reading. */
  function BuildNote(now: nat): (n: VoiceNote)
    ensures n.transcribedText == Transcription
    ensures |n.extractedTasks| == 2 && n.extractedTasks[0] == TaskPrefix + n.transcribedText
    ensures n.timestamp == now
  {
    var text := SimulateTranscription();
    VoiceNote(text, ExtractTasks(text), now)
  }

  /** The launched processing step. On success the new note becomes the
      current note and is appended to the history; on failure only the error
      is set. Processing ends in every case; the error is not cleared here. */
  function Process(s: VoiceState, now: nat, failure: Option<string>): VoiceState {
    match failure
    case None =>
      var note := BuildNote(now);
      s.(isProcessing := false, currentNote := Some(note), notes := s.notes + [note])
    case Some(m) =>
      s.(isProcessing := false, error := Some(ProcessErrorPrefix + m))
  }

  /** startRecording, whole: when not recording, recording turns on and the
      error is cleared; while recording, nothing changes. */
  function Start(s: VoiceState): VoiceState {
    if !s.isRecording then s.(isRecording := true, error := None) else s
  }

  /** stopRecording, whole: when recording, recording turns off and the
      recording is processed; when not recording, nothing changes. */
  function Stop(s: VoiceState, now: nat, failure: Option<string>): VoiceState {
    if s.isRecording then Process(s.(isRecording := false), now, failure) else s
  }

  /** What one processing step does to each observable value. */
  lemma ProcessOutcome(s: VoiceState, now: nat, failure: Option<string>)
    ensures var r := Process(s, now, failure);
            && !r.isProcessing
            && r.isRecording == s.isRecording
            && (failure.None? ==>
                  && |r.notes| == |s.notes| + 1
                  && r.notes[..|s.notes|] == s.notes
                  && r.currentNote == Some(r.notes[|s.notes|])
                  && r.notes[|s.notes|].transcribedText == SimulateTranscription()
                  && |r.notes[|s.notes|].extractedTasks| == 2
                  && r.notes[|s.notes|].extractedTasks[0] == TaskPrefix + SimulateTranscription()
                  && r.error == s.error)
            && (failure.Some? ==>
                  && r.error == Some(ProcessErrorPrefix + failure.value)
                  && r.notes == s.notes
                  && r.currentNote == s.currentNote)
  {
    if failure.None? {
      var r := Process(s, now, failure);
      assert r.notes[..|s.notes|] == s.notes;
    }
  }

  /** Starting when not recording turns recording on and clears the error;
      starting while recording changes nothing. */
  lemma StartRecordingOutcome(s: VoiceState)
    ensures !s.isRecording ==> Start(s) == s.(isRecording := true, error := None)
    ensures s.isRecording ==> Start(s) == s
  {
  }

  /** Stopping while recording turns recording off and processes the
      recording; stopping when not recording changes nothing. */
  lemma StopRecordingOutcome(s: VoiceState, now: nat, failure: Option<string>)
    ensures s.isRecording ==>
              var r := Stop(s, now, failure);
              && !r.isRecording && !r.isProcessing
              && (failure.None? ==> r.notes == s.notes + [BuildNote(now)] && r.currentNote == Some(BuildNote(now)))
              && (failure.Some? ==> r.notes == s.notes && r.currentNote == s.currentNote && r.error.Some?)
    ensures !s.isRecording ==> Stop(s, now, failure) == s
  {
  }

  /** A full record-then-stop cycle from an idle holder adds exactly one
      note, the one just produced, and leaves the holder idle. */
  lemma RecordingCycle(s: VoiceState, now: nat)
    requires !s.isRecording
    ensures var r := Stop(Start(s), now, None);
            && r.notes == s.notes + [BuildNote(now)]
            && r.currentNote == Some(BuildNote(now))
            && !r.isRecording && !r.isProcessing && r.error == None
  {
  }

  /** The holder between operations: not processing, and the current note,
      when there is one, is the latest entry of the history. */
  predicate Settled(s: VoiceState) {
    && !s.isProcessing
    && (s.currentNote.Some? ==> |s.notes| > 0 && s.currentNote.value == s.notes[|s.notes| - 1])
  }

  /** The public operations of the holder, as events. */
  datatype VoiceEvent =
    | RecordPressed
    | StopPressed(now: nat, failure: Option<string>)
    | CurrentNoteCleared
    | AllNotesCleared
    | ErrorCleared

  function Apply(s: VoiceState, e: VoiceEvent): VoiceState {
    match e
    case RecordPressed => Start(s)
    case StopPressed(now, failure) => Stop(s, now, failure)
    case CurrentNoteCleared => s.(currentNote := None)
    case AllNotesCleared => s.(notes := [], currentNote := None)
    case ErrorCleared => s.(error := None)
  }

  function Run(s: VoiceState, es: seq<VoiceEvent>): VoiceState
    decreases |es|
  {
    if es == [] then s else Run(Apply(s, es[0]), es[1..])
  }

  lemma ApplyKeepsSettled(s: VoiceState, e: VoiceEvent)
    requires Settled(s)
    ensures Settled(Apply(s, e))
  {
    if e.StopPressed? && s.isRecording {
      ProcessOutcome(s.(isRecording := false), e.now, e.failure);
    }
  }

  lemma {:induction false} RunKeepsSettled(s: VoiceState, es: seq<VoiceEvent>)
    requires Settled(s)
    ensures Settled(Run(s, es))
    decreases |es|
  {
    if es != [] {
      ApplyKeepsSettled(s, es[0]);
      RunKeepsSettled(Apply(s, es[0]), es[1..]);
    }
  }

  /** Every state reachable through the public operations is settled. */
  lemma ReachableIsSettled(es: seq<VoiceEvent>)
    ensures Settled(Run(Initial(), es))
  {
    RunKeepsSettled(Initial(), es);
  }

  /** Until the history is cleared, notes are only ever appended: the
      earlier history is a prefix of the later one. */
  lemma {:induction false} RunKeepsHistory(s: VoiceState, es: seq<VoiceEvent>)
    requires forall i | 0 <= i < |es| :: !es[i].AllNotesCleared?
    ensures s.notes <= Run(s, es).notes
    decreases |es|
  {
    if es != [] {
      if es[0].StopPressed? && s.isRecording {
        ProcessOutcome(s.(isRecording := false), es[0].now, es[0].failure);
      }
      RunKeepsHistory(Apply(s, es[0]), es[1..]);
    }
  }

  /** The holder itself, with the five values it exposes as fields. */
  class VoiceNoteViewModel {
    var isRecording: bool
    var isProcessing: bool
    var currentNote: Option<VoiceNote>
    var notes: seq<VoiceNote>
    var error: Option<string>

    function State(): VoiceState
      reads this
    {
      VoiceState(isRecording, isProcessing, currentNote, notes, error)
    }

    constructor ()
      ensures State() == Initial()
    {
      isRecording := false;
      isProcessing := false;
      currentNote := None;
      notes := [];
      error := None;
    }

    method StartRecording()
      modifies this
      ensures State() == Start(old(State()))
    {
      if !isRecording {
        isRecording := true;
        error := None;
      }
    }

    method StopRecording(now: nat, failure: Option<string>)
      modifies this
      ensures State() == Stop(old(State()), now, failure)
    {
      if isRecording {
        isRecording := false;
        ProcessRecording(now, failure);
      }
    }

    /** The launched processing step, run to its end as one step. */
    method ProcessRecording(now: nat, failure: Option<string>)
      modifies this
      ensures State() == Process(old(State()), now, failure)
    {
      isProcessing := true;
      match failure {
        case None =>
          var transcribedText := SimulateTranscription();
          var note := VoiceNote(transcribedText, ExtractTasks(transcribedText), now);
          currentNote := Some(note);
          notes := notes + [note];
        case Some(m) =>
          error := Some(ProcessErrorPrefix + m);
      }
      isProcessing := false;
    }

    method ClearCurrentNote()
      modifies this
      ensures State() == old(State()).(currentNote := None)
    {
      currentNote := None;
    }

    method ClearAllNotes()
      modifies this
      ensures State() == old(State()).(notes := [], currentNote := None)
    {
      notes := [];
      currentNote := None;
    }

    method ClearError()
      modifies this
      ensures State() == old(State()).(error := None)
    {
      error := None;
    }
  }
}
