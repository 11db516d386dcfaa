# Chat and voice-note state holders

A Dafny model of the two view-model state holders of the AInsight Android
client.

- The chat holder (`AssistantViewModel`) keeps an ordered list of chat
  messages, a loading flag and an optional error string. A non-blank prompt
  is appended as a user message. An empty assistant message is then appended
  and the tokens streamed back by the on-device inference SDK are folded into
  it. On a stream failure the error is recorded and the assistant message is
  dropped if its text is still empty.
- The voice-note holder (`VoiceNoteViewModel`) keeps recording and processing
  flags, the note just produced, the history of notes and an optional error.
  Stopping a recording runs a processing step. That step builds a note from
  the placeholder transcription and task extraction, shows it and appends it
  to the history.

Layout:

- `optional.dfy` (module `Optional`): Kotlin's nullable values as `Option`.
- `blank.dfy` (module `Blank`): Kotlin's `Char.isWhitespace()` and
  `CharSequence.isBlank()`, used by `sendMessage`.
- `assistant.dfy` (module `Assistant`): the chat holder.
- `voice_notes.dfy` (module `VoiceNotes`): the voice-note holder.

Each holder is a class whose fields are the holder's observable values. Each
method states its new state as a pure function of the old state and the
inputs (`Send`, `Generate`, `Start`, `Stop`, `Process`, or a datatype update
for the clear operations). Lemmas prove what those functions promise. The
event datatypes `ChatEvent` and `VoiceEvent` with `Run` replay any sequence
of public operations. They are used to prove invariants of every reachable
state.

Inputs that stand for the outside world:

- The SDK stream of one prompt (`RunAnywhere.generateStream(prompt)`) is a
  `TokenStream`. It holds the tokens delivered in arrival order and how the
  stream ended: completed, or failed with an exception message after the last
  delivered token.
- Whether processing a recording throws, and the exception's message, is the
  `failure: Option<string>` input of `ProcessRecording`/`StopRecording`.
- Wall-clock timestamps (`System.currentTimeMillis()`) are opaque `nat`
  inputs (`userTime`, `replyTime`, `now`). Nothing is claimed about them
  except that a streamed copy of a message keeps the original's timestamp.

A failed stream removes the trailing assistant message only while its text
is still empty (AssistantViewModel.kt:70); a partial reply stays.
`DiscardEmptyReply` and `GenerateOutcome` model this.

## Model

| member | source | states |
|---|---|---|
| `Blank.IsWhitespace` | app/src/main/java/com/example/ainsight/AssistantViewModel.kt:30 | the characters Kotlin's `Char.isWhitespace()` accepts: space, tab, CR, LF, no-break and ideographic spaces are whitespace; digits, ASCII letters, U+0085 and the zero-width space are not |
| `Blank.IsBlank` | app/src/main/java/com/example/ainsight/AssistantViewModel.kt:30 | a prompt is blank when it is empty or every character is one `Char.isWhitespace()` accepts: it is not blank exactly when some character is not whitespace |
| `Blank.BlankAppend` | app/src/main/java/com/example/ainsight/AssistantViewModel.kt:30 | a concatenation is blank exactly when both parts are |
| `Blank.BlankExamples` | app/src/main/java/com/example/ainsight/AssistantViewModel.kt:30 | the empty string, whitespace mixes and no-break or ideographic spaces are blank; a string with a visible character is not |
| `Assistant.AssistantViewModel.SendMessage` | app/src/main/java/com/example/ainsight/AssistantViewModel.kt:29-38 | the new state is `Send` of the old state: a blank prompt changes nothing; otherwise the user message is appended and a generation runs |
| `Assistant.AssistantViewModel.GenerateResponse` | app/src/main/java/com/example/ainsight/AssistantViewModel.kt:40-78 | the token loop leaves exactly the state `Generate` describes; its invariants say the running buffer is the concatenation of the tokens so far and the list is the fold of the per-token updates |
| `Assistant.AssistantViewModel.ClearMessages` | app/src/main/java/com/example/ainsight/AssistantViewModel.kt:80-83 | from any state: empty list and no error, loading flag unchanged |
| `Assistant.AssistantViewModel.ClearError` | app/src/main/java/com/example/ainsight/AssistantViewModel.kt:85-87 | only the error is cleared; messages and loading flag unchanged |
| `Assistant.AssistantViewModel.constructor` | app/src/main/java/com/example/ainsight/AssistantViewModel.kt:20-27 | a new holder has no messages, is not loading and has no error |
| `Assistant.ConcatSnoc` | app/src/main/java/com/example/ainsight/AssistantViewModel.kt:53 | appending a token to the buffer gives the concatenation of all tokens so far |
| `Assistant.ConcatEmptyIff` | app/src/main/java/com/example/ainsight/AssistantViewModel.kt:47-53 | the buffer is empty exactly when every delivered token is empty |
| `Assistant.StreamedTextGrows` | app/src/main/java/com/example/ainsight/AssistantViewModel.kt:52-53 | the buffer after fewer tokens is a prefix of the buffer after more: the shown reply only grows |
| `Assistant.StreamStep` | app/src/main/java/com/example/ainsight/AssistantViewModel.kt:56-62 | one token's update keeps the length and every earlier element; a trailing assistant message becomes a copy with the buffer as text and its own timestamp; a trailing user message (or an empty list) is left alone |
| `Assistant.AfterTokens` | app/src/main/java/com/example/ainsight/AssistantViewModel.kt:52-63 | folding any tokens into the list keeps its length and every element but the last |
| `Assistant.AfterTokensOnReply` | app/src/main/java/com/example/ainsight/AssistantViewModel.kt:52-63 | streaming onto a trailing assistant message gives it the concatenation of all tokens and changes nothing before it |
| `Assistant.StreamingPrefix` | app/src/main/java/com/example/ainsight/AssistantViewModel.kt:47-63 | after k tokens the reply text is t1+...+tk over an unchanged prefix; token k+1 only extends that text |
| `Assistant.DiscardEmptyReply` | app/src/main/java/com/example/ainsight/AssistantViewModel.kt:69-73 | the cleanup yields a prefix of the list, at most one shorter, and shorter exactly when the last message is an assistant message with empty text |
| `Assistant.GenerateOutcome` | app/src/main/java/com/example/ainsight/AssistantViewModel.kt:40-78 | loading ends false; a completed stream leaves the old list plus one assistant message holding all tokens in arrival order and no error; a failed stream sets the prefixed error and keeps that message only when its text is non-empty |
| `Assistant.GenerateFailureDropsReplyIff` | app/src/main/java/com/example/ainsight/AssistantViewModel.kt:65-73 | on failure the list returns to its pre-generation value exactly when every delivered token was empty, in particular when no token arrived |
| `Assistant.SendOutcome` | app/src/main/java/com/example/ainsight/AssistantViewModel.kt:29-78 | a blank prompt leaves messages, loading flag and error unchanged; otherwise the list becomes old + [user, reply] on completion, old + [user] with an error on a failure before any text, old + [user, partial reply] with an error on a later failure; loading ends false |
| `Assistant.SendHelloExample` | app/src/main/java/com/example/ainsight/AssistantViewModel.kt:29-63 | the tokens "Hel", "lo" leave the reply "Hello" after the user's prompt |
| `Assistant.SendKeepsSettled` | app/src/main/java/com/example/ainsight/AssistantViewModel.kt:29-78 | a send from a settled state (not loading, every assistant message right after a user message) is settled again |
| `Assistant.RunKeepsSettled` | app/src/main/java/com/example/ainsight/AssistantViewModel.kt:29-87 | any sequence of sends and clears preserves the settled invariant |
| `Assistant.ReachableIsSettled` | app/src/main/java/com/example/ainsight/AssistantViewModel.kt:20-87 | every state reachable from a new holder is settled |
| `Assistant.RunKeepsHistory` | app/src/main/java/com/example/ainsight/AssistantViewModel.kt:29-87 | without `clearMessages`, the earlier list is always a prefix of the later one: messages once added are never rewritten or removed |
| `VoiceNotes.VoiceNoteViewModel.StartRecording` | app/src/main/java/com/example/ainsight/VoiceNoteViewModel.kt:33-39 | the new state is `Start` of the old state |
| `VoiceNotes.VoiceNoteViewModel.StopRecording` | app/src/main/java/com/example/ainsight/VoiceNoteViewModel.kt:41-46 | the new state is `Stop` of the old state |
| `VoiceNotes.VoiceNoteViewModel.ProcessRecording` | app/src/main/java/com/example/ainsight/VoiceNoteViewModel.kt:48-71 | the new state is `Process` of the old state |
| `VoiceNotes.VoiceNoteViewModel.ClearCurrentNote` | app/src/main/java/com/example/ainsight/VoiceNoteViewModel.kt:88-90 | only the current note is cleared; the history is unchanged |
| `VoiceNotes.VoiceNoteViewModel.ClearAllNotes` | app/src/main/java/com/example/ainsight/VoiceNoteViewModel.kt:92-95 | the history is emptied and the current note cleared; the flags and the error are unchanged |
| `VoiceNotes.VoiceNoteViewModel.ClearError` | app/src/main/java/com/example/ainsight/VoiceNoteViewModel.kt:97-99 | only the error is cleared |
| `VoiceNotes.VoiceNoteViewModel.constructor` | app/src/main/java/com/example/ainsight/VoiceNoteViewModel.kt:18-31 | a new holder is idle with no current note, no history and no error |
| `VoiceNotes.SimulateTranscription` | app/src/main/java/com/example/ainsight/VoiceNoteViewModel.kt:73-77 | always returns the fixed placeholder text `Transcription` |
| `VoiceNotes.BuildNote` | app/src/main/java/com/example/ainsight/VoiceNoteViewModel.kt:55-60 | the note's text is the placeholder transcription, its two tasks are extracted from that same text (the first is the lead-in plus the text), its timestamp is the given clock reading |
| `VoiceNotes.ExtractTasks` | app/src/main/java/com/example/ainsight/VoiceNoteViewModel.kt:79-86 | exactly two tasks: the first is the fixed lead-in followed by the whole text, the second the fixed second item |
| `VoiceNotes.ProcessOutcome` | app/src/main/java/com/example/ainsight/VoiceNoteViewModel.kt:48-86 | processing ends false and recording is untouched; on success the history grows by one at the end, earlier notes unchanged, the current note is that new note, its text is the simulated transcription and its two tasks start with the lead-in plus that text, the error is untouched; on failure the prefixed error is set and history and current note are untouched |
| `VoiceNotes.StartRecordingOutcome` | app/src/main/java/com/example/ainsight/VoiceNoteViewModel.kt:33-39 | when not recording: recording on and error cleared, nothing else changes; when recording: nothing changes |
| `VoiceNotes.StopRecordingOutcome` | app/src/main/java/com/example/ainsight/VoiceNoteViewModel.kt:41-46 | when recording: recording off and processing runs, adding the note on success or setting the error on failure; when not recording: nothing changes |
| `VoiceNotes.RecordingCycle` | app/src/main/java/com/example/ainsight/VoiceNoteViewModel.kt:33-71 | start then a successful stop from an idle holder appends exactly the produced note, shows it, and leaves no error and both flags off |
| `VoiceNotes.ApplyKeepsSettled` | app/src/main/java/com/example/ainsight/VoiceNoteViewModel.kt:33-99 | each public operation keeps the holder settled: not processing, and the current note, when present, is the latest history entry |
| `VoiceNotes.RunKeepsSettled` | app/src/main/java/com/example/ainsight/VoiceNoteViewModel.kt:33-99 | any sequence of public operations keeps the holder settled |
| `VoiceNotes.ReachableIsSettled` | app/src/main/java/com/example/ainsight/VoiceNoteViewModel.kt:18-99 | every state reachable from a new holder is settled |
| `VoiceNotes.RunKeepsHistory` | app/src/main/java/com/example/ainsight/VoiceNoteViewModel.kt:33-99 | without `clearAllNotes`, the earlier history is always a prefix of the later one: notes are only appended |

## Left out

- Coroutines, dispatchers and `StateFlow` observation: each launched block
  (`generateResponse`, `processRecording`) runs to its end as one atomic
  step. Interleavings such as `clearMessages` arriving mid-stream are a
  concurrency concern the model does not cover. So the observers' view of the
  intermediate states is captured only by the per-token lemmas
  (`StreamStep`, `StreamingPrefix`, `StreamedTextGrows`).
- The inference SDK (`RunAnywhere.generateStream`) is an input. The model
  does not pass the prompt to it, because the stream for the prompt is
  given directly.
- Exception message content: the model takes the message as a string. In
  Kotlin a null `e.message` prints as "null"; the model does not distinguish
  it. Exceptions thrown anywhere other than the stream (or, for processing,
  the transcription or extraction step) are not modelled. Cancellation is
  not modelled.
- The placeholder transcription and extraction in the source cannot throw.
  The `failure` input models the catch branch that a real collaborator
  would reach.
- Timestamps are opaque inputs, not clock readings.
- The difference between Kotlin's UTF-16 `Char` and Dafny's Unicode scalar
  `char`: every character `isWhitespace` accepts lies in the Basic
  Multilingual Plane, so `IsBlank` agrees on every string both can hold.
- The Compose screens (`AssistantScreen.kt`, `VoiceNoteScreen.kt`,
  `TeamChatScreen.kt`, `MainActivity.kt`): layout, theming, the permission
  prompt, auto-scroll, the reversed display order of notes and navigation are
  rendering glue with no state logic of their own.
