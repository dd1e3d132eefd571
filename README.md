# Voice recorder session: a Dafny model

This project models the recording session of the `VoiceRecorder` React component. The
component captures microphone audio with `MediaRecorder`, buffers the delivered chunks, and
builds one `audio/webm` artifact when the recorder stops. It POSTs that artifact to
`/api/transcribe` and shows either the transcript or an error.

The browser is replaced by inputs:

- `getUserMedia`, `new MediaRecorder` and `mr.start()` become a `StartOutcome`. It says
  where `startRecording` threw, if it did, and which stream was granted.
- The recorder's `dataavailable` and `stop` events become events of the model.
- `URL.createObjectURL` becomes an opaque token paired with its blob.
- `fetch` and `res.json()` become a `Reply`: either a response `(ok, status, text?, error?)`
  or a thrown value, seen through its `message`.

Files and modules:

- `wrappers.dfy` (`Wrappers`): `Option`, for the component's nullable values.
- `decimal.dfy` (`Decimal`): how the status code is written into "Server error: …", and the
  proof that it can be read back.
- `capture.dfy` (`Capture`): bytes, chunks, streams and their tracks, the artifact, and the
  track-stopping loop.
- `transcription.dfy` (`Transcription`): the request, the response classifier, and the
  message-or-fallback rule of the two `catch` blocks.
- `session.dfy` (`Session`): the component state as a value. It has one function per
  handler, the step function over events (including the button's dispatch), runs of events,
  the invariant of every reachable state, and the lemmas.
- `component.dfy` (`Component`): the class `VoiceRecorder`. Its fields are the component's
  state hooks and refs. Each method updates them in the component's order and is proved to make
  exactly the move of the matching `Session` function while keeping the invariant.
- `scenarios.dfy` (`Scenarios`): whole runs from mount on concrete inputs.

Recorder states: `Active` is the browser's "recording". `Inactive` and `Closing` are both the
browser's "inactive". `Closing` means `stop()` was called and the final `dataavailable` and the
`stop` event are still to come. Chunks are delivered only while `Active` or `Closing`. The
`stop` event comes only while `Closing`.

## Behaviour the model makes explicit

- The button calls `startRecording` in every status except `recording`, including `uploading`
  (line 83). A restart while an upload is in flight is accepted (`Session.RestartWhileUploading`).
- `text ?? "No transcription available."` substitutes the placeholder only when `text` is
  absent. An empty `text` becomes an empty transcript (`Scenarios.EmptyTextRun`).
- An empty `error` field is falsy, so it counts as no error (line 51).
- A failed acquisition moves `idle`, `done` or `error` straight to `error`; the status never
  passes through `recording`. It leaves the previous stream ref, recorder ref and chunk buffer
  untouched (`Session.StartRefs`).
- When `new MediaRecorder` throws, the granted stream stays held with its tracks live. In
  `error` the button calls `startRecording`, never `stopRecording`. The "safety" branch of
  `stopRecording` (lines 71-73) is therefore reached only when the stop button is clicked a
  second time before the recorder's `stop` event. The tracks end up stopped twice, which is
  harmless (`Session.SafetyBranchOnlyWhileClosing`, `Session.ConstructFailureKeepsStream`,
  `Session.StopIdempotentOnceReleased`).

## Model

| member | source | states |
|---|---|---|
| Decimal.Show | AUDIOWAVE/nextjs-app/components/voice-recorder.tsx:48-48 | the status code is rendered as a non-empty string of digits with no leading zero |
| Decimal.ParseShow | AUDIOWAVE/nextjs-app/components/voice-recorder.tsx:48-48 | reading the rendered numeral back gives the status code |
| Decimal.ShowInjective | AUDIOWAVE/nextjs-app/components/voice-recorder.tsx:48-48 | different status codes give different numerals |
| Transcription.MessageOr | AUDIOWAVE/nextjs-app/components/voice-recorder.tsx:54-56 | `e?.message \|\| fallback` (also line 63): the caught message when it is present and non-empty, otherwise the fallback; never empty |
| Transcription.Classify | AUDIOWAVE/nextjs-app/components/voice-recorder.tsx:48-53 | rejected exactly when the response is not ok or `error` is truthy; not ok gives "Server error: " + status whatever the body says; otherwise a truthy `error` is the message; otherwise the transcript is `text`, or the placeholder only when `text` is absent; a rejection message is never empty |
| Transcription.RejectedVerbatim | AUDIOWAVE/nextjs-app/components/voice-recorder.tsx:51-55 | the message of a rejected response reaches `error` unchanged through the catch block's fallback |
| Transcription.ServerErrorInjective | AUDIOWAVE/nextjs-app/components/voice-recorder.tsx:48-48 | different status codes give different "Server error: …" messages |
| Transcription.ServerErrorNamesCode | AUDIOWAVE/nextjs-app/components/voice-recorder.tsx:48-48 | the server-error message is the fixed prefix followed by digits that read back as the status code |
| Capture.ConcatAppend | AUDIOWAVE/nextjs-app/components/voice-recorder.tsx:31-38 | appending an accepted chunk to the buffer appends its bytes to the artifact |
| Capture.ChunkAt | AUDIOWAVE/nextjs-app/components/voice-recorder.tsx:38-38 | every buffered chunk sits intact at its own offset in the artifact, the next chunk starts where it ends, and the last one ends the artifact: no gap, no reordering |
| Capture.Released | AUDIOWAVE/nextjs-app/components/voice-recorder.tsx:36-36 | after stopping, the stream has the same tracks, all ended |
| Capture.ReleasedIdempotent | AUDIOWAVE/nextjs-app/components/voice-recorder.tsx:73-73 | stopping already stopped tracks again changes nothing |
| Capture.StopTracks | AUDIOWAVE/nextjs-app/components/voice-recorder.tsx:36-36 | the `forEach` loop over the tracks leaves every track ended and the track count unchanged |
| Session.InitInv | AUDIOWAVE/nextjs-app/components/voice-recorder.tsx:5-15 | the session starts `idle` with nothing held or buffered, and that state satisfies the invariant |
| Session.StepInv | AUDIOWAVE/nextjs-app/components/voice-recorder.tsx:17-83 | every event handler, and the button's dispatch, keeps the invariant |
| Session.StopInv | AUDIOWAVE/nextjs-app/components/voice-recorder.tsx:68-75 | `stopRecording` keeps the invariant from any reachable state |
| Session.RunInv | AUDIOWAVE/nextjs-app/components/voice-recorder.tsx:17-83 | every run of events from a state that satisfies the invariant keeps it |
| Session.Reachable | AUDIOWAVE/nextjs-app/components/voice-recorder.tsx:54-64 | in every reachable state, `error` status comes with a non-empty message and `done` with a transcript |
| Session.StepFollowsEdge | AUDIOWAVE/nextjs-app/components/voice-recorder.tsx:42-64 | the status moves only along the handlers' edges, each labelled with its event: a start (outside `recording`) to `recording` or `error`, the recorder's stop event from `recording` to `uploading`, a reply from `uploading` to `done` or `error`; no other event changes the status |
| Session.RecordingOnlyAfterStart | AUDIOWAVE/nextjs-app/components/voice-recorder.tsx:60-61 | from any other status, the status becomes `recording` exactly when the recorder started, and the recorder is then active |
| Session.StartOutcomes | AUDIOWAVE/nextjs-app/components/voice-recorder.tsx:17-65 | a start always clears the transcript and preview; it ends in `recording` with no error iff the recorder started, otherwise in `error` with the thrown message or "Microphone permission denied."; it issues no request |
| Session.StartRefs | AUDIOWAVE/nextjs-app/components/voice-recorder.tsx:23-28 | the stream is held once granted; the buffer is emptied and the recorder replaced only after `new MediaRecorder` succeeded; a failed acquisition leaves all three refs as they were |
| Session.AppendOnlyAccepted | AUDIOWAVE/nextjs-app/components/voice-recorder.tsx:30-32 | a chunk is buffered exactly when it is present and non-empty; nothing else changes |
| Session.StopKeepsSession | AUDIOWAVE/nextjs-app/components/voice-recorder.tsx:68-75 | `stopRecording` leaves the status, session fields, buffer and requests alone; it stops an active recorder, or else stops the held stream's tracks, or else does nothing |
| Session.StopIdempotentOnceReleased | AUDIOWAVE/nextjs-app/components/voice-recorder.tsx:71-74 | once the recorder is not active, a second `stopRecording` changes nothing |
| Session.FinishEffects | AUDIOWAVE/nextjs-app/components/voice-recorder.tsx:34-47 | the stop event stops every track of the held stream (the stream becomes `Released` of it) and leaves the recorder inactive, sets the preview to the buffered chunks concatenated and tagged `audio/webm`, sets the status to `uploading`, and issues exactly one POST to `/api/transcribe` whose single part is `file` named `recording.webm` |
| Session.RespondOutcomes | AUDIOWAVE/nextjs-app/components/voice-recorder.tsx:47-57 | a settled upload ends in `done` with the classified transcript, or in `error` with the rejection message or the thrown message or "Upload failed."; an error message is never empty |
| Session.OnlyFinishPosts | AUDIOWAVE/nextjs-app/components/voice-recorder.tsx:44-47 | only the recorder's stop event issues requests, exactly one each time |
| Session.BufferChanges | AUDIOWAVE/nextjs-app/components/voice-recorder.tsx:28-31 | the buffer changes only when a chunk arrives while recording, or when a start empties it |
| Session.RestartWhileUploading | AUDIOWAVE/nextjs-app/components/voice-recorder.tsx:83-83 | a click while uploading starts a new recording and empties the buffer |
| Session.SafetyBranchOnlyWhileClosing | AUDIOWAVE/nextjs-app/components/voice-recorder.tsx:71-73 | when the button calls `stopRecording`, the fallback branch is taken only if the recorder is already closing |
| Session.ConstructFailureKeepsStream | AUDIOWAVE/nextjs-app/components/voice-recorder.tsx:24-26 | when `new MediaRecorder` throws, the granted stream stays held, the status is `error`, and the button's next click starts again instead of stopping |
| Session.CaptureWhileRecording | AUDIOWAVE/nextjs-app/components/voice-recorder.tsx:28-32 | while recording and before the stop event, the buffer grows by exactly the accepted payloads in arrival order, no request is issued, and the recorder is closing iff the stop button was clicked |
| Session.SessionArtifact | AUDIOWAVE/nextjs-app/components/voice-recorder.tsx:28-47 | for a whole session from any rest state, the one request and the preview carry exactly the chunks accepted in that session, concatenated in arrival order: nothing from an earlier session survives |
| Component.VoiceRecorder.constructor | AUDIOWAVE/nextjs-app/components/voice-recorder.tsx:8-15 | mount: `idle`, no preview, transcript or error, no refs, empty buffer |
| Component.VoiceRecorder.StartRecording | AUDIOWAVE/nextjs-app/components/voice-recorder.tsx:17-66 | the fields end as `Session.Start` says, and the invariant is kept |
| Component.VoiceRecorder.OnDataAvailable | AUDIOWAVE/nextjs-app/components/voice-recorder.tsx:30-32 | the fields end as `Session.Append` says, and the invariant is kept |
| Component.VoiceRecorder.StopRecording | AUDIOWAVE/nextjs-app/components/voice-recorder.tsx:68-75 | the fields end as `Session.Stop` says, and the invariant is kept |
| Component.VoiceRecorder.OnStop | AUDIOWAVE/nextjs-app/components/voice-recorder.tsx:34-47 | the fields end as `Session.Finish` says; the returned request is the one appended to the issued requests |
| Component.VoiceRecorder.OnResponse | AUDIOWAVE/nextjs-app/components/voice-recorder.tsx:47-57 | the fields end as `Session.Respond` says, and the invariant is kept |
| Component.VoiceRecorder.OnButtonClick | AUDIOWAVE/nextjs-app/components/voice-recorder.tsx:83-83 | the fields end as the dispatching step says: stop while recording, start otherwise |
| Scenarios.TranscribedRun | AUDIOWAVE/nextjs-app/components/voice-recorder.tsx:30-53 | chunks "ab" and "cd", stop, then a 200 reply with text: `done`, that transcript, preview "abcd", tracks ended |
| Scenarios.ServerErrorRun | AUDIOWAVE/nextjs-app/components/voice-recorder.tsx:48-48 | a 500 reply ends in `error` with "Server error: 500" |
| Scenarios.RemoteErrorRun | AUDIOWAVE/nextjs-app/components/voice-recorder.tsx:51-51 | a 200 reply with `error` "unsupported codec" ends in `error` with that message |
| Scenarios.PlaceholderRun | AUDIOWAVE/nextjs-app/components/voice-recorder.tsx:52-53 | a 200 reply with an empty body ends in `done` with the placeholder |
| Scenarios.EmptyTextRun | AUDIOWAVE/nextjs-app/components/voice-recorder.tsx:51-52 | empty `text` and empty `error` end in `done` with an empty transcript |
| Scenarios.PermissionDeniedRun | AUDIOWAVE/nextjs-app/components/voice-recorder.tsx:62-64 | a refused acquisition without a message ends in `error` with the permission fallback, holding no stream |
| Scenarios.StopWhenIdle | AUDIOWAVE/nextjs-app/components/voice-recorder.tsx:68-75 | `stopRecording` at mount changes nothing |

## Left out

- Rendering (lines 77-123): the button's label and classes, the status text, the preview
  `<audio>` element, the "Processing…" banner and the transcript and error boxes are
  presentation only. The button's dispatch on line 83 is modelled.
- `app/layout.tsx` and `app/page.tsx`: static metadata and page chrome, with no logic.
- The browser APIs (`getUserMedia`, `MediaRecorder`, `Blob`, `URL.createObjectURL`,
  `FormData`, `fetch`, `res.json()`) are inputs, not implementations. The object URL is never
  revoked in the component, and the resulting leak is not modelled.
- Asynchrony: each handler is one atomic step on a single timeline, and React's batching of
  state updates is not modelled. The order of assignments inside one handler cannot be observed
  in the model; the class methods perform them in the component's order. The await on
  `getUserMedia` inside `startRecording` is part of the start step, so a second click during
  that await is not modelled.
- A reply is applied only while the status is `uploading`, and it is taken to answer the
  current upload. A late reply to an upload superseded by a restart (line 83) would race the new
  session's status updates; that race is not modelled.
- The recorder stopping by itself (for example when the device is unplugged) and the `paused`
  state are not modelled; the component never pauses.
- The `onstop` closure's `stream` and `streamRef.current` are one held stream in the model.
  They are the same object on every path the model has, because no restart can happen between
  a successful start and that recorder's `stop` event.
- `res.ok` is an input beside the status code; it is not derived from the code.
- A caught value's `message` and the body's `text` and `error` are taken to be strings when
  present; other JSON types are not modelled.
- The transcription service and the audio encoding are opaque.
