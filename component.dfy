/**
 * The `VoiceRecorder` component itself: its state hooks and refs as fields, and its handlers as
 * methods that update them in the order the component does. Each handler is proved to make the
 * move of the matching function of `Session`, and to keep `Session.Inv`.
 */
module Component {
  import opened Wrappers
  import opened Capture
  import opened Transcription
  import opened Session

  class VoiceRecorder {
    var status: Status
    var audioURL: Option<ObjectUrl>
    var transcript: Option<string>
    var error: Option<string>
    var mediaRecorder: Option<RecorderState> // mediaRecorder.current
    var audioChunks: seq<Chunk>              // audioChunks.current
    var streamRef: Option<Stream>            // streamRef.current
    var posted: seq<Request>                 // requests handed to fetch, oldest first

    function Snapshot(): State
      reads this
    {
      State(status, audioURL, transcript, error, mediaRecorder, audioChunks, streamRef, posted)
    }

    ghost predicate Valid()
      reads this
    {
      Inv(Snapshot())
    }

    /** Mount: `idle`, nothing held, nothing buffered. */
    constructor ()
      ensures Valid() && Snapshot() == Init
    {
      status := Idle;
      audioURL, transcript, error := None, None, None;
      mediaRecorder, audioChunks, streamRef := None, [], None;
      posted := [];
    }

    /** `startRecording`; its only caller, the button, calls it only when not recording. */
    method StartRecording(outcome: StartOutcome)
      requires Valid() && status != Recording
      modifies this
      ensures Valid() && Snapshot() == Start(old(Snapshot()), outcome)
    {
      ghost var before := Snapshot();
      transcript := None;
      error := None;
      audioURL := None;
      match outcome
      case AcquireFailed(f) =>
        error := Some(MessageOr(f, PermissionFallback));
        status := Error;
      case ConstructFailed(stream, f) =>
        streamRef := Some(stream);
        error := Some(MessageOr(f, PermissionFallback));
        status := Error;
      case StartFailed(stream, f) =>
        streamRef := Some(stream);
        mediaRecorder := Some(Inactive);
        audioChunks := [];
        error := Some(MessageOr(f, PermissionFallback));
        status := Error;
      case Started(stream) =>
        streamRef := Some(stream);
        mediaRecorder := Some(Inactive); // new MediaRecorder(stream, ...)
        audioChunks := [];
        mediaRecorder := Some(Active);   // mr.start()
        status := Recording;
      StepInv(before, ButtonClicked(outcome));
    }

    /** The recorder's `ondataavailable` handler. */
    method OnDataAvailable(payload: Option<Chunk>)
      requires Valid() && Delivering(mediaRecorder)
      modifies this
      ensures Valid() && Snapshot() == Append(old(Snapshot()), payload)
    {
      ghost var before := Snapshot();
      if payload.Some? && |payload.value| > 0 {
        audioChunks := audioChunks + [payload.value];
      }
      StepInv(before, ChunkDelivered(payload));
    }

    /** `stopRecording`. */
    method StopRecording()
      requires Valid()
      modifies this
      ensures Valid() && Snapshot() == Stop(old(Snapshot()))
    {
      ghost var before := Snapshot();
      if mediaRecorder == Some(Active) {
        mediaRecorder := Some(Closing);
      } else if streamRef.Some? {
        var stopped := StopTracks(streamRef.value);
        streamRef := Some(stopped);
      }
      StopInv(before);
    }

    /**
     * The recorder's `onstop` handler up to the awaited `fetch`: `token` names the object URL
     * the browser creates, and `request` is the one POST it issues.
     */
    method OnStop(token: nat) returns (request: Request)
      requires Valid() && mediaRecorder == Some(Closing)
      modifies this
      ensures Valid() && Snapshot() == Finish(old(Snapshot()), token)
      ensures posted == old(posted) + [request]
    {
      ghost var before := Snapshot();
      var stopped := StopTracks(streamRef.value);
      streamRef := Some(stopped);
      var blob := Blob(Concat(audioChunks), MimeType);
      audioURL := Some(ObjectUrl(token, blob));
      status := Uploading;
      request := Post(Endpoint, [FilePart(FileField, blob, FileName)]);
      posted := posted + [request];
      mediaRecorder := Some(Inactive);
      StepInv(before, RecorderStopped(token));
    }

    /** The `onstop` handler from the settled `fetch` (and `res.json()`) on. */
    method OnResponse(reply: Reply)
      requires Valid() && status == Uploading
      modifies this
      ensures Valid() && Snapshot() == Respond(old(Snapshot()), reply)
    {
      ghost var before := Snapshot();
      match reply
      case Failed(f) =>
        error := Some(MessageOr(f, UploadFallback));
        status := Error;
      case Answered(ok, code, text, err) =>
        if !ok {
          error := Some(MessageOr(Some(ServerError(code)), UploadFallback));
          status := Error;
        } else if err.Some? && err.value != "" {
          error := Some(MessageOr(err, UploadFallback));
          status := Error;
        } else {
          transcript := Some(text.GetOr(Placeholder));
          status := Done;
        }
      StepInv(before, ServerReplied(reply));
    }

    /** The button: `stopRecording` while recording, `startRecording` otherwise. */
    method OnButtonClick(outcome: StartOutcome)
      requires Valid()
      modifies this
      ensures Valid() && Snapshot() == Step(old(Snapshot()), ButtonClicked(outcome))
    {
      if status == Recording {
        StopRecording();
      } else {
        StartRecording(outcome);
      }
    }
  }
}
