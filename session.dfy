/**
 * The recording session of the `VoiceRecorder` component as a state machine over values:
 * one function per event handler, the total step function over events, runs of events, the
 * invariant every reachable state keeps, and what the handlers promise.
 */
module Session {
  import opened Wrappers
  import opened Capture
  import opened Transcription

  /** The component's `status`. */
  datatype Status = Idle | Recording | Uploading | Done | Error

  /**
   * The recorder held in `mediaRecorder.current`. `Active` is the browser state "recording".
   * `Inactive` and `Closing` are both the browser state "inactive"; `Closing` means that
   * `stop()` was called and the final `dataavailable` and the `stop` event are still to come.
   */
  datatype RecorderState = Inactive | Active | Closing

  /**
   * What happens inside `startRecording` after the fields are cleared: where it throws, if
   * it throws, and the stream `getUserMedia` granted, if it did.
   */
  datatype StartOutcome =
    | AcquireFailed(fault: Fault)                  // getUserMedia rejects
    | ConstructFailed(stream: Stream, fault: Fault) // new MediaRecorder(...) throws
    | StartFailed(stream: Stream, fault: Fault)     // mr.start() throws
    | Started(stream: Stream)

  /** `URL.createObjectURL(blob)`: an opaque token naming the blob it was made for. */
  datatype ObjectUrl = ObjectUrl(token: nat, target: Blob)

  /**
   * The component's state: its four `useState` fields, its three refs, and the requests it has
   * handed to `fetch`, oldest first.
   */
  datatype State = State(
    status: Status,
    audioURL: Option<ObjectUrl>,
    transcript: Option<string>,
    error: Option<string>,
    recorder: Option<RecorderState>,
    chunks: seq<Chunk>,
    stream: Option<Stream>,
    posted: seq<Request>)

  /** The events the component reacts to. */
  datatype Event =
    | ButtonClicked(outcome: StartOutcome) // the button; `outcome` is used only if it starts
    | ChunkDelivered(payload: Option<Chunk>) // `ondataavailable`
    | RecorderStopped(token: nat)           // `onstop`; `token` names the new object URL
    | ServerReplied(reply: Reply)           // the awaited fetch settles

  /** The state at mount. */
  const Init := State(Idle, None, None, None, None, [], None, [])

  predicate Delivering(r: Option<RecorderState>) {
    r == Some(Active) || r == Some(Closing)
  }

  /** `startRecording`. */
  function Start(s: State, o: StartOutcome): State {
    var cleared := s.(transcript := None, error := None, audioURL := None);
    match o
    case AcquireFailed(f) =>
      cleared.(error := Some(MessageOr(f, PermissionFallback)), status := Error)
    case ConstructFailed(st, f) =>
      cleared.(stream := Some(st), error := Some(MessageOr(f, PermissionFallback)), status := Error)
    case StartFailed(st, f) =>
      cleared.(stream := Some(st), recorder := Some(Inactive), chunks := [],
               error := Some(MessageOr(f, PermissionFallback)), status := Error)
    case Started(st) =>
      cleared.(stream := Some(st), recorder := Some(Active), chunks := [], status := Recording)
  }

  /** `ondataavailable`. */
  function Append(s: State, payload: Option<Chunk>): State {
    if Accepts(payload) then s.(chunks := s.chunks + [payload.value]) else s
  }

  /** `stopRecording`. */
  function Stop(s: State): State {
    if s.recorder == Some(Active) then s.(recorder := Some(Closing))
    else if s.stream.Some? then s.(stream := Some(Released(s.stream.value)))
    else s
  }

  /** `onstop`, up to the awaited `fetch`. */
  function Finish(s: State, token: nat): State
    requires s.stream.Some?
  {
    var blob := Artifact(s.chunks);
    s.(stream := Some(Released(s.stream.value)),
       audioURL := Some(ObjectUrl(token, blob)),
       status := Uploading,
       recorder := Some(Inactive),
       posted := s.posted + [Upload(blob)])
  }

  /** `onstop`, from the settled `fetch` on. */
  function Respond(s: State, r: Reply): State {
    match r
    case Failed(f) => s.(error := Some(MessageOr(f, UploadFallback)), status := Error)
    case Answered(ok, code, text, err) =>
      match Classify(ok, code, text, err)
      case Transcribed(t) => s.(transcript := Some(t), status := Done)
      case Rejected(m) => s.(error := Some(MessageOr(Some(m), UploadFallback)), status := Error)
  }

  /** The recorder's closing events can be delivered (the second conjunct follows from Inv). */
  predicate CanFinish(s: State) {
    s.recorder == Some(Closing) && s.stream.Some?
  }

  /**
   * One event. The button runs `stopRecording` while recording and `startRecording` in every
   * other status, `uploading` included. Recorder events arrive only from a recorder that
   * delivers, and a reply only while the upload it answers is the current one; an event the
   * browser would not deliver leaves the state as it is.
   */
  function Step(s: State, e: Event): State {
    match e
    case ButtonClicked(o) => if s.status == Recording then Stop(s) else Start(s, o)
    case ChunkDelivered(p) => if Delivering(s.recorder) then Append(s, p) else s
    case RecorderStopped(t) => if CanFinish(s) then Finish(s, t) else s
    case ServerReplied(r) => if s.status == Uploading then Respond(s, r) else s
  }

  function Run(s: State, events: seq<Event>): State
    decreases |events|
  {
    if events == [] then s else Run(Step(s, events[0]), events[1..])
  }

  function Last<T>(xs: seq<T>): T
    requires xs != []
  {
    xs[|xs| - 1]
  }

  /** What holds of every state the component can reach. */
  ghost predicate Inv(s: State) {
    && (forall i :: 0 <= i < |s.chunks| ==> |s.chunks[i]| > 0)
    && (s.status == Idle ==> s == Init)
    && (s.status == Recording <==> Delivering(s.recorder))
    && (Delivering(s.recorder) ==> s.stream.Some?)
    && (s.status == Recording ==> s.error.None? && s.transcript.None? && s.audioURL.None?)
    && (s.status == Uploading ==> s.error.None? && s.transcript.None?)
    && (s.status == Uploading || s.status == Done ==>
          s.audioURL.Some? && s.posted != [] && Last(s.posted) == Upload(s.audioURL.value.target))
    && (s.status == Done ==> s.transcript.Some? && s.error.None?)
    && (s.status == Error ==> s.error.Some? && s.error.value != "" && s.transcript.None?)
  }

  /** The moves of `status` the handlers make (staying put aside). */
  predicate Edge(from: Status, to: Status) {
    match from
    case Idle => to == Recording || to == Error
    case Recording => to == Uploading
    case Uploading => to == Done || to == Error || to == Recording
    case Done => to == Recording || to == Error
    case Error => to == Recording || to == Error
  }

  lemma InitInv()
    ensures Inv(Init) && Init.status == Idle
  {
  }

  lemma StepInv(s: State, e: Event)
    requires Inv(s)
    ensures Inv(Step(s, e))
  {
  }

  /** `stopRecording` keeps the invariant from any reachable state, not only from `recording`. */
  lemma StopInv(s: State)
    requires Inv(s)
    ensures Inv(Stop(s))
  {
  }

  lemma {:induction false} RunInv(s: State, events: seq<Event>)
    requires Inv(s)
    ensures Inv(Run(s, events))
    decreases |events|
  {
    if events != [] {
      StepInv(s, events[0]);
      RunInv(Step(s, events[0]), events[1..]);
    }
  }

  /**
   * Every state reachable from mount keeps the invariant; in particular an `error` status
   * always comes with a non-empty message, and a `done` status with a transcript.
   */
  lemma Reachable(events: seq<Event>)
    ensures Inv(Run(Init, events))
    ensures Run(Init, events).status == Error ==>
              Run(Init, events).error.Some? && Run(Init, events).error.value != ""
    ensures Run(Init, events).status == Done ==> Run(Init, events).transcript.Some?
  {
    RunInv(Init, events);
  }

  /** `status` only changes along an edge of the handlers' graph. */
  lemma StepFollowsEdge(s: State, e: Event)
    requires Inv(s)
    ensures Step(s, e).status == s.status || Edge(s.status, Step(s, e).status)
    ensures Step(s, e).status != s.status ==>
              (e.ButtonClicked? && s.status != Recording &&
                 (Step(s, e).status == Recording || Step(s, e).status == Error)) ||
              (e.RecorderStopped? && s.status == Recording && Step(s, e).status == Uploading) ||
              (e.ServerReplied? && s.status == Uploading &&
                 (Step(s, e).status == Done || Step(s, e).status == Error))
  {
  }

  /** `status` becomes `recording` only once the recorder has started. */
  lemma RecordingOnlyAfterStart(s: State, e: Event)
    requires Inv(s) && s.status != Recording
    ensures Step(s, e).status == Recording <==> e.ButtonClicked? && e.outcome.Started?
    ensures Step(s, e).status == Recording ==> Step(s, e).recorder == Some(Active)
  {
  }

  /**
   * `startRecording` clears the transcript, the error and the preview whatever happens next.
   * It ends in `recording`, with no error, exactly when the recorder started; otherwise in
   * `error` with the thrown message or the permission fallback.
   */
  lemma StartOutcomes(s: State, o: StartOutcome)
    ensures Start(s, o).transcript.None? && Start(s, o).audioURL.None?
    ensures Start(s, o).status == Recording <==> o.Started?
    ensures o.Started? ==> Start(s, o).error.None? && Start(s, o).recorder == Some(Active)
    ensures !o.Started? ==>
              Start(s, o).status == Error && Start(s, o).error == Some(MessageOr(o.fault, PermissionFallback))
    ensures Start(s, o).posted == s.posted
  {
  }

  /**
   * The refs `startRecording` touches depend on how far it got: the stream is held once
   * `getUserMedia` granted it, and the chunk buffer is emptied and the recorder replaced only
   * once `new MediaRecorder` succeeded. A failed acquisition leaves all three as they were.
   */
  lemma StartRefs(s: State, o: StartOutcome)
    ensures o.AcquireFailed? ==>
              Start(s, o).stream == s.stream && Start(s, o).recorder == s.recorder && Start(s, o).chunks == s.chunks
    ensures !o.AcquireFailed? ==> Start(s, o).stream == Some(o.stream)
    ensures o.ConstructFailed? ==> Start(s, o).recorder == s.recorder && Start(s, o).chunks == s.chunks
    ensures o.StartFailed? || o.Started? ==> Start(s, o).chunks == []
    ensures o.StartFailed? ==> Start(s, o).recorder == Some(Inactive)
  {
  }

  /** A delivered chunk is buffered exactly when it is present and not empty; nothing else changes. */
  lemma AppendOnlyAccepted(s: State, payload: Option<Chunk>)
    ensures Append(s, payload).chunks == s.chunks + (if Accepts(payload) then [payload.value] else [])
    ensures Append(s, payload).(chunks := s.chunks) == s
    ensures Concat(Append(s, payload).chunks) ==
              Concat(s.chunks) + (if Accepts(payload) then payload.value else [])
  {
    if Accepts(payload) {
      ConcatAppend(s.chunks, payload.value);
    } else {
      assert s.chunks + [] == s.chunks;
    }
  }

  /**
   * `stopRecording` never touches the session fields, the buffer or the requests. It asks an
   * active recorder to stop; failing that it stops the held stream's tracks; failing that it
   * does nothing.
   */
  lemma StopKeepsSession(s: State)
    ensures Stop(s).(recorder := s.recorder, stream := s.stream) == s
    ensures s.recorder == Some(Active) ==> Stop(s) == s.(recorder := Some(Closing))
    ensures s.recorder != Some(Active) && s.stream.Some? ==>
              Stop(s) == s.(stream := Some(Released(s.stream.value)))
    ensures s.recorder != Some(Active) && s.stream.None? ==> Stop(s) == s
  {
  }

  /** Stopping once more after the tracks were stopped changes nothing. */
  lemma StopIdempotentOnceReleased(s: State)
    requires s.recorder != Some(Active)
    ensures Stop(Stop(s)) == Stop(s)
  {
    if s.stream.Some? {
      ReleasedIdempotent(s.stream.value);
    }
  }

  /**
   * The recorder's `stop` event: the tracks are stopped, the preview is the buffered chunks
   * concatenated in order and tagged `audio/webm`, the status is `uploading`, and exactly one
   * POST to the transcription endpoint is issued, carrying that artifact as the single part
   * `file` named `recording.webm`.
   */
  lemma FinishEffects(s: State, token: nat)
    requires CanFinish(s)
    ensures var f := Finish(s, token);
      && f.stream == Some(Released(s.stream.value))
      && f.recorder == Some(Inactive)
      && f.audioURL == Some(ObjectUrl(token, Blob(Concat(s.chunks), MimeType)))
      && f.status == Uploading
      && |f.posted| == |s.posted| + 1 && f.posted[..|s.posted|] == s.posted
      && Last(f.posted).path == Endpoint
      && Last(f.posted).parts == [FilePart(FileField, f.audioURL.value.target, FileName)]
      && f.transcript == s.transcript && f.error == s.error && f.chunks == s.chunks
  {
  }

  /**
   * The settled upload: a transcript ends in `done`; a rejected response or a thrown value ends
   * in `error`, with the response's message verbatim or, for a thrown value, its message or
   * `"Upload failed."`.
   */
  lemma RespondOutcomes(s: State, r: Reply)
    ensures Respond(s, r).status == Done || Respond(s, r).status == Error
    ensures Respond(s, r).status == Error ==> Respond(s, r).error.Some? && Respond(s, r).error.value != ""
    ensures r.Failed? ==> Respond(s, r) == s.(error := Some(MessageOr(r.fault, UploadFallback)), status := Error)
    ensures r.Answered? && Classify(r.ok, r.code, r.text, r.error).Transcribed? ==>
              Respond(s, r) == s.(transcript := Some(Classify(r.ok, r.code, r.text, r.error).text), status := Done)
    ensures r.Answered? && Classify(r.ok, r.code, r.text, r.error).Rejected? ==>
              Respond(s, r) == s.(error := Some(Classify(r.ok, r.code, r.text, r.error).message), status := Error)
  {
  }

  /** Requests are issued only by the recorder's `stop` event, one per event. */
  lemma OnlyFinishPosts(s: State, e: Event)
    ensures Step(s, e).posted == s.posted ||
              (e.RecorderStopped? && CanFinish(s) && Step(s, e).posted == s.posted + [Upload(Artifact(s.chunks))])
  {
  }

  /** The chunk buffer changes only by a delivered chunk while recording, or by a new start. */
  lemma BufferChanges(s: State, e: Event)
    requires Inv(s)
    ensures Step(s, e).chunks != s.chunks ==>
              (e.ChunkDelivered? && s.status == Recording) ||
              (e.ButtonClicked? && s.status != Recording && Step(s, e).chunks == [])
  {
  }

  /** The button does not guard against a restart while an upload is in flight. */
  lemma RestartWhileUploading(s: State, st: Stream)
    requires Inv(s) && s.status == Uploading
    ensures Step(s, ButtonClicked(Started(st))).status == Recording
    ensures Step(s, ButtonClicked(Started(st))).chunks == []
  {
  }

  /**
   * The "safety" branch of `stopRecording` (it stops the held stream when the recorder is not
   * active) is taken from the button only after a first click already stopped the recorder:
   * the button calls `stopRecording` only in `recording`, and then a recorder is delivering.
   */
  lemma SafetyBranchOnlyWhileClosing(s: State, o: StartOutcome)
    requires Inv(s) && s.status == Recording
    ensures Step(s, ButtonClicked(o)) == Stop(s)
    ensures s.recorder != Some(Active) <==> s.recorder == Some(Closing)
  {
  }

  /**
   * When `new MediaRecorder` throws, the granted stream stays held with its tracks as they were,
   * and the status is `error`, in which the button calls `startRecording` rather than
   * `stopRecording`: the button never stops those tracks.
   */
  lemma ConstructFailureKeepsStream(s: State, st: Stream, f: Fault, o: StartOutcome)
    requires Inv(s) && s.status != Recording
    ensures var t := Start(s, ConstructFailed(st, f));
      t.status == Error && t.stream == Some(st) && Step(t, ButtonClicked(o)) == Start(t, o)
  {
  }

  lemma {:induction false} RunConcat(s: State, a: seq<Event>, b: seq<Event>)
    ensures Run(s, a + b) == Run(Run(s, a), b)
    decreases |a|
  {
    if a != [] {
      assert (a + b)[0] == a[0];
      assert (a + b)[1..] == a[1..] + b;
      RunConcat(Step(s, a[0]), a[1..], b);
    } else {
      assert a + b == b;
    }
  }

  /** The payloads of the chunk events, in order, that `ondataavailable` keeps. */
  function Accepted(events: seq<Event>): seq<Chunk>
    decreases |events|
  {
    if events == [] then []
    else
      var e := events[0];
      (if e.ChunkDelivered? && Accepts(e.payload) then [e.payload.value] else []) + Accepted(events[1..])
  }

  predicate NoRecorderStop(events: seq<Event>) {
    forall i :: 0 <= i < |events| ==> !events[i].RecorderStopped?
  }

  predicate HasClick(events: seq<Event>) {
    exists i :: 0 <= i < |events| && events[i].ButtonClicked?
  }

  /**
   * While recording and before the recorder's `stop` event, the buffer grows by exactly the
   * accepted payloads in arrival order; a click only asks the recorder to stop; replies are
   * ignored; and no request is issued.
   */
  lemma {:induction false} CaptureWhileRecording(t: State, events: seq<Event>)
    requires Inv(t) && t.status == Recording && NoRecorderStop(events)
    ensures var f := Run(t, events);
      && Inv(f) && f.status == Recording
      && f.chunks == t.chunks + Accepted(events)
      && f.posted == t.posted
      && (f.recorder == Some(Closing) <==> t.recorder == Some(Closing) || HasClick(events))
    decreases |events|
  {
    if events == [] {
      assert t.chunks + [] == t.chunks;
    } else {
      var e := events[0];
      var u := Step(t, e);
      StepInv(t, e);
      assert NoRecorderStop(events[1..]) by {
        forall i | 0 <= i < |events[1..]| ensures !events[1..][i].RecorderStopped? {
          assert events[1..][i] == events[i + 1];
        }
      }
      CaptureWhileRecording(u, events[1..]);
      var head := if e.ChunkDelivered? && Accepts(e.payload) then [e.payload.value] else [];
      assert u.chunks == t.chunks + head;
      assert Accepted(events) == head + Accepted(events[1..]);
      assert t.chunks + head + Accepted(events[1..]) == t.chunks + (head + Accepted(events[1..]));
      if HasClick(events[1..]) {
        var i :| 0 <= i < |events[1..]| && events[1..][i].ButtonClicked?;
        assert events[i + 1].ButtonClicked?;
      }
      if HasClick(events) && !e.ButtonClicked? {
        var i :| 0 <= i < |events| && events[i].ButtonClicked?;
        assert events[1..][i - 1] == events[i];
      }
      if e.ButtonClicked? {
        assert HasClick(events);
      }
    }
  }

  /**
   * One whole session: started from any rest state, fed any events before the recorder's
   * `stop` event, with at least one click among them. The `stop` event then issues exactly one
   * request, and its artifact, the preview, is the concatenation of the chunks accepted in this
   * session, in arrival order, tagged `audio/webm`: nothing buffered before the start survives.
   */
  lemma SessionArtifact(s: State, st: Stream, middle: seq<Event>, token: nat)
    requires Inv(s) && s.status != Recording
    requires NoRecorderStop(middle) && HasClick(middle)
    ensures var f := Run(s, [ButtonClicked(Started(st))] + middle + [RecorderStopped(token)]);
      && f.status == Uploading
      && f.audioURL == Some(ObjectUrl(token, Blob(Concat(Accepted(middle)), MimeType)))
      && |f.posted| == |s.posted| + 1
      && Last(f.posted) == Upload(Blob(Concat(Accepted(middle)), MimeType))
  {
    var t := Step(s, ButtonClicked(Started(st)));
    StepInv(s, ButtonClicked(Started(st)));
    assert t.chunks == [];
    CaptureWhileRecording(t, middle);
    var u := Run(t, middle);
    assert [] + Accepted(middle) == Accepted(middle);
    RunConcat(s, [ButtonClicked(Started(st))] + middle, [RecorderStopped(token)]);
    RunConcat(s, [ButtonClicked(Started(st))], middle);
    assert Run(s, [ButtonClicked(Started(st))]) == t;
    assert Run(u, [RecorderStopped(token)]) == Step(u, RecorderStopped(token));
  }
}
