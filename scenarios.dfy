/** Whole runs of the component from mount, on concrete inputs. */
module Scenarios {
  import opened Wrappers
  import opened Capture
  import opened Transcription
  import opened Session

  const Mic := Stream([Live])

  /**
   * Two chunks "ab" and "cd", a click to stop, the `stop` event, and a 200 reply with a text:
   * `done` with that text, and the preview holds "abcd".
   */
  lemma TranscribedRun()
    ensures var f := Run(Init, [ButtonClicked(Started(Mic)),
                                ChunkDelivered(Some([97, 98])), ChunkDelivered(Some([99, 100])),
                                ButtonClicked(Started(Mic)), RecorderStopped(1),
                                ServerReplied(Answered(true, 200, Some("hello world"), None))]);
      && f.status == Done && f.transcript == Some("hello world")
      && f.audioURL == Some(ObjectUrl(1, Blob([97, 98, 99, 100], MimeType)))
      && f.stream == Some(Stream([Ended]))
  {
    var s1 := Step(Init, ButtonClicked(Started(Mic)));
    var s2 := Step(s1, ChunkDelivered(Some([97, 98])));
    var s3 := Step(s2, ChunkDelivered(Some([99, 100])));
    var s4 := Step(s3, ButtonClicked(Started(Mic)));
    var s5 := Step(s4, RecorderStopped(1));
    var s6 := Step(s5, ServerReplied(Answered(true, 200, Some("hello world"), None)));
    assert s3.chunks == [[97, 98], [99, 100]];
    assert Concat([[97, 98], [99, 100]]) == [97, 98, 99, 100] by {
      assert Concat([[99, 100]]) == [99, 100] + Concat([]);
    }
    assert Released(Mic) == Stream([Ended]);
    var ev := [ButtonClicked(Started(Mic)),
               ChunkDelivered(Some([97, 98])), ChunkDelivered(Some([99, 100])),
               ButtonClicked(Started(Mic)), RecorderStopped(1),
               ServerReplied(Answered(true, 200, Some("hello world"), None))];
    assert Run(s5, ev[5..]) == s6;
    assert Run(s4, ev[4..]) == s6 by { assert ev[4..][1..] == ev[5..]; }
    assert Run(s3, ev[3..]) == s6 by { assert ev[3..][1..] == ev[4..]; }
    assert Run(s2, ev[2..]) == s6 by { assert ev[2..][1..] == ev[3..]; }
    assert Run(s1, ev[1..]) == s6 by { assert ev[1..][1..] == ev[2..]; }
  }

  /** Events of one recorded session, up to the `stop` event. */
  function Session1(): seq<Event> {
    [ButtonClicked(Started(Mic)), ChunkDelivered(Some([1])), ButtonClicked(Started(Mic)), RecorderStopped(7)]
  }

  /** A 500 reply: `error`, with a message naming the status code. */
  lemma ServerErrorRun()
    ensures var f := Run(Init, Session1() + [ServerReplied(Answered(false, 500, None, None))]);
      f.status == Error && f.error == Some("Server error: 500")
  {
    RunConcat(Init, Session1(), [ServerReplied(Answered(false, 500, None, None))]);
    assert Decimal.Show(500) == "500" by {
      assert Decimal.Show(5) == "5";
      assert Decimal.Show(50) == "50";
    }
    assert ServerError(500) == "Server error: 500";
  }

  /** A 200 reply carrying an `error` field: `error` with that field as the message. */
  lemma RemoteErrorRun()
    ensures var f := Run(Init, Session1() + [ServerReplied(Answered(true, 200, None, Some("unsupported codec")))]);
      f.status == Error && f.error == Some("unsupported codec")
  {
    RunConcat(Init, Session1(), [ServerReplied(Answered(true, 200, None, Some("unsupported codec")))]);
  }

  /** A 200 reply with an empty body: `done` with the placeholder transcript. */
  lemma PlaceholderRun()
    ensures var f := Run(Init, Session1() + [ServerReplied(Answered(true, 200, None, None))]);
      f.status == Done && f.transcript == Some(Placeholder)
  {
    RunConcat(Init, Session1(), [ServerReplied(Answered(true, 200, None, None))]);
  }

  /** A 200 reply whose `text` is empty keeps the empty text, and an empty `error` is no error. */
  lemma EmptyTextRun()
    ensures var f := Run(Init, Session1() + [ServerReplied(Answered(true, 200, Some(""), Some("")))]);
      f.status == Done && f.transcript == Some("")
  {
    RunConcat(Init, Session1(), [ServerReplied(Answered(true, 200, Some(""), Some("")))]);
  }

  /** Permission refused at the first click: `error`, and no stream is held. */
  lemma PermissionDeniedRun()
    ensures var f := Run(Init, [ButtonClicked(AcquireFailed(None))]);
      f.status == Error && f.error == Some(PermissionFallback) && f.stream.None? && f.recorder.None?
  {
  }

  /** `stopRecording` before any start changes nothing. */
  lemma StopWhenIdle()
    ensures Stop(Init) == Init
  {
  }
}
