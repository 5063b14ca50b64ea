/**
 The recording session of app.js: the module-level state that the button's click handler,
 the audio-processing callback (`checkForSilence`) and the recorder's `dataavailable` and
 `stop` listeners update in place. The recorder's own `stop()` and the `stop` listener it
 triggers are taken as one step, which hands back the assembled recording.
 */
module Session {
  import opened Wrappers
  import opened Silence

  newtype Byte = b: int | 0 <= b < 256

  /** One encoded piece of audio delivered by the recorder's `dataavailable` event. */
  type Chunk = seq<Byte>

  /** The values `mediaRecorder.state` takes in this script ('paused' is never reached). */
  datatype RecorderState = Inactive | Recording

  /** The two captions of the toggle button. */
  datatype ButtonLabel = StartRecording | StopRecording {
    function Text(): string
    {
      match this
      case StartRecording => "Start Recording"
      case StopRecording => "Stop Recording"
    }
  }

  /** The bytes of `new Blob(chunks)`: the chunks' bytes one after the other, in order. */
  function Assemble(chunks: seq<Chunk>): (blob: seq<Byte>)
  {
    if chunks == [] then [] else Assemble(chunks[..|chunks| - 1]) + chunks[|chunks| - 1]
  }

  /** Appending a chunk appends its bytes to the recording and leaves earlier bytes in place. */
  lemma {:induction false} AssembleAppend(chunks: seq<Chunk>, c: Chunk)
    ensures Assemble(chunks + [c]) == Assemble(chunks) + c
  {
    assert (chunks + [c])[..|chunks|] == chunks;
  }

  /** Prepending a chunk puts its bytes first: assembly is a concatenation from either end. */
  lemma {:induction false} AssemblePrepend(c: Chunk, chunks: seq<Chunk>)
    ensures Assemble([c] + chunks) == c + Assemble(chunks)
    decreases |chunks|
  {
    if chunks == [] {
      assert [c] + chunks == [] + [c];
    } else {
      var init, last := chunks[..|chunks| - 1], chunks[|chunks| - 1];
      var whole := [c] + chunks;
      assert whole[..|whole| - 1] == [c] + init;
      assert whole[|whole| - 1] == last;
      calc {
        Assemble(whole);
        Assemble([c] + init) + last;
        { AssemblePrepend(c, init); }
        (c + Assemble(init)) + last;
        c + (Assemble(init) + last);
        c + Assemble(chunks);
      }
    }
  }

  /** The length of the recording is the sum of the chunks' lengths. */
  function TotalLength(chunks: seq<Chunk>): nat
  {
    if chunks == [] then 0 else TotalLength(chunks[..|chunks| - 1]) + |chunks[|chunks| - 1]|
  }

  /** Assembly loses no byte and adds none. */
  lemma {:induction false} AssembleLength(chunks: seq<Chunk>)
    ensures |Assemble(chunks)| == TotalLength(chunks)
  {
    if chunks != [] {
      AssembleLength(chunks[..|chunks| - 1]);
    }
  }

  class Session {
    /** `mediaRecorder.state` */
    var state: RecorderState
    /** `startRecordingButton.textContent` */
    var button: ButtonLabel
    /** `silenceStart`; `None` while it is still `undefined` */
    var silenceStart: Option<int>
    /** `audioChunks` */
    var chunks: seq<Chunk>
    /** `resultDiv.textContent` */
    var result: string

    /** The button always offers the action opposite to the recorder's state, and a running
        recording always has a countdown start. */
    predicate Valid()
      reads this
    {
      && (button == StopRecording <==> state == Recording)
      && (state == Recording ==> silenceStart.Some?)
    }

    /** The state right after a successful `init()`: an inactive recorder and an empty buffer. */
    constructor ()
      ensures Valid()
      ensures state == Inactive && button == StartRecording
      ensures silenceStart == None && chunks == [] && result == ""
    {
      state := Inactive;
      button := StartRecording;
      silenceStart := None;
      chunks := [];
      result := "";
    }

    /** `mediaRecorder.stop()` followed by the `stop` listener: the recorder becomes inactive,
        the button offers to start again, and the buffered chunks are assembled and cleared. */
    method Stop() returns (blob: seq<Byte>)
      requires Valid() && state == Recording
      modifies this
      ensures Valid()
      ensures state == Inactive && button == StartRecording && chunks == []
      ensures blob == Assemble(old(chunks))
      ensures silenceStart == old(silenceStart) && result == old(result)
    {
      state := Inactive;
      button := StartRecording;
      blob := Assemble(chunks);
      chunks := [];
    }

    /** The click handler: clears the result, then stops a running recording or starts a new
        one and restarts the countdown at `now`. A stop hands back the assembled recording. */
    method Click(now: int) returns (recording: Option<seq<Byte>>)
      requires Valid()
      modifies this
      ensures Valid() && result == ""
      ensures old(state) == Recording ==>
        && state == Inactive && button == StartRecording
        && chunks == [] && recording == Some(Assemble(old(chunks)))
        && silenceStart == old(silenceStart)
      ensures old(state) == Inactive ==>
        && state == Recording && button == StopRecording
        && silenceStart == Some(now)
        && chunks == old(chunks) && recording == None
    {
      result := "";
      if state == Recording {
        var blob := Stop();
        recording := Some(blob);
      } else {
        state := Recording;
        silenceStart := Some(now);
        button := StopRecording;
        recording := None;
      }
    }

    /** `checkForSilence` on one audio frame at time `now`. A loud frame restarts the countdown
        and changes nothing else; a silent frame stops a running recording once more than
        3000 ms have passed since the countdown started, and otherwise changes nothing. */
    method OnAudioProcess(frame: seq<real>, now: int) returns (recording: Option<seq<Byte>>)
      requires Valid()
      modifies this
      ensures Valid() && result == old(result)
      ensures !IsSilent(frame) ==>
        && silenceStart == Some(now)
        && state == old(state) && button == old(button) && chunks == old(chunks)
        && recording == None
      ensures IsSilent(frame) ==> silenceStart == old(silenceStart)
      ensures IsSilent(frame) && old(state) == Recording && SilenceExceeded(old(silenceStart), now) ==>
        && state == Inactive && button == StartRecording && chunks == []
        && recording == Some(Assemble(old(chunks)))
      ensures IsSilent(frame) && !(old(state) == Recording && SilenceExceeded(old(silenceStart), now)) ==>
        && state == old(state) && button == old(button) && chunks == old(chunks)
        && recording == None
    {
      recording := None;
      var silent := IsBufferSilent(frame);
      if silent {
        if SilenceExceeded(silenceStart, now) {
          if state == Recording {
            var blob := Stop();
            recording := Some(blob);
          }
        }
      } else {
        silenceStart := Some(now);
      }
    }

    /** The `dataavailable` listener: the chunk goes at the end of the buffer. */
    method OnDataAvailable(chunk: Chunk)
      requires Valid()
      modifies this
      ensures Valid()
      ensures chunks == old(chunks) + [chunk]
      ensures Assemble(chunks) == Assemble(old(chunks)) + chunk
      ensures state == old(state) && button == old(button)
      ensures silenceStart == old(silenceStart) && result == old(result)
    {
      AssembleAppend(chunks, chunk);
      chunks := chunks + [chunk];
    }
  }

  /**
   A recording started at `t` with three chunks and then only silent frames: frames at
   t+1000 and t+3000 leave it running, the frame at t+3001 stops it, and the recording
   handed back is the three chunks' bytes in arrival order.
   */
  method SilenceEndsRecording(t: int, quiet: seq<real>, c1: Chunk, c2: Chunk, c3: Chunk)
    returns (at1000: bool, at3000: bool, at3001: bool, recording: Option<seq<Byte>>)
    requires IsSilent(quiet)
    ensures at1000 && at3000 && !at3001
    ensures recording == Some(c1 + c2 + c3)
  {
    var s := new Session();
    var none := s.Click(t);
    s.OnDataAvailable(c1);
    s.OnDataAvailable(c2);
    s.OnDataAvailable(c3);
    none := s.OnAudioProcess(quiet, t + 1000);
    at1000 := s.state == Recording;
    none := s.OnAudioProcess(quiet, t + 3000);
    at3000 := s.state == Recording;
    recording := s.OnAudioProcess(quiet, t + 3001);
    at3001 := s.state == Recording;
    assert [] + [c1] == [c1] && [c1] + [c2] == [c1, c2] && [c1, c2] + [c3] == [c1, c2, c3];
    AssembleAppend([], c1);
    AssembleAppend([c1], c2);
    AssembleAppend([c1, c2], c3);
    assert Assemble([c1]) == c1;
  }

  /**
   A loud frame restarts the countdown: after a start at `t` and a loud frame at t+2000,
   a silent frame at t+5000 leaves the recording running and one at t+5001 stops it.
   */
  method LoudFrameRestartsCountdown(t: int, quiet: seq<real>, loud: seq<real>)
    returns (at5000: bool, at5001: bool)
    requires IsSilent(quiet) && !IsSilent(loud)
    ensures at5000 && !at5001
  {
    var s := new Session();
    var none := s.Click(t);
    none := s.OnAudioProcess(loud, t + 2000);
    none := s.OnAudioProcess(quiet, t + 5000);
    at5000 := s.state == Recording;
    none := s.OnAudioProcess(quiet, t + 5001);
    at5001 := s.state == Recording;
  }

  /**
   Silence never stops anything while the recorder is inactive, however much time has passed:
   after a recording started at `t` has been stopped by a click, a silent frame at any `now`
   leaves the recorder inactive and the button unchanged, even once the countdown has run out.
   */
  method SilenceWhileIdle(t: int, t2: int, now: int, quiet: seq<real>)
    returns (expired: bool, state: RecorderState, button: ButtonLabel, recording: Option<seq<Byte>>)
    requires IsSilent(quiet)
    ensures expired <==> now > t + SilenceDuration
    ensures state == Inactive && button == StartRecording && recording == None
  {
    var s := new Session();
    recording := s.Click(t);
    recording := s.Click(t2);
    expired := SilenceExceeded(s.silenceStart, now);
    recording := s.OnAudioProcess(quiet, now);
    state, button := s.state, s.button;
  }

  /**
   Every running recording ends under continued silence: a silent frame arriving more than
   3000 ms after the countdown started stops it and hands back its chunks in order.
   */
  method SilenceStopsAnyRecording(s: Session, quiet: seq<real>) returns (recording: Option<seq<Byte>>)
    requires s.Valid() && s.state == Recording && IsSilent(quiet)
    modifies s
    ensures s.Valid() && s.state == Inactive && s.button == StartRecording && s.chunks == []
    ensures recording == Some(Assemble(old(s.chunks)))
  {
    recording := s.OnAudioProcess(quiet, s.silenceStart.value + SilenceDuration + 1);
  }

  /**
   The button toggles: two clicks on a fresh session start and stop a recording, the button
   reading "Stop Recording" in between and "Start Recording" after, and the result is cleared.
   */
  method ClickTwice(t1: int, t2: int)
    returns (between: string, after: string, result: string, recording: Option<seq<Byte>>)
    ensures between == "Stop Recording" && after == "Start Recording"
    ensures result == "" && recording == Some([])
  {
    var s := new Session();
    recording := s.Click(t1);
    between := s.button.Text();
    recording := s.Click(t2);
    after := s.button.Text();
    result := s.result;
  }
}
