/**
 * The module globals of app.py as an object updated in place: the
 * streaming loop `generate_frames` (one `Step` per successful camera read,
 * until the first failed read) and the two toggle handlers. Each method is
 * specified by the pure state machine in `Policy`.
 */
module App {
  import opened Common
  import opened Overlay
  import Naming
  import Framing
  import opened Policy
  import PolicyProofs

  /**
   * The frames a stream delivers: every successful read up to, and not
   * including, the first failed one.
   */
  function Delivered(captures: seq<Option<FrameInput>>): (fs: seq<FrameInput>)
    ensures |fs| <= |captures|
    ensures forall i :: 0 <= i < |fs| ==> captures[i] == Some(fs[i])
    ensures |fs| < |captures| ==> captures[|fs|].None?
  {
    if captures == [] || captures[0].None? then [] else [captures[0].value] + Delivered(captures[1..])
  }

  /** The chunks of a sequence of annotated frames, one per frame, in order. */
  function Encoded(images: seq<Image>, encode: Image -> seq<byte>): (cs: seq<seq<byte>>)
    ensures |cs| == |images|
    ensures forall k :: 0 <= k < |images| ==> cs[k] == Framing.Chunk(encode(images[k]))
  {
    seq(|images|, k requires 0 <= k < |images| => Framing.Chunk(encode(images[k])))
  }

  lemma EncodedSnoc(images: seq<Image>, image: Image, encode: Image -> seq<byte>)
    ensures Encoded(images + [image], encode) == Encoded(images, encode) + [Framing.Chunk(encode(image))]
  {
  }

  class AppState {
    var motionDetectionEnabled: bool
    var recordingEnabled: bool
    var motionDetected: bool
    var soundPlayed: bool
    /** The open video writer, known by its file name; `None` when no writer is open. */
    var out: Option<string>
    /** Every command issued to the audio mixer and the video writer so far. */
    var log: seq<Event>

    /** The globals as a value of the state machine. */
    function Snapshot(): (s: State)
      reads this
      ensures s.writer == out && s.soundPlayed == soundPlayed
    {
      State(motionDetectionEnabled, recordingEnabled, motionDetected, soundPlayed, out)
    }

    /** The values at start-up (app.py lines 17-23). */
    constructor ()
      ensures Snapshot() == Initial && log == []
    {
      motionDetectionEnabled := true;
      recordingEnabled := false;
      motionDetected := false;
      soundPlayed := false;
      out := None;
      log := [];
    }

    /**
     * The motion/alert part of the loop body (app.py lines 69-90): starts
     * or stops the sound on an edge and captions `image` while motion is
     * seen with detection on.
     */
    method Alert(d: Landmarks, image: Image) returns (shown: Image)
      modifies this
      ensures var mo := MotionStep(old(Snapshot()), d);
        Snapshot() == mo.state && log == old(log) + mo.events
        && shown == image.(caption := image.caption || mo.caption)
    {
      shown := image;
      if motionDetectionEnabled {
        motionDetected := MotionPresent(d);
        if motionDetected {
          if !soundPlayed {
            log := log + [Play];
            soundPlayed := true;
          }
          shown := shown.(caption := true);
        } else {
          if soundPlayed {
            log := log + [Stop];
            soundPlayed := false;
          }
        }
      } else {
        if soundPlayed {
          log := log + [Stop];
          soundPlayed := false;
        }
      }
    }

    /**
     * The recording part of the loop body (app.py lines 95-104): opens a
     * writer lazily, writes the frame, or releases the writer once
     * recording is off.
     */
    method Record(seconds: nat, image: Image)
      modifies this
      ensures var ro := RecordStep(old(Snapshot()), seconds, image);
        Snapshot() == ro.state && log == old(log) + ro.events
    {
      if recordingEnabled {
        if out.None? {
          var name := Naming.RecordingName(seconds);
          log := log + [Open(name)];
          out := Some(name);
        }
        log := log + [Write(image)];
      } else {
        if out.Some? {
          log := log + [Release];
          out := None;
        }
      }
    }

    /**
     * One iteration of the loop body after a successful read (app.py lines
     * 66-109): motion policy and caption, landmark overlays, recording, and
     * the multipart chunk of the encoded image. `encode` stands for the
     * JPEG encoder.
     */
    method Step(f: FrameInput, encode: Image -> seq<byte>) returns (image: Image, chunk: seq<byte>)
      modifies this
      ensures var r := FrameStep(old(Snapshot()), f);
        Snapshot() == r.state && log == old(log) + r.events && image == r.image
      ensures chunk == Framing.Chunk(encode(image))
    {
      ghost var s0 := Snapshot();
      ghost var log0 := log;
      image := Alert(f.detection, Image(f.pixels, false, Landmarks(false, false, false, false)));
      ghost var mo := MotionStep(s0, f.detection);
      image := image.(landmarks := f.detection);
      Record(f.seconds, image);
      ghost var ro := RecordStep(mo.state, f.seconds, image);
      assert log == log0 + (mo.events + ro.events);
      chunk := Framing.Chunk(encode(image));
    }

    /** The `/toggle_motion_detection` handler; the result is the value it reports. */
    method ToggleMotionDetection() returns (enabled: bool)
      modifies this
      ensures var r := ToggleMotion(old(Snapshot()));
        Snapshot() == r.state && log == old(log) + r.events && enabled == r.enabled
    {
      motionDetectionEnabled := !motionDetectionEnabled;
      if !motionDetectionEnabled {
        if soundPlayed {
          log := log + [Stop];
          soundPlayed := false;
        }
      }
      enabled := motionDetectionEnabled;
    }

    /** The `/toggle_recording` handler; the result is the value it reports. */
    method ToggleRecording() returns (enabled: bool)
      modifies this
      ensures var r := Policy.ToggleRecording(old(Snapshot()));
        Snapshot() == r.state && log == old(log) && enabled == r.enabled
    {
      recordingEnabled := !recordingEnabled;
      enabled := recordingEnabled;
    }

    /**
     * The streaming loop (app.py lines 61-109): reads frames until the
     * first failed read and yields one chunk per frame read, in order.
     * `captures` stands for the successive results of `camera.read()`.
     */
    method Generate(captures: seq<Option<FrameInput>>, encode: Image -> seq<byte>) returns (chunks: seq<seq<byte>>)
      modifies this
      ensures var run := Exec(old(Snapshot()), Frames(Delivered(captures)));
        Snapshot() == run.state && log == old(log) + run.events
        && |run.images| == |Delivered(captures)| && chunks == Encoded(run.images, encode)
    {
      ghost var start := Snapshot();
      ghost var done: seq<FrameInput> := [];
      ghost var run := Trace(start, [], []);
      chunks := [];
      var i := 0;
      assert captures[i..] == captures;
      while i < |captures| && captures[i].Some?
        invariant 0 <= i <= |captures|
        invariant Delivered(captures) == done + Delivered(captures[i..])
        invariant |done| == i == |run.images|
        invariant run == Exec(start, Frames(done))
        invariant Snapshot() == run.state && log == old(log) + run.events
        invariant chunks == Encoded(run.images, encode)
        decreases |captures| - i
      {
        var f := captures[i].value;
        assert Delivered(captures) == (done + [f]) + Delivered(captures[i + 1..]) by {
          assert captures[i..][1..] == captures[i + 1..];
        }
        ghost var r := FrameStep(run.state, f);
        PolicyProofs.ExecFrameSnoc(start, done, f);
        ghost var logBefore := log;
        var image, chunk := Step(f, encode);
        PolicyProofs.AppendAssociates(old(log), run.events, r.events);
        EncodedSnoc(run.images, r.image, encode);
        chunks := chunks + [chunk];
        done := done + [f];
        run := Trace(r.state, run.events + r.events, run.images + [r.image]);
        i := i + 1;
      }
      assert done + Delivered(captures[i..]) == done;
    }
  }
}
