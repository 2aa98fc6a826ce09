/**
 * The per-frame control logic of the streaming loop and the two toggle
 * handlers, as a pure state machine over the process-wide flags of app.py.
 * Audio and video-writer calls are recorded as events; the detector is
 * reduced to `Landmarks`, the clock to a whole-second `seconds` value.
 */
module Policy {
  import opened Common
  import opened Overlay
  import Naming

  /**
   * An annotated frame: the captured pixels, whether the "Motion Detected!"
   * caption is painted on them, and the landmark collections drawn over them.
   */
  datatype Image = Image(pixels: seq<byte>, caption: bool, landmarks: Landmarks)

  /** The overlays painted on an annotated frame, in painting order. */
  function Painted(image: Image): seq<Layer>
  {
    Annotation(image.caption, image.landmarks)
  }

  /** A side effect on the audio mixer or on the video writer. */
  datatype Event =
    | Play              // start the alert sound, looped, from its beginning
    | Stop              // stop the alert sound
    | Open(name: string) // create a video writer on a new file
    | Write(image: Image)
    | Release           // close the open video writer

  /**
   * The module globals of app.py: `motion_detection_enabled`,
   * `recording_enabled`, `motion_detected`, `sound_played` and `out`
   * (the open writer, known by its file name).
   */
  datatype State = State(
    detectionEnabled: bool,
    recordingEnabled: bool,
    motionDetected: bool,
    soundPlayed: bool,
    writer: Option<string>)

  /** The values the globals have when the program starts (app.py lines 17-23). */
  const Initial: State := State(true, false, false, false, None)

  /** The alert sound only plays while detection is on and motion was last seen. */
  predicate Consistent(s: State)
  {
    s.soundPlayed ==> s.detectionEnabled && s.motionDetected
  }

  /** One successful camera read: the mirrored pixels, what the detector found, the clock in whole seconds. */
  datatype FrameInput = FrameInput(pixels: seq<byte>, detection: Landmarks, seconds: nat)

  datatype MotionOutcome = MotionOutcome(state: State, events: seq<Event>, caption: bool)

  /** The motion/alert part of a frame (app.py lines 69-90). */
  function MotionStep(s: State, d: Landmarks): MotionOutcome
  {
    if s.detectionEnabled then
      if MotionPresent(d) then
        if !s.soundPlayed then MotionOutcome(s.(motionDetected := true, soundPlayed := true), [Play], true)
        else MotionOutcome(s.(motionDetected := true), [], true)
      else if s.soundPlayed then MotionOutcome(s.(motionDetected := false, soundPlayed := false), [Stop], false)
      else MotionOutcome(s.(motionDetected := false), [], false)
    else if s.soundPlayed then MotionOutcome(s.(soundPlayed := false), [Stop], false)
    else MotionOutcome(s, [], false)
  }

  /**
   * What the motion/alert part of a frame does: only the motion and sound
   * globals change, both follow the face/hand test while detection is on,
   * and a sound command is issued exactly when the sound changes.
   */
  lemma MotionStepCases(s: State, d: Landmarks)
    ensures var r := MotionStep(s, d);
      // only the motion and sound globals change
      && r.state == s.(motionDetected := r.state.motionDetected, soundPlayed := r.state.soundPlayed)
      // with detection on both follow the face/hand test; with it off the sound is off and motion is kept
      && (s.detectionEnabled ==> r.state.motionDetected == MotionPresent(d) && r.state.soundPlayed == MotionPresent(d))
      && (!s.detectionEnabled ==> !r.state.soundPlayed && r.state.motionDetected == s.motionDetected)
      // the caption belongs to the alerting branch
      && (r.caption <==> s.detectionEnabled && MotionPresent(d))
      // a sound command is issued exactly on a change of the sound's state
      && r.events ==
        if !s.soundPlayed && r.state.soundPlayed then [Play]
        else if s.soundPlayed && !r.state.soundPlayed then [Stop]
        else []
  {
  }

  datatype RecordOutcome = RecordOutcome(state: State, events: seq<Event>)

  /** The recording part of a frame (app.py lines 95-104). */
  function RecordStep(s: State, seconds: nat, image: Image): RecordOutcome
  {
    if s.recordingEnabled then
      if s.writer.None? then
        var name := Naming.RecordingName(seconds);
        RecordOutcome(s.(writer := Some(name)), [Open(name), Write(image)])
      else RecordOutcome(s, [Write(image)])
    else if s.writer.Some? then RecordOutcome(s.(writer := None), [Release])
    else RecordOutcome(s, [])
  }

  /**
   * What the recording part of a frame does: only the writer changes; while
   * recording, a missing writer is opened under this frame's second and the
   * frame is written; otherwise an open writer is released.
   */
  lemma RecordStepCases(s: State, seconds: nat, image: Image)
    ensures var r := RecordStep(s, seconds, image);
      // only the writer changes, and it is open afterwards exactly when recording is on
      && r.state == s.(writer := r.state.writer)
      && (r.state.writer.Some? <==> s.recordingEnabled)
      // while recording, an open writer is kept and a missing one is opened under this frame's second
      && (s.recordingEnabled ==>
            r.state.writer == (if s.writer.None? then Some(Naming.RecordingName(seconds)) else s.writer))
      // the writer calls: open if needed, then write, while recording; otherwise release an open writer
      && r.events ==
        if s.recordingEnabled then (if s.writer.None? then [Open(r.state.writer.value)] else []) + [Write(image)]
        else if s.writer.Some? then [Release]
        else []
  {
  }

  datatype StepResult = StepResult(state: State, events: seq<Event>, image: Image)

  /**
   * One iteration of the streaming loop after a successful read: motion
   * policy, caption, landmark overlays, recording (app.py lines 66-104).
   */
  function FrameStep(s: State, f: FrameInput): (r: StepResult)
    // the toggles are not touched by a frame
    ensures r.state.detectionEnabled == s.detectionEnabled
    ensures r.state.recordingEnabled == s.recordingEnabled
    // a writer is open after the frame exactly when recording is on
    ensures r.state.writer.Some? <==> s.recordingEnabled
    ensures Consistent(s) ==> Consistent(r.state)
  {
    var mo := MotionStep(s, f.detection);
    var image := Image(f.pixels, mo.caption, f.detection);
    var ro := RecordStep(mo.state, f.seconds, image);
    StepResult(ro.state, mo.events + ro.events, image)
  }

  /** With detection on, the alert follows the face/hand test on this frame; with it off, the alert is off and motion is not recomputed. */
  lemma FrameStepAlert(s: State, f: FrameInput)
    ensures var r := FrameStep(s, f);
      if s.detectionEnabled then
        r.state.motionDetected == MotionPresent(f.detection) && r.state.soundPlayed == MotionPresent(f.detection)
      else !r.state.soundPlayed && r.state.motionDetected == s.motionDetected
  {
  }

  /**
   * The caption is painted exactly in the alerting branch, over the
   * unchanged pixels, followed by one overlay per detected collection.
   */
  lemma FrameStepImage(s: State, f: FrameInput)
    ensures var r := FrameStep(s, f);
      && r.image.pixels == f.pixels
      && ((Caption in Painted(r.image)) <==> s.detectionEnabled && MotionPresent(f.detection))
      && (forall l :: l != Caption ==> (l in Painted(r.image) <==> Detected(f.detection, l)))
      && Painted(r.image)[|Painted(r.image)| - |LandmarkLayers(f.detection)|..] == LandmarkLayers(f.detection)
  {
  }

  /** The sound is started only when it was not playing, and stopped only when it was. */
  lemma FrameStepAudio(s: State, f: FrameInput)
    ensures var r := FrameStep(s, f);
      && (Play in r.events <==> !s.soundPlayed && r.state.soundPlayed)
      && (Stop in r.events <==> s.soundPlayed && !r.state.soundPlayed)
  {
  }

  /** A file is opened on the first recorded frame, every recorded frame is written, the writer is released when recording stops. */
  lemma FrameStepWriter(s: State, f: FrameInput)
    ensures var r := FrameStep(s, f);
      && (s.recordingEnabled && s.writer.Some? ==> r.state.writer == s.writer)
      && (Open(Naming.RecordingName(f.seconds)) in r.events <==> s.recordingEnabled && s.writer.None?)
      && (Write(r.image) in r.events <==> s.recordingEnabled)
      && (Release in r.events <==> !s.recordingEnabled && s.writer.Some?)
  {
  }

  datatype ToggleResult = ToggleResult(state: State, events: seq<Event>, enabled: bool)

  /** The `/toggle_motion_detection` handler (app.py lines 120-127). */
  function ToggleMotion(s: State): (r: ToggleResult)
    ensures r.enabled == r.state.detectionEnabled == !s.detectionEnabled
    ensures !r.enabled ==> !r.state.soundPlayed
    ensures r.events == (if !r.enabled && s.soundPlayed then [Stop] else [])
    ensures r.enabled ==> r.state.soundPlayed == s.soundPlayed
    ensures r.state.recordingEnabled == s.recordingEnabled
    ensures r.state.motionDetected == s.motionDetected
    ensures r.state.writer == s.writer
    ensures Consistent(s) ==> Consistent(r.state)
  {
    var enabled := !s.detectionEnabled;
    if !enabled && s.soundPlayed then ToggleResult(s.(detectionEnabled := enabled, soundPlayed := false), [Stop], enabled)
    else ToggleResult(s.(detectionEnabled := enabled), [], enabled)
  }

  /** The `/toggle_recording` handler (app.py lines 130-133); it leaves the writer alone. */
  function ToggleRecording(s: State): (r: ToggleResult)
    ensures r.enabled == r.state.recordingEnabled == !s.recordingEnabled
    ensures r.state == s.(recordingEnabled := r.enabled)
    ensures r.state.writer == s.writer
    ensures r.events == []
  {
    var enabled := !s.recordingEnabled;
    ToggleResult(s.(recordingEnabled := enabled), [], enabled)
  }

  /** An operation on the shared state: a processed frame or a toggle request. */
  datatype Op = Frame(input: FrameInput) | ToggleDetection | ToggleRecord

  datatype Trace = Trace(state: State, events: seq<Event>, images: seq<Image>)

  /** The effect of one operation. */
  function Apply(s: State, op: Op): Trace
  {
    match op
    case Frame(f) => var r := FrameStep(s, f); Trace(r.state, r.events, [r.image])
    case ToggleDetection => var r := ToggleMotion(s); Trace(r.state, r.events, [])
    case ToggleRecord => Trace(ToggleRecording(s).state, [], [])
  }

  /**
   * Frame steps and toggle requests interleaved as atomic operations, from
   * `s`: the final state, every event in order, and each frame's annotated image.
   */
  function Exec(s: State, ops: seq<Op>): (t: Trace)
    ensures |t.images| == FrameCount(ops)
  {
    if ops == [] then Trace(s, [], [])
    else
      var t := Exec(s, ops[..|ops| - 1]);
      var u := Apply(t.state, ops[|ops| - 1]);
      Trace(u.state, t.events + u.events, t.images + u.images)
  }

  /** How many of `ops` are frames. */
  function FrameCount(ops: seq<Op>): nat
  {
    if ops == [] then 0 else FrameCount(ops[..|ops| - 1]) + (if ops[|ops| - 1].Frame? then 1 else 0)
  }

  /** A run of frames with no toggle in between. */
  function Frames(fs: seq<FrameInput>): (ops: seq<Op>)
    ensures |ops| == |fs|
    ensures forall i :: 0 <= i < |fs| ==> ops[i] == Frame(fs[i])
  {
    seq(|fs|, i requires 0 <= i < |fs| => Frame(fs[i]))
  }
}
