# Motion detection web app: a verified model of its streaming core

`app.py` is a small Flask program. It reads frames from a camera, mirrors
them and runs a landmark detector (face, pose, left hand, right hand) on
each frame. Then, for every frame:

- if motion detection is on and a face or a hand is in view, it starts a
  looping alert sound and paints a "Motion Detected!" caption;
- it draws the detected landmarks;
- if recording is on, it writes the frame to an `.avi` file, opening that
  file lazily;
- it pushes the frame as JPEG inside an MJPEG `multipart/x-mixed-replace`
  stream.

Two POST handlers flip the detection and recording switches.

This project models that core in Dafny:

- `common.dfy`: a `byte` type and `Option`.
- `overlay.dfy` (module `Overlay`):
  - the detector's result, reduced to which landmark collections are present;
  - the face-or-hand motion test;
  - which overlays `draw_landmarks` and the caption paint, in painting order.
- `naming.dfy` (module `Naming`): the recording file name
  `Recording/recording_<seconds>.avi`, the decimal rendering of the clock,
  and a parser that recovers the clock from a name.
- `framing.dfy` (module `Framing`): the bytes around each JPEG in the
  multipart stream, and an unframing function.
- `policy.dfy` (module `Policy`):
  - the per-frame step and the two toggle handlers, as a pure state machine
    over the module globals (`motion_detection_enabled`, `recording_enabled`,
    `motion_detected`, `sound_played`, `out`);
  - every call on the sound mixer and on the video writer, kept as a log of
    `Play`, `Stop`, `Open(name)`, `Write(image)` and `Release` events;
  - `Exec`, any interleaving of frames and toggle requests.
- `policy_proofs.dfy` (module `PolicyProofs`): properties of whole runs:
  - Play and Stop alternate;
  - the writer calls follow the open / write / release lifecycle;
  - the alert follows the rising and falling edges of the motion signal;
  - one file is opened per stretch of recorded frames, and every recorded
    frame is written to it;
  - two concrete scenarios.
- `app.dfy` (module `App`): the globals as a class `AppState`, whose
  methods update its fields in place:
  - `Step`, one iteration of the loop body;
  - the two toggle handlers;
  - `Generate`, the streaming loop, which runs until the first failed camera
    read.

  Each method is proved against the `Policy` state machine.

The detector, the clock and the JPEG encoder are parameters:

- each frame arrives as a `FrameInput` that holds the mirrored pixels, the
  presence of each landmark collection, and `int(time.time())`;
- `Generate` takes the successive camera reads, a failed read being `None`;
- the encoder is a function `encode: Image -> seq<byte>`.

An annotated `Image` records what is painted on the pixels: the caption
flag and the landmark collections. `Painted` lists its overlays in painting
order.

## Model

| member | source | states |
|---|---|---|
| Overlay.LandmarkLayers | app.py:31-55 | a layer is drawn iff its landmark collection was detected; layers come in the fixed order face, pose, left hand, right hand, each at most once |
| Overlay.StrictlyRankedPairwise | app.py:31-55 | any two drawn layers are in painting order, so no layer is painted twice |
| Overlay.Annotation | app.py:81-82 | the caption is painted iff requested and is painted first; every other layer is painted iff detected; the landmark layers follow the caption in `draw_landmarks` order |
| Overlay.MotionIffFaceOrHandDrawn | app.py:70-74 | the motion test `MotionPresent` holds iff some drawn landmark layer other than the pose skeleton is present |
| Overlay.MotionIgnoresPose | app.py:70-74 | whether a pose was detected never changes the motion test `MotionPresent` |
| Naming.Decimal | app.py:98 | the rendering of a non-negative `int` is a non-empty digit string with no leading zero; a leading `0` occurs only for 0, which is rendered `0` |
| Naming.ParseDecimalOfDecimal | app.py:98 | reading the decimal rendering back gives the number |
| Naming.RecordingName | app.py:98 | the name is `Recording/recording_`, then exactly the decimal rendering of the second (`Decimal`, as `str` writes it), then `.avi` |
| Naming.TimestampOfRecordingName | app.py:98 | the second a recording started can be recovered from its file name |
| Naming.RecordingNameCollision | app.py:98 | two recordings get the same file name iff they start in the same whole second |
| Framing.FramingIsAsciiText | app.py:108-109 | the bytes before and after each JPEG are the ASCII encoding of `--frame\r\nContent-Type: image/jpeg\r\n\r\n` and `\r\n` |
| Framing.Chunk | app.py:106-109 | a chunk is the boundary and header, then the unchanged JPEG bytes, then CRLF |
| Framing.UnframeChunk | app.py:106-109 | unframing a chunk returns its payload |
| Framing.UnframeOnlyChunks | app.py:106-109 | whatever unframes is exactly the chunk of its payload |
| Framing.ChunkInjective | app.py:106-109 | different payloads give different chunks |
| Policy.MotionStepCases | app.py:69-90 | the alert part of a frame changes only `motion_detected` and `sound_played`; with detection on both become the face-or-hand test, with it off the sound is off and `motion_detected` is kept; the caption is drawn iff detection is on and motion is seen; Play is issued exactly when the sound goes on, Stop exactly when it goes off, nothing otherwise |
| Policy.RecordStepCases | app.py:95-104 | the recording part of a frame changes only `out`, which is open afterwards iff recording is on; while recording an open writer is kept and a missing one is opened under `Recording/recording_<second>.avi`, then the frame is written; with recording off an open writer is released and nothing else is called |
| Policy.FrameStep | app.py:66-104 | a frame never touches the toggles; after it, a writer is open iff recording is on; it keeps the property that the sound plays only with detection on and motion seen |
| Policy.FrameStepAlert | app.py:69-90 | with detection on, `motion_detected` and `sound_played` both become the face-or-hand test of this frame; with it off, the sound is off and `motion_detected` keeps its value |
| Policy.FrameStepImage | app.py:69-93 | the pixels are unchanged; the caption is painted iff detection is on and the frame shows a face or hand; the other layers are exactly the detected ones, after the caption |
| Policy.FrameStepAudio | app.py:76-90 | the sound is started only if it was silent and is now on, and stopped only if it was playing and is now off |
| Policy.FrameStepWriter | app.py:95-104 | a file named after this frame's second is opened iff recording is on and no writer is open; the frame is written iff recording is on; the writer is released iff recording is off and one is open; an open writer is kept while recording |
| Policy.ToggleMotion | app.py:120-127 | flips detection and reports the new value; switching it off stops a playing sound; nothing else changes |
| Policy.ToggleRecording | app.py:130-133 | flips recording and reports the new value; the writer and everything else is left unchanged, and no call is made |
| Policy.Exec | app.py:61-109 | any interleaving of frame steps and toggle requests yields one annotated image per frame step and none per toggle |
| PolicyProofs.AudioAlternates | app.py:76-90 | over any interleaving of frames and toggles, every Play comes while silent and every Stop while playing, and the last one agrees with `sound_played` |
| PolicyProofs.WriterLifecycle | app.py:95-104 | over any interleaving, a file is opened only with no writer open, and frames are written and the writer released only with one open; the last call agrees with `out` |
| PolicyProofs.ExecConsistent | app.py:69-90 | from a state where the sound plays only with detection on and motion seen, every interleaving keeps that property |
| PolicyProofs.AlertFollowsMotionEdges | app.py:69-90 | with detection on, the sound calls of a run of frames are exactly the rising (Play) and falling (Stop) edges of the face-or-hand signal; the sound ends on iff the last frame had motion |
| PolicyProofs.AlertScenario | app.py:76-90 | motion on frames 2-4 of five gives exactly Play then Stop, with no restart on the repeated frames |
| PolicyProofs.PoseOnlyNeverAlerts | app.py:70-82 | a frame with only pose landmarks never starts the sound nor paints the caption, and leaves the sound off |
| PolicyProofs.StaleMotionAfterReenable | app.py:120-127 | switching detection off and on while alerting leaves `motion_detected` set but the sound off until the next frame |
| PolicyProofs.ToggleRecordingTwice | app.py:130-133 | two recording toggles restore the state |
| PolicyProofs.ReenableKeepsFile | app.py:95-104 | with recording on and a writer open, toggling recording off and on before the next frame leaves that writer open; the frame's only writer call is a write of its image into the same file |
| PolicyProofs.OpensMatchRecordingRuns | app.py:95-104 | over any interleaving, a file is opened once per stretch of frames that see recording on, and one frame is written per such frame; a writer is open at the end iff the last frame saw recording on |
| PolicyProofs.NoRecordingNoFiles | app.py:95-104 | with recording off and no writer open, a run of frames makes no writer call |
| PolicyProofs.RecordingFrameCalls | app.py:95-100 | with recording on, a frame opens a file named after its second if none is open, then writes its annotated image |
| PolicyProofs.RecordingThroughout | app.py:95-100 | with recording on from the start, a run of frames opens one file, named after the first frame's second, writes every annotated frame to it in order, and keeps it open |
| PolicyProofs.OneFilePerRecording | app.py:95-100 | in that run, the only open is the first frame's file, and the writes are the annotated frames in order |
| PolicyProofs.CaptionsFollowMotion | app.py:69-93 | with detection on, each frame of a run yields its own pixels, captioned iff that frame shows a face or hand, with its detected landmarks |
| PolicyProofs.RecordingScenario | app.py:69-104 | ten frames, with detection and recording on and motion on frames 3-6: one file opened, ten frames written to it, the caption on frames 3-6 only |
| App.Delivered | app.py:61-64 | the loop processes every successful read up to, and not including, the first failed one |
| App.AppState.constructor | app.py:17-23 | the globals start with detection on, recording off, no motion, no sound, no writer |
| App.AppState.Alert | app.py:69-90 | updates the motion and sound globals and logs the sound calls exactly as `MotionStep` (stated by `Policy.MotionStepCases`), and captions the image iff in the alerting branch |
| App.AppState.Record | app.py:95-104 | updates `out` and logs the writer calls exactly as `RecordStep` (stated by `Policy.RecordStepCases`) |
| App.AppState.Step | app.py:66-109 | one loop iteration leaves the globals, the call log and the image as `FrameStep` says, and yields the chunk of the encoded image |
| App.AppState.ToggleMotionDetection | app.py:120-127 | updates the globals and the log as `ToggleMotion` says, and reports the new switch value |
| App.AppState.ToggleRecording | app.py:130-133 | flips `recording_enabled` and reports it; makes no call and leaves `out` as it was |
| App.AppState.Generate | app.py:57-109 | the stream's end state and calls are those of `Exec` over the delivered frames; it yields one chunk per delivered frame, in order, each the chunk of that frame's encoded annotated image |

## Behaviour worth noting

- Between frames, `sound_played` implies that detection is on and
  `motion_detected` is set, but not the converse (`Policy.Consistent`,
  kept by `PolicyProofs.ExecConsistent`). Switching detection off and on
  while alerting leaves `motion_detected` true with the sound off until the
  next frame (`PolicyProofs.StaleMotionAfterReenable`).
- Right after each frame, `sound_played` equals "detection on and a face or
  hand present" (`Policy.FrameStepAlert`).
- `toggle_recording` does not touch `out`. The writer is released by the
  next frame that sees recording off. While no writer is open, the first
  frame that sees recording on opens one (`Policy.ToggleRecording`,
  `Policy.FrameStepWriter`).
- If recording is switched off and back on between two frames, no frame
  sees it off. The open writer is then neither released nor reopened, and
  the next frame goes on writing into the same file
  (`PolicyProofs.ReenableKeepsFile`).

## Left out

- Flask routing, `render_template`, the `Response` streaming object, and
  the JSON bodies of the two handlers: the handlers are modelled by the
  value they report, not by the JSON text.
- OpenCV: camera access, `cv2.flip`, colour conversion, `putText` (font,
  position, colour), `imencode`, and the internals of `VideoWriter` (XVID
  fourcc, 20.0 frames per second, frame size). The flip is folded into the
  pixels a `FrameInput` carries. JPEG encoding is a parameter. The writer is
  known by its file name, and each written frame is a `Write` event.
- MediaPipe Holistic and its 0.5 confidence thresholds: the detector's
  output is an input, reduced to the presence of each landmark collection
  (Python truthiness becomes a `bool`). The release of the `Holistic`
  context when the loop ends is not modelled.
- pygame: loading `sound.mp3` and the mixer itself. `play(loops=-1,
  start=0.0)` and `stop()` become the `Play` and `Stop` events.
- Landmark drawing styles (colours, thickness, radii): only which overlays
  are painted, and in what order, is modelled.
- `time.time()`: each frame carries its whole-second value, taken as
  non-negative (a `nat`). A clock before 1970, which Python's `str` would
  render with a `-`, is not modelled. The model does not say whether two
  recordings can start in the same second; it only proves that they would
  then share a file name.
- `os.makedirs` and the file system. `os.path.join` is modelled with the
  POSIX separator `/`.
- Concurrency: the streaming generator and the toggle handlers may run on
  different server threads. The model treats each frame step and each
  toggle request as atomic, and interleaves them in `Exec`; races inside a
  step are not modelled.
- Exceptions from foreign calls: `holistic.process` (app.py:27), the mixer
  calls (app.py:78, 85, 89), `cv2.VideoWriter` and `write` (app.py:99-100)
  and `cv2.imencode` (app.py:106) can raise. The exception leaves
  `generate_frames` and ends the stream partway through a frame, possibly
  after a Play, Open or Write was issued and before that frame's chunk is
  yielded. `Step` and `Generate` always complete: `Step` always yields its
  chunk, and `Generate` promises one chunk per delivered frame.
- Toggles during a stream: the generator pauses at each `yield`
  (app.py:108), and the handlers at app.py:120-133 can run between
  resumptions. `Generate` models only a stream during which no toggle
  arrives: its contract is `Exec` over frames only. Interleavings of frames
  and toggles are covered by the pure `Exec` and its lemmas, or by calling
  `Step` and the toggle methods in turn.
- The camera stream is infinite in the program. `Generate` takes a finite
  sequence of reads and stops at its end, or at the first failed read.
- `mediapipe_detection` (app.py:25-29) only converts colours around the
  detector call, so it is not modelled separately.
