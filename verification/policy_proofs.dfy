/**
 * Properties of runs of the frame loop and the toggle handlers: the alert
 * sound and the video writer are driven by edges, never restarted, and
 * every event is legal in the state it is issued in.
 */
module PolicyProofs {
  import opened Common
  import opened Overlay
  import Naming
  import opened Policy

  // ---------------------------------------------------------------------
  // Selecting events from a log

  predicate IsAudio(e: Event)
  {
    e.Play? || e.Stop?
  }

  predicate IsWriter(e: Event)
  {
    e.Open? || e.Write? || e.Release?
  }

  /** A selection of events out of a log. */
  datatype Kind = Audio | WriterCalls | Opens | Writes

  predicate Keeps(k: Kind, e: Event)
  {
    match k
    case Audio => IsAudio(e)
    case WriterCalls => IsWriter(e)
    case Opens => e.Open?
    case Writes => e.Write?
  }

  /** The events of `evs` that `k` selects, in order. */
  function Matching(evs: seq<Event>, k: Kind): (r: seq<Event>)
    ensures |r| <= |evs|
  {
    if evs == [] then []
    else Matching(evs[..|evs| - 1], k) + (if Keeps(k, evs[|evs| - 1]) then [evs[|evs| - 1]] else [])
  }

  lemma {:induction false} MatchingAppend(a: seq<Event>, b: seq<Event>, k: Kind)
    ensures Matching(a + b, k) == Matching(a, k) + Matching(b, k)
  {
    if b == [] {
      assert a + b == a;
    } else {
      MatchingAppend(a, b[..|b| - 1], k);
      assert (a + b)[..|a + b| - 1] == a + b[..|b| - 1];
      assert (a + b)[|a + b| - 1] == b[|b| - 1];
      var x := if Keeps(k, b[|b| - 1]) then [b[|b| - 1]] else [];
      assert Matching(a + b, k) == Matching(a + b[..|b| - 1], k) + x;
      assert Matching(b, k) == Matching(b[..|b| - 1], k) + x;
    }
  }

  // ---------------------------------------------------------------------
  // Legal event sequences

  /** The two devices the loop drives: the alert sound (on = playing) and the video writer (on = open). */
  datatype Device = Sound | Recorder

  /**
   * The status of `dev` after `e`, or `None` if `e` is illegal there: the
   * sound is started only when silent and stopped only when playing; a
   * writer is opened only when none is open, written and released only
   * when one is.
   */
  function Next(dev: Device, on: bool, e: Event): Option<bool>
  {
    match dev
    case Sound => (
      match e
      case Play => if on then None else Some(true)
      case Stop => if on then Some(false) else None
      case _ => Some(on))
    case Recorder => (
      match e
      case Open(_) => if on then None else Some(true)
      case Write(_) => if on then Some(true) else None
      case Release => if on then Some(false) else None
      case _ => Some(on))
  }

  /** Replays `evs` from status `b` for `dev`; `None` when some event is illegal. */
  function Replay(dev: Device, b: bool, evs: seq<Event>): Option<bool>
  {
    if evs == [] then Some(b)
    else match Replay(dev, b, evs[..|evs| - 1])
      case None => None
      case Some(c) => Next(dev, c, evs[|evs| - 1])
  }

  function ReplayFrom(dev: Device, b: Option<bool>, evs: seq<Event>): Option<bool>
  {
    match b
    case None => None
    case Some(c) => Replay(dev, c, evs)
  }

  lemma {:induction false} ReplayAppend(dev: Device, b: bool, x: seq<Event>, y: seq<Event>)
    ensures Replay(dev, b, x + y) == ReplayFrom(dev, Replay(dev, b, x), y)
  {
    if y == [] {
      assert x + y == x;
    } else {
      ReplayAppend(dev, b, x, y[..|y| - 1]);
      assert (x + y)[..|x + y| - 1] == x + y[..|y| - 1];
    }
  }

  /** Writer calls leave the sound alone. */
  lemma {:induction false} AudioSkipsWriterCalls(playing: bool, evs: seq<Event>)
    requires forall i :: 0 <= i < |evs| ==> IsWriter(evs[i])
    ensures Replay(Sound, playing, evs) == Some(playing)
  {
    if evs != [] {
      AudioSkipsWriterCalls(playing, evs[..|evs| - 1]);
    }
  }

  /** Sound commands leave the writer alone. */
  lemma {:induction false} WriterSkipsAudio(open: bool, evs: seq<Event>)
    requires forall i :: 0 <= i < |evs| ==> IsAudio(evs[i])
    ensures Replay(Recorder, open, evs) == Some(open)
  {
    if evs != [] {
      WriterSkipsAudio(open, evs[..|evs| - 1]);
    }
  }

  /** Replaying a log of at most one event. */
  lemma ReplayOne(dev: Device, b: bool, evs: seq<Event>)
    requires |evs| <= 1
    ensures Replay(dev, b, evs) == if evs == [] then Some(b) else Next(dev, b, evs[0])
  {
    if evs != [] {
      assert evs[..0] == [];
    }
  }

  /** Every Play and Stop a single operation issues is legal, and leaves the sound as the state says. */
  lemma ApplyAudioLegal(s: State, op: Op)
    ensures Replay(Sound, s.soundPlayed, Apply(s, op).events) == Some(Apply(s, op).state.soundPlayed)
  {
    match op
    case Frame(f) =>
      var mo := MotionStep(s, f.detection);
      var ro := RecordStep(mo.state, f.seconds, Image(f.pixels, mo.caption, f.detection));
      ReplayOne(Sound, s.soundPlayed, mo.events);
      AudioSkipsWriterCalls(mo.state.soundPlayed, ro.events);
      ReplayAppend(Sound, s.soundPlayed, mo.events, ro.events);
    case ToggleDetection =>
      ReplayOne(Sound, s.soundPlayed, ToggleMotion(s).events);
    case ToggleRecord =>
  }

  /** The writer calls of the recording part of a frame are legal. */
  lemma RecordStepLegal(s: State, seconds: nat, image: Image)
    ensures Replay(Recorder, s.writer.Some?, RecordStep(s, seconds, image).events)
      == Some(RecordStep(s, seconds, image).state.writer.Some?)
  {
    var evs := RecordStep(s, seconds, image).events;
    if |evs| == 2 {
      assert evs[..1] == [evs[0]];
      ReplayOne(Recorder, s.writer.Some?, evs[..1]);
    } else {
      ReplayOne(Recorder, s.writer.Some?, evs);
    }
  }

  /** Every writer call a single operation issues is legal, and leaves the writer as the state says. */
  lemma ApplyWriterLegal(s: State, op: Op)
    ensures Replay(Recorder, s.writer.Some?, Apply(s, op).events) == Some(Apply(s, op).state.writer.Some?)
  {
    match op
    case Frame(f) =>
      var mo := MotionStep(s, f.detection);
      var ro := RecordStep(mo.state, f.seconds, Image(f.pixels, mo.caption, f.detection));
      WriterSkipsAudio(s.writer.Some?, mo.events);
      RecordStepLegal(mo.state, f.seconds, Image(f.pixels, mo.caption, f.detection));
      ReplayAppend(Recorder, s.writer.Some?, mo.events, ro.events);
    case ToggleDetection =>
      WriterSkipsAudio(s.writer.Some?, ToggleMotion(s).events);
    case ToggleRecord =>
  }

  /**
   * Over any interleaving of frames and toggle requests, Play and Stop
   * alternate: the sound is never restarted while playing nor stopped
   * while silent, and the last command agrees with `sound_played`.
   */
  lemma {:induction false} AudioAlternates(s: State, ops: seq<Op>)
    ensures Replay(Sound, s.soundPlayed, Exec(s, ops).events) == Some(Exec(s, ops).state.soundPlayed)
  {
    if ops != [] {
      var t := Exec(s, ops[..|ops| - 1]);
      AudioAlternates(s, ops[..|ops| - 1]);
      ApplyAudioLegal(t.state, ops[|ops| - 1]);
      ReplayAppend(Sound, s.soundPlayed, t.events, Apply(t.state, ops[|ops| - 1]).events);
    }
  }

  /**
   * Over any interleaving, at most one writer is open at a time, frames
   * are written only to an open writer, only an open writer is released,
   * and the last call agrees with `out`.
   */
  lemma {:induction false} WriterLifecycle(s: State, ops: seq<Op>)
    ensures Replay(Recorder, s.writer.Some?, Exec(s, ops).events) == Some(Exec(s, ops).state.writer.Some?)
  {
    if ops != [] {
      var t := Exec(s, ops[..|ops| - 1]);
      WriterLifecycle(s, ops[..|ops| - 1]);
      ApplyWriterLegal(t.state, ops[|ops| - 1]);
      ReplayAppend(Recorder, s.writer.Some?, t.events, Apply(t.state, ops[|ops| - 1]).events);
    }
  }

  /** No interleaving of frames and toggles breaks `sound_played ==> enabled && motion_detected`. */
  lemma {:induction false} ExecConsistent(s: State, ops: seq<Op>)
    requires Consistent(s)
    ensures Consistent(Exec(s, ops).state)
  {
    if ops != [] {
      ExecConsistent(s, ops[..|ops| - 1]);
    }
  }

  // ---------------------------------------------------------------------
  // The alert follows the edges of the motion signal

  function LastOr(b: bool, bs: seq<bool>): bool
  {
    if bs == [] then b else bs[|bs| - 1]
  }

  /** The face/hand test of each frame. */
  function Motions(fs: seq<FrameInput>): (ms: seq<bool>)
    ensures |ms| == |fs|
    ensures forall i :: 0 <= i < |fs| ==> ms[i] == MotionPresent(fs[i].detection)
  {
    seq(|fs|, i requires 0 <= i < |fs| => MotionPresent(fs[i].detection))
  }

  /**
   * Reference behaviour of an edge-triggered alert: Play where the signal
   * rises, Stop where it falls, nothing where it stays, starting from `playing`.
   */
  function Edges(playing: bool, ms: seq<bool>): seq<Event>
  {
    if ms == [] then []
    else
      var before := LastOr(playing, ms[..|ms| - 1]);
      var now := ms[|ms| - 1];
      Edges(playing, ms[..|ms| - 1]) + (if now && !before then [Play] else if !now && before then [Stop] else [])
  }

  /** The last step of a run, taken apart. */
  lemma ExecLast(s: State, ops: seq<Op>)
    requires ops != []
    ensures var t := Exec(s, ops[..|ops| - 1]); var u := Apply(t.state, ops[|ops| - 1]);
      Exec(s, ops) == Trace(u.state, t.events + u.events, t.images + u.images)
  {
  }

  /** A run of frames extended by one frame. */
  lemma ExecFrameSnoc(s: State, fs: seq<FrameInput>, f: FrameInput)
    ensures var t := Exec(s, Frames(fs)); var r := FrameStep(t.state, f);
      Exec(s, Frames(fs + [f])) == Trace(r.state, t.events + r.events, t.images + [r.image])
  {
    var ops := Frames(fs + [f]);
    assert ops[..|ops| - 1] == Frames(fs);
    assert ops[|ops| - 1] == Frame(f);
  }

  /** Splitting a run of frames before its last frame. */
  lemma FramesLast(fs: seq<FrameInput>)
    requires fs != []
    ensures Frames(fs)[..|fs| - 1] == Frames(fs[..|fs| - 1])
    ensures Frames(fs)[|fs| - 1] == Frame(fs[|fs| - 1])
  {
  }

  /** The sound commands one frame issues with detection enabled. */
  lemma EnabledFrameAudio(s: State, f: FrameInput)
    requires s.detectionEnabled
    ensures var m := MotionPresent(f.detection);
      Matching(FrameStep(s, f).events, Audio)
        == (if m && !s.soundPlayed then [Play] else if !m && s.soundPlayed then [Stop] else [])
  {
    var mo := MotionStep(s, f.detection);
    var ro := RecordStep(mo.state, f.seconds, Image(f.pixels, mo.caption, f.detection));
    var m := MotionPresent(f.detection);
    var x := if m && !s.soundPlayed then [Play] else if !m && s.soundPlayed then [Stop] else [];
    assert Matching(mo.events, Audio) == x by {
      MatchingSingletons(mo.events, Audio);
    }
    RecordStepSilent(mo.state, f.seconds, Image(f.pixels, mo.caption, f.detection));
    MatchingAppend(mo.events, ro.events, Audio);
    assert FrameStep(s, f).events == mo.events + ro.events;
  }

  /** The recording part of a frame issues no sound command. */
  lemma RecordStepSilent(s: State, seconds: nat, image: Image)
    ensures Matching(RecordStep(s, seconds, image).events, Audio) == []
  {
    MatchingSingletons(RecordStep(s, seconds, image).events, Audio);
  }

  /** `Matching` on logs of up to two events. */
  lemma MatchingSingletons(evs: seq<Event>, k: Kind)
    requires |evs| <= 2
    ensures Matching(evs, k) ==
      if evs == [] then []
      else if |evs| == 1 then (if Keeps(k, evs[0]) then evs else [])
      else (if Keeps(k, evs[0]) then [evs[0]] else []) + (if Keeps(k, evs[1]) then [evs[1]] else [])
  {
    if |evs| >= 1 {
      assert evs[..0] == [];
    }
    if |evs| == 2 {
      assert evs[..1] == [evs[0]];
    }
  }

  /**
   * With detection enabled, a run of frames issues exactly the edges of
   * the face/hand signal, and the sound ends up playing iff the last frame
   * had motion.
   */
  lemma {:induction false} AlertFollowsMotionEdges(s: State, fs: seq<FrameInput>)
    requires s.detectionEnabled
    ensures Matching(Exec(s, Frames(fs)).events, Audio) == Edges(s.soundPlayed, Motions(fs))
    ensures Exec(s, Frames(fs)).state.soundPlayed == LastOr(s.soundPlayed, Motions(fs))
    ensures Exec(s, Frames(fs)).state.detectionEnabled
  {
    if fs != [] {
      var init := fs[..|fs| - 1];
      var f := fs[|fs| - 1];
      FramesLast(fs);
      ExecLast(s, Frames(fs));
      assert Motions(fs)[..|fs| - 1] == Motions(init);
      AlertFollowsMotionEdges(s, init);
      var t := Exec(s, Frames(init));
      var r := FrameStep(t.state, f);
      FrameStepAlert(t.state, f);
      EnabledFrameAudio(t.state, f);
      MatchingAppend(t.events, r.events, Audio);
      assert Motions(fs)[|fs| - 1] == MotionPresent(f.detection);
    }
  }

  /** One Write per annotated frame, in order. */
  function WritesOf(images: seq<Image>): (evs: seq<Event>)
    ensures |evs| == |images|
    ensures forall k :: 0 <= k < |images| ==> evs[k] == Write(images[k])
  {
    seq(|images|, k requires 0 <= k < |images| => Write(images[k]))
  }

  /**
   * Regrouping a concatenation of logs. Kept as a lemma so that the run
   * proofs that need it do not have to prove it in their own large context.
   */
  lemma AppendAssociates(a: seq<Event>, b: seq<Event>, c: seq<Event>)
    ensures (a + b) + c == a + (b + c)
  {
  }

  lemma WritesOfSnoc(images: seq<Image>, image: Image)
    ensures WritesOf(images + [image]) == WritesOf(images) + [Write(image)]
  {
    var a := WritesOf(images + [image]);
    var b := WritesOf(images) + [Write(image)];
    assert |a| == |b|;
    forall k | 0 <= k < |a|
      ensures a[k] == b[k]
    {
      if k < |images| {
        assert (images + [image])[k] == images[k];
      }
    }
  }

  /** The writer calls of one frame with recording on: open lazily, then write the frame. */
  lemma RecordingFrameCalls(s: State, f: FrameInput)
    requires s.recordingEnabled
    ensures var r := FrameStep(s, f);
      && Matching(r.events, WriterCalls)
        == (if s.writer.None? then [Open(Naming.RecordingName(f.seconds))] else []) + [Write(r.image)]
      && r.state.writer == (if s.writer.None? then Some(Naming.RecordingName(f.seconds)) else s.writer)
  {
    var mo := MotionStep(s, f.detection);
    var image := Image(f.pixels, mo.caption, f.detection);
    assert mo.state.writer == s.writer && mo.state.recordingEnabled;
    var ro := RecordStep(mo.state, f.seconds, image);
    RecordStepCalls(mo.state, f.seconds, image);
    AudioOnlyHasNoWriterCalls(mo.events);
    MatchingAppend(mo.events, ro.events, WriterCalls);
  }

  /** The writer calls of the recording part of a frame with recording on. */
  lemma RecordStepCalls(s: State, seconds: nat, image: Image)
    requires s.recordingEnabled
    ensures var ro := RecordStep(s, seconds, image);
      && Matching(ro.events, WriterCalls)
        == (if s.writer.None? then [Open(Naming.RecordingName(seconds))] else []) + [Write(image)]
      && ro.state.writer == (if s.writer.None? then Some(Naming.RecordingName(seconds)) else s.writer)
  {
    var evs := RecordStep(s, seconds, image).events;
    if s.writer.None? {
      var name := Naming.RecordingName(seconds);
      assert evs == [Open(name), Write(image)];
      assert Matching(evs, WriterCalls) == [Open(name), Write(image)] by {
        MatchingSingletons(evs, WriterCalls);
      }
    } else {
      assert evs == [Write(image)];
      assert Matching(evs, WriterCalls) == [Write(image)] by {
        MatchingSingletons(evs, WriterCalls);
      }
    }
  }

  /**
   * With recording on and no writer open, a run of frames opens exactly one
   * file, named after the first frame's second, and writes every annotated
   * frame into it in order; the writer stays open.
   */
  lemma {:induction false} RecordingThroughout(s: State, fs: seq<FrameInput>)
    requires s.recordingEnabled && s.writer.None? && fs != []
    ensures var t := Exec(s, Frames(fs));
      && Matching(t.events, WriterCalls) == [Open(Naming.RecordingName(fs[0].seconds))] + WritesOf(t.images)
      && t.state.writer == Some(Naming.RecordingName(fs[0].seconds))
      && t.state.recordingEnabled
  {
    var init := fs[..|fs| - 1];
    var f := fs[|fs| - 1];
    ExecFrameSnoc(s, init, f);
    assert init + [f] == fs;
    var t := Exec(s, Frames(init));
    var r := FrameStep(t.state, f);
    if init == [] {
      assert t == Trace(s, [], []);
      RecordingFrameCalls(s, f);
      assert t.events + r.events == r.events;
      WritesOfSnoc([], r.image);
      assert t.images + [r.image] == [r.image];
    } else {
      RecordingThroughout(s, init);
      assert init[0] == fs[0];
      var name := Naming.RecordingName(fs[0].seconds);
      RecordingFrameCalls(t.state, f);
      assert Matching(r.events, WriterCalls) == [Write(r.image)];
      MatchingAppend(t.events, r.events, WriterCalls);
      WritesOfSnoc(t.images, r.image);
      AppendAssociates([Open(name)], WritesOf(t.images), [Write(r.image)]);
    }
  }

  /**
   * With detection on, a run of frames yields one annotated image per frame:
   * the frame's pixels, the caption exactly when that frame shows a face or
   * a hand, and the frame's detected landmarks.
   */
  lemma {:induction false} CaptionsFollowMotion(s: State, fs: seq<FrameInput>)
    requires s.detectionEnabled
    ensures var t := Exec(s, Frames(fs));
      && |t.images| == |fs|
      && (forall k :: 0 <= k < |fs| ==>
            t.images[k] == Image(fs[k].pixels, MotionPresent(fs[k].detection), fs[k].detection))
      && t.state.detectionEnabled
  {
    if fs != [] {
      var init := fs[..|fs| - 1];
      var f := fs[|fs| - 1];
      ExecFrameSnoc(s, init, f);
      assert init + [f] == fs;
      CaptionsFollowMotion(s, init);
      var t := Exec(s, Frames(init));
      var r := FrameStep(t.state, f);
      assert r.image == Image(f.pixels, MotionPresent(f.detection), f.detection);
    }
  }

  /** Opens and writes are writer calls, so selecting the writer calls first loses none of them. */
  lemma {:induction false} MatchingWriterCalls(evs: seq<Event>, k: Kind)
    requires k == Opens || k == Writes
    ensures Matching(Matching(evs, WriterCalls), k) == Matching(evs, k)
  {
    if evs != [] {
      var init := evs[..|evs| - 1];
      var e := evs[|evs| - 1];
      MatchingWriterCalls(init, k);
      var x := if IsWriter(e) then [e] else [];
      MatchingAppend(Matching(init, WriterCalls), x, k);
      MatchingSingletons(x, k);
    }
  }

  /** A run of writes holds no open and nothing but writes. */
  lemma {:induction false} MatchingWrites(images: seq<Image>)
    ensures Matching(WritesOf(images), Opens) == []
    ensures Matching(WritesOf(images), Writes) == WritesOf(images)
  {
    if images != [] {
      var init := images[..|images| - 1];
      var image := images[|images| - 1];
      assert init + [image] == images;
      MatchingWrites(init);
      WritesOfSnoc(init, image);
      MatchingAppend(WritesOf(init), [Write(image)], Opens);
      MatchingAppend(WritesOf(init), [Write(image)], Writes);
      MatchingSingletons([Write(image)], Opens);
      MatchingSingletons([Write(image)], Writes);
    }
  }

  /**
   * With recording on and no writer open, a run of frames opens one file,
   * named after the first frame's second, and writes each annotated frame
   * once, in order.
   */
  lemma OneFilePerRecording(s: State, fs: seq<FrameInput>)
    requires s.recordingEnabled && s.writer.None? && fs != []
    ensures var t := Exec(s, Frames(fs));
      && Matching(t.events, Opens) == [Open(Naming.RecordingName(fs[0].seconds))]
      && Matching(t.events, Writes) == WritesOf(t.images)
  {
    var t := Exec(s, Frames(fs));
    var name := Naming.RecordingName(fs[0].seconds);
    assert Matching(t.events, WriterCalls) == [Open(name)] + WritesOf(t.images) by {
      RecordingThroughout(s, fs);
    }
    MatchingWriterCalls(t.events, Opens);
    MatchingWriterCalls(t.events, Writes);
    OpenThenWrites(name, t.images);
  }

  /** The opens and the writes of a log that opens one file, then writes frames. */
  lemma OpenThenWrites(name: string, images: seq<Image>)
    ensures Matching([Open(name)] + WritesOf(images), Opens) == [Open(name)]
    ensures Matching([Open(name)] + WritesOf(images), Writes) == WritesOf(images)
  {
    MatchingWrites(images);
    MatchingAppend([Open(name)], WritesOf(images), Opens);
    MatchingAppend([Open(name)], WritesOf(images), Writes);
    MatchingSingletons([Open(name)], Opens);
    MatchingSingletons([Open(name)], Writes);
  }

  /**
   * Ten frames with detection and recording on from the start, motion on
   * frames 3-6: one file opened, all ten frames written to it, and the
   * caption painted on frames 3-6 only.
   */
  lemma RecordingScenario(s: State, fs: seq<FrameInput>)
    requires s.detectionEnabled && s.recordingEnabled && s.writer.None?
    requires Motions(fs) == [false, false, true, true, true, true, false, false, false, false]
    ensures var t := Exec(s, Frames(fs));
      && Matching(t.events, Opens) == [Open(Naming.RecordingName(fs[0].seconds))]
      && Matching(t.events, Writes) == WritesOf(t.images)
      && |t.images| == 10
      && (forall k :: 0 <= k < 10 ==> (t.images[k].caption <==> 2 <= k <= 5))
  {
    var t := Exec(s, Frames(fs));
    OneFilePerRecording(s, fs);
    CaptionsFollowMotion(s, fs);
    forall k | 0 <= k < 10
      ensures t.images[k].caption <==> 2 <= k <= 5
    {
      assert Motions(fs)[k] == MotionPresent(fs[k].detection);
    }
  }

  /** The reference edges of the signal off, on, on, on, off: one rise, one fall. */
  lemma EdgesOfOnePulse()
    ensures Edges(false, [false, true, true, true, false]) == [Play, Stop]
  {
    var ms := [false, true, true, true, false];
    assert ms[..4] == [false, true, true, true];
    assert ms[..4][..3] == [false, true, true];
    assert ms[..4][..3][..2] == [false, true];
    assert ms[..4][..3][..2][..1] == [false];
    assert ms[..4][..3][..2][..1][..0] == [];
    assert Edges(false, [false]) == [];
    assert Edges(false, [false, true]) == [Play];
    assert Edges(false, [false, true, true]) == [Play];
    assert Edges(false, [false, true, true, true]) == [Play];
  }

  /** Motion on frames 2-4 of five: one Play, then one Stop, no restart on the repeated frames. */
  lemma AlertScenario(s: State, fs: seq<FrameInput>)
    requires s.detectionEnabled && !s.soundPlayed
    requires Motions(fs) == [false, true, true, true, false]
    ensures Matching(Exec(s, Frames(fs)).events, Audio) == [Play, Stop]
  {
    AlertFollowsMotionEdges(s, fs);
    EdgesOfOnePulse();
  }

  /** Pose landmarks alone never start the alert or draw the caption. */
  lemma PoseOnlyNeverAlerts(s: State, f: FrameInput)
    requires !f.detection.face && !f.detection.leftHand && !f.detection.rightHand
    ensures !FrameStep(s, f).state.soundPlayed
    ensures Play !in FrameStep(s, f).events
    ensures Caption !in Painted(FrameStep(s, f).image)
  {
  }

  /**
   * The alert state can disagree with the motion flag between frames:
   * switching detection off and on while alerting leaves `motion_detected`
   * set and the sound off until the next frame recomputes both.
   */
  lemma StaleMotionAfterReenable(s: State)
    requires Consistent(s) && s.soundPlayed
    ensures var t := ToggleMotion(ToggleMotion(s).state).state;
      t.detectionEnabled && t.motionDetected && !t.soundPlayed
  {
  }

  /** Two recording toggles restore the state. */
  lemma ToggleRecordingTwice(s: State)
    ensures ToggleRecording(ToggleRecording(s).state).state == s
  {
  }

  /**
   * Recording switched off and on again between two frames is never seen
   * off by a frame: the open writer is neither released nor reopened, and
   * the next frame goes on writing into the same file.
   */
  lemma ReenableKeepsFile(s: State, f: FrameInput)
    requires s.recordingEnabled && s.writer.Some?
    ensures var t := Exec(s, [ToggleRecord, ToggleRecord, Frame(f)]);
      && t.state.writer == s.writer
      && |t.images| == 1
      && Matching(t.events, WriterCalls) == [Write(t.images[0])]
  {
    var ops := [ToggleRecord, ToggleRecord, Frame(f)];
    assert ops[..2] == [ToggleRecord, ToggleRecord];
    assert ops[..2][..1] == [ToggleRecord];
    assert ops[..2][..1][..0] == [];
    assert [ToggleRecord][..0] == [];
    ExecLast(s, [ToggleRecord]);
    var t1 := Exec(s, [ToggleRecord]);
    assert t1 == Trace(ToggleRecording(s).state, [] + [], [] + []);
    ExecLast(s, ops[..2]);
    var t := Exec(s, ops[..2]);
    ToggleRecordingTwice(s);
    assert t == Trace(s, [], []);
    RecordingFrameCalls(s, f);
  }

  // ---------------------------------------------------------------------
  // Recording: one file per run of enabled frames

  /** The `recording_enabled` value each frame step of `ops` sees. */
  function FrameFlags(s: State, ops: seq<Op>): seq<bool>
  {
    if ops == [] then []
    else
      var init := ops[..|ops| - 1];
      FrameFlags(s, init) + (if ops[|ops| - 1].Frame? then [Exec(s, init).state.recordingEnabled] else [])
  }

  /** Reference count: the frames at which the flag is on after being off (or after no writer at the start). */
  function RisingRuns(open: bool, flags: seq<bool>): nat
  {
    if flags == [] then 0
    else
      var init := flags[..|flags| - 1];
      RisingRuns(open, init) + (if flags[|flags| - 1] && !LastOr(open, init) then 1 else 0)
  }

  /** How many flags are on. */
  function OnCount(flags: seq<bool>): nat
  {
    if flags == [] then 0 else OnCount(flags[..|flags| - 1]) + (if flags[|flags| - 1] then 1 else 0)
  }

  /** The sound commands of a frame or of the detection toggle contain no writer call. */
  lemma {:induction false} AudioOnlyHasNoWriterCalls(evs: seq<Event>)
    requires forall i :: 0 <= i < |evs| ==> IsAudio(evs[i])
    ensures Matching(evs, Opens) == [] && Matching(evs, Writes) == [] && Matching(evs, WriterCalls) == []
  {
    if evs != [] {
      AudioOnlyHasNoWriterCalls(evs[..|evs| - 1]);
    }
  }

  /** What the recording part of a frame opens and writes. */
  lemma RecordStepCounts(s: State, seconds: nat, image: Image)
    ensures var evs := RecordStep(s, seconds, image).events;
      |Matching(evs, Opens)| == (if s.recordingEnabled && s.writer.None? then 1 else 0)
      && |Matching(evs, Writes)| == (if s.recordingEnabled then 1 else 0)
      && (!s.recordingEnabled && s.writer.None? ==> Matching(evs, WriterCalls) == [])
  {
    var evs := RecordStep(s, seconds, image).events;
    if s.recordingEnabled && s.writer.None? {
      var name := Naming.RecordingName(seconds);
      assert evs == [Open(name), Write(image)];
      assert Matching(evs, Opens) == [Open(name)] by { MatchingSingletons(evs, Opens); }
      assert Matching(evs, Writes) == [Write(image)] by { MatchingSingletons(evs, Writes); }
    } else if s.recordingEnabled {
      assert evs == [Write(image)];
      assert Matching(evs, Opens) == [] by { MatchingSingletons(evs, Opens); }
      assert Matching(evs, Writes) == [Write(image)] by { MatchingSingletons(evs, Writes); }
    } else if s.writer.Some? {
      assert evs == [Release];
      assert Matching(evs, Opens) == [] by { MatchingSingletons(evs, Opens); }
      assert Matching(evs, Writes) == [] by { MatchingSingletons(evs, Writes); }
    } else {
      assert evs == [];
    }
  }

  /** What one operation opens and writes, and whether a writer is open after it. */
  lemma ApplyCounts(s: State, op: Op)
    ensures |Matching(Apply(s, op).events, Opens)| == (if op.Frame? && s.recordingEnabled && s.writer.None? then 1 else 0)
    ensures |Matching(Apply(s, op).events, Writes)| == (if op.Frame? && s.recordingEnabled then 1 else 0)
    ensures Apply(s, op).state.writer.Some? == (if op.Frame? then s.recordingEnabled else s.writer.Some?)
    ensures Apply(s, op).state.recordingEnabled == (if op.ToggleRecord? then !s.recordingEnabled else s.recordingEnabled)
  {
    match op
    case Frame(f) =>
      var mo := MotionStep(s, f.detection);
      var image := Image(f.pixels, mo.caption, f.detection);
      assert mo.state.writer == s.writer && mo.state.recordingEnabled == s.recordingEnabled;
      var ro := RecordStep(mo.state, f.seconds, image);
      assert Apply(s, op).events == mo.events + ro.events;
      AudioOnlyHasNoWriterCalls(mo.events);
      RecordStepCounts(mo.state, f.seconds, image);
      MatchingAppend(mo.events, ro.events, Opens);
      MatchingAppend(mo.events, ro.events, Writes);
    case ToggleDetection =>
      AudioOnlyHasNoWriterCalls(ToggleMotion(s).events);
    case ToggleRecord =>
  }

  /**
   * Over any interleaving of frames and toggles, a file is opened once per
   * disabled-to-enabled run observed at frame steps, one frame is written
   * per frame step that sees recording on, and a writer is open at the end
   * iff the last frame saw recording on.
   */
  lemma {:induction false} OpensMatchRecordingRuns(s: State, ops: seq<Op>)
    ensures |Matching(Exec(s, ops).events, Opens)| == RisingRuns(s.writer.Some?, FrameFlags(s, ops))
    ensures |Matching(Exec(s, ops).events, Writes)| == OnCount(FrameFlags(s, ops))
    ensures Exec(s, ops).state.writer.Some? == LastOr(s.writer.Some?, FrameFlags(s, ops))
  {
    if ops != [] {
      var init := ops[..|ops| - 1];
      var op := ops[|ops| - 1];
      OpensMatchRecordingRuns(s, init);
      ExecLast(s, ops);
      var t := Exec(s, init);
      var u := Apply(t.state, op);
      ApplyCounts(t.state, op);
      MatchingAppend(t.events, u.events, Opens);
      MatchingAppend(t.events, u.events, Writes);
      if op.Frame? {
        assert FrameFlags(s, ops) == FrameFlags(s, init) + [t.state.recordingEnabled];
        FlagsSnoc(s.writer.Some?, FrameFlags(s, init), t.state.recordingEnabled);
      } else {
        assert FrameFlags(s, ops) == FrameFlags(s, init);
      }
    }
  }

  /** Extending the observed flags by one frame. */
  lemma FlagsSnoc(open: bool, flags: seq<bool>, b: bool)
    ensures RisingRuns(open, flags + [b]) == RisingRuns(open, flags) + (if b && !LastOr(open, flags) then 1 else 0)
    ensures OnCount(flags + [b]) == OnCount(flags) + (if b then 1 else 0)
    ensures LastOr(open, flags + [b]) == b
  {
    assert (flags + [b])[..|flags|] == flags;
  }

  /** With recording off and no writer, a run of frames opens, writes and releases nothing. */
  lemma {:induction false} NoRecordingNoFiles(s: State, fs: seq<FrameInput>)
    requires !s.recordingEnabled && s.writer.None?
    ensures Matching(Exec(s, Frames(fs)).events, WriterCalls) == []
    ensures !Exec(s, Frames(fs)).state.recordingEnabled && Exec(s, Frames(fs)).state.writer.None?
  {
    if fs != [] {
      var init := fs[..|fs| - 1];
      var f := fs[|fs| - 1];
      FramesLast(fs);
      ExecLast(s, Frames(fs));
      NoRecordingNoFiles(s, init);
      var t := Exec(s, Frames(init));
      DisabledFrameQuiet(t.state, f);
      MatchingAppend(t.events, FrameStep(t.state, f).events, WriterCalls);
    }
  }

  /** A frame with recording off and no writer makes no writer call. */
  lemma DisabledFrameQuiet(s: State, f: FrameInput)
    requires !s.recordingEnabled && s.writer.None?
    ensures Matching(FrameStep(s, f).events, WriterCalls) == []
  {
    var mo := MotionStep(s, f.detection);
    var image := Image(f.pixels, mo.caption, f.detection);
    var ro := RecordStep(mo.state, f.seconds, image);
    AudioOnlyHasNoWriterCalls(mo.events);
    RecordStepCounts(mo.state, f.seconds, image);
    MatchingAppend(mo.events, ro.events, WriterCalls);
  }
}
