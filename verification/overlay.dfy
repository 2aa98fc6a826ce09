/**
 * What the landmark detector reports for one frame, reduced to presence,
 * and which overlays the renderer draws from it (app.py `draw_landmarks`
 * and the "Motion Detected!" caption).
 */
module Overlay {

  /** Which of the four optional landmark collections the detector returned. */
  datatype Landmarks = Landmarks(face: bool, pose: bool, leftHand: bool, rightHand: bool)

  /** The things that can be painted onto an annotated frame. */
  datatype Layer = Caption | FaceMesh | PoseSkeleton | LeftHandSkeleton | RightHandSkeleton

  /** Position of a landmark layer in the fixed drawing order (face, pose, left hand, right hand). */
  function Rank(l: Layer): nat
  {
    match l
    case Caption => 0
    case FaceMesh => 1
    case PoseSkeleton => 2
    case LeftHandSkeleton => 3
    case RightHandSkeleton => 4
  }

  /** The landmark collection a layer draws, looked up in `d`; the caption is not a landmark layer. */
  predicate Detected(d: Landmarks, l: Layer)
  {
    match l
    case Caption => false
    case FaceMesh => d.face
    case PoseSkeleton => d.pose
    case LeftHandSkeleton => d.leftHand
    case RightHandSkeleton => d.rightHand
  }

  /** Each layer comes strictly later in the drawing order than the one before it. */
  predicate StrictlyRanked(ls: seq<Layer>)
  {
    |ls| <= 1 || (Rank(ls[0]) < Rank(ls[1]) && StrictlyRanked(ls[1..]))
  }

  /** Strictly ranked layers are in drawing order pairwise, so none repeats. */
  lemma {:induction false} StrictlyRankedPairwise(ls: seq<Layer>, i: nat, j: nat)
    requires StrictlyRanked(ls) && i < j < |ls|
    ensures Rank(ls[i]) < Rank(ls[j])
  {
    if i == 0 {
      if j > 1 {
        StrictlyRankedPairwise(ls[1..], 0, j - 1);
      }
    } else {
      StrictlyRankedPairwise(ls[1..], i - 1, j - 1);
    }
  }

  /**
   * Motion, as the alert policy understands it: a face or a hand is in view.
   * Pose landmarks alone are not motion.
   */
  predicate MotionPresent(d: Landmarks)
  {
    d.face || d.leftHand || d.rightHand
  }

  /** Paints `l` under `rest` when `present`; keeps the drawing order. */
  function DrawIf(present: bool, l: Layer, rest: seq<Layer>): (ls: seq<Layer>)
    requires StrictlyRanked(rest) && (rest == [] || Rank(l) < Rank(rest[0]))
    ensures StrictlyRanked(ls)
    ensures ls == [] || Rank(l) <= Rank(ls[0])
  {
    if present then
      assert ([l] + rest)[1..] == rest;
      [l] + rest
    else rest
  }

  /**
   * The landmark layers `draw_landmarks` paints, in painting order: one per
   * detected collection, each at most once, in the order face, pose, left
   * hand, right hand.
   */
  function LandmarkLayers(d: Landmarks): (ls: seq<Layer>)
    ensures forall l :: l in ls <==> Detected(d, l)
    ensures StrictlyRanked(ls)
    ensures ls == [] || Rank(ls[0]) >= Rank(FaceMesh)
    ensures |ls| <= 4
  {
    var hands := DrawIf(d.leftHand, LeftHandSkeleton, DrawIf(d.rightHand, RightHandSkeleton, []));
    DrawIf(d.face, FaceMesh, DrawIf(d.pose, PoseSkeleton, hands))
  }

  /**
   * Everything painted on one frame, in painting order: the caption first
   * when the frame is in the alerting branch, then the landmark layers.
   */
  function Annotation(caption: bool, d: Landmarks): (ls: seq<Layer>)
    ensures Caption in ls <==> caption
    ensures forall l :: l != Caption ==> (l in ls <==> Detected(d, l))
    ensures StrictlyRanked(ls)
    ensures |LandmarkLayers(d)| <= |ls| && ls[|ls| - |LandmarkLayers(d)|..] == LandmarkLayers(d)
  {
    DrawIf(caption, Caption, LandmarkLayers(d))
  }

  /** Motion holds exactly when some layer other than the pose skeleton is drawn. */
  lemma MotionIffFaceOrHandDrawn(d: Landmarks)
    ensures MotionPresent(d) <==> exists l :: l in LandmarkLayers(d) && l != PoseSkeleton
  {
    if MotionPresent(d) {
      var l := if d.face then FaceMesh else if d.leftHand then LeftHandSkeleton else RightHandSkeleton;
      assert l in LandmarkLayers(d);
    }
  }

  /** Whether pose landmarks were detected has no bearing on motion. */
  lemma MotionIgnoresPose(d: Landmarks, pose: bool)
    ensures MotionPresent(d.(pose := pose)) == MotionPresent(d)
  {
  }
}
