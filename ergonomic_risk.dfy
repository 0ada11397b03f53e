/** `calculate_ergonomic_risk`: reads twelve landmarks, measures six joint
    angles, scores each against its RULA table and maps the sum of the six
    scores to an action level. */
module ErgonomicRisk {
  import opened Errors
  import opened Geometry
  import opened ScoreTables
  import opened ActionLevels

  /** `pose_landmarks`: landmark name to `(x, y)` point. */
  type Landmarks = map<string, Point>

  /** The returned `(overall_ergonomic_risk_score, action_level)` pair. */
  datatype Assessment = Assessment(score: int, actionLevel: string)

  const ElbowRiskyAngle: int := 150
  const ElbowRiskPoints: int := 1

  /** The landmark names, in the order the source reads them. */
  const RequiredKeys: seq<string> := [
    "left_shoulder", "left_elbow", "left_wrist",
    "left_hand_index", "left_fingers", "head", "neck",
    "upper_back", "lower_back", "hips", "knees", "ankles"]

  /** AllPresent says that every name of RequiredKeys is a key. */
  lemma AllPresentIff(landmarks: Landmarks)
    ensures AllPresent(landmarks) <==> forall k :: k in RequiredKeys ==> k in landmarks
  {
  }

  /** The three landmarks read before the elbow angle are present. */
  predicate ArmPresent(landmarks: Landmarks) {
    "left_shoulder" in landmarks && "left_elbow" in landmarks && "left_wrist" in landmarks
  }

  /** The elbow angle is reached and defined. */
  predicate ElbowDefined(m: RealMath, landmarks: Landmarks)
    requires m.pi > 0.0
  {
    && ArmPresent(landmarks)
    && CalculateAngle(m, landmarks["left_shoulder"], landmarks["left_elbow"], landmarks["left_wrist"]).Ok?
  }

  /** `pose_landmarks[key]`. */
  function Get(landmarks: Landmarks, key: string): (r: Result<Point>)
    ensures r.Ok? <==> key in landmarks
    ensures r.Ok? ==> r.value == landmarks[key]
    ensures r.Err? ==> r.error == KeyError(key)
  {
    if key in landmarks then Ok(landmarks[key]) else Err(KeyError(key))
  }

  /** `sum(xs)`. */
  function Sum(xs: seq<int>): int {
    if |xs| == 0 then 0 else xs[0] + Sum(xs[1..])
  }

  /** The sum of a six-item list is the sum of its items. */
  lemma SumOfSix(a: int, b: int, c: int, d: int, e: int, f: int)
    ensures Sum([a, b, c, d, e, f]) == a + b + c + d + e + f
  {
    assert Sum([f]) == f;
    assert [e, f][1..] == [f];
    assert Sum([e, f]) == e + f;
    assert [d, e, f][1..] == [e, f];
    assert Sum([d, e, f]) == d + e + f;
    assert [c, d, e, f][1..] == [d, e, f];
    assert Sum([c, d, e, f]) == c + d + e + f;
    assert [b, c, d, e, f][1..] == [c, d, e, f];
    assert Sum([b, c, d, e, f]) == b + c + d + e + f;
    assert [a, b, c, d, e, f][1..] == [b, c, d, e, f];
  }

  /** One region of the source: its angle, then
      `TABLE[min([key for key in TABLE if angle >= key])]`. The region
      scores exactly when its vectors are nonzero and its angle reaches the
      table's smallest key, and then it scores what that key maps to. */
  function RegionScore(m: RealMath, t: ScoreTable, p1: Point, p2: Point, p3: Point): (r: Result<int>)
    requires m.pi > 0.0 && |t| > 0
    ensures Valid(m) ==> (r.Ok? <==> AngleAtLeast(m, p1, p2, p3, MinKey(t) as real))
    ensures r.Ok? ==> r.value == ScoreOf(t, MinKey(t))
    ensures r.Err? ==> r.error == ZeroDivisionError || r.error == EmptyMinError
  {
    var angle :- CalculateAngle(m, p1, p2, p3);
    LookupByMinKey(t, angle);
    Lookup(t, angle)
  }

  /** The twelve landmark points once read out of `pose_landmarks`. */
  datatype Pose = Pose(
    leftShoulder: Point, leftElbow: Point, leftWrist: Point,
    leftHand: Point, leftFingers: Point,
    head: Point, neck: Point, upperBack: Point,
    lowerBack: Point, hips: Point, knees: Point, ankles: Point)

  /** Every landmark the source reads is a key of `pose_landmarks`. */
  predicate AllPresent(landmarks: Landmarks) {
    && "left_shoulder" in landmarks && "left_elbow" in landmarks && "left_wrist" in landmarks
    && "left_hand_index" in landmarks && "left_fingers" in landmarks
    && "head" in landmarks && "neck" in landmarks && "upper_back" in landmarks
    && "lower_back" in landmarks && "hips" in landmarks && "knees" in landmarks && "ankles" in landmarks
  }

  /** The points `calculate_ergonomic_risk` reads when every key is present. */
  function PoseOf(landmarks: Landmarks): Pose
    requires AllPresent(landmarks)
  {
    Pose(
      landmarks["left_shoulder"], landmarks["left_elbow"], landmarks["left_wrist"],
      landmarks["left_hand_index"], landmarks["left_fingers"],
      landmarks["head"], landmarks["neck"], landmarks["upper_back"],
      landmarks["lower_back"], landmarks["hips"], landmarks["knees"], landmarks["ankles"])
  }

  /** The angle at p2 is defined and at least `bound` degrees. */
  predicate AngleAtLeast(m: RealMath, p1: Point, p2: Point, p3: Point, bound: real)
    requires m.pi > 0.0
  {
    CalculateAngle(m, p1, p2, p3).Ok? && CalculateAngle(m, p1, p2, p3).value >= bound
  }

  /** The wrist, neck and trunk tables start at 0, which every defined
      angle reaches: for them the condition is only that neither outer point
      coincides with the vertex. */
  lemma AngleAtLeastZero(m: RealMath, p1: Point, p2: Point, p3: Point)
    requires Valid(m)
    ensures AngleAtLeast(m, p1, p2, p3, 0.0) <==> NonDegenerate(p1, p2, p3)
  {
  }

  /** Each of the six angles is defined and reaches the smallest key of
      its region's table. */
  predicate Scorable(m: RealMath, p: Pose)
    requires m.pi > 0.0
  {
    && AngleAtLeast(m, p.leftShoulder, p.leftElbow, p.leftWrist, 20.0)
    && AngleAtLeast(m, p.leftElbow, p.leftWrist, p.leftHand, 20.0)
    && AngleAtLeast(m, p.leftWrist, p.leftHand, p.leftFingers, 0.0)
    && AngleAtLeast(m, p.head, p.neck, p.upperBack, 0.0)
    && AngleAtLeast(m, p.upperBack, p.lowerBack, p.hips, 0.0)
    && AngleAtLeast(m, p.hips, p.knees, p.ankles, 1.0)
  }

  /** The scoring half of `calculate_ergonomic_risk`: the six regions, their
      sum and the action level. Each region that scores scores 1, so a
      result is always 6 and "Further investigation and change soon". */
  function ScorePose(m: RealMath, p: Pose): (r: Result<Assessment>)
    requires m.pi > 0.0
    ensures Valid(m) ==> (r.Ok? <==> Scorable(m, p))
    ensures r.Ok? ==> r.value == Assessment(6, "Further investigation and change soon")
    ensures r.Err? ==> r.error == ZeroDivisionError || r.error == EmptyMinError
  {
    TableMinima();
    var upperArmScore :- RegionScore(m, UpperArmScores, p.leftShoulder, p.leftElbow, p.leftWrist);
    var lowerArmScore :- RegionScore(m, LowerArmScores, p.leftElbow, p.leftWrist, p.leftHand);
    var wristScore :- RegionScore(m, WristScores, p.leftWrist, p.leftHand, p.leftFingers);
    var neckScore :- RegionScore(m, NeckScores, p.head, p.neck, p.upperBack);
    var trunkScore :- RegionScore(m, TrunkScores, p.upperBack, p.lowerBack, p.hips);
    var legScore :- RegionScore(m, LegScores, p.hips, p.knees, p.ankles);
    SumOfSix(upperArmScore, lowerArmScore, wristScore, neckScore, trunkScore, legScore);
    var overall := Sum([upperArmScore, lowerArmScore, wristScore, neckScore, trunkScore, legScore]);
    Ok(Assessment(overall, ActionLevelFor(overall).Label()))
  }

  /** `calculate_ergonomic_risk(pose_landmarks)`. Exceptions propagate as
      `Err`, in the order the source would raise them: the first three
      reads, the elbow angle, the other nine reads, then the regions. */
  function CalculateErgonomicRisk(m: RealMath, landmarks: Landmarks): (r: Result<Assessment>)
    requires m.pi > 0.0
    ensures Valid(m) ==> (r.Ok? <==> AllPresent(landmarks) && Scorable(m, PoseOf(landmarks)))
    ensures r.Ok? ==> r.value == Assessment(6, "Further investigation and change soon")
    ensures !AllPresent(landmarks) ==> r.Err?
    ensures !AllPresent(landmarks) && (!ArmPresent(landmarks) || ElbowDefined(m, landmarks)) ==> r.Err? && r.error.KeyError?
    ensures r.Err? && r.error.KeyError? ==> r.error.key in RequiredKeys && r.error.key !in landmarks
  {
    var ergonomicRiskScore := 0;
    var leftShoulder :- Get(landmarks, "left_shoulder");
    var leftElbow :- Get(landmarks, "left_elbow");
    var leftWrist :- Get(landmarks, "left_wrist");
    var elbowAngle :- CalculateAngle(m, leftShoulder, leftElbow, leftWrist);
    // The elbow points go into a running score that the result never reads.
    var elbowRiskScore :=
      if elbowAngle > ElbowRiskyAngle as real then ergonomicRiskScore + ElbowRiskPoints
      else ergonomicRiskScore;
    var leftHand :- Get(landmarks, "left_hand_index");
    var leftFingers :- Get(landmarks, "left_fingers");
    var head :- Get(landmarks, "head");
    var neck :- Get(landmarks, "neck");
    var upperBack :- Get(landmarks, "upper_back");
    var lowerBack :- Get(landmarks, "lower_back");
    var hips :- Get(landmarks, "hips");
    var knees :- Get(landmarks, "knees");
    var ankles :- Get(landmarks, "ankles");
    ScorePose(m, Pose(leftShoulder, leftElbow, leftWrist, leftHand, leftFingers,
                      head, neck, upperBack, lowerBack, hips, knees, ankles))
  }
}
