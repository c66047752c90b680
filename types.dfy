/** The shared vocabulary: the exercise, the named pose landmarks and their
    indices into a pose, and the verdict record every classifier returns. */
module Types {
  import opened Wrappers

  /** The exercises the system knows; there is one. */
  datatype Exercise = HighPlank

  /** The display name of an exercise. */
  function ExerciseName(e: Exercise): string {
    match e
    case HighPlank => "Prancha Alta"
  }

  /** The verdict shown to the user: a message, its color and whether the pose is correct. */
  datatype ValidationResult = ValidationResult(text: string, color: string, isCorrect: bool)

  /** The 33 landmarks the pose detector reports. */
  datatype LandmarkKey =
    | Nose
    | LeftEyeInner | LeftEye | LeftEyeOuter
    | RightEyeInner | RightEye | RightEyeOuter
    | LeftEar | RightEar
    | MouthLeft | MouthRight
    | LeftShoulder | RightShoulder
    | LeftElbow | RightElbow
    | LeftWrist | RightWrist
    | LeftPinky | RightPinky
    | LeftIndex | RightIndex
    | LeftThumb | RightThumb
    | LeftHip | RightHip
    | LeftKnee | RightKnee
    | LeftAnkle | RightAnkle
    | LeftHeel | RightHeel
    | LeftFootIndex | RightFootIndex

  /** Number of landmarks in a pose. */
  const LandmarkCount: nat := 33

  /** The landmark table: the position of each landmark in a pose. */
  function Index(k: LandmarkKey): (i: nat)
    ensures i < LandmarkCount
  {
    match k
    case Nose => 0
    case LeftEyeInner => 1
    case LeftEye => 2
    case LeftEyeOuter => 3
    case RightEyeInner => 4
    case RightEye => 5
    case RightEyeOuter => 6
    case LeftEar => 7
    case RightEar => 8
    case MouthLeft => 9
    case MouthRight => 10
    case LeftShoulder => 11
    case RightShoulder => 12
    case LeftElbow => 13
    case RightElbow => 14
    case LeftWrist => 15
    case RightWrist => 16
    case LeftPinky => 17
    case RightPinky => 18
    case LeftIndex => 19
    case RightIndex => 20
    case LeftThumb => 21
    case RightThumb => 22
    case LeftHip => 23
    case RightHip => 24
    case LeftKnee => 25
    case RightKnee => 26
    case LeftAnkle => 27
    case RightAnkle => 28
    case LeftHeel => 29
    case RightHeel => 30
    case LeftFootIndex => 31
    case RightFootIndex => 32
  }

  /** The landmark at a position of the pose. */
  function KeyAt(i: nat): LandmarkKey
    requires i < LandmarkCount
  {
    match i
    case 0 => Nose
    case 1 => LeftEyeInner
    case 2 => LeftEye
    case 3 => LeftEyeOuter
    case 4 => RightEyeInner
    case 5 => RightEye
    case 6 => RightEyeOuter
    case 7 => LeftEar
    case 8 => RightEar
    case 9 => MouthLeft
    case 10 => MouthRight
    case 11 => LeftShoulder
    case 12 => RightShoulder
    case 13 => LeftElbow
    case 14 => RightElbow
    case 15 => LeftWrist
    case 16 => RightWrist
    case 17 => LeftPinky
    case 18 => RightPinky
    case 19 => LeftIndex
    case 20 => RightIndex
    case 21 => LeftThumb
    case 22 => RightThumb
    case 23 => LeftHip
    case 24 => RightHip
    case 25 => LeftKnee
    case 26 => RightKnee
    case 27 => LeftAnkle
    case 28 => RightAnkle
    case 29 => LeftHeel
    case 30 => RightHeel
    case 31 => LeftFootIndex
    case _ => RightFootIndex
  }

  /** Every index names back its own landmark. */
  lemma KeyAtIndex(k: LandmarkKey)
    ensures KeyAt(Index(k)) == k
  {
    match k
    case Nose =>
    case LeftEyeInner =>
    case LeftEye =>
    case LeftEyeOuter =>
    case RightEyeInner =>
    case RightEye =>
    case RightEyeOuter =>
    case LeftEar =>
    case RightEar =>
    case MouthLeft =>
    case MouthRight =>
    case LeftShoulder =>
    case RightShoulder =>
    case LeftElbow =>
    case RightElbow =>
    case LeftWrist =>
    case RightWrist =>
    case LeftPinky =>
    case RightPinky =>
    case LeftIndex =>
    case RightIndex =>
    case LeftThumb =>
    case RightThumb =>
    case LeftHip =>
    case RightHip =>
    case LeftKnee =>
    case RightKnee =>
    case LeftAnkle =>
    case RightAnkle =>
    case LeftHeel =>
    case RightHeel =>
    case LeftFootIndex =>
    case RightFootIndex =>
  }

  /** Every position 0..32 is used, so the table is onto `[0, 33)`. */
  lemma IndexOnto(i: nat)
    requires i < LandmarkCount
    ensures Index(KeyAt(i)) == i
  {
    match i
    case 0 =>
    case 1 =>
    case 2 =>
    case 3 =>
    case 4 =>
    case 5 =>
    case 6 =>
    case 7 =>
    case 8 =>
    case 9 =>
    case 10 =>
    case 11 =>
    case 12 =>
    case 13 =>
    case 14 =>
    case 15 =>
    case 16 =>
    case 17 =>
    case 18 =>
    case 19 =>
    case 20 =>
    case 21 =>
    case 22 =>
    case 23 =>
    case 24 =>
    case 25 =>
    case 26 =>
    case 27 =>
    case 28 =>
    case 29 =>
    case 30 =>
    case 31 =>
    case _ =>
  }

  /** Two landmarks never share a position. */
  lemma IndexInjective(a: LandmarkKey, b: LandmarkKey)
    ensures Index(a) == Index(b) ==> a == b
  {
    KeyAtIndex(a);
    KeyAtIndex(b);
  }

  /** The right twin of a left landmark from the shoulders down. */
  function RightTwin(k: LandmarkKey): Option<LandmarkKey> {
    match k
    case Nose => None
    case LeftEyeInner => None
    case LeftEye => None
    case LeftEyeOuter => None
    case RightEyeInner => None
    case RightEye => None
    case RightEyeOuter => None
    case LeftEar => None
    case RightEar => None
    case MouthLeft => None
    case MouthRight => None
    case LeftShoulder => Some(RightShoulder)
    case RightShoulder => None
    case LeftElbow => Some(RightElbow)
    case RightElbow => None
    case LeftWrist => Some(RightWrist)
    case RightWrist => None
    case LeftPinky => Some(RightPinky)
    case RightPinky => None
    case LeftIndex => Some(RightIndex)
    case RightIndex => None
    case LeftThumb => Some(RightThumb)
    case RightThumb => None
    case LeftHip => Some(RightHip)
    case RightHip => None
    case LeftKnee => Some(RightKnee)
    case RightKnee => None
    case LeftAnkle => Some(RightAnkle)
    case RightAnkle => None
    case LeftHeel => Some(RightHeel)
    case RightHeel => None
    case LeftFootIndex => Some(RightFootIndex)
    case RightFootIndex => None
  }

  /** From the shoulders down, each right landmark sits just after its left twin. */
  lemma RightFollowsLeft(k: LandmarkKey)
    requires RightTwin(k).Some?
    ensures Index(RightTwin(k).value) == Index(k) + 1
  {
  }

  /** `Exercise` has the single value `high_plank`. */
  lemma SingleExercise(e: Exercise)
    ensures e == HighPlank
  {
  }
}
