/**
 * The hand-gesture classifier (services/GestureProcessor.tsx).
 *
 * Every hand snapshot is reduced to a raw label by geometric ratio tests on the
 * 21-point hand topology; the raw labels are debounced by a run-length vote with
 * per-label thresholds and a 600 ms cooldown, and a newly confirmed label becomes
 * a scene transition. The pure part (geometry and the label decision) is written
 * as functions; the five refs of the component are the fields of the class
 * GestureProcessor, whose method is tied to the step function Observe.
 */
module Gesture {
  import opened Wrappers
  import opened Types
  import opened Strings

  // ---------------------------------------------------------------------------
  // Geometry
  // ---------------------------------------------------------------------------

  /** One normalised keypoint of a hand. */
  datatype Landmark = Landmark(x: real, y: real)

  /** The keypoints of one hand, index-addressed by the standard topology. */
  type Hand = seq<Landmark>

  /**
   * getDist. The source takes the Euclidean distance with a square root; the
   * model treats it as an arbitrary function, so every result below holds for
   * any distance.
   */
  type Distance = (Landmark, Landmark) -> real

  /** Keypoints per hand and the indices the classifier reads directly. */
  const HandSize: nat := 21
  const Wrist: nat := 0
  const ThumbIp: nat := 3
  const ThumbTip: nat := 4
  const IndexMcp: nat := 5
  const MiddleMcp: nat := 9
  const PinkyMcp: nat := 17
  const PinkyTip: nat := 20

  /** The four long fingers, with their keypoints and extension thresholds. */
  datatype Finger = Index | Middle | Ring | Pinky {
    function Tip(): nat {
      match this
      case Index => 8
      case Middle => 12
      case Ring => 16
      case Pinky => 20
    }
    function Pip(): nat {
      match this
      case Index => 6
      case Middle => 10
      case Ring => 14
      case Pinky => 18
    }
    function Mcp(): nat {
      match this
      case Index => 5
      case Middle => 9
      case Ring => 13
      case Pinky => 17
    }
    function Ratio(): real {
      match this
      case Index => 0.4
      case Middle => 0.4
      case Ring => 0.35
      case Pinky => 0.3
    }
  }

  /**
   * `num / den > bound` as floating-point division evaluates it for finite
   * operands: a positive number over zero is +Infinity, which exceeds every
   * bound; 0/0 is NaN and a negative number over zero is -Infinity, which
   * exceed none. The source never guards its divisors, so neither does the model.
   */
  function QuotientExceeds(num: real, den: real, bound: real): (r: bool)
    ensures den > 0.0 ==> (r <==> num > bound * den)
    ensures den < 0.0 ==> (r <==> num < bound * den)
    ensures den == 0.0 ==> (r <==> num > 0.0)
  {
    if den == 0.0 then num > 0.0
    else
      assert num / den * den == num;
      num / den > bound
  }

  /** palmSize: wrist to middle-finger knuckle, the scale of every ratio. */
  function PalmSize(h: Hand, dist: Distance): real
    requires |h| >= HandSize
  {
    dist(h[Wrist], h[MiddleMcp])
  }

  /** isFingerExtended: the tip reaches well beyond the knuckle and beyond the PIP joint. */
  function FingerExtended(h: Hand, dist: Distance, f: Finger): (r: bool)
    requires |h| >= HandSize
    ensures r ==> dist(h[f.Tip()], h[Wrist]) > dist(h[f.Pip()], h[Wrist])
    ensures PalmSize(h, dist) > 0.0 ==>
      (r <==> dist(h[f.Tip()], h[Wrist]) - dist(h[f.Mcp()], h[Wrist]) > f.Ratio() * PalmSize(h, dist)
              && dist(h[f.Tip()], h[Wrist]) > dist(h[f.Pip()], h[Wrist]))
  {
    var tipDist := dist(h[f.Tip()], h[Wrist]);
    var pipDist := dist(h[f.Pip()], h[Wrist]);
    var mcpDist := dist(h[f.Mcp()], h[Wrist]);
    Extension(tipDist, pipDist, mcpDist, PalmSize(h, dist), f.Ratio())
  }

  /** The extension test on the three wrist distances of a finger and the palm size. */
  predicate Extension(tipDist: real, pipDist: real, mcpDist: real, palm: real, ratio: real)
  {
    QuotientExceeds(tipDist - mcpDist, palm, ratio) && tipDist > pipDist
  }

  /** isThumbExtended: the tip is beyond the IP joint and well away from the index knuckle. */
  function ThumbExtended(h: Hand, dist: Distance): (r: bool)
    requires |h| >= HandSize
    ensures r ==> dist(h[ThumbTip], h[Wrist]) > dist(h[ThumbIp], h[Wrist])
    ensures PalmSize(h, dist) > 0.0 ==>
      (r <==> dist(h[ThumbTip], h[Wrist]) > dist(h[ThumbIp], h[Wrist])
              && dist(h[ThumbTip], h[IndexMcp]) > 0.6 * PalmSize(h, dist))
  {
    dist(h[ThumbTip], h[Wrist]) > dist(h[ThumbIp], h[Wrist])
    && QuotientExceeds(dist(h[ThumbTip], h[IndexMcp]), PalmSize(h, dist), 0.6)
  }

  /** isCurled: the tip stays within 1.15 knuckle distances of the wrist. */
  predicate Curled(h: Hand, dist: Distance, f: Finger)
    requires |h| >= HandSize
  {
    dist(h[f.Tip()], h[Wrist]) < dist(h[f.Mcp()], h[Wrist]) * 1.15
  }

  /**
   * Everything the label decision reads from a hand: the five extension
   * tests, the three curl tests and the two extra ratios of the corrections.
   */
  datatype Features = Features(
    fI: bool, fM: bool, fR: bool, fP: bool, fT: bool,
    cI: bool, cM: bool, cR: bool,
    thumbClear: bool,
    pinkyReach: bool)

  function Measure(h: Hand, dist: Distance): Features
    requires |h| >= HandSize
  {
    Features(
      FingerExtended(h, dist, Index), FingerExtended(h, dist, Middle),
      FingerExtended(h, dist, Ring), FingerExtended(h, dist, Pinky),
      ThumbExtended(h, dist),
      Curled(h, dist, Index), Curled(h, dist, Middle), Curled(h, dist, Ring),
      QuotientExceeds(dist(h[ThumbTip], h[IndexMcp]), PalmSize(h, dist), 0.5),
      QuotientExceeds(dist(h[PinkyTip], h[Wrist]), dist(h[PinkyMcp], h[Wrist]), 1.1))
  }

  /** Every distance multiplied by the same factor, as when the hand is nearer the camera. */
  function Scaled(dist: Distance, c: real): Distance
  {
    (a, b) => c * dist(a, b)
  }

  /** A ratio test does not see a common positive factor of its two distances. */
  lemma QuotientScaleFree(num: real, den: real, bound: real, c: real)
    requires c > 0.0
    ensures QuotientExceeds(c * num, c * den, bound) == QuotientExceeds(num, den, bound)
  {
    if den > 0.0 {
      assert c * num > bound * (c * den) <==> num > bound * den by {
        assert bound * (c * den) == c * (bound * den);
      }
    } else if den < 0.0 {
      assert c * num < bound * (c * den) <==> num < bound * den by {
        assert bound * (c * den) == c * (bound * den);
      }
    }
  }

  /** Multiplying both sides by a positive factor keeps a comparison. */
  lemma ScaleCompare(c: real, x: real, y: real)
    requires c > 0.0
    ensures c * x > c * y <==> x > y
    ensures c * x < c * y * 1.15 <==> x < y * 1.15
    ensures c * x - c * y == c * (x - y)
  {
    assert c * y * 1.15 == c * (y * 1.15);
  }

  lemma ExtensionScaleFree(tipDist: real, pipDist: real, mcpDist: real, palm: real, ratio: real, c: real)
    requires c > 0.0
    ensures Extension(c * tipDist, c * pipDist, c * mcpDist, c * palm, ratio) == Extension(tipDist, pipDist, mcpDist, palm, ratio)
  {
    ScaleCompare(c, tipDist, mcpDist);
    ScaleCompare(c, tipDist, pipDist);
    QuotientScaleFree(tipDist - mcpDist, palm, ratio, c);
  }

  lemma FingerScaleFree(h: Hand, dist: Distance, c: real, f: Finger)
    requires |h| >= HandSize && c > 0.0
    ensures FingerExtended(h, Scaled(dist, c), f) == FingerExtended(h, dist, f)
  {
    var sd := Scaled(dist, c);
    var tipAt, pipAt, mcpAt := h[f.Tip()], h[f.Pip()], h[f.Mcp()];
    var tip, pip, mcp, palm := dist(tipAt, h[Wrist]), dist(pipAt, h[Wrist]), dist(mcpAt, h[Wrist]), PalmSize(h, dist);
    assert FingerExtended(h, dist, f) == Extension(tip, pip, mcp, palm, f.Ratio());
    assert sd(tipAt, h[Wrist]) == c * tip;
    assert sd(pipAt, h[Wrist]) == c * pip;
    assert sd(mcpAt, h[Wrist]) == c * mcp;
    assert PalmSize(h, sd) == c * palm;
    assert FingerExtended(h, sd, f) == Extension(c * tip, c * pip, c * mcp, c * palm, f.Ratio());
    ExtensionScaleFree(tip, pip, mcp, palm, f.Ratio(), c);
  }

  lemma CurledScaleFree(h: Hand, dist: Distance, c: real, f: Finger)
    requires |h| >= HandSize && c > 0.0
    ensures Curled(h, Scaled(dist, c), f) == Curled(h, dist, f)
  {
    ScaleCompare(c, dist(h[f.Tip()], h[Wrist]), dist(h[f.Mcp()], h[Wrist]));
  }

  lemma ThumbScaleFree(h: Hand, dist: Distance, c: real)
    requires |h| >= HandSize && c > 0.0
    ensures ThumbExtended(h, Scaled(dist, c)) == ThumbExtended(h, dist)
  {
    ScaleCompare(c, dist(h[ThumbTip], h[Wrist]), dist(h[ThumbIp], h[Wrist]));
    QuotientScaleFree(dist(h[ThumbTip], h[IndexMcp]), PalmSize(h, dist), 0.6, c);
  }

  /** The two extra ratios of the corrections do not see the scale either. */
  lemma CorrectionRatiosScaleFree(h: Hand, dist: Distance, c: real)
    requires |h| >= HandSize && c > 0.0
    ensures QuotientExceeds(Scaled(dist, c)(h[ThumbTip], h[IndexMcp]), PalmSize(h, Scaled(dist, c)), 0.5)
         == QuotientExceeds(dist(h[ThumbTip], h[IndexMcp]), PalmSize(h, dist), 0.5)
    ensures QuotientExceeds(Scaled(dist, c)(h[PinkyTip], h[Wrist]), Scaled(dist, c)(h[PinkyMcp], h[Wrist]), 1.1)
         == QuotientExceeds(dist(h[PinkyTip], h[Wrist]), dist(h[PinkyMcp], h[Wrist]), 1.1)
  {
    var sd := Scaled(dist, c);
    var clear, palm := dist(h[ThumbTip], h[IndexMcp]), PalmSize(h, dist);
    var reach, knuckle := dist(h[PinkyTip], h[Wrist]), dist(h[PinkyMcp], h[Wrist]);
    assert sd(h[ThumbTip], h[IndexMcp]) == c * clear && PalmSize(h, sd) == c * palm;
    assert sd(h[PinkyTip], h[Wrist]) == c * reach && sd(h[PinkyMcp], h[Wrist]) == c * knuckle;
    QuotientScaleFree(clear, palm, 0.5, c);
    QuotientScaleFree(reach, knuckle, 1.1, c);
  }

  /**
   * The tests are normalised by the palm size: scaling every distance by the
   * same positive factor scales the palm size and changes no test, so the
   * features and the raw label do not depend on the hand's distance to the
   * camera.
   */
  lemma ScaleFree(h: Hand, dist: Distance, c: real)
    requires |h| >= HandSize && c > 0.0
    ensures PalmSize(h, Scaled(dist, c)) == c * PalmSize(h, dist)
    ensures Measure(h, Scaled(dist, c)) == Measure(h, dist)
    ensures RawGesture(h, Scaled(dist, c)) == RawGesture(h, dist)
  {
    MeasureScaleFree(h, dist, c);
    assert PalmSize(h, Scaled(dist, c)) == c * PalmSize(h, dist);
  }

  lemma MeasureScaleFree(h: Hand, dist: Distance, c: real)
    requires |h| >= HandSize && c > 0.0
    ensures Measure(h, Scaled(dist, c)) == Measure(h, dist)
  {
    FingerScaleFree(h, dist, c, Index);
    FingerScaleFree(h, dist, c, Middle);
    FingerScaleFree(h, dist, c, Ring);
    FingerScaleFree(h, dist, c, Pinky);
    CurledScaleFree(h, dist, c, Index);
    CurledScaleFree(h, dist, c, Middle);
    CurledScaleFree(h, dist, c, Ring);
    ThumbScaleFree(h, dist, c);
    CorrectionRatiosScaleFree(h, dist, c);
  }

  // ---------------------------------------------------------------------------
  // Raw label
  // ---------------------------------------------------------------------------

  /**
   * A gesture label. NoLabel is the empty string the refs start with; the
   * source spells a digit label as its decimal text (see ParsePrinted).
   */
  datatype Label = NoLabel | Six | Fist | Digit(n: int)

  /** `flags.filter(Boolean).length` */
  function CountTrue(flags: seq<bool>): (n: nat)
    ensures n <= |flags|
    ensures n == 0 <==> forall i :: 0 <= i < |flags| ==> !flags[i]
    ensures n == |flags| <==> forall i :: 0 <= i < |flags| ==> flags[i]
  {
    if flags == [] then 0 else (if flags[0] then 1 else 0) + CountTrue(flags[1..])
  }

  /** How many of the four long fingers are extended. */
  function FingerCount(ft: Features): (n: nat)
    ensures n <= 4
    ensures n == 0 <==> !ft.fI && !ft.fM && !ft.fR && !ft.fP
    ensures n == 4 <==> ft.fI && ft.fM && ft.fR && ft.fP
  {
    var flags := [ft.fI, ft.fM, ft.fR, ft.fP];
    assert flags[0] == ft.fI && flags[1] == ft.fM && flags[2] == ft.fR && flags[3] == ft.fP;
    CountTrue(flags)
  }

  /** Thumb and pinky out, the other three curled. */
  predicate SixShape(ft: Features)
  {
    ft.fT && ft.fP && ft.cI && ft.cM && ft.cR
  }

  /** No long finger extended. */
  predicate FistShape(ft: Features)
  {
    !ft.fI && !ft.fM && !ft.fR && !ft.fP
  }

  /** The 4-versus-5 heuristic: four fingers up and the thumb held clear of the palm. */
  predicate CorrectionA(ft: Features)
  {
    FingerCount(ft) == 4 && !ft.fT && ft.thumbClear
  }

  /** The up-to-four heuristic: three fingers up, the pinky reaching out past its knuckle. */
  predicate CorrectionB(ft: Features)
  {
    ft.fI && ft.fM && ft.fR && !ft.fP && !ft.fT && ft.pinkyReach
  }

  function Min(a: int, b: int): int
  {
    if a <= b then a else b
  }

  /**
   * The raw-gesture decision: SIX first, then FIST, then a count of the
   * extended fingers adjusted by the two corrections.
   */
  function Classify(ft: Features): (r: Label)
    ensures r.Six? <==> SixShape(ft)
    ensures r.Fist? <==> !SixShape(ft) && FistShape(ft)
    ensures r.Digit? <==> !SixShape(ft) && !FistShape(ft)
    ensures r.Digit? ==> 1 <= r.n <= 5
  {
    if SixShape(ft) then Six
    else if FistShape(ft) then Fist
    else
      var fingerCount := FingerCount(ft);
      var total := fingerCount + (if ft.fT then 1 else 0);
      var total := if CorrectionA(ft) then 5 else total;
      var total := if CorrectionB(ft) then 4 else total;
      if total == 0 then Fist else Digit(Min(total, 5))
  }

  /** The raw label of one hand snapshot. */
  function RawGesture(h: Hand, dist: Distance): (r: Label)
    requires |h| >= HandSize
    ensures r != NoLabel
  {
    Classify(Measure(h, dist))
  }

  /**
   * In the numeric branch at least one long finger is up and the total is at
   * most five, so the FIST fallback for a zero total is never taken and the
   * cap at five never changes the count.
   */
  lemma NumericTotalInRange(ft: Features)
    requires !SixShape(ft) && !FistShape(ft)
    ensures 1 <= FingerCount(ft) + (if ft.fT then 1 else 0) <= 5
  {
  }

  /**
   * Correction A needs the pinky up (all four fingers) and correction B needs
   * it down, so at most one of them applies.
   */
  lemma CorrectionsExclusive(ft: Features)
    ensures !(CorrectionA(ft) && CorrectionB(ft))
  {
  }

  /** The digit reported in the numeric branch. */
  lemma DigitOfHand(ft: Features)
    requires !SixShape(ft) && !FistShape(ft)
    ensures Classify(ft) == Digit(
      if CorrectionA(ft) then 5
      else if CorrectionB(ft) then 4
      else FingerCount(ft) + (if ft.fT then 1 else 0))
  {
    CorrectionsExclusive(ft);
    NumericTotalInRange(ft);
  }

  // ---------------------------------------------------------------------------
  // Debouncing and transitions
  // ---------------------------------------------------------------------------

  /** Confirmation thresholds and the cooldown. */
  const NumericThreshold: nat := 4
  const ExplosionThreshold: nat := 1
  const ResetThreshold: nat := 6
  const CooldownMs: int := 600

  const WaitingStatus: string := "WAITING FOR HAND..."

  /** The status text reported with a label. */
  function StatusText(raw: Label): string
  {
    match raw
    case Six => "\U{1F919} RESET TO 2025"
    case Fist => "\U{270A} READY TO BOOM"
    case Digit(n) => "COUNTING: " + IntToString(n)
    case NoLabel => ""
  }

  /** The run length a label needs before it is confirmed. */
  function Threshold(raw: Label): (k: nat)
    ensures 1 <= k <= 6
  {
    if raw == Fist then ExplosionThreshold
    else if raw == Six then ResetThreshold
    else NumericThreshold
  }

  /** A call of onStateChange: the new scene and, for the countdown, its number. */
  datatype Emission = Emission(state: AppState, value: Option<int>)

  /** What one snapshot produces: an onGestureDetected call and an onStateChange call, each optional. */
  datatype Outcome = Outcome(status: Option<string>, emitted: Option<Emission>)

  const Silent: Outcome := Outcome(None, None)

  /** The five refs of the component. */
  datatype Tracker = Tracker(
    lastConfirmed: Label,
    votes: map<Label, int>,
    lastRaw: Label,
    lastChange: int,
    appState: AppState)

  const InitialTracker: Tracker := Tracker(NoLabel, map[], NoLabel, 0, Bye2025)

  /** The vote table holds a single run, that of the last raw label (or nothing yet). */
  ghost predicate VotesWellFormed(t: Tracker)
  {
    (t.votes == map[] && t.lastRaw == NoLabel)
    || (t.votes.Keys == {t.lastRaw} && t.votes[t.lastRaw] >= 1)
  }

  /**
   * A confirmed FIST or SIX has its scene: the confirmation and the scene
   * change happen together, and only another confirmation moves either.
   */
  ghost predicate ConfirmedSceneAgrees(t: Tracker)
  {
    && (t.lastConfirmed == Fist ==> t.appState == Happy2026)
    && (t.lastConfirmed == Six ==> t.appState == Bye2025)
  }

  /** What every tracker reachable from the initial refs satisfies. */
  ghost predicate Reachable(t: Tracker)
  {
    VotesWellFormed(t) && ConfirmedSceneAgrees(t)
  }

  /** The run-length vote: extend the run of a repeated label, otherwise restart at 1. */
  function Vote(t: Tracker, raw: Label): (r: Tracker)
    ensures r.lastRaw == raw && raw in r.votes
    ensures r.lastConfirmed == t.lastConfirmed && r.lastChange == t.lastChange && r.appState == t.appState
  {
    if raw == t.lastRaw then
      t.(votes := t.votes[raw := (if raw in t.votes then t.votes[raw] else 0) + 1])
    else
      t.(votes := map[raw := 1], lastRaw := raw)
  }

  /** FIST from any scene other than the celebration skips the cooldown. */
  predicate ExplosionTrigger(t: Tracker, raw: Label)
  {
    raw == Fist && t.appState != Happy2026
  }

  /** The label, just voted for, is confirmed now. */
  predicate Confirms(t: Tracker, raw: Label, now: int)
  {
    && (ExplosionTrigger(t, raw) || now - t.lastChange >= CooldownMs)
    && raw in t.votes && t.votes[raw] >= Threshold(raw)
    && raw != t.lastConfirmed
  }

  /** The scene change a newly confirmed label asks for. */
  function Transition(t: Tracker, raw: Label, now: int): (r: (Tracker, Outcome))
    ensures r.0.votes == t.votes && r.0.lastRaw == t.lastRaw && r.0.lastConfirmed == t.lastConfirmed
    ensures r.1.status == Some(StatusText(raw))
    ensures r.1.emitted.Some? ==> r.0.appState == r.1.emitted.value.state != t.appState || raw.Digit?
    ensures r.1.emitted.None? ==> r.0 == t
    ensures r.0.lastChange != t.lastChange ==> r.0.lastChange == now && (raw == Fist || raw == Six)
    ensures raw == Fist ==> r.0.appState == Happy2026
    ensures raw == Six ==> r.0.appState == Bye2025
  {
    var status := Some(StatusText(raw));
    match raw
    case Fist =>
      if t.appState != Happy2026 then
        (t.(appState := Happy2026, lastChange := now), Outcome(status, Some(Emission(Happy2026, None))))
      else (t, Outcome(status, None))
    case Six =>
      if t.appState != Bye2025 then
        (t.(appState := Bye2025, lastChange := now), Outcome(status, Some(Emission(Bye2025, None))))
      else (t, Outcome(status, None))
    case Digit(n) =>
      if n >= 1 then (t.(appState := Countdown), Outcome(status, Some(Emission(Countdown, Some(n)))))
      else (t, Outcome(status, None))
    case NoLabel => (t, Outcome(status, None))
  }

  /** Cooldown, threshold and confirmation, applied after the vote. */
  function Decide(t: Tracker, raw: Label, now: int): (r: (Tracker, Outcome))
    ensures r.0.votes == t.votes && r.0.lastRaw == t.lastRaw
    ensures !Confirms(t, raw, now) ==> r == (t, Silent)
    ensures Confirms(t, raw, now) ==> r.0.lastConfirmed == raw && r.1.status == Some(StatusText(raw))
    ensures r.1.emitted.Some? ==> Confirms(t, raw, now)
    ensures raw == Fist && Confirms(t, raw, now) ==>
      if t.appState != Happy2026
      then r.1.emitted == Some(Emission(Happy2026, None)) && r.0.appState == Happy2026 && r.0.lastChange == now
      else r.1.emitted == None && r.0.appState == t.appState && r.0.lastChange == t.lastChange
    ensures raw == Six && Confirms(t, raw, now) ==>
      if t.appState != Bye2025
      then r.1.emitted == Some(Emission(Bye2025, None)) && r.0.appState == Bye2025 && r.0.lastChange == now
      else r.1.emitted == None && r.0.appState == t.appState && r.0.lastChange == t.lastChange
    ensures raw.Digit? && raw.n >= 1 && Confirms(t, raw, now) ==>
      r.1.emitted == Some(Emission(Countdown, Some(raw.n))) && r.0.appState == Countdown && r.0.lastChange == t.lastChange
  {
    if !ExplosionTrigger(t, raw) && now - t.lastChange < CooldownMs then (t, Silent)
    else if raw in t.votes && t.votes[raw] >= Threshold(raw) && raw != t.lastConfirmed then
      Transition(t.(lastConfirmed := raw), raw, now)
    else (t, Silent)
  }

  /** One call of the effect: the landmarks of at most one hand at time `now`. */
  function Observe(t: Tracker, landmarks: seq<Hand>, dist: Distance, now: int): (r: (Tracker, Outcome))
    requires landmarks != [] ==> |landmarks[0]| >= HandSize
    ensures landmarks == [] ==> r == (t, Outcome(Some(WaitingStatus), None))
    ensures landmarks != [] ==> r.0.lastRaw == RawGesture(landmarks[0], dist)
  {
    if landmarks == [] then (t, Outcome(Some(WaitingStatus), None))
    else
      var raw := RawGesture(landmarks[0], dist);
      Decide(Vote(t, raw), raw, now)
  }

  // ---------------------------------------------------------------------------
  // Properties of the debouncer
  // ---------------------------------------------------------------------------

  /**
   * After a hand snapshot the vote table has exactly one key, the raw label,
   * and its count is the previous run plus one if the label repeated, else 1.
   */
  lemma VotingKeepsOneRun(t: Tracker, landmarks: seq<Hand>, dist: Distance, now: int)
    requires VotesWellFormed(t)
    requires landmarks != [] && |landmarks[0]| >= HandSize
    ensures var raw := RawGesture(landmarks[0], dist);
      var r := Observe(t, landmarks, dist, now).0;
      && VotesWellFormed(r)
      && r.votes.Keys == {raw}
      && r.votes[raw] == (if raw == t.lastRaw then t.votes[raw] + 1 else 1)
  {
  }

  /** Every snapshot, with or without a hand, keeps the vote table well formed. */
  lemma ObservePreservesVotes(t: Tracker, landmarks: seq<Hand>, dist: Distance, now: int)
    requires VotesWellFormed(t)
    requires landmarks != [] ==> |landmarks[0]| >= HandSize
    ensures VotesWellFormed(Observe(t, landmarks, dist, now).0)
  {
    if landmarks != [] {
      VotingKeepsOneRun(t, landmarks, dist, now);
    }
  }

  /** The initial refs are reachable, and every snapshot keeps the refs reachable. */
  lemma ObserveKeepsReachable(t: Tracker, landmarks: seq<Hand>, dist: Distance, now: int)
    requires Reachable(t)
    requires landmarks != [] ==> |landmarks[0]| >= HandSize
    ensures Reachable(InitialTracker)
    ensures Reachable(Observe(t, landmarks, dist, now).0)
  {
    ObservePreservesVotes(t, landmarks, dist, now);
  }

  /**
   * Outside the FIST-into-celebration case nothing is confirmed during the
   * cooldown, yet the vote is still counted.
   */
  lemma CooldownSuppresses(t: Tracker, landmarks: seq<Hand>, dist: Distance, now: int)
    requires landmarks != [] && |landmarks[0]| >= HandSize
    requires !ExplosionTrigger(t, RawGesture(landmarks[0], dist))
    requires now - t.lastChange < CooldownMs
    ensures var r := Observe(t, landmarks, dist, now);
      r.1 == Silent && r.0 == Vote(t, RawGesture(landmarks[0], dist))
  {
  }

  /**
   * A closed fist outside the celebration switches to it on the very first
   * snapshot, whatever the time since the last transition.
   */
  lemma FistCelebratesAtOnce(t: Tracker, landmarks: seq<Hand>, dist: Distance, now: int)
    requires Reachable(t)
    requires landmarks != [] && |landmarks[0]| >= HandSize
    requires RawGesture(landmarks[0], dist) == Fist
    requires t.appState != Happy2026
    ensures var r := Observe(t, landmarks, dist, now);
      r.1.emitted == Some(Emission(Happy2026, None)) && r.0.appState == Happy2026 && r.0.lastChange == now
  {
  }

  /** Once a label is the confirmed one, repeating it never emits again. */
  lemma ConfirmedLabelIsQuiet(t: Tracker, raw: Label, now: int)
    requires raw == t.lastConfirmed
    ensures Decide(Vote(t, raw), raw, now) == (Vote(t, raw), Silent)
  {
  }

  /** The scenes emitted by a run of outcomes, in order. */
  function Emissions(outs: seq<Outcome>): seq<Emission>
  {
    if outs == [] then []
    else (if outs[0].emitted.Some? then [outs[0].emitted.value] else []) + Emissions(outs[1..])
  }

  /** Feeds a run of raw labels, the i-th observed at time times[i]. */
  function Feed(t: Tracker, raws: seq<Label>, times: seq<int>): (Tracker, seq<Outcome>)
    requires |raws| == |times|
    decreases |raws|
  {
    if raws == [] then (t, [])
    else
      var step := Decide(Vote(t, raws[0]), raws[0], times[0]);
      var rest := Feed(step.0, raws[1..], times[1..]);
      (rest.0, [step.1] + rest.1)
  }

  /** Holding the confirmed label emits nothing more and leaves the scene and its time alone. */
  lemma {:induction false} ConfirmedRunStaysQuiet(t: Tracker, raw: Label, times: seq<int>)
    requires t.lastConfirmed == raw
    ensures var f := Feed(t, seq(|times|, _ => raw), times);
      && Emissions(f.1) == []
      && f.0.lastConfirmed == raw && f.0.appState == t.appState && f.0.lastChange == t.lastChange
    decreases |times|
  {
    if times != [] {
      var raws := seq(|times|, _ => raw);
      var t1 := Vote(t, raw);
      assert raws[1..] == seq(|times| - 1, _ => raw);
      ConfirmedRunStaysQuiet(t1, raw, times[1..]);
    }
  }

  /**
   * Below its threshold a held label (already voted `c` times, not confirmed)
   * only grows its run and emits nothing, whatever the times.
   */
  lemma {:induction false} RunBuilds(t: Tracker, raw: Label, c: nat, times: seq<int>)
    requires t.lastRaw == raw && t.votes.Keys == {raw} && t.votes[raw] == c
    requires t.lastConfirmed != raw
    requires c + |times| < Threshold(raw)
    ensures var f := Feed(t, seq(|times|, _ => raw), times);
      && Emissions(f.1) == []
      && f.0.lastRaw == raw && f.0.votes == map[raw := c + |times|]
      && f.0.lastConfirmed == t.lastConfirmed && f.0.lastChange == t.lastChange && f.0.appState == t.appState
    decreases |times|
  {
    if times != [] {
      var raws := seq(|times|, _ => raw);
      var t1 := Vote(t, raw);
      assert t1.votes == map[raw := c + 1];
      assert raws[1..] == seq(|times| - 1, _ => raw);
      RunBuilds(t1, raw, c + 1, times[1..]);
    } else {
      assert t.votes == map[raw := c];
    }
  }

  lemma {:induction false} FeedSplit(t: Tracker, a: seq<Label>, b: seq<Label>, ta: seq<int>, tb: seq<int>)
    requires |a| == |ta| && |b| == |tb|
    ensures var fa := Feed(t, a, ta);
      var fb := Feed(fa.0, b, tb);
      Feed(t, a + b, ta + tb) == (fb.0, fa.1 + fb.1)
    decreases |a|
  {
    if a != [] {
      var step := Decide(Vote(t, a[0]), a[0], ta[0]);
      assert (a + b)[0] == a[0] && (a + b)[1..] == a[1..] + b;
      assert (ta + tb)[0] == ta[0] && (ta + tb)[1..] == ta[1..] + tb;
      FeedSplit(step.0, a[1..], b, ta[1..], tb);
      var fa' := Feed(step.0, a[1..], ta[1..]);
      var fb := Feed(fa'.0, b, tb);
      assert Feed(t, a + b, ta + tb) == (fb.0, [step.1] + (fa'.1 + fb.1));
      assert [step.1] + (fa'.1 + fb.1) == ([step.1] + fa'.1) + fb.1;
    } else {
      assert a + b == b && ta + tb == tb;
      var fb := Feed(t, b, tb);
      assert [] + fb.1 == fb.1;
    }
  }

  lemma {:induction false} EmissionsAppend(a: seq<Outcome>, b: seq<Outcome>)
    ensures Emissions(a + b) == Emissions(a) + Emissions(b)
  {
    if a != [] {
      assert (a + b)[1..] == a[1..] + b;
      EmissionsAppend(a[1..], b);
    } else {
      assert a + b == b;
    }
  }

  /** Feeding one snapshot ahead of a run. */
  lemma FeedCons(t: Tracker, raw: Label, rest: seq<Label>, now: int, times: seq<int>)
    requires |rest| == |times|
    ensures var step := Decide(Vote(t, raw), raw, now);
      var f := Feed(step.0, rest, times);
      Feed(t, [raw] + rest, [now] + times) == (f.0, [step.1] + f.1)
  {
    assert ([raw] + rest)[0] == raw && ([raw] + rest)[1..] == rest;
    assert ([now] + times)[0] == now && ([now] + times)[1..] == times;
  }

  /**
   * The first snapshots of a new label, fewer than its threshold, start its
   * run and emit nothing, whatever the cooldown: a SIX needs six snapshots
   * in a row and a digit four.
   */
  lemma RunStarts(t: Tracker, raw: Label, times: seq<int>)
    requires t.lastRaw != raw && t.lastConfirmed != raw
    requires 1 <= |times| < Threshold(raw)
    ensures var f := Feed(t, seq(|times|, _ => raw), times);
      && Emissions(f.1) == []
      && f.0.lastRaw == raw && f.0.votes == map[raw := |times|]
      && f.0.lastConfirmed == t.lastConfirmed && f.0.lastChange == t.lastChange && f.0.appState == t.appState
  {
    var t1 := Vote(t, raw);
    assert t1.votes == map[raw := 1];
    var s1 := Decide(t1, raw, times[0]);
    assert s1 == (t1, Silent);
    var more := seq(|times| - 1, _ => raw);
    assert seq(|times|, _ => raw) == [raw] + more;
    assert times == [times[0]] + times[1..];
    FeedCons(t, raw, more, times[0], times[1..]);
    RunBuilds(t1, raw, 1, times[1..]);
    EmissionsAppend([Silent], Feed(t1, more, times[1..]).1);
  }

  /**
   * The rest of a run once it stands one vote short of its threshold, the
   * next snapshot after the cooldown: that snapshot confirms the label, and
   * the run ends as the label's transition at that time leaves the scene,
   * with that transition's emission as its only one.
   */
  lemma ConfirmingRun(s: Tracker, raw: Label, times: seq<int>)
    requires s.lastRaw == raw && s.votes == map[raw := Threshold(raw) - 1] && s.lastConfirmed != raw
    requires |times| >= 1 && times[0] - s.lastChange >= CooldownMs
    ensures var c := Transition(s, raw, times[0]);
      var f := Feed(s, seq(|times|, _ => raw), times);
      && Emissions(f.1) == Emissions([c.1])
      && f.0.appState == c.0.appState && f.0.lastChange == c.0.lastChange
  {
    var voted := Vote(s, raw);
    assert voted.votes[raw] == Threshold(raw);
    var confirm := Decide(voted, raw, times[0]);
    assert confirm == Transition(voted.(lastConfirmed := raw), raw, times[0]);
    var more := seq(|times| - 1, _ => raw);
    assert seq(|times|, _ => raw) == [raw] + more;
    assert times == [times[0]] + times[1..];
    FeedCons(s, raw, more, times[0], times[1..]);
    ConfirmedRunStaysQuiet(confirm.0, raw, times[1..]);
    EmissionsAppend([confirm.1], Feed(confirm.0, more, times[1..]).1);
  }

  /**
   * A new label held for at least its threshold of snapshots, the
   * threshold-th after the cooldown: that snapshot confirms it, and the run
   * ends as the label's transition at that snapshot's time leaves the scene,
   * with that transition's emission as its only one.
   */
  lemma HeldRunConfirms(t: Tracker, raw: Label, times: seq<int>)
    requires t.lastRaw != raw && t.lastConfirmed != raw
    requires 2 <= Threshold(raw) <= |times|
    requires times[Threshold(raw) - 1] - t.lastChange >= CooldownMs
    ensures var c := Transition(t, raw, times[Threshold(raw) - 1]);
      var f := Feed(t, seq(|times|, _ => raw), times);
      && Emissions(f.1) == Emissions([c.1])
      && f.0.appState == c.0.appState && f.0.lastChange == c.0.lastChange
  {
    var n := Threshold(raw);
    SplitRun(t, raw, times, n - 1);
    RunStarts(t, raw, times[..n - 1]);
    var fh := Feed(t, seq(n - 1, _ => raw), times[..n - 1]);
    ConfirmingRun(fh.0, raw, times[n - 1..]);
    assert Transition(fh.0, raw, times[n - 1]).1 == Transition(t, raw, times[n - 1]).1;
  }

  /** A run of one label, cut after its k-th snapshot. */
  lemma SplitRun(t: Tracker, raw: Label, times: seq<int>, k: nat)
    requires k <= |times|
    ensures var fh := Feed(t, seq(k, _ => raw), times[..k]);
      var ft := Feed(fh.0, seq(|times| - k, _ => raw), times[k..]);
      var f := Feed(t, seq(|times|, _ => raw), times);
      f.0 == ft.0 && Emissions(f.1) == Emissions(fh.1) + Emissions(ft.1)
  {
    var headRaws, tailRaws := seq(k, _ => raw), seq(|times| - k, _ => raw);
    assert times == times[..k] + times[k..];
    assert seq(|times|, _ => raw) == headRaws + tailRaws;
    FeedSplit(t, headRaws, tailRaws, times[..k], times[k..]);
    var fh := Feed(t, headRaws, times[..k]);
    EmissionsAppend(fh.1, Feed(fh.0, tailRaws, times[k..]).1);
  }

  /**
   * A new digit held for at least four snapshots, the fourth after the
   * cooldown, emits exactly one countdown transition, for that digit, and
   * leaves the cooldown clock alone.
   */
  lemma HeldDigitEmitsOnce(t: Tracker, d: int, times: seq<int>)
    requires 1 <= d <= 5 && |times| >= NumericThreshold
    requires t.lastRaw != Digit(d) && t.lastConfirmed != Digit(d)
    requires times[NumericThreshold - 1] - t.lastChange >= CooldownMs
    ensures var f := Feed(t, seq(|times|, _ => Digit(d)), times);
      && Emissions(f.1) == [Emission(Countdown, Some(d))]
      && f.0.appState == Countdown && f.0.lastChange == t.lastChange
  {
    HeldRunConfirms(t, Digit(d), times);
  }

  /**
   * A "call me" hand held for six snapshots outside the farewell, the sixth
   * after the cooldown, resets to the farewell once and stamps the sixth
   * snapshot's time; RunStarts shows that five are not enough.
   */
  lemma HeldSixResets(t: Tracker, times: seq<int>)
    requires Reachable(t)
    requires t.lastRaw != Six && t.appState != Bye2025
    requires |times| >= ResetThreshold
    requires times[ResetThreshold - 1] - t.lastChange >= CooldownMs
    ensures var f := Feed(t, seq(|times|, _ => Six), times);
      && Emissions(f.1) == [Emission(Bye2025, None)]
      && f.0.appState == Bye2025 && f.0.lastChange == times[ResetThreshold - 1]
  {
    HeldRunConfirms(t, Six, times);
  }

  // ---------------------------------------------------------------------------
  // The component
  // ---------------------------------------------------------------------------

  /** The classifier component; its fields are the component's refs. */
  class GestureProcessor {
    var lastConfirmedGesture: Label
    var voteCounter: map<Label, int>
    var lastRawGesture: Label
    var lastStateChangeTime: int
    var internalAppState: AppState

    function State(): Tracker
      reads this
    {
      Tracker(lastConfirmedGesture, voteCounter, lastRawGesture, lastStateChangeTime, internalAppState)
    }

    ghost predicate Valid()
      reads this
    {
      Reachable(State())
    }

    constructor ()
      ensures Valid() && State() == InitialTracker
    {
      lastConfirmedGesture := NoLabel;
      voteCounter := map[];
      lastRawGesture := NoLabel;
      lastStateChangeTime := 0;
      internalAppState := Bye2025;
    }

    /**
     * The effect body for one landmarks update: returns the status text passed
     * to onGestureDetected and the transition passed to onStateChange, if any.
     */
    method OnLandmarks(landmarks: seq<Hand>, dist: Distance, now: int)
      returns (status: Option<string>, emitted: Option<Emission>)
      requires Valid()
      requires landmarks != [] ==> |landmarks[0]| >= HandSize
      modifies this
      ensures Valid()
      ensures (State(), Outcome(status, emitted)) == Observe(old(State()), landmarks, dist, now)
    {
      ObserveKeepsReachable(State(), landmarks, dist, now);
      status, emitted := None, None;
      if landmarks == [] {
        status := Some(WaitingStatus);
        return;
      }
      var currentRaw := RawGesture(landmarks[0], dist);
      var gestureLabel := StatusText(currentRaw);
      CountVote(currentRaw);

      var isExplosionTrigger := currentRaw == Fist && internalAppState != Happy2026;
      if !isExplosionTrigger && now - lastStateChangeTime < CooldownMs {
        return;
      }

      status, emitted := Confirm(currentRaw, gestureLabel, now);
    }

    /** The run-length vote of the effect body. */
    method CountVote(currentRaw: Label)
      modifies this
      ensures State() == Vote(old(State()), currentRaw)
    {
      if currentRaw == lastRawGesture {
        voteCounter := voteCounter[currentRaw := (if currentRaw in voteCounter then voteCounter[currentRaw] else 0) + 1];
      } else {
        voteCounter := map[currentRaw := 1];
        lastRawGesture := currentRaw;
      }
    }

    /**
     * Threshold, novelty and transition, once the cooldown check has passed:
     * the second half of the effect body.
     */
    method Confirm(currentRaw: Label, gestureLabel: string, now: int)
      returns (status: Option<string>, emitted: Option<Emission>)
      requires gestureLabel == StatusText(currentRaw)
      modifies this
      ensures (State(), Outcome(status, emitted)) ==
        if currentRaw in old(voteCounter) && old(voteCounter)[currentRaw] >= Threshold(currentRaw)
           && currentRaw != old(lastConfirmedGesture)
        then Transition(old(State()).(lastConfirmed := currentRaw), currentRaw, now)
        else (old(State()), Silent)
    {
      status, emitted := None, None;
      var requiredThreshold := NumericThreshold;
      if currentRaw == Fist {
        requiredThreshold := ExplosionThreshold;
      }
      if currentRaw == Six {
        requiredThreshold := ResetThreshold;
      }

      if currentRaw in voteCounter && voteCounter[currentRaw] >= requiredThreshold {
        if currentRaw != lastConfirmedGesture {
          lastConfirmedGesture := currentRaw;
          status := Some(gestureLabel);
          if currentRaw == Fist {
            if internalAppState != Happy2026 {
              internalAppState := Happy2026;
              lastStateChangeTime := now;
              emitted := Some(Emission(Happy2026, None));
            }
          } else if currentRaw == Six {
            if internalAppState != Bye2025 {
              internalAppState := Bye2025;
              lastStateChangeTime := now;
              emitted := Some(Emission(Bye2025, None));
            }
          } else if currentRaw.Digit? && currentRaw.n >= 1 {
            internalAppState := Countdown;
            emitted := Some(Emission(Countdown, Some(currentRaw.n)));
          }
        }
      }
    }
  }
}
