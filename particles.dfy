/**
 * The particle-field engine of components/ParticleCanvas.tsx: the state the
 * component keeps in refs (the particle array, the firework list, the last
 * scene, the one-shot firework flag and the transition clock), the scene
 * change handling of updateStateTargets, and one frame of the render loop.
 *
 * Time, the window size, Math.random, trigonometry and the canvas are
 * parameters: a random draw in [0, 1) is passed in, and so are the spark and
 * impulse velocities the source computes with Math.cos and Math.sin.
 */
module Particles {
  import opened Types
  import opened Strings
  import opened Targets

  /** A particle of the text formation (SmoothParticle). */
  datatype SmoothParticle = SmoothParticle(
    x: real, y: real,
    vx: real, vy: real,
    tx: real, ty: real,
    size: real, color: Color,
    prevTx: real, prevTy: real,
    lastEffectiveTx: real, lastEffectiveTy: real)

  /** A spark of a firework burst (FireworkParticle). */
  datatype FireworkParticle = FireworkParticle(
    x: real, y: real,
    vx: real, vy: real,
    life: real, maxLife: real,
    color: Color, size: real)

  /** A spawnFireworks call handed to setTimeout: its delay and its arguments. */
  datatype Burst = Burst(delayMs: int, x: real, y: real, palette: seq<Color>)

  /**
   * The random inputs of one spark: its velocity (cos and sin of a random
   * angle times a random speed) and two draws in [0, 1) for colour and size.
   */
  datatype SparkDraw = SparkDraw(vx: real, vy: real, colorPick: real, sizePick: real)

  const TransitionDurationMs: int := 500
  const SparksPerBurst: nat := 40
  const BurstCount: nat := 8
  const BurstIntervalMs: int := 200
  const LifeDecay: real := 0.015
  const SparkDrag: real := 0.96
  const Gravity: real := 0.05
  const SnapDistance: real := 0.5
  const SnapDamping: real := 0.2
  const InitialCountdown: int := 5
  const SeedColor: Color := "#ffffff"

  // ---------------------------------------------------------------------------
  // Scene text, colour and change detection
  // ---------------------------------------------------------------------------

  const ByeText: string := "BYE 2025"
  const HappyText: string := "HAPPY\n2026"

  /** The text the particles spell in a scene. */
  function DisplayText(state: AppState, countdownValue: int): (text: string)
    ensures state == Countdown && 0 <= countdownValue <= 9 ==> |text| == 1
  {
    match state
    case Bye2025 => ByeText
    case Countdown => IntToString(countdownValue)
    case Happy2026 => HappyText
  }

  /** The farewell is drawn on one line, the celebration on the two lines "HAPPY" and "2026". */
  lemma DisplayLines(state: AppState, countdownValue: int)
    ensures state == Bye2025 ==> Split(DisplayText(state, countdownValue), LineBreak) == ["BYE 2025"]
    ensures state == Happy2026 ==> Split(DisplayText(state, countdownValue), LineBreak) == ["HAPPY", "2026"]
  {
    if state == Bye2025 {
      assert LineBreak !in ByeText;
      SplitWhole(ByeText, LineBreak);
    } else if state == Happy2026 {
      var first, second := "HAPPY", "2026";
      assert LineBreak !in first && LineBreak !in second;
      assert HappyText == first + [LineBreak] + second;
      SplitAtFirst(first, second, LineBreak);
      SplitWhole(second, LineBreak);
    }
  }

  /** getTargetColor */
  function TargetColor(state: AppState, palette: PaletteName, idx: nat): (c: Color)
    ensures state == Bye2025 ==> c in CoolPalette
    ensures state == Countdown ==> c == CountdownColor
    ensures state == Happy2026 ==> c in Palette(palette)
  {
    if state == Bye2025 then CoolPalette[idx % |CoolPalette|]
    else if state == Countdown then CountdownColor
    else
      var p := Palette(palette);
      p[idx % |p|]
  }

  /** Neighbouring particles take the three colours of a palette in turn. */
  lemma ColorsCycle(state: AppState, palette: PaletteName, idx: nat)
    ensures TargetColor(state, palette, idx + 3) == TargetColor(state, palette, idx)
    ensures state != Countdown ==> TargetColor(state, palette, idx) != TargetColor(state, palette, idx + 1)
  {
  }

  /**
   * stateChanged: another scene, or another number within the countdown. A
   * call that is not a change shows the same text as the recorded scene.
   */
  function StateChanged(state: AppState, count: int, lastState: AppState, lastCount: int): (r: bool)
    ensures state != lastState ==> r
    ensures r && state == lastState ==> state == Countdown && count != lastCount
    ensures !r ==> DisplayText(state, count) == DisplayText(lastState, lastCount)
  {
    state != lastState || (state == Countdown && count != lastCount)
  }

  /** Re-running with the scene just recorded is never a change. */
  lemma RecordedStateIsUnchanged(state: AppState, count: int)
    ensures !StateChanged(state, count, state, count)
  {
  }

  /**
   * The one-shot firework guard: the new flag and how many bursts are
   * scheduled for a call with the given change status.
   */
  function FireworkGuard(flag: bool, changed: bool, state: AppState): (r: (bool, nat))
    ensures !changed ==> r == (flag, 0)
    ensures changed && state != Happy2026 ==> r == (false, 0)
    ensures changed && state == Happy2026 ==> r.0 && r.1 == (if flag then 0 else BurstCount)
  {
    if !changed then (flag, 0)
    else
      var cleared := if state != Happy2026 then false else flag;
      if state == Happy2026 && !cleared then (true, BurstCount) else (cleared, 0)
  }

  /**
   * With the flag only ever set in the celebration (the invariant Valid keeps),
   * every entry into the celebration schedules the eight bursts and staying in
   * it schedules none.
   */
  lemma EveryEntryCelebrates(flag: bool, lastState: AppState, lastCount: int, state: AppState, count: int)
    requires flag ==> lastState == Happy2026
    ensures var g := FireworkGuard(flag, StateChanged(state, count, lastState, lastCount), state);
      && (state == Happy2026 && lastState != Happy2026 ==> g.1 == BurstCount)
      && (state == lastState ==> g.1 == 0)
      && (g.0 ==> state == Happy2026)
  {
  }

  /** The eight bursts scheduled on entering the celebration, 200 ms apart. */
  function BurstPlan(w: int, h: int, palette: seq<Color>, draw: nat -> Point): (plan: seq<Burst>)
    ensures |plan| == BurstCount
    ensures forall i :: 0 <= i < BurstCount ==> plan[i].delayMs == i * BurstIntervalMs && plan[i].palette == palette
  {
    seq(BurstCount, i requires 0 <= i < BurstCount =>
      Burst(i * BurstIntervalMs, draw(i).x * w as real, draw(i).y * h as real * 0.7, palette))
  }

  // ---------------------------------------------------------------------------
  // Particle updates
  // ---------------------------------------------------------------------------

  /** A particle created by initParticles at a random spot, at rest on itself. */
  function Seed(draw: Point, w: int, h: int, size: real): (p: SmoothParticle)
    ensures p.vx == 0.0 && p.vy == 0.0
    ensures p.tx == p.prevTx == p.lastEffectiveTx == p.x
    ensures p.ty == p.prevTy == p.lastEffectiveTy == p.y
  {
    var px := draw.x * w as real;
    var py := draw.y * h as real;
    SmoothParticle(px, py, 0.0, 0.0, px, py, size, SeedColor, px, py, px, py)
  }

  /** The freeze on a scene change: the interpolated target becomes the start of the next transition. */
  function Freeze(p: SmoothParticle): (r: SmoothParticle)
    ensures r.prevTx == p.lastEffectiveTx && r.prevTy == p.lastEffectiveTy
    ensures r.(prevTx := p.prevTx, prevTy := p.prevTy) == p
  {
    p.(prevTx := p.lastEffectiveTx, prevTy := p.lastEffectiveTy)
  }

  /**
   * The per-particle assignment of updateStateTargets: the new target and
   * colour, and on a change the velocity reset (countdown) or the radial
   * kick (celebration).
   */
  function Retarget(p: SmoothParticle, target: Point, color: Color, state: AppState, changed: bool, kick: Point)
    : (r: SmoothParticle)
    ensures r.tx == target.x && r.ty == target.y && r.color == color
    ensures r.x == p.x && r.y == p.y && r.prevTx == p.prevTx && r.prevTy == p.prevTy
    ensures r.lastEffectiveTx == p.lastEffectiveTx && r.lastEffectiveTy == p.lastEffectiveTy && r.size == p.size
    ensures changed && state == Countdown ==> r.vx == 0.0 && r.vy == 0.0
    ensures changed && state == Happy2026 ==> r.vx == p.vx + kick.x && r.vy == p.vy + kick.y
    ensures !changed || state == Bye2025 ==> r.vx == p.vx && r.vy == p.vy
  {
    var q := p.(tx := target.x, ty := target.y, color := color);
    if changed && state == Countdown then q.(vx := 0.0, vy := 0.0)
    else if changed && state == Happy2026 then q.(vx := q.vx + kick.x, vy := q.vy + kick.y)
    else q
  }

  function MinReal(a: real, b: real): real
  {
    if a <= b then a else b
  }

  function Abs(a: real): real
  {
    if a < 0.0 then -a else a
  }

  function Cube(a: real): real
  {
    a * a * a
  }

  lemma CubeMonotone(a: real, b: real)
    requires 0.0 <= a <= b
    ensures 0.0 <= Cube(a) <= Cube(b)
  {
    assert a * a <= b * b by {
      assert a * a <= a * b;
      assert a * b <= b * b;
    }
    assert a * a * a <= b * b * a;
    assert b * b * a <= b * b * b;
  }

  /** progress = min(elapsed / 500, 1) */
  function Progress(elapsed: int): (p: real)
    ensures elapsed >= 0 ==> 0.0 <= p <= 1.0
    ensures p == 1.0 <==> elapsed >= TransitionDurationMs
  {
    MinReal(elapsed as real / TransitionDurationMs as real, 1.0)
  }

  /** The cubic ease-out of the transition clock: 1 - (1 - progress)^3. */
  function Eased(elapsed: int): (e: real)
    ensures elapsed >= 0 ==> 0.0 <= e <= 1.0
    ensures elapsed >= TransitionDurationMs ==> e == 1.0
  {
    var progress := Progress(elapsed);
    var e := 1.0 - Cube(1.0 - progress);
    assert elapsed >= 0 ==> 0.0 <= e <= 1.0 by {
      if elapsed >= 0 {
        CubeMonotone(1.0 - progress, 1.0);
      }
    }
    e
  }

  /** The easing never moves backwards as the transition clock runs. */
  lemma EasedMonotone(a: int, b: int)
    requires 0 <= a <= b
    ensures Eased(a) <= Eased(b)
  {
    assert Progress(a) <= Progress(b);
    CubeMonotone(1.0 - Progress(b), 1.0 - Progress(a));
  }

  lemma ScaleDown(a: real, f: real)
    requires 0.0 <= a && 0.0 <= f <= 1.0
    ensures 0.0 <= a * f <= a
  {
    assert a - a * f == a * (1.0 - f);
  }

  /** The effective target: prev + (t - prev) * eased. */
  function Lerp(prev: real, target: real, eased: real): (r: real)
    ensures eased == 1.0 ==> r == target
    ensures eased == 0.0 ==> r == prev
  {
    prev + (target - prev) * eased
  }

  /** While the transition runs, the effective target stays between the old and the new target. */
  lemma LerpBetween(prev: real, target: real, eased: real)
    requires 0.0 <= eased <= 1.0
    ensures prev <= target ==> prev <= Lerp(prev, target, eased) <= target
    ensures target <= prev ==> target <= Lerp(prev, target, eased) <= prev
  {
    var gap := target - prev;
    var step := gap * eased;
    assert Lerp(prev, target, eased) == prev + step;
    if prev <= target {
      ScaleDown(gap, eased);
    } else {
      var back := prev - target;
      ScaleDown(back, eased);
      assert step == -(back * eased);
    }
  }

  /**
   * The spring constant of a scene: a pull toward the target short of
   * overshooting it, strongest by far in the countdown.
   */
  function Attraction(state: AppState): (a: real)
    ensures 0.0 < a < 1.0
    ensures state == Countdown <==> a > 0.1
  {
    if state == Countdown then 0.45 else if state == Happy2026 then 0.015 else 0.012
  }

  /** The velocity kept per frame: every scene damps, the countdown hardest. */
  function Friction(state: AppState): (f: real)
    ensures 0.0 < f < 1.0
    ensures state == Countdown <==> f < 0.6
  {
    if state == Countdown then 0.55 else if state == Happy2026 then 0.88 else 0.90
  }

  /** One frame of a particle: chase the effective target with a damped spring. */
  function StepParticle(p: SmoothParticle, eased: real, state: AppState): (r: SmoothParticle)
    ensures r.lastEffectiveTx == Lerp(p.prevTx, p.tx, eased) && r.lastEffectiveTy == Lerp(p.prevTy, p.ty, eased)
    ensures r.x == p.x + r.vx && r.y == p.y + r.vy
    ensures r.(x := p.x, y := p.y, vx := p.vx, vy := p.vy,
               lastEffectiveTx := p.lastEffectiveTx, lastEffectiveTy := p.lastEffectiveTy) == p
  {
    var curTargetX := Lerp(p.prevTx, p.tx, eased);
    var curTargetY := Lerp(p.prevTy, p.ty, eased);
    var dx := curTargetX - p.x;
    var dy := curTargetY - p.y;
    var isCountdown := state == Countdown;
    var vx := (p.vx + dx * Attraction(state)) * Friction(state);
    var vy := (p.vy + dy * Attraction(state)) * Friction(state);
    var snap := Abs(dx) < SnapDistance && Abs(dy) < SnapDistance && !isCountdown;
    var vx := if snap then vx * SnapDamping else vx;
    var vy := if snap then vy * SnapDamping else vy;
    p.(lastEffectiveTx := curTargetX, lastEffectiveTy := curTargetY, vx := vx, vy := vy, x := p.x + vx, y := p.y + vy)
  }

  /**
   * The velocity rule: spring and friction, then the snap damping near the
   * target outside the countdown.
   */
  lemma VelocityRule(p: SmoothParticle, eased: real, state: AppState)
    ensures var dx := Lerp(p.prevTx, p.tx, eased) - p.x;
      var dy := Lerp(p.prevTy, p.ty, eased) - p.y;
      var damp := if Abs(dx) < 0.5 && Abs(dy) < 0.5 && state != Countdown then 0.2 else 1.0;
      var r := StepParticle(p, eased, state);
      r.vx == (p.vx + dx * Attraction(state)) * Friction(state) * damp
      && r.vy == (p.vy + dy * Attraction(state)) * Friction(state) * damp
  {
  }

  /** Once the transition is over, every particle chases its own target (tx, ty). */
  lemma SettledTransitionChasesTarget(p: SmoothParticle, elapsed: int, state: AppState)
    requires elapsed >= TransitionDurationMs
    ensures var r := StepParticle(p, Eased(elapsed), state);
      r.lastEffectiveTx == p.tx && r.lastEffectiveTy == p.ty
  {
  }

  /** A particle resting on its effective target stays there. */
  lemma RestIsStable(p: SmoothParticle, eased: real, state: AppState)
    requires p.x == Lerp(p.prevTx, p.tx, eased) && p.y == Lerp(p.prevTy, p.ty, eased)
    requires p.vx == 0.0 && p.vy == 0.0
    ensures var r := StepParticle(p, eased, state);
      r.x == p.x && r.y == p.y && r.vx == 0.0 && r.vy == 0.0
  {
  }

  // ---------------------------------------------------------------------------
  // Fireworks
  // ---------------------------------------------------------------------------

  lemma ColorPickInRange(pick: real, n: nat)
    requires 0.0 <= pick < 1.0 && n > 0
    ensures 0 <= (pick * n as real).Floor < n
  {
    assert 0.0 <= pick * n as real < n as real;
  }

  /** One spark at (x, y): full life, a random palette colour, a size in [1, 3). */
  function Spark(x: real, y: real, palette: seq<Color>, d: SparkDraw): (f: FireworkParticle)
    requires |palette| > 0
    requires 0.0 <= d.colorPick < 1.0 && 0.0 <= d.sizePick < 1.0
    ensures f.x == x && f.y == y && f.vx == d.vx && f.vy == d.vy
    ensures f.life == 1.0 && f.maxLife == 1.0 && f.color in palette
    ensures 1.0 <= f.size < 3.0
  {
    ColorPickInRange(d.colorPick, |palette|);
    FireworkParticle(x, y, d.vx, d.vy, 1.0, 1.0, palette[(d.colorPick * |palette| as real).Floor], d.sizePick * 2.0 + 1.0)
  }

  /** The 40 sparks of one spawnFireworks call at (x, y). */
  function Sparks(x: real, y: real, palette: seq<Color>, draws: nat -> SparkDraw): (s: seq<FireworkParticle>)
    requires |palette| > 0
    requires forall i :: 0.0 <= draws(i).colorPick < 1.0 && 0.0 <= draws(i).sizePick < 1.0
    ensures |s| == SparksPerBurst
    ensures forall i :: 0 <= i < |s| ==> s[i] == Spark(x, y, palette, draws(i))
  {
    seq(SparksPerBurst, i requires 0 <= i < SparksPerBurst => Spark(x, y, palette, draws(i)))
  }

  /** One frame of a spark: drag, gravity, motion, ageing. */
  function AgeSpark(f: FireworkParticle): (r: FireworkParticle)
    ensures r.life == f.life - LifeDecay
    ensures r.maxLife == f.maxLife && r.color == f.color && r.size == f.size
  {
    var vx := f.vx * SparkDrag;
    var vy := f.vy * SparkDrag + Gravity;
    f.(vx := vx, vy := vy, x := f.x + vx, y := f.y + vy, life := f.life - LifeDecay)
  }

  /** The sparks left after one frame: each aged, those out of life removed, order kept. */
  function Survivors(fs: seq<FireworkParticle>): (r: seq<FireworkParticle>)
    ensures |r| <= |fs|
    ensures forall i :: 0 <= i < |r| ==> r[i].life > 0.0
  {
    if fs == [] then []
    else
      var aged := AgeSpark(fs[0]);
      (if aged.life <= 0.0 then [] else [aged]) + Survivors(fs[1..])
  }

  /** Removal works piecewise, so the survivors keep their relative order. */
  lemma {:induction false} SurvivorsAppend(a: seq<FireworkParticle>, b: seq<FireworkParticle>)
    ensures Survivors(a + b) == Survivors(a) + Survivors(b)
  {
    if a == [] {
      assert a + b == b;
    } else {
      assert (a + b)[0] == a[0] && (a + b)[1..] == a[1..] + b;
      SurvivorsAppend(a[1..], b);
    }
  }

  /** Survivors, peeled off at position i. */
  lemma SurvivorsStep(fs: seq<FireworkParticle>, i: int)
    requires 0 <= i < |fs|
    ensures fs[..i + 1] == fs[..i] + [fs[i]]
    ensures Survivors(fs[i..]) == (if AgeSpark(fs[i]).life <= 0.0 then [] else [AgeSpark(fs[i])]) + Survivors(fs[i + 1..])
  {
    assert fs[i..][0] == fs[i] && fs[i..][1..] == fs[i + 1..];
  }

  /** Splicing out the element between a prefix and a suffix. */
  lemma SpliceOut<T>(pre: seq<T>, x: T, post: seq<T>)
    ensures var s := pre + [x] + post; s[..|pre|] + s[|pre| + 1..] == pre + post
  {
    var s := pre + [x] + post;
    assert s[..|pre|] == pre;
    assert s[|pre| + 1..] == post;
  }

  /** Overwriting the element between a prefix and a suffix. */
  lemma ReplaceAt<T>(pre: seq<T>, x: T, y: T, post: seq<T>)
    ensures (pre + [x] + post)[|pre| := y] == pre + ([y] + post)
  {
  }

  /** A spark after k frames, had it not been removed. */
  function AgeTimes(f: FireworkParticle, k: nat): FireworkParticle
  {
    if k == 0 then f else AgeSpark(AgeTimes(f, k - 1))
  }

  lemma {:induction false} LifeAfter(f: FireworkParticle, k: nat)
    ensures AgeTimes(f, k).life == f.life - LifeDecay * k as real
  {
    if k > 0 {
      LifeAfter(f, k - 1);
    }
  }

  /**
   * A freshly spawned spark (life 1.0) survives its first 66 frames and is
   * removed on the 67th.
   */
  lemma SparkLifetime(f: FireworkParticle, k: nat)
    requires f.life == 1.0
    ensures AgeTimes(f, k).life > 0.0 <==> k < 67
  {
    LifeAfter(f, k);
  }

  /** The setTimeout loop of the celebration: one timer per burst, in order. */
  method BurstTimers(w: int, h: int, palette: seq<Color>, burstDraw: nat -> Point) returns (timers: seq<Burst>)
    ensures timers == BurstPlan(w, h, palette, burstDraw)
  {
    ghost var plan := BurstPlan(w, h, palette, burstDraw);
    timers := [];
    for i := 0 to BurstCount
      invariant timers == plan[..i]
    {
      var draw := burstDraw(i);
      var burst := Burst(i * BurstIntervalMs, draw.x * w as real, draw.y * h as real * 0.7, palette);
      assert plan[i] == burst;
      assert plan[..i + 1] == plan[..i] + [burst];
      timers := timers + [burst];
    }
    assert plan[..BurstCount] == plan;
  }

  /** The firework list after k frames. */
  function Frames(fs: seq<FireworkParticle>, k: nat): seq<FireworkParticle>
  {
    if k == 0 then fs else Survivors(Frames(fs, k - 1))
  }

  /**
   * A freshly spawned spark is still in the list, aged, after each of its
   * first 66 frames, and is gone from the 67th on.
   */
  lemma {:induction false} FreshSparkFrames(f: FireworkParticle, k: nat)
    requires f.life == 1.0
    ensures k < 67 ==> Frames([f], k) == [AgeTimes(f, k)]
    ensures k >= 67 ==> Frames([f], k) == []
  {
    if k > 0 {
      FreshSparkFrames(f, k - 1);
      SparkLifetime(f, k);
      if k - 1 < 67 {
        assert Frames([f], k) == Survivors([AgeTimes(f, k - 1)]);
        assert [AgeTimes(f, k - 1)][1..] == [];
      }
    }
  }

  // ---------------------------------------------------------------------------
  // The component state
  // ---------------------------------------------------------------------------

  /** The refs of the canvas component. */
  class ParticleCanvas {
    var particles: array<SmoothParticle>
    var fireworks: seq<FireworkParticle>
    var lastState: AppState
    var lastCount: int
    var hasSpawnedFireworks: bool
    var transitionStart: int
    /** The spawnFireworks calls handed to setTimeout so far. */
    var scheduledBursts: seq<Burst>

    /** The firework flag is only ever set while the celebration is the recorded scene. */
    ghost predicate Valid()
      reads this
    {
      hasSpawnedFireworks ==> lastState == Happy2026
    }

    constructor (now: int)
      ensures Valid()
      ensures particles.Length == 0 && fireworks == [] && scheduledBursts == []
      ensures lastState == Bye2025 && lastCount == InitialCountdown
      ensures !hasSpawnedFireworks && transitionStart == now
    {
      particles := new SmoothParticle[0];
      fireworks := [];
      lastState, lastCount := Bye2025, InitialCountdown;
      hasSpawnedFireworks := false;
      transitionStart := now;
      scheduledBursts := [];
    }

    /** initParticles: a fresh array of `count` particles at random spots. */
    method InitParticles(count: nat, w: int, h: int, particleSize: real, spawn: nat -> Point)
      modifies this
      ensures fresh(particles) && particles.Length == count
      ensures forall i :: 0 <= i < count ==> particles[i] == Seed(spawn(i), w, h, particleSize)
      ensures fireworks == old(fireworks) && scheduledBursts == old(scheduledBursts)
      ensures lastState == old(lastState) && lastCount == old(lastCount)
      ensures hasSpawnedFireworks == old(hasSpawnedFireworks) && transitionStart == old(transitionStart)
    {
      particles := new SmoothParticle[count](i requires 0 <= i => Seed(spawn(i), w, h, particleSize));
    }

    /** spawnFireworks: append the 40 sparks of one burst. */
    method SpawnFireworks(x: real, y: real, palette: seq<Color>, draws: nat -> SparkDraw)
      requires |palette| > 0
      requires forall i :: 0.0 <= draws(i).colorPick < 1.0 && 0.0 <= draws(i).sizePick < 1.0
      modifies this
      ensures fireworks == old(fireworks) + Sparks(x, y, palette, draws)
      ensures particles == old(particles) && scheduledBursts == old(scheduledBursts)
      ensures lastState == old(lastState) && lastCount == old(lastCount)
      ensures hasSpawnedFireworks == old(hasSpawnedFireworks) && transitionStart == old(transitionStart)
    {
      ghost var sparks := Sparks(x, y, palette, draws);
      var fs := fireworks;
      for i := 0 to SparksPerBurst
        modifies {}
        invariant fs == old(fireworks) + sparks[..i]
      {
        var spark := Spark(x, y, palette, draws(i));
        assert sparks[..i + 1] == sparks[..i] + [spark];
        fs := fs + [spark];
      }
      assert sparks[..SparksPerBurst] == sparks;
      fireworks := fs;
    }

    /**
     * updateStateTargets, run on every resize and every change of scene,
     * countdown number or configuration. Returns the target field it
     * generated and whether the scene changed.
     */
    method UpdateStateTargets(appState: AppState, countdownValue: int, config: Config, w: int, h: int, now: int,
                              measure: Measure, render: Render,
                              spawn: nat -> Point, kick: nat -> Point, burstDraw: nat -> Point)
      returns (targets: seq<Point>, changed: bool, ghost fontSize: int, ghost end: SearchEnd,
               ghost scan: seq<Pixel>, ghost samples: seq<Pixel>)
      requires Valid()
      requires w >= 0 && h >= 0
      requires forall lines, size :: |render(lines, size)| == w * h * 4
      modifies this, particles
      ensures Valid()
      ensures TargetField(DisplayText(appState, countdownValue), config.particleDensity, w, h, measure, render,
                          targets, fontSize, end, scan, samples)
      ensures particles.Length == config.particleDensity
      ensures old(particles.Length) == config.particleDensity ==> particles == old(particles)
      ensures old(particles.Length) != config.particleDensity ==> fresh(particles)
      ensures changed == StateChanged(appState, countdownValue, old(lastState), old(lastCount))
      ensures lastState == appState && lastCount == countdownValue
      ensures transitionStart == if changed then now else old(transitionStart)
      ensures var guard := FireworkGuard(old(hasSpawnedFireworks), changed, appState);
        && hasSpawnedFireworks == guard.0
        && scheduledBursts == old(scheduledBursts)
             + (if guard.1 == BurstCount then BurstPlan(w, h, Palette(config.palette), burstDraw) else [])
      ensures fireworks == old(fireworks)
      ensures forall i :: 0 <= i < particles.Length ==>
        var base := if old(particles.Length) == config.particleDensity then old(particles[i])
                    else Seed(spawn(i), w, h, config.particleSize);
        particles[i] == Retarget(if changed then Freeze(base) else base, targets[i],
                                 TargetColor(appState, config.palette, i), appState, changed, kick(i))
    {
      var text := DisplayText(appState, countdownValue);
      targets, fontSize, end, scan, samples := GenerateTargets(text, config.particleDensity, w, h, measure, render);

      EnsureDensity(config.particleDensity, w, h, config.particleSize, spawn);
      changed := MarkSceneChange(appState, countdownValue, Palette(config.palette), w, h, now, burstDraw);
      AssignTargets(targets, appState, config.palette, changed, kick);
    }

    /** The density check: a fresh formation when the particle count no longer matches. */
    method EnsureDensity(count: nat, w: int, h: int, particleSize: real, spawn: nat -> Point)
      modifies this
      ensures particles.Length == count
      ensures old(particles.Length) == count ==> particles == old(particles)
      ensures old(particles.Length) != count ==> fresh(particles)
      ensures forall k :: 0 <= k < particles.Length ==>
        particles[k] == if old(particles.Length) == count then old(particles[k]) else Seed(spawn(k), w, h, particleSize)
      ensures fireworks == old(fireworks) && scheduledBursts == old(scheduledBursts)
      ensures lastState == old(lastState) && lastCount == old(lastCount)
      ensures hasSpawnedFireworks == old(hasSpawnedFireworks) && transitionStart == old(transitionStart)
    {
      if particles.Length != count {
        InitParticles(count, w, h, particleSize, spawn);
      }
    }

    /**
     * Change detection and its consequences: on a change the transition clock
     * restarts, every particle is frozen and the firework guard runs; then the
     * scene and count are recorded.
     */
    method MarkSceneChange(appState: AppState, countdownValue: int, palette: seq<Color>, w: int, h: int, now: int,
                           burstDraw: nat -> Point)
      returns (changed: bool)
      requires Valid()
      modifies this, particles
      ensures Valid()
      ensures changed == StateChanged(appState, countdownValue, old(lastState), old(lastCount))
      ensures particles == old(particles)
      ensures forall k :: 0 <= k < particles.Length ==>
        particles[k] == if changed then Freeze(old(particles[k])) else old(particles[k])
      ensures lastState == appState && lastCount == countdownValue
      ensures transitionStart == if changed then now else old(transitionStart)
      ensures var guard := FireworkGuard(old(hasSpawnedFireworks), changed, appState);
        && hasSpawnedFireworks == guard.0
        && scheduledBursts == old(scheduledBursts) + (if guard.1 == BurstCount then BurstPlan(w, h, palette, burstDraw) else [])
      ensures fireworks == old(fireworks)
    {
      changed := StateChanged(appState, countdownValue, lastState, lastCount);
      if changed {
        transitionStart := now;
        FreezeFormation();
        if appState != Happy2026 {
          hasSpawnedFireworks := false;
        }
        if appState == Happy2026 && !hasSpawnedFireworks {
          hasSpawnedFireworks := true;
          var timers := BurstTimers(w, h, palette, burstDraw);
          scheduledBursts := scheduledBursts + timers;
        }
      }
      lastState, lastCount := appState, countdownValue;
    }

    /** The freeze loop of a scene change, over every particle. */
    method FreezeFormation()
      modifies particles
      ensures forall k :: 0 <= k < particles.Length ==> particles[k] == Freeze(old(particles[k]))
    {
      for i := 0 to particles.Length
        invariant forall k :: 0 <= k < i ==> particles[k] == Freeze(old(particles[k]))
        invariant forall k :: i <= k < particles.Length ==> particles[k] == old(particles[k])
      {
        particles[i] := Freeze(particles[i]);
      }
    }

    /** The assignment loop of updateStateTargets: particle i takes target i and its palette colour. */
    method AssignTargets(targets: seq<Point>, appState: AppState, palette: PaletteName, changed: bool, kick: nat -> Point)
      requires |targets| == particles.Length
      modifies particles
      ensures forall k :: 0 <= k < particles.Length ==>
        particles[k] == Retarget(old(particles[k]), targets[k], TargetColor(appState, palette, k), appState, changed, kick(k))
    {
      for i := 0 to particles.Length
        invariant forall k :: 0 <= k < i ==>
          particles[k] == Retarget(old(particles[k]), targets[k], TargetColor(appState, palette, k), appState, changed, kick(k))
        invariant forall k :: i <= k < particles.Length ==> particles[k] == old(particles[k])
      {
        var p := particles[i];
        p := p.(tx := targets[i].x, ty := targets[i].y, color := TargetColor(appState, palette, i));
        if changed {
          if appState == Countdown {
            p := p.(vx := 0.0, vy := 0.0);
          } else if appState == Happy2026 {
            var impulse := kick(i);
            p := p.(vx := p.vx + impulse.x, vy := p.vy + impulse.y);
          }
        }
        particles[i] := p;
      }
    }

    /** One frame of the formation: every particle chases its eased target. */
    method StepFormation(eased: real, state: AppState)
      modifies particles
      ensures forall k :: 0 <= k < particles.Length ==> particles[k] == StepParticle(old(particles[k]), eased, state)
    {
      for i := 0 to particles.Length
        invariant forall k :: 0 <= k < i ==> particles[k] == StepParticle(old(particles[k]), eased, state)
        invariant forall k :: i <= k < particles.Length ==> particles[k] == old(particles[k])
      {
        particles[i] := StepParticle(particles[i], eased, state);
      }
    }

    /**
     * The firework pass of a frame: the sparks are aged from last to first
     * and the dead ones spliced out, so the survivors keep their order.
     */
    method AgeFireworks()
      modifies this
      ensures fireworks == Survivors(old(fireworks))
      ensures particles == old(particles) && scheduledBursts == old(scheduledBursts)
      ensures lastState == old(lastState) && lastCount == old(lastCount)
      ensures hasSpawnedFireworks == old(hasSpawnedFireworks) && transitionStart == old(transitionStart)
    {
      ghost var original := fireworks;
      var fs := fireworks;
      var i := |fs| - 1;
      while i >= 0
        modifies {}
        invariant -1 <= i < |original|
        invariant fs == original[..i + 1] + Survivors(original[i + 1..])
      {
        SurvivorsStep(original, i);
        ghost var later := Survivors(original[i + 1..]);
        assert fs == original[..i] + [original[i]] + later;
        assert fs[i] == original[i];
        var fp := AgeSpark(fs[i]);
        if fp.life <= 0.0 {
          SpliceOut(original[..i], original[i], later);
          fs := fs[..i] + fs[i + 1..];
        } else {
          ReplaceAt(original[..i], original[i], fp, later);
          fs := fs[i := fp];
        }
        i := i - 1;
      }
      assert original[..0] == [] && original[0..] == original;
      fireworks := fs;
    }

    /**
     * One frame of the render loop: every particle chases its eased target,
     * then the sparks are aged from last to first and the dead ones spliced
     * out in place.
     */
    method RenderFrame(now: int)
      modifies this, particles
      ensures particles == old(particles)
      ensures forall i :: 0 <= i < particles.Length ==>
        particles[i] == StepParticle(old(particles[i]), Eased(now - transitionStart), lastState)
      ensures fireworks == Survivors(old(fireworks))
      ensures scheduledBursts == old(scheduledBursts)
      ensures lastState == old(lastState) && lastCount == old(lastCount)
      ensures hasSpawnedFireworks == old(hasSpawnedFireworks) && transitionStart == old(transitionStart)
    {
      var elapsed := now - transitionStart;
      var eased := Eased(elapsed);
      StepFormation(eased, lastState);
      AgeFireworks();
    }
  }
}
