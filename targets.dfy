/**
 * Target-field generation (generateTargets in components/ParticleCanvas.tsx):
 * pick the largest font size at which the scene text fits the safe region,
 * sample the rasterised glyph coverage on a 4-pixel grid, shuffle the samples
 * and hand out exactly one target point per particle, reusing samples
 * cyclically and falling back to the viewport centre when nothing is covered.
 *
 * The canvas is abstract: `measure(line, size)` is the width measureText
 * reports for a line at a font size, and `render(lines, size)` is the RGBA
 * buffer getImageData returns after the lines were drawn at that size.
 */
module Targets {
  import opened Strings

  /** A target position in canvas pixels. */
  datatype Point = Point(x: real, y: real)

  /** A sampled pixel of the offscreen canvas. */
  datatype Pixel = Pixel(x: int, y: int)

  /** measureText(line).width at a font size, for the display font. */
  type Measure = (string, int) -> real

  /**
   * The RGBA buffer getImageData returns after the lines were drawn centred
   * at a font size on a cleared viewport-sized canvas.
   */
  type Render = (seq<string>, int) -> seq<int>

  /** The three layout breakpoints of the viewport width. */
  datatype Tier = Mobile | Tablet | Desktop

  function TierOf(w: int): Tier
  {
    if w < 768 then Mobile else if w < 1024 then Tablet else Desktop
  }

  /** The width kept free for each side panel. */
  function PanelReserved(t: Tier): int
  {
    match t
    case Mobile => 180
    case Tablet => 220
    case Desktop => 280
  }

  function HorizontalPadding(t: Tier): int
  {
    if t == Mobile then 20 else 40
  }

  /** The font size the search starts from. */
  function InitialFontSize(t: Tier): int
  {
    match t
    case Mobile => 160
    case Tablet => 240
    case Desktop => 400
  }

  const FontFloor: int := 20
  const MaxIterations: nat := 100
  const GrowStep: int := 2
  const ShrinkStep: int := 4
  const SampleStep: int := 4
  const AlphaCutoff: int := 128
  const LineBreak: char := '\n'

  function MaxReal(a: real, b: real): real
  {
    if a >= b then a else b
  }

  /**
   * availableW: the width between the two panels minus padding, but never
   * less than half the viewport.
   */
  function AvailableWidth(w: int): (r: real)
    ensures r >= w as real * 0.5
    ensures r >= (w - 2 * PanelReserved(TierOf(w)) - HorizontalPadding(TierOf(w))) as real
    ensures r == w as real * 0.5
         || r == (w - 2 * PanelReserved(TierOf(w)) - HorizontalPadding(TierOf(w))) as real
  {
    var tier := TierOf(w);
    var leftPanelReserved := PanelReserved(tier);
    var rightPanelReserved := PanelReserved(tier);
    MaxReal((w - (leftPanelReserved + rightPanelReserved) - HorizontalPadding(tier)) as real, w as real * 0.5)
  }

  /** availableH: the viewport height less a 10% top and a 22% bottom margin. */
  function AvailableHeight(h: int): (r: real)
    ensures r == 0.68 * h as real
    ensures h >= 0 ==> 0.0 <= r <= h as real
  {
    var topMargin := h as real * 0.1;
    var bottomMargin := h as real * 0.22;
    h as real - topMargin - bottomMargin
  }

  /** The widest line at a font size: `lines.reduce((m, l) => Math.max(m, width(l)), 0)`. */
  function MaxWidth(lines: seq<string>, size: int, measure: Measure): (m: real)
    ensures m >= 0.0
    ensures forall i {:trigger measure(lines[i], size)} :: 0 <= i < |lines| ==> measure(lines[i], size) <= m
    ensures m == 0.0 || exists i {:trigger measure(lines[i], size)} :: 0 <= i < |lines| && m == measure(lines[i], size)
    decreases |lines|
  {
    if lines == [] then 0.0
    else MaxReal(MaxWidth(lines[..|lines| - 1], size, measure), measure(lines[|lines| - 1], size))
  }

  /** The height of the text block: 1.1 line heights per line. */
  function TotalHeight(lineCount: nat, size: int): real
  {
    lineCount as real * size as real * 1.1
  }

  /**
   * The text fits the safe region at this size: no line is wider than the
   * available width, which is not negative (the widest-line reduce starts
   * from 0), and the block is no taller than the available height.
   */
  predicate Fits(lines: seq<string>, size: int, availableW: real, availableH: real, measure: Measure)
  {
    && 0.0 <= availableW
    && (forall i :: 0 <= i < |lines| ==> measure(lines[i], size) <= availableW)
    && TotalHeight(|lines|, size) <= availableH
  }

  /** The code's test, on the widest line and the block height, decides exactly `Fits`. */
  lemma FitsByWidest(lines: seq<string>, size: int, availableW: real, availableH: real, measure: Measure)
    ensures Fits(lines, size, availableW, availableH, measure)
        <==> MaxWidth(lines, size, measure) <= availableW && TotalHeight(|lines|, size) <= availableH
  {
  }

  /** A text of at most two characters (a countdown digit) may keep growing below 85% of the height. */
  predicate MayGrow(text: string, lines: seq<string>, size: int, availableH: real)
  {
    |text| <= 2 && TotalHeight(|lines|, size) < availableH * 0.85
  }

  /** How the font-size search ended. */
  datatype SearchEnd = Fitted | AtFloor | OutOfIterations

  /**
   * getMaxFontSize from round `round` on, at the current `size`: shrink by 4
   * until the text fits, growing a short text by 2 while it has vertical room,
   * for at most 100 rounds; never below 20. The second component reports which
   * of the three exits was taken.
   */
  function FontSearch(text: string, lines: seq<string>, size: int, round: nat, availableW: real, availableH: real,
                      measure: Measure): (r: (int, SearchEnd))
    ensures size > FontFloor && round <= MaxIterations ==> FontFloor <= r.0 <= size + GrowStep * (MaxIterations - round)
    ensures r.1 == Fitted ==> Fits(lines, r.0, availableW, availableH, measure) && !MayGrow(text, lines, r.0, availableH)
    ensures r.1 == AtFloor ==> r.0 == FontFloor
    decreases MaxIterations - round
  {
    if round >= MaxIterations then (size, OutOfIterations)
    else if Fits(lines, size, availableW, availableH, measure) then
      if MayGrow(text, lines, size, availableH) then
        FontSearch(text, lines, size + GrowStep, round + 1, availableW, availableH, measure)
      else (size, Fitted)
    else if size - ShrinkStep <= FontFloor then (FontFloor, AtFloor)
    else FontSearch(text, lines, size - ShrinkStep, round + 1, availableW, availableH, measure)
  }

  /** One round of the search, unfolded: whether `size` fits and may grow decides the rest. */
  lemma SearchRound(text: string, lines: seq<string>, size: int, round: nat, availableW: real, availableH: real,
                    measure: Measure, fits: bool, grows: bool)
    requires round < MaxIterations
    requires fits == Fits(lines, size, availableW, availableH, measure)
    requires grows == MayGrow(text, lines, size, availableH)
    ensures var rest := FontSearch(text, lines, size, round, availableW, availableH, measure);
            && (fits && grows ==> rest == FontSearch(text, lines, size + GrowStep, round + 1, availableW, availableH, measure))
            && (fits && !grows ==> rest == (size, Fitted))
            && (!fits && size - ShrinkStep <= FontFloor ==> rest == (FontFloor, AtFloor))
            && (!fits && size - ShrinkStep > FontFloor
                ==> rest == FontSearch(text, lines, size - ShrinkStep, round + 1, availableW, availableH, measure))
  {
  }

  /**
   * One round of the search loop at `size`: measure the widest line and the
   * block height, then stop with a fit, stop at the floor, or go on with the
   * size grown by 2 or shrunk by 4. `end` is meaningful only when `stop`.
   */
  method SearchRoundStep(text: string, lines: seq<string>, size: int, round: nat, availableW: real, availableH: real,
                         measure: Measure)
    returns (next: int, stop: bool, end: SearchEnd)
    requires round < MaxIterations && FontFloor < size
    ensures stop ==> (next, end) == FontSearch(text, lines, size, round, availableW, availableH, measure)
    ensures !stop ==> FontFloor < next
                      && FontSearch(text, lines, next, round + 1, availableW, availableH, measure)
                         == FontSearch(text, lines, size, round, availableW, availableH, measure)
  {
    var maxWidth := MaxWidth(lines, size, measure);
    var totalHeight := TotalHeight(|lines|, size);
    FitsByWidest(lines, size, availableW, availableH, measure);
    SearchRound(text, lines, size, round, availableW, availableH, measure, maxWidth <= availableW && totalHeight <= availableH,
                |text| <= 2 && totalHeight < availableH * 0.85);
    if maxWidth <= availableW && totalHeight <= availableH {
      if |text| <= 2 && totalHeight < availableH * 0.85 {
        return size + GrowStep, false, OutOfIterations;
      }
      return size, true, Fitted;
    }
    if size - ShrinkStep <= FontFloor {
      return FontFloor, true, AtFloor;
    }
    return size - ShrinkStep, false, OutOfIterations;
  }

  /** The search as the source runs it, from the tier's starting size. */
  method MaxFontSize(text: string, lines: seq<string>, tier: Tier, availableW: real, availableH: real,
                     measure: Measure)
    returns (size: int, end: SearchEnd)
    ensures (size, end) == FontSearch(text, lines, InitialFontSize(tier), 0, availableW, availableH, measure)
    ensures FontFloor <= size <= InitialFontSize(tier) + GrowStep * MaxIterations
  {
    ghost var result := FontSearch(text, lines, InitialFontSize(tier), 0, availableW, availableH, measure);
    size := InitialFontSize(tier);
    for i := 0 to MaxIterations
      invariant FontFloor < size
      invariant FontSearch(text, lines, size, i, availableW, availableH, measure) == result
    {
      var stop;
      size, stop, end := SearchRoundStep(text, lines, size, i, availableW, availableH, measure);
      if stop {
        return;
      }
    }
    end := OutOfIterations;
  }

  /** `s` is one of the sizes the shrinking search visits going down from `top`. */
  predicate OnShrinkGrid(top: int, s: int)
  {
    s <= top && (top - s) % ShrinkStep == 0
  }

  /** Below a grid size, the next grid size is a whole step down. */
  lemma GridStep(top: int, s: int)
    requires OnShrinkGrid(top, s)
    ensures s == top || OnShrinkGrid(top - ShrinkStep, s)
  {
  }

  /** A grid size below the next step down is on the grid from one step higher. */
  lemma GridUp(top: int, s: int)
    requires OnShrinkGrid(top - ShrinkStep, s)
    ensures OnShrinkGrid(top, s)
  {
    assert top - s == (top - ShrinkStep - s) + ShrinkStep;
  }

  /**
   * For a text longer than two characters the search only shrinks: from any
   * size with enough rounds left to reach the floor, it stops with a fit or
   * at the floor, and every size it passed on the way (the 4-step grid from
   * `size` down) does not fit.
   */
  lemma {:induction false} ShrinkingSearch(text: string, lines: seq<string>, size: int, round: nat,
                                           availableW: real, availableH: real, measure: Measure)
    requires |text| > 2 && FontFloor < size
    requires size - FontFloor <= ShrinkStep * (MaxIterations - round)
    ensures var r := FontSearch(text, lines, size, round, availableW, availableH, measure);
            && r.1 != OutOfIterations
            && (r.1 == Fitted ==> OnShrinkGrid(size, r.0))
            && (forall s :: r.0 < s && OnShrinkGrid(size, s) ==> !Fits(lines, s, availableW, availableH, measure))
    decreases MaxIterations - round
  {
    var r := FontSearch(text, lines, size, round, availableW, availableH, measure);
    var fits := Fits(lines, size, availableW, availableH, measure);
    SearchRound(text, lines, size, round, availableW, availableH, measure, fits, false);
    if !fits {
      if size - ShrinkStep > FontFloor {
        ShrinkingSearch(text, lines, size - ShrinkStep, round + 1, availableW, availableH, measure);
        if r.1 == Fitted {
          GridUp(size, r.0);
        }
      }
      NoFitAbove(lines, r.0, size, availableW, availableH, measure);
    }
  }

  /** A size that does not fit, above grid sizes that do not fit, extends the run of misses by one step. */
  lemma NoFitAbove(lines: seq<string>, low: int, top: int, availableW: real, availableH: real, measure: Measure)
    requires !Fits(lines, top, availableW, availableH, measure)
    requires forall s :: low < s && OnShrinkGrid(top - ShrinkStep, s) ==> !Fits(lines, s, availableW, availableH, measure)
    ensures forall s :: low < s && OnShrinkGrid(top, s) ==> !Fits(lines, s, availableW, availableH, measure)
  {
    forall s | low < s && OnShrinkGrid(top, s)
      ensures !Fits(lines, s, availableW, availableH, measure)
    {
      GridStep(top, s);
    }
  }

  /**
   * The font size of a text longer than two characters is the largest size
   * on the 4-step grid below the tier's starting size at which the text
   * fits; when none above the floor fits, it is the floor. The 100 rounds
   * never run out.
   */
  lemma LargestFittingSize(text: string, lines: seq<string>, tier: Tier, availableW: real, availableH: real,
                           measure: Measure)
    requires |text| > 2
    ensures var r := FontSearch(text, lines, InitialFontSize(tier), 0, availableW, availableH, measure);
            && r.1 != OutOfIterations
            && (r.1 == Fitted ==> Fits(lines, r.0, availableW, availableH, measure)
                                  && OnShrinkGrid(InitialFontSize(tier), r.0))
            && (r.1 == AtFloor ==> r.0 == FontFloor)
            && (forall s :: r.0 < s && OnShrinkGrid(InitialFontSize(tier), s)
                  ==> !Fits(lines, s, availableW, availableH, measure))
  {
    ShrinkingSearch(text, lines, InitialFontSize(tier), 0, availableW, availableH, measure);
  }

  /** A one-line text of glyphs 0.7 times the font size wide, in a 180 by 544 safe region. */
  lemma {:induction false} DigitFits(digit: string, measure: Measure, size: int)
    requires forall z :: measure(digit, z) == 0.7 * z as real
    requires 0 < size <= 400
    ensures Fits([digit], size, 180.0, 544.0, measure) <==> size <= 257
  {
    assert [digit][0] == digit;
  }

  /** The growing phase: from 160 in round 0, two pixels per round, up to 258 in round 49. */
  lemma {:induction false} DigitGrows(digit: string, measure: Measure, k: nat)
    requires |digit| == 1 && forall z :: measure(digit, z) == 0.7 * z as real
    requires k <= 48
    ensures FontSearch(digit, [digit], 160 + GrowStep * k, k, 180.0, 544.0, measure)
         == FontSearch(digit, [digit], 258, 49, 180.0, 544.0, measure)
    decreases 48 - k
  {
    var size := 160 + GrowStep * k;
    DigitFits(digit, measure, size);
    assert MayGrow(digit, [digit], size, 544.0);
    SearchRound(digit, [digit], size, k, 180.0, 544.0, measure, true, true);
    if k < 48 {
      DigitGrows(digit, measure, k + 1);
      assert size + GrowStep == 160 + GrowStep * (k + 1);
    } else {
      assert size + GrowStep == 258;
    }
  }

  /** The cycling phase: 258 is too wide, 254 and 256 fit and grow, so every third round is back at 258. */
  lemma {:induction false} DigitCycles(digit: string, measure: Measure, round: nat)
    requires |digit| == 1 && forall z :: measure(digit, z) == 0.7 * z as real
    requires 49 <= round <= MaxIterations && round % 3 == 1
    ensures FontSearch(digit, [digit], 258, round, 180.0, 544.0, measure) == (258, OutOfIterations)
    decreases MaxIterations - round
  {
    if round < MaxIterations {
      DigitFits(digit, measure, 258);
      DigitFits(digit, measure, 254);
      DigitFits(digit, measure, 256);
      assert MayGrow(digit, [digit], 254, 544.0);
      assert MayGrow(digit, [digit], 256, 544.0);
      SearchRound(digit, [digit], 258, round, 180.0, 544.0, measure, false, true);
      SearchRound(digit, [digit], 254, round + 1, 180.0, 544.0, measure, true, true);
      SearchRound(digit, [digit], 256, round + 2, 180.0, 544.0, measure, true, true);
      DigitCycles(digit, measure, round + 3);
    }
  }

  /**
   * A countdown digit on a 360 by 800 phone, with glyphs 0.7 times the font
   * size wide: the search grows the digit from 160 to 256, finds 258 too
   * wide, and then cycles through 254, 256 and 258 until the 100 rounds run
   * out. It returns 258, a size at which the digit does not fit.
   */
  lemma ShortTextCanOverflow(digit: string, measure: Measure)
    requires |digit| == 1 && LineBreak !in digit
    requires forall z :: measure(digit, z) == 0.7 * z as real
    ensures Split(digit, LineBreak) == [digit]
    ensures FontSearch(digit, [digit], InitialFontSize(TierOf(360)), 0, AvailableWidth(360), AvailableHeight(800),
                       measure) == (258, OutOfIterations)
    ensures !Fits([digit], 258, AvailableWidth(360), AvailableHeight(800), measure)
  {
    SplitWhole(digit, LineBreak);
    assert AvailableWidth(360) == 180.0;
    assert AvailableHeight(800) == 544.0;
    DigitGrows(digit, measure, 0);
    DigitCycles(digit, measure, 49);
    DigitFits(digit, measure, 258);
  }

  /** The byte offset of the alpha channel of pixel (x, y) in a w-wide RGBA buffer. */
  function AlphaIndex(w: int, x: int, y: int): int
  {
    (y * w + x) * 4 + 3
  }

  lemma AlphaIndexInRange(w: int, h: int, x: int, y: int)
    requires 0 <= x < w && 0 <= y < h
    ensures 0 <= AlphaIndex(w, x, y) < w * h * 4
  {
    assert y * w <= (h - 1) * w by {
      assert (h - 1) * w - y * w == (h - 1 - y) * w;
    }
  }

  /** A pixel on the sampling grid inside the viewport. */
  predicate OnGrid(p: Pixel, w: int, h: int)
  {
    0 <= p.x < w && 0 <= p.y < h && p.x % SampleStep == 0 && p.y % SampleStep == 0
  }

  /** A grid pixel the text covers: its alpha exceeds 128. */
  predicate Sampled(data: seq<int>, w: int, h: int, p: Pixel)
    requires |data| == w * h * 4
  {
    OnGrid(p, w, h) && (AlphaIndexInRange(w, h, p.x, p.y); data[AlphaIndex(w, p.x, p.y)] > AlphaCutoff)
  }

  /** Row-major scan order. */
  predicate ScanBefore(p: Pixel, q: Pixel)
  {
    p.y < q.y || (p.y == q.y && p.x < q.x)
  }

  /** Strictly increasing in scan order, so in particular free of duplicates. */
  predicate InScanOrder(s: seq<Pixel>)
  {
    forall i, j :: 0 <= i < j < |s| ==> ScanBefore(s[i], s[j])
  }

  predicate AllBefore(s: seq<Pixel>, q: Pixel)
  {
    forall i :: 0 <= i < |s| ==> ScanBefore(s[i], q)
  }

  lemma AppendInScanOrder(s: seq<Pixel>, q: Pixel)
    requires InScanOrder(s) && AllBefore(s, q)
    ensures InScanOrder(s + [q])
  {
  }

  /** At a grid pixel inside the viewport, being sampled is the alpha test. */
  lemma SampledAt(data: seq<int>, w: int, h: int, x: int, y: int)
    requires |data| == w * h * 4
    requires 0 <= x < w && 0 <= y < h && x % SampleStep == 0 && y % SampleStep == 0
    ensures 0 <= AlphaIndex(w, x, y) < |data|
    ensures Sampled(data, w, h, Pixel(x, y)) <==> data[AlphaIndex(w, x, y)] > AlphaCutoff
  {
    AlphaIndexInRange(w, h, x, y);
  }

  /** The next grid column (or row) is on the grid. */
  lemma NextOnGrid(x: int)
    requires x % SampleStep == 0
    ensures (x + SampleStep) % SampleStep == 0
  {
  }

  /** Between two neighbouring grid columns there is no other grid column. */
  lemma NextColumn(px: int, x: int)
    requires px % SampleStep == 0 && x % SampleStep == 0
    ensures px < x + SampleStep <==> px <= x
  {
  }

  /** One column of the row scan keeps the row's membership invariant. */
  lemma RowMembership(data: seq<int>, w: int, h: int, y: int, x: int, points: seq<Pixel>, before: seq<Pixel>,
                      out: seq<Pixel>)
    requires |data| == w * h * 4
    requires 0 <= x < w && 0 <= y < h && x % SampleStep == 0 && y % SampleStep == 0
    requires forall p :: p in before <==> p in points || (Sampled(data, w, h, p) && p.y == y && p.x < x)
    requires 0 <= AlphaIndex(w, x, y) < |data|
    requires out == if data[AlphaIndex(w, x, y)] > AlphaCutoff then before + [Pixel(x, y)] else before
    ensures forall p :: p in out <==> p in points || (Sampled(data, w, h, p) && p.y == y && p.x < x + SampleStep)
  {
    SampledAt(data, w, h, x, y);
    forall p | Sampled(data, w, h, p) && p.y == y
      ensures p.x < x + SampleStep <==> p.x < x || p == Pixel(x, y)
    {
      NextColumn(p.x, x);
    }
  }

  /** One column of the row scan keeps the list in scan order, ahead of the next column. */
  lemma RowOrder(before: seq<Pixel>, out: seq<Pixel>, x: int, y: int)
    requires InScanOrder(before) && AllBefore(before, Pixel(x, y))
    requires out == before || out == before + [Pixel(x, y)]
    ensures InScanOrder(out) && AllBefore(out, Pixel(x + SampleStep, y))
  {
    if out != before {
      AppendInScanOrder(before, Pixel(x, y));
    }
  }

  /**
   * The inner sampling loop over row y: appends the covered grid pixels of
   * the row, left to right.
   */
  method SampleRow(data: seq<int>, w: int, h: int, y: int, points: seq<Pixel>) returns (out: seq<Pixel>)
    requires w >= 0 && 0 <= y < h && y % SampleStep == 0 && |data| == w * h * 4
    requires InScanOrder(points) && AllBefore(points, Pixel(0, y))
    ensures forall p :: p in out <==> p in points || (Sampled(data, w, h, p) && p.y == y)
    ensures InScanOrder(out) && AllBefore(out, Pixel(0, y + SampleStep))
  {
    out := points;
    var x := 0;
    while x < w
      invariant 0 <= x && x % SampleStep == 0
      invariant forall p :: p in out <==> p in points || (Sampled(data, w, h, p) && p.y == y && p.x < x)
      invariant InScanOrder(out) && AllBefore(out, Pixel(x, y))
    {
      AlphaIndexInRange(w, h, x, y);
      ghost var before := out;
      if data[AlphaIndex(w, x, y)] > AlphaCutoff {
        out := out + [Pixel(x, y)];
      }
      RowMembership(data, w, h, y, x, points, before, out);
      RowOrder(before, out, x, y);
      NextOnGrid(x);
      x := x + SampleStep;
    }
  }

  /**
   * The nested sampling loops: every covered grid pixel, each once, in scan
   * order.
   */
  method SamplePixels(data: seq<int>, w: int, h: int) returns (points: seq<Pixel>)
    requires w >= 0 && h >= 0 && |data| == w * h * 4
    ensures forall p :: p in points <==> Sampled(data, w, h, p)
    ensures InScanOrder(points)
  {
    points := [];
    var y := 0;
    while y < h
      invariant 0 <= y && y % SampleStep == 0
      invariant forall p :: p in points <==> Sampled(data, w, h, p) && p.y < y
      invariant InScanOrder(points) && AllBefore(points, Pixel(0, y))
    {
      points := SampleRow(data, w, h, y, points);
      forall p | Sampled(data, w, h, p)
        ensures p.y < y + SampleStep <==> p.y < y || p.y == y
      {
        NextColumn(p.y, y);
      }
      NextOnGrid(y);
      y := y + SampleStep;
    }
  }

  /** The fallback target when no pixel is covered. */
  function Center(w: int, h: int): Point
  {
    Point(w as real / 2.0, h as real / 2.0)
  }

  function ToPoint(p: Pixel): Point
  {
    Point(p.x as real, p.y as real)
  }

  /**
   * What generateTargets promises of `result` for a text: `fontSize` and
   * `end` are the outcome of the font-size search for the text's lines in the
   * viewport's safe region, `scan` the covered grid pixels of those lines
   * rendered at that size in scan order, `samples` their shuffle, and `result` exactly
   * one point per particle, cycling through the samples or all at the centre
   * when none is covered.
   */
  ghost predicate TargetField(text: string, count: nat, w: int, h: int, measure: Measure, render: Render,
                              result: seq<Point>, fontSize: int, end: SearchEnd, scan: seq<Pixel>, samples: seq<Pixel>)
  {
    var lines := Split(text, LineBreak);
    && |result| == count
    && (fontSize, end) == FontSearch(text, lines, InitialFontSize(TierOf(w)), 0, AvailableWidth(w), AvailableHeight(h),
                                     measure)
    && FontFloor <= fontSize <= InitialFontSize(TierOf(w)) + GrowStep * MaxIterations
    && (end == Fitted ==> Fits(lines, fontSize, AvailableWidth(w), AvailableHeight(h), measure)
                          && !MayGrow(text, lines, fontSize, AvailableHeight(h)))
    && (end == AtFloor ==> fontSize == FontFloor)
    && |render(lines, fontSize)| == w * h * 4
    && (forall p :: p in scan <==> Sampled(render(lines, fontSize), w, h, p))
    && InScanOrder(scan)
    && multiset(samples) == multiset(scan)
    && (samples == [] ==> forall i :: 0 <= i < count ==> result[i] == Center(w, h))
    && (samples != [] ==> forall i :: 0 <= i < count ==> result[i] == ToPoint(samples[i % |samples|]))
  }

  /**
   * generateTargets. `scan` is the sample list before the shuffle and
   * `samples` after it; the shuffle's comparator is random, so the model
   * allows any permutation.
   */
  method GenerateTargets(text: string, count: nat, w: int, h: int, measure: Measure, render: Render)
    returns (result: seq<Point>, ghost fontSize: int, ghost end: SearchEnd, ghost scan: seq<Pixel>,
             ghost samples: seq<Pixel>)
    requires w >= 0 && h >= 0
    requires forall lines, size :: |render(lines, size)| == w * h * 4
    ensures TargetField(text, count, w, h, measure, render, result, fontSize, end, scan, samples)
    ensures |result| == count
    ensures forall i :: 0 <= i < count ==> result[i] == Center(w, h) || exists p :: OnGrid(p, w, h) && result[i] == ToPoint(p)
  {
    var tier := TierOf(w);
    var availableW := AvailableWidth(w);
    var availableH := AvailableHeight(h);
    var lines := Split(text, LineBreak);
    var size, searchEnd := MaxFontSize(text, lines, tier, availableW, availableH, measure);
    fontSize, end := size, searchEnd;
    var data := render(lines, size);
    var scanned := SamplePixels(data, w, h);
    var points :| multiset(points) == multiset(scanned);
    scan, samples := scanned, points;
    if |points| == 0 {
      return seq(count, _ => Center(w, h)), fontSize, end, scan, samples;
    }
    result := [];
    for i := 0 to count
      invariant |result| == i
      invariant forall k :: 0 <= k < i ==> result[k] == ToPoint(points[k % |points|])
    {
      result := result + [ToPoint(points[i % |points|])];
    }
    forall i | 0 <= i < count
      ensures OnGrid(points[i % |points|], w, h) && result[i] == ToPoint(points[i % |points|])
    {
      SamplesOnGrid(data, w, h, points, scanned, points[i % |points|]);
    }
  }

  /** Every sampled target lies on the 4-pixel grid inside the viewport. */
  lemma SamplesOnGrid(data: seq<int>, w: int, h: int, samples: seq<Pixel>, scan: seq<Pixel>, p: Pixel)
    requires |data| == w * h * 4
    requires forall q :: q in scan <==> Sampled(data, w, h, q)
    requires multiset(samples) == multiset(scan)
    requires p in samples
    ensures 0 <= p.x < w && 0 <= p.y < h && p.x % 4 == 0 && p.y % 4 == 0
  {
    assert p in multiset(samples);
    assert p in scan;
  }
}
