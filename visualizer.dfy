/**
 * The visualizer of src/main.c: the bar state and its spring animation, the
 * neon colour of a bar, the geometry of the bars and of the flow lines between
 * them, and the glow lines drawn around every bar.
 *
 * Drawing is modelled as the list of line segments handed to the graphics
 * library, in the order they are drawn.
 */
module Visualizer {
  import opened Config
  import opened FftIndex
  import opened Audio

  /** The number of samples of the embedded track (AUDIO_LENGTH of the data header). */
  const AUDIO_LENGTH: int := 387937

  /** C's `(int)` conversion of a float: truncation toward zero. */
  function Trunc(r: real): (t: int)
    ensures 0.0 <= r ==> t as real <= r < t as real + 1.0
    ensures r < 0.0 ==> t as real - 1.0 < r <= t as real
  {
    if r >= 0.0 then r.Floor else -((-r).Floor)
  }

  /** C's `a / 2` on int: the quotient is truncated toward zero. */
  function Half(a: int): (q: int)
    ensures 0 <= a ==> 0 <= 2 * q <= a <= 2 * q + 1
    ensures a < 0 ==> a <= 2 * q <= 0 && 2 * q - 1 <= a
  {
    if a >= 0 then a / 2 else -((-a) / 2)
  }

  /**
   * The height a bar aims for this frame: the bin level, boosted to twice the
   * maximum height and wobbled by at most a tenth in time.
   */
  function Target(sin: real -> real, level: real, frame: int, i: int): (t: real)
    ensures level == 0.0 ==> t == 0.0
    ensures var wobble := sin((frame as real) * 0.02 + (i as real) * 0.1);
      0.0 <= level && -1.0 <= wobble <= 1.0 ==>
        level * (MAX_BAR_HEIGHT as real) * 1.8 <= t <= level * (MAX_BAR_HEIGHT as real) * 2.2
  {
    var wobble := sin((frame as real) * 0.02 + (i as real) * 0.1);
    WobbleBounds(level, wobble);
    level * (MAX_BAR_HEIGHT as real) * 2.0 * (wobble * 0.1 + 1.0)
  }

  /** A time factor within a tenth of 1 keeps the boosted level within a tenth. */
  lemma WobbleBounds(level: real, wobble: real)
    ensures 0.0 <= level && -1.0 <= wobble <= 1.0 ==>
      level * (MAX_BAR_HEIGHT as real) * 1.8
        <= level * (MAX_BAR_HEIGHT as real) * 2.0 * (wobble * 0.1 + 1.0)
        <= level * (MAX_BAR_HEIGHT as real) * 2.2
  {
    if 0.0 <= level && -1.0 <= wobble <= 1.0 {
      var m := level * (MAX_BAR_HEIGHT as real);
      assert 0.0 <= m;
      assert m * 2.0 * (wobble * 0.1 + 1.0) == m * 2.0 + m * wobble * 0.2;
      assert -m <= m * wobble <= m;
    }
  }

  /** The state of one bar: its height and its velocity. */
  datatype Bar = Bar(height: real, velocity: real)

  /**
   * One step of the damped spring of process_audio. The new height always
   * lies in [MIN_BAR_HEIGHT, MAX_BAR_HEIGHT]; the velocity is not clamped.
   */
  function Spring(b: Bar, target: real): (r: Bar)
    ensures MIN_BAR_HEIGHT as real <= r.height <= MAX_BAR_HEIGHT as real
    ensures r.velocity == (b.velocity + (target - b.height) * RESPONSE_SPEED) * DAMPING_FACTOR
  {
    var v := (b.velocity + (target - b.height) * RESPONSE_SPEED) * DAMPING_FACTOR;
    Bar(Clamp(b.height + v, MIN_BAR_HEIGHT as real, MAX_BAR_HEIGHT as real), v)
  }

  /** CLAMP is monotone in the clamped value. */
  lemma ClampMonotone(x: real, y: real, lo: real, hi: real)
    requires x <= y && lo <= hi
    ensures Clamp(x, lo, hi) <= Clamp(y, lo, hi)
  {
  }

  /** A bar at rest exactly on a reachable target stays there. */
  lemma SpringAtRest(h: real)
    requires MIN_BAR_HEIGHT as real <= h <= MAX_BAR_HEIGHT as real
    ensures Spring(Bar(h, 0.0), h) == Bar(h, 0.0)
  {
  }

  /**
   * From rest, a bar moves toward its target without passing it: it never
   * ends beyond the clamped target, and never moves away from it.
   */
  lemma SpringFromRest(h: real, target: real)
    requires MIN_BAR_HEIGHT as real <= h <= MAX_BAR_HEIGHT as real
    ensures var r := Spring(Bar(h, 0.0), target);
      var goal := Clamp(target, MIN_BAR_HEIGHT as real, MAX_BAR_HEIGHT as real);
      (h <= target ==> h <= r.height <= goal) && (target <= h ==> goal <= r.height <= h)
  {
    var lo, hi := MIN_BAR_HEIGHT as real, MAX_BAR_HEIGHT as real;
    var moved := h + (target - h) * RESPONSE_SPEED * DAMPING_FACTOR;
    assert Spring(Bar(h, 0.0), target).height == Clamp(moved, lo, hi);
    if h <= target {
      assert h <= moved <= target;
      ClampMonotone(h, moved, lo, hi);
      ClampMonotone(moved, target, lo, hi);
    } else {
      assert target <= moved <= h;
      ClampMonotone(target, moved, lo, hi);
      ClampMonotone(moved, h, lo, hi);
    }
  }

  /** The neon palette. */
  predicate IsNeon(c: int)
  {
    c == COLOR_TEAL || c == COLOR_PURPLE || c == COLOR_PINK
  }

  /** The colours in the order of the intensity tiers. */
  function Rank(c: int): int
  {
    if c == COLOR_TEAL then 0 else if c == COLOR_PURPLE then 1 else 2
  }

  /** What the current bin of a bar adds to its colour (nothing past the last bin). */
  function AudioInfluence(freq: seq<real>, barIndex: nat): (r: real)
    requires |freq| == NUM_FREQUENCY_BINS
    ensures barIndex >= NUM_FREQUENCY_BINS ==> r == 0.0
    ensures barIndex < NUM_FREQUENCY_BINS && 0.0 <= freq[barIndex] <= 1.0 ==> 0.0 <= r <= 2.0
  {
    if barIndex < NUM_FREQUENCY_BINS then freq[barIndex] * 2.0 else 0.0
  }

  /** The combined intensity that picks the colour tier. */
  function TotalIntensity(freq: seq<real>, barIndex: nat, intensity: real): (t: real)
    requires |freq| == NUM_FREQUENCY_BINS
    ensures barIndex >= NUM_FREQUENCY_BINS ==> t == intensity * 0.5
    ensures 0.0 <= intensity <= 1.0 && (barIndex < NUM_FREQUENCY_BINS ==> 0.0 <= freq[barIndex] <= 1.0) ==>
      0.0 <= t <= 1.5
  {
    (intensity + AudioInfluence(freq, barIndex)) * 0.5
  }

  /**
   * get_neon_color: teal below the low threshold; teal or purple between the
   * thresholds; purple or pink from the high threshold on. The choice inside
   * a tier depends on the colour cycle and the bin level.
   */
  function NeonColor(sin: real -> real, frame: int, freq: seq<real>, barIndex: nat, intensity: real): (c: int)
    requires |freq| == NUM_FREQUENCY_BINS
    ensures IsNeon(c)
    ensures TotalIntensity(freq, barIndex, intensity) < INTENSITY_LOW_THRESHOLD ==> c == COLOR_TEAL
    ensures c == COLOR_PINK ==> TotalIntensity(freq, barIndex, intensity) >= INTENSITY_HIGH_THRESHOLD
    ensures TotalIntensity(freq, barIndex, intensity) >= INTENSITY_HIGH_THRESHOLD ==> c != COLOR_TEAL
  {
    var phase := (barIndex as real) / (NUM_BARS as real) + (frame as real) * 0.02;
    var cycle := sin(phase * 3.14159 * 2.0) * 0.5 + 0.5;
    var influence := AudioInfluence(freq, barIndex);
    var total := (intensity + influence) * 0.5;
    if total < INTENSITY_LOW_THRESHOLD then COLOR_TEAL
    else if total < INTENSITY_HIGH_THRESHOLD then (if cycle + influence > 0.5 then COLOR_PURPLE else COLOR_TEAL)
    else if cycle + influence > 0.3 then COLOR_PINK else COLOR_PURPLE
  }

  /** A taller bar never gets a colour of a lower tier: the colour is monotone in the intensity. */
  lemma NeonColorMonotone(sin: real -> real, frame: int, freq: seq<real>, barIndex: nat, i1: real, i2: real)
    requires |freq| == NUM_FREQUENCY_BINS && i1 <= i2
    ensures Rank(NeonColor(sin, frame, freq, barIndex, i1)) <= Rank(NeonColor(sin, frame, freq, barIndex, i2))
  {
    var phase := (barIndex as real) / (NUM_BARS as real) + (frame as real) * 0.02;
    var cycle := sin(phase * 3.14159 * 2.0) * 0.5 + 0.5;
    var influence := AudioInfluence(freq, barIndex);
    var t1, t2 := (i1 + influence) * 0.5, (i2 + influence) * 0.5;
    assert t1 <= t2;
    if cycle + influence > 0.5 {
      assert cycle + influence > 0.3;
    }
  }

  /** A line segment handed to graphics_draw_line, with its colour. */
  datatype Line = Line(x1: int, y1: int, x2: int, y2: int, color: int)

  predicate OnScreen(x: int, y: int)
  {
    0 <= x < SCREEN_WIDTH && 0 <= y < SCREEN_HEIGHT
  }

  predicate LineOnScreen(l: Line)
  {
    OnScreen(l.x1, l.y1) && OnScreen(l.x2, l.y2)
  }

  /**
   * draw_neon_line with the glow enabled: the line itself, then a copy one
   * pixel to the left, to the right, above and below, each drawn only when
   * both of its ends stay on the screen.
   */
  function NeonLines(x1: int, y1: int, x2: int, y2: int, color: int): (r: seq<Line>)
    ensures 1 <= |r| <= 5 && r[0] == Line(x1, y1, x2, y2, color)
    ensures forall l :: l in r ==> l.color == color
  {
    [Line(x1, y1, x2, y2, color)]
    + (if x1 > 0 && x2 > 0 then [Line(x1 - 1, y1, x2 - 1, y2, color)] else [])
    + (if x1 < SCREEN_WIDTH - 1 && x2 < SCREEN_WIDTH - 1 then [Line(x1 + 1, y1, x2 + 1, y2, color)] else [])
    + (if y1 > 0 && y2 > 0 then [Line(x1, y1 - 1, x2, y2 - 1, color)] else [])
    + (if y1 < SCREEN_HEIGHT - 1 && y2 < SCREEN_HEIGHT - 1 then [Line(x1, y1 + 1, x2, y2 + 1, color)] else [])
  }

  /** Each glow line is drawn exactly when both of its ends are on the screen's side of the edge. */
  lemma NeonLinesGuards(x1: int, y1: int, x2: int, y2: int, color: int)
    ensures var r := NeonLines(x1, y1, x2, y2, color);
      && (Line(x1 - 1, y1, x2 - 1, y2, color) in r <==> x1 > 0 && x2 > 0)
      && (Line(x1 + 1, y1, x2 + 1, y2, color) in r <==> x1 < SCREEN_WIDTH - 1 && x2 < SCREEN_WIDTH - 1)
      && (Line(x1, y1 - 1, x2, y2 - 1, color) in r <==> y1 > 0 && y2 > 0)
      && (Line(x1, y1 + 1, x2, y2 + 1, color) in r <==> y1 < SCREEN_HEIGHT - 1 && y2 < SCREEN_HEIGHT - 1)
  {
  }

  /** The glow of a line on the screen stays on the screen. */
  lemma NeonLinesOnScreen(x1: int, y1: int, x2: int, y2: int, color: int)
    requires OnScreen(x1, y1) && OnScreen(x2, y2)
    ensures forall l :: l in NeonLines(x1, y1, x2, y2, color) ==> LineOnScreen(l)
  {
  }

  /** Where bar i is drawn: its column and the ends of its vertical line. */
  datatype Placement = Placement(x: int, top: int, bottom: int)

  /**
   * The bar geometry of render_visualizer: the bar sits in the middle of its
   * column and extends half its (truncated) height above and below the centre.
   */
  function Place(i: int, height: real): (p: Placement)
    ensures p.top + p.bottom == 2 * CENTER_Y
    ensures 0 <= i ==> i * BAR_WIDTH <= p.x < (i + 1) * BAR_WIDTH
    ensures 0.0 <= height ==> p.top <= CENTER_Y <= p.bottom && p.bottom - p.top <= Trunc(height)
  {
    var h := Trunc(height);
    Placement(i * BAR_WIDTH + BAR_WIDTH / 2, CENTER_Y - Half(h), CENTER_Y + Half(h))
  }

  /** Every bar of height at most MAX_BAR_HEIGHT is drawn inside the screen. */
  lemma PlaceOnScreen(i: int, height: real)
    requires 0 <= i < NUM_BARS && 0.0 <= height <= MAX_BAR_HEIGHT as real
    ensures var p := Place(i, height);
      OnScreen(p.x, p.top) && OnScreen(p.x, p.bottom)
  {
    var p := Place(i, height);
    MulMonotone(i + 1, NUM_BARS, BAR_WIDTH);
    assert Trunc(height) <= MAX_BAR_HEIGHT;
    assert p.bottom - p.top <= MAX_BAR_HEIGHT;
  }

  /** Heights a bar can be drawn with: within [0, MAX_BAR_HEIGHT]. */
  predicate Drawable(heights: seq<real>)
  {
    forall i :: 0 <= i < |heights| ==> 0.0 <= heights[i] <= MAX_BAR_HEIGHT as real
  }

  /**
   * The lines of bar i: its neon line, then (from the second bar on) the two
   * flow lines joining the top and the bottom of the previous bar to its own.
   */
  function BarLines(sin: real -> real, frame: int, freq: seq<real>, heights: seq<real>, i: nat): (r: seq<Line>)
    requires |freq| == NUM_FREQUENCY_BINS && i < |heights|
    ensures 1 <= |r| <= 7 && (i > 0 ==> 3 <= |r|)
    ensures forall l :: l in r ==> l.color == NeonColor(sin, frame, freq, i, heights[i] / (MAX_BAR_HEIGHT as real))
    ensures var p := Place(i, heights[i]);
      r[0].x1 == r[0].x2 == p.x && r[0].y1 == p.top && r[0].y2 == p.bottom
    ensures i > 0 ==>
      var p, q := Place(i, heights[i]), Place(i - 1, heights[i - 1]);
      && (r[|r| - 2].x1, r[|r| - 2].y1, r[|r| - 2].x2, r[|r| - 2].y2) == (q.x, q.top, p.x, p.top)
      && (r[|r| - 1].x1, r[|r| - 1].y1, r[|r| - 1].x2, r[|r| - 1].y2) == (q.x, q.bottom, p.x, p.bottom)
    ensures i == 0 ==> |r| <= 5
  {
    var p := Place(i, heights[i]);
    var color := NeonColor(sin, frame, freq, i, heights[i] / (MAX_BAR_HEIGHT as real));
    NeonLines(p.x, p.top, p.x, p.bottom, color)
    + if i > 0 then
        var q := Place(i - 1, heights[i - 1]);
        [Line(q.x, q.top, p.x, p.top, color), Line(q.x, q.bottom, p.x, p.bottom, color)]
      else []
  }

  /** The lines of the first k bars, in drawing order. */
  function Scene(sin: real -> real, frame: int, freq: seq<real>, heights: seq<real>, k: nat): (r: seq<Line>)
    requires |freq| == NUM_FREQUENCY_BINS && k <= |heights|
    ensures k <= |r| <= 7 * k
    ensures forall l :: l in r ==> IsNeon(l.color)
  {
    if k == 0 then [] else Scene(sin, frame, freq, heights, k - 1) + BarLines(sin, frame, freq, heights, k - 1)
  }

  /** With drawable heights every line of bar i is on the screen and neon. */
  lemma BarLinesOnScreen(sin: real -> real, frame: int, freq: seq<real>, heights: seq<real>, i: nat)
    requires |freq| == NUM_FREQUENCY_BINS && i < |heights| <= NUM_BARS && Drawable(heights)
    ensures forall l :: l in BarLines(sin, frame, freq, heights, i) ==> LineOnScreen(l) && IsNeon(l.color)
  {
    var p := Place(i, heights[i]);
    PlaceOnScreen(i, heights[i]);
    if i > 0 {
      PlaceOnScreen(i - 1, heights[i - 1]);
    }
    var color := NeonColor(sin, frame, freq, i, heights[i] / (MAX_BAR_HEIGHT as real));
    NeonLinesOnScreen(p.x, p.top, p.x, p.bottom, color);
  }

  /** With drawable heights every line of the bars is on the screen and neon. */
  lemma {:induction false} SceneOnScreen(sin: real -> real, frame: int, freq: seq<real>, heights: seq<real>, k: nat)
    requires |freq| == NUM_FREQUENCY_BINS && k <= |heights| <= NUM_BARS && Drawable(heights)
    ensures forall l :: l in Scene(sin, frame, freq, heights, k) ==> LineOnScreen(l) && IsNeon(l.color)
  {
    if k > 0 {
      SceneOnScreen(sin, frame, freq, heights, k - 1);
      BarLinesOnScreen(sin, frame, freq, heights, k - 1);
    }
  }

  /**
   * The statics of main.c. The statics of audio.c that audio_update works on
   * are an Analyzer, passed to the frame step that uses them.
   */
  class Visualizer {
    const sin: real -> real
    const barHeights: array<real>
    const barVelocities: array<real>
    const frequencyData: array<real>
    var frameCounter: int
    const track: Track

    /** The arrays have their sizes, the track its cursor, and every bar is drawable. */
    ghost predicate Valid()
      reads this, track, barHeights
    {
      && barHeights.Length == NUM_BARS && barVelocities.Length == NUM_BARS
      && frequencyData.Length == NUM_FREQUENCY_BINS
      && barHeights != barVelocities && barHeights != frequencyData && barVelocities != frequencyData
      && track.Valid()
      && 0 <= frameCounter < 0x1_0000_0000
      && Drawable(barHeights[..])
    }

    /** main.c's arrays and track buffer are not audio.c's. */
    ghost predicate Apart(analyzer: Analyzer)
      reads this, track, analyzer
    {
      && barHeights !in analyzer.Buffers() && barVelocities !in analyzer.Buffers()
      && frequencyData !in analyzer.Buffers() && track.samples != analyzer.window
    }

    /** The statics before main runs: all zero, nothing attached to the track. */
    constructor (sin: real -> real)
      ensures Valid() && frameCounter == 0 && this.sin == sin
      ensures track.samples == null && !track.playing
      ensures forall i :: 0 <= i < NUM_BARS ==> barHeights[i] == 0.0 && barVelocities[i] == 0.0
      ensures forall i :: 0 <= i < NUM_FREQUENCY_BINS ==> frequencyData[i] == 0.0
      ensures fresh(track) && fresh(barHeights) && fresh(barVelocities) && fresh(frequencyData)
    {
      this.sin := sin;
      barHeights := new real[NUM_BARS](_ => 0.0);
      barVelocities := new real[NUM_BARS](_ => 0.0);
      frequencyData := new real[NUM_FREQUENCY_BINS](_ => 0.0);
      frameCounter := 0;
      track := new Track();
    }

    /**
     * init_visualizer: zero the bars and the bins, reset the frame counter,
     * and start the embedded track from its first sample.
     */
    method Init(audio: array<int>)
      requires Valid() && AUDIO_LENGTH <= audio.Length
      modifies this`frameCounter, barHeights, barVelocities, frequencyData, track
      ensures Valid() && frameCounter == 0
      ensures forall i :: 0 <= i < NUM_BARS ==> barHeights[i] == 0.0 && barVelocities[i] == 0.0
      ensures forall i :: 0 <= i < NUM_FREQUENCY_BINS ==> frequencyData[i] == 0.0
      ensures track.samples == audio && track.length == AUDIO_LENGTH && track.position == 0 && track.playing
      ensures Playing(track)
    {
      forall i | 0 <= i < NUM_BARS {
        barHeights[i] := 0.0;
      }
      forall i | 0 <= i < NUM_BARS {
        barVelocities[i] := 0.0;
      }
      forall i | 0 <= i < NUM_FREQUENCY_BINS {
        frequencyData[i] := 0.0;
      }
      frameCounter := 0;
      track.samples := audio;
      track.length := AUDIO_LENGTH;
      track.position := 0;
      track.playing := true;
    }

    /**
     * process_audio: refresh the bins from the track (or the demo), then move
     * every bar one spring step toward its target. Bars stay within
     * [MIN_BAR_HEIGHT, MAX_BAR_HEIGHT].
     */
    method ProcessAudio(analyzer: Analyzer)
      requires Valid() && analyzer.Valid() && analyzer.logN == LOG2_FFT_SIZE && Apart(analyzer)
      modifies analyzer`initialized, analyzer`demoTime, analyzer.cosTable, analyzer.sinTable
      modifies analyzer.re, analyzer.im, analyzer.window, analyzer.spectrum
      modifies frequencyData, track, barHeights, barVelocities
      ensures Valid() && analyzer.Valid()
      ensures forall i :: 0 <= i < NUM_BARS ==>
        Bar(barHeights[i], barVelocities[i])
        == Spring(Bar(old(barHeights[i]), old(barVelocities[i])), Target(sin, frequencyData[i], frameCounter, i))
      ensures forall i :: 0 <= i < NUM_BARS ==> MIN_BAR_HEIGHT as real <= barHeights[i] <= MAX_BAR_HEIGHT as real
      ensures !old(Playing(track)) ==>
        forall i :: 0 <= i < NUM_FREQUENCY_BINS ==> frequencyData[i] == analyzer.DemoLevel(analyzer.demoTime, i)
      ensures old(Playing(track)) ==> track.position == Advance(old(track.position), track.length)
    {
      FftSizeIsPow2();
      analyzer.Update(track, frequencyData);
      AnimateBars();
    }

    /**
     * The bar loop of process_audio: one spring step per bar toward the
     * target of its bin. Only the bars change.
     */
    method AnimateBars()
      requires Valid()
      modifies barHeights, barVelocities
      ensures Valid()
      ensures forall i :: 0 <= i < NUM_BARS ==>
        Bar(barHeights[i], barVelocities[i])
        == Spring(Bar(old(barHeights[i]), old(barVelocities[i])), Target(sin, frequencyData[i], frameCounter, i))
    {
      var i := 0;
      while i < NUM_BARS && i < NUM_FREQUENCY_BINS
        invariant 0 <= i <= NUM_BARS
        invariant forall k :: 0 <= k < NUM_BARS ==> 0.0 <= barHeights[k] <= MAX_BAR_HEIGHT as real
        invariant forall k :: 0 <= k < i ==>
          Bar(barHeights[k], barVelocities[k])
          == Spring(Bar(old(barHeights[k]), old(barVelocities[k])), Target(sin, frequencyData[k], frameCounter, k))
        invariant forall k :: i <= k < NUM_BARS ==>
          barHeights[k] == old(barHeights[k]) && barVelocities[k] == old(barVelocities[k])
      {
        var targetHeight := Target(sin, frequencyData[i], frameCounter, i);
        ghost var next := Spring(Bar(barHeights[i], barVelocities[i]), targetHeight);
        var diff := targetHeight - barHeights[i];
        barVelocities[i] := barVelocities[i] + diff * RESPONSE_SPEED;
        barVelocities[i] := barVelocities[i] * DAMPING_FACTOR;
        barHeights[i] := barHeights[i] + barVelocities[i];
        barHeights[i] := Clamp(barHeights[i], MIN_BAR_HEIGHT as real, MAX_BAR_HEIGHT as real);
        assert Bar(barHeights[i], barVelocities[i]) == next;
        i := i + 1;
      }
      assert Drawable(barHeights[..]);
    }

    /**
     * The bar loop of render_visualizer, as the lines it draws. Every line is
     * on the screen and drawn in a neon colour.
     */
    method RenderBars() returns (lines: seq<Line>)
      requires Valid()
      ensures lines == Scene(sin, frameCounter, frequencyData[..], barHeights[..], NUM_BARS)
      ensures forall l :: l in lines ==> LineOnScreen(l) && IsNeon(l.color)
    {
      lines := [];
      var i := 0;
      while i < NUM_BARS
        invariant 0 <= i <= NUM_BARS
        invariant lines == Scene(sin, frameCounter, frequencyData[..], barHeights[..], i)
      {
        var bar := DrawBar(i);
        lines := lines + bar;
        i := i + 1;
      }
      SceneOnScreen(sin, frameCounter, frequencyData[..], barHeights[..], NUM_BARS);
    }

    /**
     * One pass of the bar loop of render_visualizer: the neon line of bar i
     * and, from the second bar on, the flow lines from the previous bar.
     */
    method DrawBar(i: int) returns (bar: seq<Line>)
      requires Valid() && 0 <= i < NUM_BARS
      ensures bar == BarLines(sin, frameCounter, frequencyData[..], barHeights[..], i)
    {
      var x := i * BAR_WIDTH + BAR_WIDTH / 2;
      var intensity := barHeights[i] / (MAX_BAR_HEIGHT as real);
      var height := Trunc(barHeights[i]);
      var color := NeonColor(sin, frameCounter, frequencyData[..], i, intensity);
      var topY := CENTER_Y - Half(height);
      var bottomY := CENTER_Y + Half(height);
      bar := NeonLines(x, topY, x, bottomY, color);
      if i > 0 {
        var prevX := (i - 1) * BAR_WIDTH + BAR_WIDTH / 2;
        var prevHeight := Trunc(barHeights[i - 1]);
        var prevTopY := CENTER_Y - Half(prevHeight);
        var prevBottomY := CENTER_Y + Half(prevHeight);
        bar := bar + [Line(prevX, prevTopY, x, topY, color), Line(prevX, prevBottomY, x, bottomY, color)];
      }
    }
  }
}
