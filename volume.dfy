/**
 * The volume arithmetic of the applet: the popup slider's value-to-volume
 * mapping with magnetic snapping, the slider's scroll and key steps, the
 * slider's icon levels, the panel's scroll steps on the output stream, and the
 * panel icon and colour bands chosen from the volume percentage.
 *
 * Volumes are PulseAudio volume units over `real`: `norm` is the nominal 100 %
 * volume and `max` the configured ceiling (`maximum-volume` percent of `norm`).
 */
module Volume {
  import opened Wrappers
  import opened JsMath

  /** The initial `VOLUME_ADJUSTMENT_STEP` (2 %); the `stepVolume` setting replaces it. */
  const DefaultStep: real := 0.02

  /** Slider values below this mute the stream. */
  const MuteThreshold: real := 0.005

  /** The applet-wide values the arithmetic depends on. */
  datatype Settings = Settings(norm: real, max: real, step: real, magneticOn: bool, magnetic25On: bool)

  predicate Sane(s: Settings) {
    s.norm > 0.0 && s.max > 0.0 && s.step > 0.0
  }

  /** Half the width of a magnetic window: `norm · step / 2`. */
  function HalfWindow(s: Settings): real {
    s.norm * s.step / 2.0
  }

  /**
   * `v` lies strictly inside the magnetic window around `c` times the nominal
   * volume, `norm · (c - step/2) < v < norm · (c + step/2)` (see `WindowBounds`).
   */
  predicate Near(s: Settings, v: real, c: real) {
    c * s.norm - HalfWindow(s) < v < c * s.norm + HalfWindow(s)
  }

  /** The source's window bounds are the centre minus and plus the half width. */
  lemma WindowBounds(s: Settings, c: real)
    ensures s.norm * (c - s.step / 2.0) == c * s.norm - HalfWindow(s)
    ensures s.norm * (c + s.step / 2.0) == c * s.norm + HalfWindow(s)
  {
    Distribute(s.norm, s.step, c);
  }

  lemma Distribute(n: real, st: real, c: real)
    ensures n * (c - st / 2.0) == c * n - n * st / 2.0
    ensures n * (c + st / 2.0) == c * n + n * st / 2.0
  {
  }

  /** One magnetic test: a volume near, but not on, `c`·norm is pulled onto it. */
  function Snap(s: Settings, v: real, c: real): real {
    if v != c * s.norm && Near(s, v, c) then c * s.norm else v
  }

  /**
   * The quarter loop `for (i = 0.25; i < 1.5; i += 0.25)`, skipping `i == 1`,
   * from its `k`-th round on (`i == k / 4`).
   */
  function QuarterPass(s: Settings, v: real, k: nat): real
    decreases 6 - k
  {
    if k >= 6 then v
    else QuarterPass(s, if k == 4 then v else Snap(s, v, k as real / 4.0), k + 1)
  }

  /**
   * The snapping the slider and the panel steps apply after computing a
   * volume: the 100 % test, then the quarter tests in increasing order.
   */
  function Magnetize(s: Settings, v: real): real {
    var w := if s.magneticOn then Snap(s, v, 1.0) else v;
    if s.magneticOn && s.magnetic25On then Snap(s, Snap(s, Snap(s, Snap(s, w, 0.25), 0.5), 0.75), 1.25)
    else w
  }

  /** The multiples of the nominal volume that attract, given the magnetic flags. */
  function Centres(s: Settings): set<real> {
    if !s.magneticOn then {}
    else if s.magnetic25On then {0.25, 0.5, 0.75, 1.0, 1.25}
    else {1.0}
  }

  /** One magnetic test of the source, written as it is there. */
  method SnapTest(s: Settings, volume: real, i: real) returns (r: real)
    ensures r == Snap(s, volume, i)
  {
    WindowBounds(s, i);
    r := volume;
    if volume != i * s.norm && volume > s.norm * (i - s.step / 2.0) && volume < s.norm * (i + s.step / 2.0) {
      r := i * s.norm;
    }
  }

  /** The snapping code of `_onValueChanged` and `_volumeChange`, loop and all. */
  method MagnetizeLoop(s: Settings, v: real) returns (volume: real)
    ensures volume == Magnetize(s, v)
  {
    volume := v;
    if s.magneticOn {
      volume := SnapTest(s, volume, 1.0);
    }
    if s.magneticOn && s.magnetic25On {
      ghost var w := volume;
      QuarterPassUnrolled(s, w);
      var k := 1;
      while k < 6
        invariant 1 <= k <= 6
        invariant QuarterPass(s, volume, k) == QuarterPass(s, w, 1)
      {
        var i := k as real / 4.0;
        assert i == 1.0 <==> k == 4;
        if i != 1.0 {
          volume := SnapTest(s, volume, i);
        }
        k := k + 1;
      }
    }
  }

  /** The quarter loop unrolled. */
  lemma {:induction false} QuarterPassUnrolled(s: Settings, v: real)
    ensures QuarterPass(s, v, 1) == Snap(s, Snap(s, Snap(s, Snap(s, v, 0.25), 0.5), 0.75), 1.25)
  {
    var a := Snap(s, v, 0.25);
    var b := Snap(s, a, 0.5);
    var c := Snap(s, b, 0.75);
    var d := Snap(s, c, 1.25);
    assert QuarterPass(s, v, 1) == QuarterPass(s, a, 2);
    assert QuarterPass(s, a, 2) == QuarterPass(s, b, 3);
    assert QuarterPass(s, b, 3) == QuarterPass(s, c, 4);
    assert QuarterPass(s, c, 4) == QuarterPass(s, c, 5);
    assert QuarterPass(s, c, 5) == QuarterPass(s, d, 6);
  }

  /** With a step of at most 25 %, a window is at most an eighth of the nominal volume wide on each side. */
  lemma HalfWindowBound(s: Settings)
    requires Sane(s) && s.step <= 0.25
    ensures 0.0 < HalfWindow(s) <= s.norm / 8.0
  {
    var p := s.norm * s.step;
    assert HalfWindow(s) == p / 2.0;
    assert p > 0.0;
    assert s.norm * (0.25 - s.step) >= 0.0;
    assert s.norm * (0.25 - s.step) == s.norm * 0.25 - p;
  }

  /** Centres a quarter apart, with half widths of at most an eighth, leave a gap between their windows. */
  lemma Gap(n: real, h: real, lo: real, hi: real)
    requires n > 0.0 && 0.0 < h <= n / 8.0 && hi - lo >= 0.25
    ensures hi * n - h >= lo * n + h
  {
    var d := hi - lo;
    assert (d - 0.25) * n >= 0.0;
    assert (d - 0.25) * n == d * n - 0.25 * n;
    assert d * n == hi * n - lo * n;
  }

  /** Windows around centres a quarter apart do not overlap once the step is at most 25 %. */
  lemma Apart(s: Settings, v: real, c: real, d: real)
    requires Sane(s) && s.step <= 0.25
    requires d - c >= 0.25 || c - d >= 0.25
    requires Near(s, v, c)
    ensures !Near(s, v, d)
  {
    HalfWindowBound(s);
    if d - c >= 0.25 {
      Gap(s.norm, HalfWindow(s), c, d);
    } else {
      Gap(s.norm, HalfWindow(s), d, c);
    }
  }

  /** Every centre lies in its own window. */
  lemma CentreIsNear(s: Settings, c: real)
    requires Sane(s)
    ensures Near(s, c * s.norm, c)
  {
    assert s.norm * s.step > 0.0;
  }

  /** A volume already on centre `c` is left there by the other tests. */
  lemma CentreStays(s: Settings, c: real, d: real)
    requires Sane(s) && s.step <= 0.25
    requires d - c >= 0.25 || c - d >= 0.25
    ensures Snap(s, c * s.norm, d) == c * s.norm
  {
    CentreIsNear(s, c);
    Apart(s, c * s.norm, c, d);
  }

  /** The 100 % test runs first; the quarter tests then leave its result alone. */
  lemma {:induction false} SnapsOntoNominal(s: Settings, v: real)
    requires Sane(s) && s.magneticOn && (s.magnetic25On ==> s.step <= 0.25)
    requires Near(s, v, 1.0)
    ensures Magnetize(s, v) == s.norm
  {
    var x := 1.0 * s.norm;
    var w := Snap(s, v, 1.0);
    assert w == x;
    if s.magnetic25On {
      CentreStays(s, 1.0, 0.25);
      var a := Snap(s, w, 0.25);
      assert a == x;
      CentreStays(s, 1.0, 0.5);
      var b := Snap(s, a, 0.5);
      assert b == x;
      CentreStays(s, 1.0, 0.75);
      var d := Snap(s, b, 0.75);
      assert d == x;
      CentreStays(s, 1.0, 1.25);
      assert Snap(s, d, 1.25) == x;
    }
  }

  /** A volume near a quarter centre passes the 100 % test and the earlier quarter tests untouched. */
  lemma {:induction false} SnapsOntoQuarter(s: Settings, v: real, c: real)
    requires Sane(s) && s.step <= 0.25 && s.magneticOn && s.magnetic25On
    requires c in {0.25, 0.5, 0.75, 1.25} && Near(s, v, c)
    ensures Magnetize(s, v) == c * s.norm
  {
    var x := c * s.norm;
    Apart(s, v, c, 1.0);
    var w := Snap(s, v, 1.0);
    assert w == v;
    var a := Snap(s, w, 0.25);
    if c == 0.25 {
      assert a == x;
    } else {
      Apart(s, v, c, 0.25);
      assert a == v;
    }
    var b := Snap(s, a, 0.5);
    if c == 0.25 {
      CentreStays(s, 0.25, 0.5);
      assert b == x;
    } else if c == 0.5 {
      assert b == x;
    } else {
      Apart(s, v, c, 0.5);
      assert b == v;
    }
    var d := Snap(s, b, 0.75);
    if c == 0.25 || c == 0.5 {
      CentreStays(s, c, 0.75);
      assert d == x;
    } else if c == 0.75 {
      assert d == x;
    } else {
      Apart(s, v, c, 0.75);
      assert d == v;
    }
    var e := Snap(s, d, 1.25);
    if c != 1.25 {
      CentreStays(s, c, 1.25);
    }
    assert e == x;
  }

  /**
   * With a step of at most 25 % the windows are disjoint, so a volume inside
   * the window of an attracting centre ends exactly on that centre.
   */
  lemma MagnetizeSnapsOntoCentre(s: Settings, v: real, c: real)
    requires Sane(s) && s.step <= 0.25
    requires c in Centres(s) && Near(s, v, c)
    ensures Magnetize(s, v) == c * s.norm
  {
    if c == 1.0 {
      SnapsOntoNominal(s, v);
    } else {
      SnapsOntoQuarter(s, v, c);
    }
  }

  /** A volume outside every attracting window is left alone. */
  lemma {:induction false} MagnetizeKeepsFarVolume(s: Settings, v: real)
    requires forall c :: c in Centres(s) ==> !Near(s, v, c)
    ensures Magnetize(s, v) == v
  {
    if s.magneticOn {
      assert 1.0 in Centres(s);
      if s.magnetic25On {
        assert 0.25 in Centres(s) && 0.5 in Centres(s) && 0.75 in Centres(s) && 1.25 in Centres(s);
      }
    }
  }

  /** Snapping changes a volume exactly when it lies off-centre inside an attracting window. */
  lemma MagnetizeMoves(s: Settings, v: real)
    requires Sane(s) && s.step <= 0.25
    ensures Magnetize(s, v) != v <==> exists c :: c in Centres(s) && Near(s, v, c) && v != c * s.norm
  {
    if exists c :: c in Centres(s) && Near(s, v, c) {
      var c :| c in Centres(s) && Near(s, v, c);
      MagnetizeSnapsOntoCentre(s, v, c);
      forall d | d in Centres(s) && Near(s, v, d)
        ensures d == c
      {
        if d != c {
          assert d - c >= 0.25 || c - d >= 0.25;
          Apart(s, v, c, d);
        }
      }
    } else {
      MagnetizeKeepsFarVolume(s, v);
    }
  }

  /** Snapping keeps a positive volume positive. */
  lemma MagnetizePositive(s: Settings, v: real)
    requires s.norm > 0.0 && v > 0.0
    ensures Magnetize(s, v) > 0.0
  {
  }

  /**
   * Snapping stays in [0, max] when only the 100 % centre attracts and the
   * nominal volume is within the ceiling.
   */
  lemma MagnetizeWithinCeiling(s: Settings, v: real)
    requires !s.magnetic25On && 0.0 <= s.norm <= s.max
    requires 0.0 <= v <= s.max
    ensures 0.0 <= Magnetize(s, v) <= s.max
  {
  }

  /** The stream state (`volume`, `is_muted`) a computation pushes. */
  datatype StreamState = StreamState(volume: real, muted: bool)

  /**
   * `_onValueChanged`: below the mute threshold the stream is silenced and
   * muted; otherwise the slider value scales `max` (output sink) or `norm`
   * (other streams) and is snapped.
   */
  function SliderVolume(s: Settings, value: real, isOutputSink: bool): StreamState {
    if value < MuteThreshold then StreamState(0.0, true)
    else StreamState(Magnetize(s, value * Scale(s, isOutputSink)), false)
  }

  /** The volume a full slider stands for: the ceiling for the output sink, the nominal volume otherwise. */
  function Scale(s: Settings, isOutputSink: bool): real {
    if isOutputSink then s.max else s.norm
  }

  /** The computation in `_onValueChanged`, before the result is pushed to the stream. */
  method SliderToVolume(s: Settings, value: real, isOutputSink: bool) returns (r: StreamState)
    ensures r == SliderVolume(s, value, isOutputSink)
  {
    var volume := value * Scale(s, isOutputSink);
    var muted: bool;
    if value < MuteThreshold {
      volume := 0.0;
      muted := true;
    } else {
      muted := false;
      volume := MagnetizeLoop(s, volume);
    }
    r := StreamState(volume, muted);
  }

  /** The stream is muted exactly for the slider values below the threshold, and exactly when silenced. */
  lemma SliderMutesOnlyAtZero(s: Settings, value: real, isOutputSink: bool)
    requires Sane(s)
    ensures SliderVolume(s, value, isOutputSink).muted <==> value < MuteThreshold
    ensures SliderVolume(s, value, isOutputSink).muted <==> SliderVolume(s, value, isOutputSink).volume == 0.0
  {
    if value >= MuteThreshold {
      var scale := Scale(s, isOutputSink);
      assert value * scale > 0.0;
      MagnetizePositive(s, value * scale);
    }
  }

  /** Without snapping, the slider is linear: `value` of the scale. */
  lemma SliderWithoutSnapping(s: Settings, value: real, isOutputSink: bool)
    requires !s.magneticOn && value >= MuteThreshold
    ensures SliderVolume(s, value, isOutputSink) == StreamState(value * Scale(s, isOutputSink), false)
  {
  }

  /** The output slider never exceeds the ceiling while the quarter centres are off. */
  lemma SliderWithinCeiling(s: Settings, value: real)
    requires Sane(s) && !s.magnetic25On && s.norm <= s.max
    requires 0.0 <= value <= 1.0
    ensures 0.0 <= SliderVolume(s, value, true).volume <= s.max
  {
    if value >= MuteThreshold {
      assert value * s.max <= 1.0 * s.max && value * s.max >= 0.0;
      MagnetizeWithinCeiling(s, value * s.max);
    }
  }

  /**
   * With the quarter centres on, the 125 % centre can pull a full slider above
   * the ceiling: nominal 100, ceiling 124, step 4 %.
   */
  lemma SliderCanOvershootCeiling()
    ensures var s := Settings(100.0, 124.0, 0.04, true, true);
      SliderVolume(s, 1.0, true) == StreamState(125.0, false) && 125.0 > s.max
  {
    var s := Settings(100.0, 124.0, 0.04, true, true);
    assert Snap(s, 124.0, 1.0) == 124.0;
  }

  /** The slider distance of one scroll notch or arrow key: `step` of the nominal volume. */
  function SliderDelta(s: Settings): (d: real)
    requires s.max > 0.0
    ensures Sane(s) ==> d > 0.0
  {
    assert Sane(s) ==> s.step / s.max > 0.0;
    s.step / s.max * s.norm
  }

  /** A scroll notch or arrow key on the slider, clamped to [0, 1]. */
  function SliderStep(s: Settings, value: real, up: bool): (r: real)
    requires s.max > 0.0
    ensures up ==> r <= 1.0 && (Sane(s) && value <= 1.0 ==> r >= value)
    ensures !up ==> r >= 0.0 && (Sane(s) && value >= 0.0 ==> r <= value)
  {
    if up then Min(1.0, value + SliderDelta(s)) else Max(0.0, value - SliderDelta(s))
  }

  lemma Negated(st: real, m: real, n: real)
    requires m > 0.0
    ensures -st / m * n == -(st / m * n)
  {
  }

  /** A notch up followed by a notch down returns to the start when no clamping occurs, and conversely. */
  lemma SliderStepsCancel(s: Settings, value: real)
    requires Sane(s) && s.norm >= 0.0
    ensures 0.0 <= value && value + SliderDelta(s) <= 1.0 ==> SliderStep(s, SliderStep(s, value, true), false) == value
    ensures value <= 1.0 && value - SliderDelta(s) >= 0.0 ==> SliderStep(s, SliderStep(s, value, false), true) == value
  {
    assert SliderDelta(s) >= 0.0;
  }

  /** The popup slider's icon level, in `_volumeToIcon`'s order. */
  datatype IconLevel = Muted | Low | Medium | High | Overamplified

  function Rank(l: IconLevel): nat {
    match l
    case Muted => 0
    case Low => 1
    case Medium => 2
    case High => 3
    case Overamplified => 4
  }

  /**
   * `_volumeToIcon` as written: thresholds on hundredths of thirds of the
   * slider value. The lower levels are the slider's thirds.
   */
  function SliderIconLevel(s: Settings, value: real): (l: IconLevel)
    requires s.max > 0.0
    ensures l == Muted <==> value < MuteThreshold
    ensures l == Low <==> MuteThreshold <= value < 1.0 / 3.0
    ensures l == Medium <==> 1.0 / 3.0 <= value < 2.0 / 3.0
  {
    var nominal := s.norm / s.max;
    var f := (300.0 * value).Floor;
    assert f < 100 <==> 300.0 * value < 100.0;
    assert f < 200 <==> 300.0 * value < 200.0;
    if value < MuteThreshold then Muted
    else
      var n2 := (300.0 * value).Floor as real / 100.0;
      if n2 < 1.0 then Low
      else if n2 < 2.0 then Medium
      else if n2 < 3.0 * nominal then High
      else Overamplified
  }

  /** A louder slider never shows a quieter icon. */
  lemma SliderIconMonotone(s: Settings, v: real, w: real)
    requires s.max > 0.0 && v <= w
    ensures Rank(SliderIconLevel(s, v)) <= Rank(SliderIconLevel(s, w))
  {
    assert (300.0 * v).Floor <= (300.0 * w).Floor;
  }

  /**
   * At exactly 100 % with the default ceiling (`max == norm`) the slider shows
   * the over-amplified icon, while the panel shows "high" for 100 %.
   */
  lemma SliderIconAtNominal(s: Settings)
    requires s.norm > 0.0 && s.max == s.norm
    ensures SliderIconLevel(s, 1.0) == Overamplified
    ensures PanelIconLevel(Round(1.0 * 100.0)) == High
  {
    assert (300.0 * 1.0).Floor == 300;
  }

  /** A ceiling of at most 150 % puts the nominal volume at two thirds of the slider or more. */
  lemma TwoThirds(n: real, m: real)
    requires n > 0.0 && 0.0 < m <= 1.5 * n
    ensures n / m >= 2.0 / 3.0
  {
    var q := n / m;
    assert q * m == n;
    assert 2.0 / 3.0 * m <= n;
    if q < 2.0 / 3.0 {
      assert (2.0 / 3.0 - q) * m > 0.0;
    }
  }

  /** The slider icon with the over-amplified level kept for volumes above 100 %. */
  function SliderIconLevelAboveNominal(s: Settings, value: real): IconLevel
    requires s.max > 0.0
  {
    var nominal := s.norm / s.max;
    if value < MuteThreshold then Muted
    else
      var n2 := (300.0 * value).Floor as real / 100.0;
      if n2 < 1.0 then Low
      else if n2 < 2.0 then Medium
      else if value <= nominal then High
      else Overamplified
  }

  /**
   * The corrected level is over-amplified exactly above the nominal volume
   * (for ceilings up to 150 %), and agrees with `_volumeToIcon` on every other level.
   */
  lemma SliderIconAboveNominalMeansLoud(s: Settings, value: real)
    requires Sane(s) && s.max <= 1.5 * s.norm
    ensures SliderIconLevelAboveNominal(s, value) == Overamplified <==> value * s.max > s.norm
    ensures SliderIconLevel(s, value) != High && SliderIconLevel(s, value) != Overamplified ==>
      SliderIconLevelAboveNominal(s, value) == SliderIconLevel(s, value)
  {
    var nominal := s.norm / s.max;
    assert nominal * s.max == s.norm;
    TwoThirds(s.norm, s.max);
    assert value > nominal <==> value * s.max > s.norm by {
      if value > nominal {
        assert value * s.max > nominal * s.max;
      } else {
        assert value * s.max <= nominal * s.max;
      }
    }
    if value * s.max > s.norm {
      var f := (300.0 * value).Floor;
      assert 300.0 * value > 200.0;
      assert f >= 200;
    }
  }

  /** With the default ceiling, the corrected level at exactly 100 % is "high", as on the panel. */
  lemma SliderIconAboveNominalAtNominal(s: Settings)
    requires s.norm > 0.0 && s.max == s.norm
    ensures SliderIconLevelAboveNominal(s, 1.0) == High
    ensures SliderIconLevelAboveNominal(s, 1.0) == PanelIconLevel(Round(1.0 * 100.0))
  {
    assert (300.0 * 1.0).Floor == 300;
    assert Round(1.0 * 100.0) == 100;
  }

  /** A PulseAudio stream as the applet sees it. */
  class Stream {
    var volume: real
    var muted: bool

    constructor (volume: real, muted: bool)
      ensures this.volume == volume && this.muted == muted
    {
      this.volume := volume;
      this.muted := muted;
    }
  }

  datatype ScrollDirection = Up | Down | Left | Right | Smooth

  datatype Key = KeyRight | KeyLeft | RaiseVolume | LowerVolume | OtherKey

  /** The keys that raise the volume. */
  predicate Raises(key: Key) {
    key == KeyRight || key == RaiseVolume
  }

  /** The popup slider of one stream. */
  class VolumeSlider {
    /** The slider's `_value`, a fraction of `max` (output sink) or `norm`. */
    var value: real
    const stream: Stream?
    const isOutputSink: bool

    constructor (value: real, stream: Stream?, isOutputSink: bool)
      ensures this.value == value && this.stream == stream && this.isOutputSink == isOutputSink
    {
      this.value := value;
      this.stream := stream;
      this.isOutputSink := isOutputSink;
    }

    /** `_onValueChanged`: push the volume and mute state the slider value stands for. */
    method OnValueChanged(s: Settings)
      modifies stream
      ensures stream != null ==>
        StreamState(stream.volume, stream.muted) == SliderVolume(s, value, isOutputSink)
    {
      if stream == null {
        return;
      }
      var target := SliderToVolume(s, value, isOutputSink);
      stream.volume := target.volume;
      if stream.muted != target.muted {
        stream.muted := target.muted;
      }
    }

    /** `_onScrollEvent`: up and down move the slider one step; every scroll re-pushes the volume. */
    method OnScroll(s: Settings, direction: ScrollDirection)
      requires s.max > 0.0
      modifies this`value, stream
      ensures value == match direction
        case Up => SliderStep(s, old(value), true)
        case Down => SliderStep(s, old(value), false)
        case _ => old(value)
      ensures stream != null ==>
        StreamState(stream.volume, stream.muted) == SliderVolume(s, value, isOutputSink)
    {
      if direction == Down {
        value := Max(0.0, value - s.step / s.max * s.norm);
      } else if direction == Up {
        value := Min(1.0, value + s.step / s.max * s.norm);
      }
      OnValueChanged(s);
    }

    /** `_onKeyPressEvent`: the arrow and volume keys step the slider; other keys are not handled. */
    method OnKeyPress(s: Settings, key: Key) returns (handled: bool)
      requires s.max > 0.0 && s.step > 0.0
      modifies this`value, stream
      ensures handled <==> key != OtherKey
      ensures value == if handled then SliderStep(s, old(value), Raises(key)) else old(value)
      ensures handled && stream != null ==>
        StreamState(stream.volume, stream.muted) == SliderVolume(s, value, isOutputSink)
      ensures !handled && stream != null ==> stream.volume == old(stream.volume) && stream.muted == old(stream.muted)
    {
      if key == OtherKey {
        return false;
      }
      var delta := if key == KeyRight || key == RaiseVolume then s.step else -s.step;
      if delta < 0.0 {
        Negated(s.step, s.max, s.norm);
        value := Max(0.0, value + delta / s.max * s.norm);
        assert value == SliderStep(s, old(value), false);
      } else {
        value := Min(1.0, value + delta / s.max * s.norm);
        assert value == SliderStep(s, old(value), true);
      }
      OnValueChanged(s);
      return true;
    }
  }

  /** The floor a panel step down applies before snapping: `max(0, v - norm·step)`. */
  function Lowered(s: Settings, v: real): real {
    Max(0.0, v - s.norm * s.step)
  }

  /** A panel scroll down: below one unit the output is silenced, else snapped. */
  function StepDown(s: Settings, v: real): real {
    if Lowered(s, v) < 1.0 then 0.0 else Magnetize(s, Lowered(s, v))
  }

  /** The ceiling a panel step up applies before snapping: `min(max, v + norm·step)`. */
  function Raised(s: Settings, v: real): real {
    Min(s.max, v + s.norm * s.step)
  }

  /** A panel scroll up: raised by `norm·step`, capped at `max`, snapped. */
  function StepUp(s: Settings, v: real): real {
    Magnetize(s, Raised(s, v))
  }

  /** Without the quarter centres, both panel steps keep the output within [0, max]. */
  lemma PanelStepsWithinCeiling(s: Settings, v: real)
    requires Sane(s) && !s.magnetic25On && s.norm <= s.max
    requires 0.0 <= v <= s.max
    ensures 0.0 <= StepUp(s, v) <= s.max
    ensures 0.0 <= StepDown(s, v) <= s.max
  {
    assert s.norm * s.step > 0.0;
    MagnetizeWithinCeiling(s, Min(s.max, v + s.norm * s.step));
    if Lowered(s, v) >= 1.0 {
      MagnetizeWithinCeiling(s, Lowered(s, v));
    }
  }

  /** Without snapping, a step up and a step down cancel when neither is clamped, in both orders. */
  lemma PanelStepsCancel(s: Settings, v: real)
    requires Sane(s) && !s.magneticOn
    ensures v >= 1.0 && v + s.norm * s.step <= s.max ==> StepDown(s, StepUp(s, v)) == v
    ensures v <= s.max && v - s.norm * s.step >= 1.0 ==> StepUp(s, StepDown(s, v)) == v
  {
    assert s.norm * s.step > 0.0;
  }

  /** With the quarter centres on, a step up can land above the ceiling. */
  lemma PanelStepCanOvershootCeiling()
    ensures var s := Settings(100.0, 124.0, 0.04, true, true);
      StepUp(s, 122.0) == 125.0 && 125.0 > s.max
  {
    var s := Settings(100.0, 124.0, 0.04, true, true);
    assert Min(s.max, 122.0 + s.norm * s.step) == 124.0;
    assert Snap(s, 124.0, 1.0) == 124.0;
  }

  /** The volume computation of a panel scroll down; `silenced` when it fell below one unit. */
  method LowerOutput(s: Settings, currentVolume: real) returns (volume: real, silenced: bool)
    ensures volume == StepDown(s, currentVolume)
    ensures silenced <==> Lowered(s, currentVolume) < 1.0
  {
    volume := Max(0.0, currentVolume - s.norm * s.step);
    assert volume == Lowered(s, currentVolume);
    silenced := volume < 1.0;
    if volume < 1.0 {
      volume := 0.0;
    } else {
      volume := MagnetizeLoop(s, volume);
    }
  }

  /** The volume computation of a panel scroll up. */
  method RaiseOutput(s: Settings, currentVolume: real) returns (volume: real)
    ensures volume == StepUp(s, currentVolume)
  {
    volume := Min(s.max, currentVolume + s.norm * s.step);
    assert volume == Raised(s, currentVolume);
    volume := MagnetizeLoop(s, volume);
  }

  /**
   * `_volumeChange(direction)` on the output stream. `None` is the call made
   * after a mute toggle, which changes nothing but still refreshes the panel;
   * the result says whether the panel is refreshed.
   */
  method VolumeChange(output: Stream, s: Settings, direction: Option<ScrollDirection>) returns (changed: bool)
    modifies output
    ensures changed <==> direction == None || direction == Some(Up) || direction == Some(Down)
    ensures direction == Some(Down) ==>
      && output.volume == StepDown(s, old(output.volume))
      && output.muted == (old(output.muted) || Lowered(s, old(output.volume)) < 1.0)
    ensures direction == Some(Up) ==> output.volume == StepUp(s, old(output.volume)) && !output.muted
    ensures !(direction == Some(Up) || direction == Some(Down)) ==>
      output.volume == old(output.volume) && output.muted == old(output.muted)
  {
    var currentVolume := output.volume;
    changed := direction == None;
    if direction == Some(Down) {
      var prevMuted := output.muted;
      var volume, silenced := LowerOutput(s, currentVolume);
      output.volume := volume;
      if silenced && !prevMuted {
        output.muted := true;
      }
      changed := true;
    } else if direction == Some(Up) {
      output.volume := RaiseOutput(s, currentVolume);
      output.muted := false;
      changed := true;
    }
  }

  /** The panel icon for a volume percentage (`_volumeChange`): bands of about a third, above 100 % over-amplified. */
  function PanelIconLevel(percent: int): (l: IconLevel)
    ensures l == Overamplified <==> percent > 100
    ensures l == Muted <==> percent < 1
    ensures l == Low <==> 1 <= percent < 33
    ensures l == Medium <==> 33 <= percent < 67
    ensures l == High <==> 67 <= percent <= 100
  {
    if percent > 100 then Overamplified
    else if percent < 1 then Muted
    else if percent < 33 then Low
    else if percent < 67 then Medium
    else High
  }

  /** A louder percentage never shows a quieter panel icon. */
  lemma PanelIconMonotone(p: int, q: int)
    requires p <= q
    ensures Rank(PanelIconLevel(p)) <= Rank(PanelIconLevel(q))
  {
  }

  /** The panel colour bands of `_outputValuesChanged`. */
  datatype ColourBand = ThemeColour | Band101To115 | Band116To130 | Band131To150

  /** The colour for a percentage when `adaptColor` is set; the theme colour otherwise. */
  function PanelColour(adaptColor: bool, percent: int): (b: ColourBand)
    ensures b != ThemeColour <==> adaptColor && percent > 100
    ensures b == Band101To115 <==> adaptColor && 100 < percent <= 115
    ensures b == Band116To130 <==> adaptColor && 115 < percent <= 130
    ensures b == Band131To150 <==> adaptColor && percent > 130
  {
    if !adaptColor then ThemeColour
    else if percent > 130 then Band131To150
    else if percent > 115 then Band116To130
    else if percent > 100 then Band101To115
    else ThemeColour
  }

  /** The percentage shown for a volume: `Math.round` of the fraction of nominal, in percent. */
  function Percent(s: Settings, volume: real): int
    requires s.norm > 0.0
  {
    Round(volume / s.norm * 100.0)
  }

  /** With colour adaptation on, the panel is recoloured exactly when its icon shows over-amplification. */
  lemma ColourMarksOveramplified(percent: int)
    ensures PanelColour(true, percent) != ThemeColour <==> PanelIconLevel(percent) == Overamplified
  {
  }

  /** A volume above 100.5 % of nominal is shown over-amplified; one up to 100.5 % is not. */
  lemma PanelOveramplifiedAboveNominal(s: Settings, volume: real)
    requires s.norm > 0.0
    ensures volume / s.norm * 100.0 >= 100.5 ==> PanelIconLevel(Percent(s, volume)) == Overamplified
    ensures volume / s.norm * 100.0 < 100.5 ==> PanelIconLevel(Percent(s, volume)) != Overamplified
  {
  }
}
