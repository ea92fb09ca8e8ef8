/** The parts of the scatter chart's options that are rules rather than
    constants: the tick-label and gridline callbacks of both axes, and the
    mapping of the size slider onto pixels. */
module ChartOptions {
  import Quadrants

  /** Both axes are fixed to this range, with ticks every 25. */
  const AxisMin: real := 0.0
  const AxisMax: real := 50.0
  const StepSize: real := 25.0

  /** The x axis plots Resolvability, the y axis Opportunity. */
  datatype Axis = XAxis | YAxis

  /** What a tick callback returns: the value itself, or the empty string. */
  datatype TickText = Shown(value: real) | Blank

  /** The stroke of one gridline. */
  datatype GridStyle = GridStyle(lineWidth: nat, alpha: real)

  /** The tick-label callback of an axis; the component spells it out once per axis. */
  function TickLabel(axis: Axis, value: real): (t: TickText)
    ensures t.Shown? ==> t.value == value
  {
    match axis
    case XAxis => if value == 0.0 || value == 25.0 || value == 50.0 then Shown(value) else Blank
    case YAxis => if value == 0.0 || value == 25.0 || value == 50.0 then Shown(value) else Blank
  }

  /** The gridline colour and width callbacks of an axis, taken together. */
  function GridLine(axis: Axis, value: real): (g: GridStyle)
    ensures g.lineWidth == 1 || g.lineWidth == 2
  {
    match axis
    case XAxis => if value == 25.0 then GridStyle(2, 0.3) else GridStyle(1, 0.1)
    case YAxis => if value == 25.0 then GridStyle(2, 0.3) else GridStyle(1, 0.1)
  }

  /** Labels appear exactly at the ends and the middle of the axis range, and
      the rule is the same on both axes. */
  lemma TickLabelledExactlyAtAnchors(axis: Axis, value: real)
    ensures TickLabel(axis, value).Shown?
        <==> value == AxisMin || value == (AxisMin + AxisMax) / 2.0 || value == AxisMax
    ensures TickLabel(axis, value) == TickLabel(XAxis, value) == TickLabel(YAxis, value)
  {
  }

  /** Every tick the fixed step produces on the fixed range carries a label. */
  lemma StepTicksAllLabelled(axis: Axis, k: nat)
    requires AxisMin + (k as real) * StepSize <= AxisMax
    ensures TickLabel(axis, AxisMin + (k as real) * StepSize).Shown?
  {
    assert k <= 2;
  }

  /** The one emphasised gridline (width 2, alpha 0.3) is the quadrant
      boundary the classifier uses; every other line has width 1, alpha 0.1.
      The rule is the same on both axes. */
  lemma GridEmphasisAtQuadrantBoundary(axis: Axis, value: real)
    ensures GridLine(axis, value) == GridStyle(2, 0.3) <==> value == Quadrants.Midpoint
    ensures GridLine(axis, value) != GridStyle(2, 0.3) ==> GridLine(axis, value) == GridStyle(1, 0.1)
    ensures GridLine(axis, value) == GridLine(XAxis, value) == GridLine(YAxis, value)
  {
  }

  /** Smallest and largest container widths, in pixels. */
  const MinSize: real := 380.0
  const MaxSize: real := 1000.0

  /** Padding subtracted for the inner plotting area, in pixels. */
  const Padding: real := 40.0

  /** Container width for a slider setting: 1 maps to 380 px, 10 to 1000 px,
      linearly in between, computed in exact real arithmetic; the component
      does not clamp the setting. */
  function ChartSize(chartSize: int): (px: real)
    ensures chartSize == 1 ==> px == MinSize
    ensures chartSize == 10 ==> px == MaxSize
    ensures 1 <= chartSize <= 10 ==> MinSize <= px <= MaxSize
  {
    380.0 + ((chartSize - 1) as real / 9.0) * (1000.0 - 380.0)
  }

  /** Width of the plotting area inside the container. */
  function InnerChartSize(chartSize: int): (px: real)
    ensures px + Padding == ChartSize(chartSize)
    ensures 1 <= chartSize <= 10 ==> MinSize - Padding <= px <= MaxSize - Padding
  {
    ChartSize(chartSize) - 40.0
  }

  /** Each slider step adds the same width, so the mapping is strictly increasing. */
  lemma ChartSizeStrictlyIncreasing(a: int, b: int)
    requires a < b
    ensures ChartSize(a) < ChartSize(b)
    ensures ChartSize(b) - ChartSize(a) == (b - a) as real * (MaxSize - MinSize) / 9.0
  {
  }

  /** The slider setting can be read back from the container width. */
  function SliderFor(px: real): real
  {
    (px - MinSize) * 9.0 / (MaxSize - MinSize) + 1.0
  }

  lemma ChartSizeRecoversSlider(chartSize: int)
    ensures SliderFor(ChartSize(chartSize)) == chartSize as real
  {
  }
}
