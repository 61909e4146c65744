/** The label's measurement arithmetic and the fixed-size state that decides
    whether a text change needs a new layout pass. */
module LabelMeasure {
  import opened Wrappers
  import opened Layout

  /** The `FixedSize` bitmask: one bit per axis whose mode was EXACTLY. */
  type FixedSize = bv2

  const NONE: FixedSize := 0
  const WIDTH: FixedSize := 1
  const HEIGHT: FixedSize := 2
  const BOTH: FixedSize := 3

  predicate WidthFixed(f: FixedSize)
  {
    f & WIDTH != 0
  }

  predicate HeightFixed(f: FixedSize)
  {
    f & HEIGHT != 0
  }

  /** The classification a measure pass stores: the WIDTH bit exactly when
      the width mode is EXACTLY, the HEIGHT bit exactly when the height mode is. */
  function FixedSizeFor(widthMode: Mode, heightMode: Mode): (f: FixedSize)
    ensures WidthFixed(f) <==> widthMode == Exactly
    ensures HeightFixed(f) <==> heightMode == Exactly
    ensures f == BOTH <==> widthMode == Exactly && heightMode == Exactly
    ensures f == WIDTH <==> widthMode == Exactly && heightMode != Exactly
    ensures f == HEIGHT <==> widthMode != Exactly && heightMode == Exactly
    ensures f == NONE <==> widthMode != Exactly && heightMode != Exactly
  {
    (if widthMode == Exactly then WIDTH else NONE) | (if heightMode == Exactly then HEIGHT else NONE)
  }

  /** Whether a text change is forwarded as a layout request, given the stored
      fixed-size state (None before the first measure pass), the `textWrap`
      flag and the height measured last. */
  function ShouldForwardLayout(fixedSize: Option<FixedSize>, textWrap: bool, measuredHeight: real): (forward: bool)
    ensures !forward <==>
      fixedSize.Some? &&
      ((WidthFixed(fixedSize.value) && HeightFixed(fixedSize.value)) ||
       (WidthFixed(fixedSize.value) && !HeightFixed(fixedSize.value) && !textWrap && 0.0 < measuredHeight))
    ensures fixedSize == Some(BOTH) ==> !forward
    ensures fixedSize.None? ==> forward
    ensures fixedSize != Some(BOTH) && (textWrap || measuredHeight <= 0.0) ==> forward
  {
    if fixedSize == Some(BOTH) then false
    else if fixedSize == Some(WIDTH) && !textWrap && measuredHeight > 0.0 then false
    else true
  }

  /** The native view's sizing query: the size it would take inside a box. */
  type SizeThatFits = (Bound, Bound) -> Size

  /** What one measure pass computes before handing its sizes to the
      framework's resolver. */
  datatype Measurement = Measurement(
    fixedSize: FixedSize,
    widthBound: Bound,
    heightBound: Bound,
    natural: Size,
    measureWidth: real,
    measureHeight: real)

  /** One measure pass over the width and height specs, for a native view
      whose sizing query is `sizeThatFits`. */
  function Measure(widthSpec: MeasureSpec, heightSpec: MeasureSpec, sizeThatFits: SizeThatFits,
                   textWrap: bool, minWidth: real, minHeight: real): (m: Measurement)
    ensures m.fixedSize == FixedSizeFor(widthSpec.mode, heightSpec.mode)
    ensures m.widthBound.Infinite? <==> widthSpec.mode == Unspecified
    ensures m.heightBound.Infinite? <==> heightSpec.mode == Unspecified
    ensures m.widthBound.Finite? ==> m.widthBound.limit == widthSpec.size as real
    ensures m.heightBound.Finite? ==> m.heightBound.limit == heightSpec.size as real
    ensures m.natural == sizeThatFits(m.widthBound, m.heightBound)
    // the minimums are always honoured
    ensures minWidth <= m.measureWidth && minHeight <= m.measureHeight
    // the height is the larger of the natural height and the minimum
    ensures m.natural.height <= m.measureHeight
    ensures m.measureHeight == m.natural.height || m.measureHeight == minHeight
    // without wrapping, or without a bound, the natural width stands
    ensures !textWrap || widthSpec.mode == Unspecified ==>
      m.natural.width <= m.measureWidth && (m.measureWidth == m.natural.width || m.measureWidth == minWidth)
    // with wrapping and a bound, the width is clamped to the bound first
    ensures textWrap && widthSpec.mode != Unspecified ==>
      m.measureWidth <= Max(widthSpec.size as real, minWidth) &&
      (m.natural.width <= m.measureWidth || widthSpec.size as real <= m.measureWidth) &&
      ((m.measureWidth == m.natural.width && m.natural.width <= widthSpec.size as real) ||
       (m.measureWidth == widthSpec.size as real && widthSpec.size as real <= m.natural.width) ||
       m.measureWidth == minWidth)
  {
    var widthBound := AvailableSize(widthSpec);
    var heightBound := AvailableSize(heightSpec);
    var natural := sizeThatFits(widthBound, heightBound);
    var labelWidth := if textWrap then Min(natural.width, widthBound) else natural.width;
    Measurement(FixedSizeFor(widthSpec.mode, heightSpec.mode), widthBound, heightBound, natural,
                Max(labelWidth, minWidth), Max(natural.height, minHeight))
  }

  /** A label whose parent pins both axes never re-lays out on a text change,
      whatever it measured and whatever its wrap mode. */
  lemma ExactBoxSkipsTextLayout(widthSpec: MeasureSpec, heightSpec: MeasureSpec, sizeThatFits: SizeThatFits,
                                textWrap: bool, minWidth: real, minHeight: real,
                                laterTextWrap: bool, measuredHeight: real)
    requires widthSpec.mode == Exactly && heightSpec.mode == Exactly
    ensures !ShouldForwardLayout(Some(Measure(widthSpec, heightSpec, sizeThatFits, textWrap, minWidth, minHeight).fixedSize),
                                 laterTextWrap, measuredHeight)
  {
  }

  /** A single-line label of fixed width, once measured with a positive height,
      skips the layout request; a wrapping one, or one with an unmeasured
      height, forwards it. */
  lemma FixedWidthSingleLine(widthSpec: MeasureSpec, heightSpec: MeasureSpec, sizeThatFits: SizeThatFits,
                             textWrap: bool, minWidth: real, minHeight: real, measuredHeight: real)
    requires widthSpec.mode == Exactly && heightSpec.mode != Exactly
    ensures var f := Some(Measure(widthSpec, heightSpec, sizeThatFits, textWrap, minWidth, minHeight).fixedSize);
      ShouldForwardLayout(f, textWrap, measuredHeight) <==> textWrap || measuredHeight <= 0.0
  {
  }

  /** Width EXACTLY 200, height UNSPECIFIED, natural size 150 x 40, no
      minimums: the width query is bounded by 200, the height query is
      unbounded, and 150 x 40 goes to the resolver with the WIDTH state. */
  lemma ExactWidthScenario(textWrap: bool)
    ensures var m := Measure(MeasureSpec(Exactly, 200), MeasureSpec(Unspecified, 0),
                             (w: Bound, h: Bound) => Size(150.0, 40.0), textWrap, 0.0, 0.0);
      m.fixedSize == WIDTH && m.widthBound == Finite(200.0) && m.heightBound == Infinite &&
      m.measureWidth == 150.0 && m.measureHeight == 40.0
  {
  }

  /** Width AT_MOST 100 with wrapping, natural width 250: the width handed on
      is clamped to 100. */
  lemma AtMostWrapScenario()
    ensures var m := Measure(MeasureSpec(AtMost, 100), MeasureSpec(Unspecified, 0),
                             (w: Bound, h: Bound) => Size(250.0, 20.0), true, 0.0, 0.0);
      m.fixedSize == NONE && m.measureWidth == 100.0 && m.measureHeight == 20.0
  {
  }
}
