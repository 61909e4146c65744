/** The iOS text label: its measure pass, its text-change hook, and the
    hooks that push style values onto the native label. */
module LabelIos {
  import opened Wrappers
  import opened Layout
  import opened EdgeInsets
  import opened WhiteSpaceSync
  import opened LabelMeasure

  /** A style length as the property getters report it. */
  datatype Length = Length(value: real, unit: string)

  const ZERO_LENGTH := Length(0.0, "px")

  /** The resolved (effective) style values the label reads. */
  datatype Style = Style(
    whiteSpace: WhiteSpace,
    effectiveMinWidth: real,
    effectiveMinHeight: real,
    effectiveBorderTopWidth: real,
    effectiveBorderRightWidth: real,
    effectiveBorderBottomWidth: real,
    effectiveBorderLeftWidth: real,
    effectivePaddingTop: real,
    effectivePaddingRight: real,
    effectivePaddingBottom: real,
    effectivePaddingLeft: real)

  /** The framework's `View.resolveSizeAndState`, applied to a measured size,
      the bound of the spec and its mode; its result is what the measured
      width or height reads back. */
  type Resolver = (real, Bound, Mode) -> real

  /** The native label (TNSLabel): mutable border, padding and line-break
      fields. Its sizing query depends on its text and line settings, so a
      measure pass receives that query as it stands at the time of the pass. */
  class NativeLabel {
    var borderThickness: Insets
    var padding: Insets
    var lineBreakMode: LineBreakMode
    var numberOfLines: int

    constructor ()
      ensures borderThickness == Zero && padding == Zero
      ensures lineBreakMode == ByTruncatingTail && numberOfLines == 1
    {
      borderThickness, padding := Zero, Zero;
      lineBreakMode, numberOfLines := ByTruncatingTail, 1;
    }
  }

  class Label {
    var nativeView: NativeLabel?
    var style: Style
    /** None until the first measure pass with a native view. */
    var fixedSize: Option<FixedSize>
    var measuredWidth: real
    var measuredHeight: real

    constructor (nativeView: NativeLabel?, style: Style)
      ensures this.nativeView == nativeView && this.style == style
      ensures fixedSize.None? && measuredWidth == 0.0 && measuredHeight == 0.0
    {
      this.nativeView := nativeView;
      this.style := style;
      fixedSize := None;
      measuredWidth, measuredHeight := 0.0, 0.0;
    }

    /** The native view as a frame: empty when there is none. */
    function NativeViews(): set<NativeLabel>
      reads this
    {
      if nativeView == null then {} else {nativeView}
    }

    /** The `textWrap` getter: wrapping is on exactly when `white-space` is
        "normal"; any other value, recognised or not, reads as off. */
    function TextWrap(): (wrap: bool)
      reads this
      ensures wrap <==> style.whiteSpace == NORMAL
    {
      Wraps(style.whiteSpace)
    }

    /** The `textWrap` setter: stores the matching `white-space` value and
        nothing else, so that `textWrap` then reads back what was set. */
    method SetTextWrap(value: bool)
      modifies this`style
      ensures style == old(style).(whiteSpace := WhiteSpaceFor(value))
      ensures TextWrap() == value
    {
      style := style.(whiteSpace := WhiteSpaceFor(value));
    }

    /** The text-change hook: reports whether the change is passed on to the
        framework as a layout request. */
    method RequestLayoutOnTextChanged() returns (forwarded: bool)
      ensures forwarded == ShouldForwardLayout(fixedSize, TextWrap(), measuredHeight)
    {
      if fixedSize == Some(BOTH) {
        return false;
      }
      if fixedSize == Some(WIDTH) && !TextWrap() && measuredHeight > 0.0 {
        // a single-line label of fixed width keeps its height
        return false;
      }
      forwarded := true;
    }

    /** The measure pass. `sizeThatFits` is the native view's sizing query in
        the view's current state (text, line settings). Without a native view
        nothing changes; otherwise the fixed-size state and both measured sizes
        are those of `Measure`, the sizes passed through `resolve`. The body
        follows the source statement by statement; `Measure` is the same
        computation written as one expression. */
    method OnMeasure(widthSpec: MeasureSpec, heightSpec: MeasureSpec, sizeThatFits: SizeThatFits, resolve: Resolver)
      modifies this`fixedSize, this`measuredWidth, this`measuredHeight
      ensures nativeView == null ==> unchanged(this)
      ensures nativeView != null ==>
        var m := Measure(widthSpec, heightSpec, sizeThatFits, TextWrap(),
                         style.effectiveMinWidth, style.effectiveMinHeight);
        && fixedSize == Some(m.fixedSize)
        && measuredWidth == resolve(m.measureWidth, m.widthBound, widthSpec.mode)
        && measuredHeight == resolve(m.measureHeight, m.heightBound, heightSpec.mode)
    {
      var nv := nativeView;
      if nv != null {
        var width: Bound := Finite(widthSpec.size as real);
        var height: Bound := Finite(heightSpec.size as real);
        if widthSpec.mode == Unspecified {
          width := Infinite;
        }
        if heightSpec.mode == Unspecified {
          height := Infinite;
        }
        fixedSize := Some((if widthSpec.mode == Exactly then WIDTH else NONE)
                          | (if heightSpec.mode == Exactly then HEIGHT else NONE));
        var nativeSize := sizeThatFits(width, height);
        var labelWidth: real := nativeSize.width;
        if TextWrap() {
          labelWidth := Min(labelWidth, width);
        }
        var measureWidth := Max(labelWidth, style.effectiveMinWidth);
        var measureHeight := Max(nativeSize.height, style.effectiveMinHeight);
        measuredWidth := resolve(measureWidth, width, widthSpec.mode);
        measuredHeight := resolve(measureHeight, height, heightSpec.mode);
      }
    }

    /** The whitespace getter is a stub: it always reports "normal", so read-back
        always claims wrapping, whatever the native label holds. */
    function WhiteSpaceNative(): (value: WhiteSpace)
      ensures Wraps(value)
    {
      NORMAL
    }

    /** The whitespace setter: writes the native line-break mode and line count
        for a recognised value, or throws and writes nothing. Only the two
        recognised values touch the native view. */
    method SetWhiteSpaceNative(value: WhiteSpace) returns (outcome: Outcome<string>)
      requires value == NORMAL || value == NO_WRAP ==> nativeView != null
      modifies NativeViews()`lineBreakMode, NativeViews()`numberOfLines
      ensures NativeWrapFor(value).Success? ==>
        && outcome == Pass
        && nativeView.lineBreakMode == NativeWrapFor(value).value.lineBreakMode
        && nativeView.numberOfLines == NativeWrapFor(value).value.numberOfLines
      ensures NativeWrapFor(value).Failure? ==>
        outcome == Fail(NativeWrapFor(value).error) && (nativeView != null ==> unchanged(nativeView))
    {
      var nv := nativeView;
      if value == NORMAL {
        nv.lineBreakMode := ByWordWrapping;
        nv.numberOfLines := 0;
        outcome := Pass;
      } else if value == NO_WRAP {
        nv.lineBreakMode := ByTruncatingTail;
        nv.numberOfLines := 1;
        outcome := Pass;
      } else {
        outcome := Fail(InvalidValueMessage(value));
      }
    }

    // Border and padding getters are stubs: each reports a zero length,
    // whatever the native structure holds.

    function BorderTopWidthNative(): (r: Length)
      ensures r.value == 0.0 && r.unit == "px"
    {
      ZERO_LENGTH
    }

    function BorderRightWidthNative(): (r: Length)
      ensures r.value == 0.0 && r.unit == "px"
    {
      ZERO_LENGTH
    }

    function BorderBottomWidthNative(): (r: Length)
      ensures r.value == 0.0 && r.unit == "px"
    {
      ZERO_LENGTH
    }

    function BorderLeftWidthNative(): (r: Length)
      ensures r.value == 0.0 && r.unit == "px"
    {
      ZERO_LENGTH
    }

    function PaddingTopNative(): (r: Length)
      ensures r.value == 0.0 && r.unit == "px"
    {
      ZERO_LENGTH
    }

    function PaddingRightNative(): (r: Length)
      ensures r.value == 0.0 && r.unit == "px"
    {
      ZERO_LENGTH
    }

    function PaddingBottomNative(): (r: Length)
      ensures r.value == 0.0 && r.unit == "px"
    {
      ZERO_LENGTH
    }

    function PaddingLeftNative(): (r: Length)
      ensures r.value == 0.0 && r.unit == "px"
    {
      ZERO_LENGTH
    }

    // Border and padding setters: each reads the native structure, replaces
    // its own edge by the style's effective value and writes the whole
    // structure back. The value passed in is not used.

    method SetBorderTopWidthNative(value: Length)
      requires nativeView != null
      modifies nativeView`borderThickness
      ensures nativeView.borderThickness == old(nativeView.borderThickness).Replace(Top, style.effectiveBorderTopWidth)
    {
      var nv := nativeView;
      var border := nv.borderThickness;
      nv.borderThickness := Insets(style.effectiveBorderTopWidth, border.right, border.bottom, border.left);
    }

    method SetBorderRightWidthNative(value: Length)
      requires nativeView != null
      modifies nativeView`borderThickness
      ensures nativeView.borderThickness == old(nativeView.borderThickness).Replace(Right, style.effectiveBorderRightWidth)
    {
      var nv := nativeView;
      var border := nv.borderThickness;
      nv.borderThickness := Insets(border.top, style.effectiveBorderRightWidth, border.bottom, border.left);
    }

    method SetBorderBottomWidthNative(value: Length)
      requires nativeView != null
      modifies nativeView`borderThickness
      ensures nativeView.borderThickness == old(nativeView.borderThickness).Replace(Bottom, style.effectiveBorderBottomWidth)
    {
      var nv := nativeView;
      var border := nv.borderThickness;
      nv.borderThickness := Insets(border.top, border.right, style.effectiveBorderBottomWidth, border.left);
    }

    method SetBorderLeftWidthNative(value: Length)
      requires nativeView != null
      modifies nativeView`borderThickness
      ensures nativeView.borderThickness == old(nativeView.borderThickness).Replace(Left, style.effectiveBorderLeftWidth)
    {
      var nv := nativeView;
      var border := nv.borderThickness;
      nv.borderThickness := Insets(border.top, border.right, border.bottom, style.effectiveBorderLeftWidth);
    }

    method SetPaddingTopNative(value: Length)
      requires nativeView != null
      modifies nativeView`padding
      ensures nativeView.padding == old(nativeView.padding).Replace(Top, style.effectivePaddingTop)
    {
      var nv := nativeView;
      var padding := nv.padding;
      nv.padding := Insets(style.effectivePaddingTop, padding.right, padding.bottom, padding.left);
    }

    method SetPaddingRightNative(value: Length)
      requires nativeView != null
      modifies nativeView`padding
      ensures nativeView.padding == old(nativeView.padding).Replace(Right, style.effectivePaddingRight)
    {
      var nv := nativeView;
      var padding := nv.padding;
      nv.padding := Insets(padding.top, style.effectivePaddingRight, padding.bottom, padding.left);
    }

    method SetPaddingBottomNative(value: Length)
      requires nativeView != null
      modifies nativeView`padding
      ensures nativeView.padding == old(nativeView.padding).Replace(Bottom, style.effectivePaddingBottom)
    {
      var nv := nativeView;
      var padding := nv.padding;
      nv.padding := Insets(padding.top, padding.right, style.effectivePaddingBottom, padding.left);
    }

    method SetPaddingLeftNative(value: Length)
      requires nativeView != null
      modifies nativeView`padding
      ensures nativeView.padding == old(nativeView.padding).Replace(Left, style.effectivePaddingLeft)
    {
      var nv := nativeView;
      var padding := nv.padding;
      nv.padding := Insets(padding.top, padding.right, padding.bottom, style.effectivePaddingLeft);
    }
  }
}
