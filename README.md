# iOS label: measurement and native style synchronisation

A Dafny model of the iOS text label of NativeScript's `tns-core-modules`
(`tns-core-modules/ui/label/label.ios.ts`). It covers three things:

- **The measure pass** (`onMeasure`). It turns each axis spec into a bound for the native sizing
  query: the spec's size, or +infinity when the mode is UNSPECIFIED. It records which axes
  the parent fixed EXACTLY as the `FixedSize` bitmask. It clamps the natural width to the
  bound when text wraps, raises both sizes to the style's minimums, and passes them to the
  framework's resolver.
- **The text-change hook** (`_requestLayoutOnTextChanged`). It decides from the stored
  `FixedSize`, the `textWrap` flag and the last measured height whether a text change
  needs a new layout pass.
- **The native property hooks.** The whitespace setter maps "normal" and "nowrap" onto the
  native line-break mode and line count, and throws on any other value. The eight
  border and padding setters each read the native four-edge structure, replace
  their own edge by the style's effective value and write the structure back. All
  the getters are constant stubs.

Modules:

- `Layout` (`layout.dfy`): measure specs, bounds, `Math.min` / `Math.max`.
- `LabelMeasure` (`label_measure.dfy`): the `FixedSize` bitmask, the skip decision and
  the measure arithmetic as functions, with lemmas that connect them.
- `EdgeInsets` (`edge_insets.dfy`): the four-edge structure, single-edge replacement, and
  the replay of a series of edge notifications against a last-write-wins reference.
- `WhiteSpaceSync` (`white_space.dfy`): white-space values, `textWrap`, and the native
  line-break settings.
- `LabelIos` (`label.dfy`): the `NativeLabel` class, which stands for TNSLabel with mutable
  `borderThickness`, `padding`, `lineBreakMode` and `numberOfLines`, and the `Label`
  class, whose methods are the source's hooks. Each method is proved against the
  functions above.
- `Wrappers` (`wrappers.dfy`): `Option`, `Result` and `Outcome`.

Sizes are `real`. +infinity is `Bound.Infinite`. `_fixedSize` is `undefined` until the
first measure pass; here it is `Option<FixedSize>`, starting at `None`. A thrown error is
`Outcome.Fail` carrying the message.

Behaviour of the code worth stating directly:

- Only "nowrap" selects truncate-tail. Every value other than "normal" and "nowrap" throws.
- The native view's natural size is used as it is returned: NaN or negative sizes are not replaced by zero.
- EXACTLY and AT_MOST resolution, and the "too small" flag, belong to the framework's
  resolver.

## Model

| member | source | states |
|---|---|---|
| Layout.AvailableSize | tns-core-modules/ui/label/label.ios.ts:69-81 | the bound is +infinity exactly when the mode is UNSPECIFIED, otherwise the spec's size |
| Layout.Min | tns-core-modules/ui/label/label.ios.ts:89-91 | `Math.min` with a possibly infinite bound: never above the value, never above a finite bound, equal to one of them, and the value itself when the bound is infinite |
| Layout.Max | tns-core-modules/ui/label/label.ios.ts:94-95 | `Math.max`: at least both arguments and equal to one of them |
| LabelMeasure.FixedSizeFor | tns-core-modules/ui/label/label.ios.ts:83-84 | the WIDTH bit is set iff the width mode is EXACTLY and the HEIGHT bit iff the height mode is; the value is BOTH, WIDTH, HEIGHT or NONE exactly for the matching mode combinations |
| LabelMeasure.ShouldForwardLayout | tns-core-modules/ui/label/label.ios.ts:55-64 | suppressed iff the state has both bits, or only the width bit with wrapping off and a positive measured height; forwarded before any measure pass, and forwarded whenever wrapping is on or the height is not positive unless the state is BOTH |
| LabelMeasure.Measure | tns-core-modules/ui/label/label.ios.ts:69-95 | the fixed-size state follows the modes; an UNSPECIFIED axis is queried with an unbounded box; the results are at least the minimums; the height is the larger of the natural height and the minimum; without wrapping or without a bound the natural width stands; with wrapping and a bound the width is the larger of the minimum and the smaller of the natural width and the bound |
| LabelMeasure.ExactBoxSkipsTextLayout | tns-core-modules/ui/label/label.ios.ts:56-58 | after a pass with both axes EXACTLY, no text change forwards a layout request, whatever the wrap mode or measured height |
| LabelMeasure.FixedWidthSingleLine | tns-core-modules/ui/label/label.ios.ts:59-63 | after a pass with only the width EXACTLY, a text change is forwarded exactly when wrapping is on or the measured height is not positive |
| LabelMeasure.ExactWidthScenario | tns-core-modules/ui/label/label.ios.ts:75-95 | width EXACTLY 200, height UNSPECIFIED, natural 150 x 40: the state is WIDTH, the queries are 200 and unbounded, and 150 x 40 goes to the resolver |
| LabelMeasure.AtMostWrapScenario | tns-core-modules/ui/label/label.ios.ts:89-95 | width AT_MOST 100 with wrapping and natural width 250: the width goes to the resolver as 100 |
| EdgeInsets.Insets.Replace | tns-core-modules/ui/label/label.ios.ts:148-157 | a one-edge read-modify-write: the edge takes the new value, the other three keep the values read |
| EdgeInsets.ReplaceIdempotent | tns-core-modules/ui/label/label.ios.ts:148-157 | writing the same edge with the same value twice equals writing it once |
| EdgeInsets.ReplaceLastWins | tns-core-modules/ui/label/label.ios.ts:148-157 | of two writes to one edge, the later wins |
| EdgeInsets.ReplaceCommutes | tns-core-modules/ui/label/label.ios.ts:148-199 | writes to different edges commute |
| EdgeInsets.ReplaceWithSameValue | tns-core-modules/ui/label/label.ios.ts:148-157 | writing back the value read leaves the structure unchanged |
| EdgeInsets.ReplaySnoc | tns-core-modules/ui/label/label.ios.ts:148-255 | handling one more notification after a series is one more replacement |
| EdgeInsets.ReplayKeepsLastWrite | tns-core-modules/ui/label/label.ios.ts:148-255 | after any series of notifications each edge holds the last value written to it, or its original value (no update is lost) |
| EdgeInsets.ReplayReachesEffective | tns-core-modules/ui/label/label.ios.ts:148-255 | notifications for all four edges, in any order, each carrying the effective value, leave the structure equal to the effective one |
| EdgeInsets.TopThenLeftScenario | tns-core-modules/ui/label/label.ios.ts:148-199 | top 3 then left 5 on a zero structure gives (3, 0, 0, 5), in either order |
| WhiteSpaceSync.WhiteSpaceFor | tns-core-modules/ui/label/label.ios.ts:47-49 | the value stored by the `textWrap` setter reads back as the flag that was set, and is "normal" or "nowrap" |
| WhiteSpaceSync.NativeWrapFor | tns-core-modules/ui/label/label.ios.ts:107-121 | succeeds iff the value is "normal" or "nowrap"; then lines are unlimited (0) and the mode is word wrapping exactly when the value wraps, and "nowrap" gives truncate-tail with one line; otherwise the error message for the value |
| WhiteSpaceSync.TextWrapAlwaysSyncs | tns-core-modules/ui/label/label.ios.ts:44-49 | any value the `textWrap` setter stores is accepted by the whitespace setter, and the native line count is unlimited exactly when `textWrap` is true |
| WhiteSpaceSync.InvalidMessageNamesValues | tns-core-modules/ui/label/label.ios.ts:118-119 | the error message names the rejected value and both valid values in quotes |
| LabelIos.Label.constructor | tns-core-modules/ui/label/label.ios.ts:29-34 | a new label holds its native view, has no fixed-size state and zero measured sizes |
| LabelIos.Label.TextWrap | tns-core-modules/ui/label/label.ios.ts:44-46 | reads true exactly when white-space is "normal"; every other value, recognised or not, reads false |
| LabelIos.Label.SetTextWrap | tns-core-modules/ui/label/label.ios.ts:47-49 | only `white-space` changes, and `textWrap` then reads back the value set |
| LabelIos.Label.RequestLayoutOnTextChanged | tns-core-modules/ui/label/label.ios.ts:55-64 | the request is forwarded exactly as `ShouldForwardLayout` decides for the stored state, `textWrap` and measured height |
| LabelIos.Label.OnMeasure | tns-core-modules/ui/label/label.ios.ts:66-102 | without a native view nothing changes; otherwise the fixed-size state and the measured sizes are those of `Measure` for the sizing query the native view answers at this pass and the style's minimums, passed through the resolver |
| LabelIos.Label.WhiteSpaceNative | tns-core-modules/ui/label/label.ios.ts:104-106 | the getter always reports a wrapping value ("normal") |
| LabelIos.Label.SetWhiteSpaceNative | tns-core-modules/ui/label/label.ios.ts:107-121 | for "normal" or "nowrap" the native line-break mode and line count become those of `NativeWrapFor`; for any other value it fails with that message and no native field changes, and needs no native view |
| LabelIos.Label.BorderTopWidthNative | tns-core-modules/ui/label/label.ios.ts:145-147 | reports zero px |
| LabelIos.Label.BorderRightWidthNative | tns-core-modules/ui/label/label.ios.ts:159-161 | reports zero px |
| LabelIos.Label.BorderBottomWidthNative | tns-core-modules/ui/label/label.ios.ts:173-175 | reports zero px |
| LabelIos.Label.BorderLeftWidthNative | tns-core-modules/ui/label/label.ios.ts:187-189 | reports zero px |
| LabelIos.Label.PaddingTopNative | tns-core-modules/ui/label/label.ios.ts:201-203 | reports zero px |
| LabelIos.Label.PaddingRightNative | tns-core-modules/ui/label/label.ios.ts:215-217 | reports zero px |
| LabelIos.Label.PaddingBottomNative | tns-core-modules/ui/label/label.ios.ts:229-231 | reports zero px |
| LabelIos.Label.PaddingLeftNative | tns-core-modules/ui/label/label.ios.ts:243-245 | reports zero px |
| LabelIos.Label.SetBorderTopWidthNative | tns-core-modules/ui/label/label.ios.ts:148-157 | the native border's top edge becomes the effective top border width; right, bottom and left keep the values read; padding is untouched |
| LabelIos.Label.SetBorderRightWidthNative | tns-core-modules/ui/label/label.ios.ts:162-171 | the right edge becomes the effective right border width; the other edges and the padding are kept |
| LabelIos.Label.SetBorderBottomWidthNative | tns-core-modules/ui/label/label.ios.ts:176-185 | the bottom edge becomes the effective bottom border width; the other edges and the padding are kept |
| LabelIos.Label.SetBorderLeftWidthNative | tns-core-modules/ui/label/label.ios.ts:190-199 | the left edge becomes the effective left border width; the other edges and the padding are kept |
| LabelIos.Label.SetPaddingTopNative | tns-core-modules/ui/label/label.ios.ts:204-213 | the native padding's top edge becomes the effective top padding; the other edges and the border are kept |
| LabelIos.Label.SetPaddingRightNative | tns-core-modules/ui/label/label.ios.ts:218-227 | the right padding edge becomes the effective right padding; the other edges and the border are kept |
| LabelIos.Label.SetPaddingBottomNative | tns-core-modules/ui/label/label.ios.ts:232-241 | the bottom padding edge becomes the effective bottom padding; the other edges and the border are kept |
| LabelIos.Label.SetPaddingLeftNative | tns-core-modules/ui/label/label.ios.ts:246-255 | the left padding edge becomes the effective left padding; the other edges and the border are kept |

## Left out

- Background getter and setter (lines 123-143): they read and write a native layer colour and call `ios.createBackgroundUIColor` from `ui/styling/background`, which is not part of this model.
- `View.resolveSizeAndState` and `setMeasuredDimension` are defined in the framework: the resolver is a function parameter of `OnMeasure` whose result is taken to be the measured size read back. The measured-state bits it packs are not modelled.
- `layout.getMeasureSpecSize` and `getMeasureSpecMode`: a spec is given already split into mode and size; the integer packing is not modelled.
- `sizeThatFits` and iOS text layout: each measure pass receives the native view's sizing query as an arbitrary total function that returns non-negative sizes. How that answer depends on the text, the line-break mode and the line count is not modelled, and NaN is not modelled.
- The constructor's `TNSLabel.new` and `userInteractionEnabled`, the `ios` and `_nativeView` accessors and `onLoaded`: framework plumbing. The label takes its native view as a constructor argument.
- `NativeLabel.constructor` starts from UILabel's defaults (zero border and padding, truncate-tail, one line). These defaults belong to UIKit, not to the label's source, which only calls `TNSLabel.new`.
- `super._requestLayoutOnTextChanged`: the forward is the boolean result of `RequestLayoutOnTextChanged`.
- The computed-key property dispatch (`[xxxProperty.native]`): each accessor is a named method or function. That setting `textWrap` in turn runs the whitespace setter is framework dispatch; `TextWrapAlwaysSyncs` states the composition.
- The border and padding setters, and the whitespace setter for "normal" and "nowrap", require a native view. The source dereferences it without a check in those branches, so without one they throw a TypeError, which the model does not represent. The whitespace setter's error branch for any other value does not touch the native view, and the model allows it without one.
