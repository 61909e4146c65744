/** The pieces of the layout framework that the label's measurement pass
    consumes: measure specs, the bound handed to the native sizing query,
    and the `Math.min` / `Math.max` it applies. */
module Layout {

  /** The mode half of a measure spec. */
  datatype Mode = Unspecified | Exactly | AtMost

  /** A measure spec split into its mode and its size (the framework packs
      both into one integer; the packing is not part of this model). */
  datatype MeasureSpec = MeasureSpec(mode: Mode, size: nat)

  /** A size bound that may be `Number.POSITIVE_INFINITY`. */
  datatype Bound = Finite(limit: real) | Infinite

  /** A non-negative extent, as the native sizing query returns. */
  type Extent = r: real | 0.0 <= r

  /** A CGSize as returned by `sizeThatFits`. */
  datatype Size = Size(width: Extent, height: Extent)

  /** `Math.max(a, b)`. */
  function Max(a: real, b: real): (r: real)
    ensures a <= r && b <= r
    ensures r == a || r == b
  {
    if a < b then b else a
  }

  /** `Math.min(x, bound)`, where an infinite bound never wins. */
  function Min(x: real, bound: Bound): (r: real)
    ensures r <= x
    ensures bound.Infinite? ==> r == x
    ensures bound.Finite? ==> r <= bound.limit && (r == x || r == bound.limit)
  {
    match bound
    case Infinite => x
    case Finite(limit) => if limit < x then limit else x
  }

  /** The bound a measure spec offers the native sizing query: its size,
      or +infinity when the mode is UNSPECIFIED. */
  function AvailableSize(spec: MeasureSpec): (b: Bound)
    ensures b.Infinite? <==> spec.mode == Unspecified
    ensures b.Finite? ==> b.limit == spec.size as real && 0.0 <= b.limit
  {
    if spec.mode == Unspecified then Infinite else Finite(spec.size as real)
  }
}
