/** The `white-space` style value, the label's `textWrap` view of it, and the
    native line-break settings the whitespace setter derives from it. */
module WhiteSpaceSync {
  import opened Wrappers

  /** A `white-space` value as the style system holds it. */
  type WhiteSpace = string

  const NORMAL: WhiteSpace := "normal"
  const NO_WRAP: WhiteSpace := "nowrap"

  /** The `textWrap` getter: wrapping is on exactly when `white-space` is
      "normal"; every other value, recognised or not, reads as no wrap. */
  predicate Wraps(value: WhiteSpace)
  {
    value == NORMAL
  }

  /** The `white-space` value the `textWrap` setter stores. */
  function WhiteSpaceFor(wrap: bool): (value: WhiteSpace)
    ensures Wraps(value) == wrap
    ensures value == NORMAL || value == NO_WRAP
  {
    if wrap then NORMAL else NO_WRAP
  }

  /** The native `NSLineBreakMode` values. */
  datatype LineBreakMode =
    | ByWordWrapping | ByCharWrapping | ByClipping
    | ByTruncatingHead | ByTruncatingTail | ByTruncatingMiddle

  /** The two native fields the whitespace setter writes. */
  datatype NativeWrap = NativeWrap(lineBreakMode: LineBreakMode, numberOfLines: int)

  /** The message of the error thrown for an unrecognised value. */
  function InvalidValueMessage(value: WhiteSpace): string
  {
    "Invalid whitespace value: " + value + ". Valid values are: \"" + NORMAL + "\", \"" + NO_WRAP + "\"."
  }

  /** What the whitespace setter does with `value`: the native settings it
      writes, or the error it throws. */
  function NativeWrapFor(value: WhiteSpace): (r: Result<NativeWrap, string>)
    ensures r.Success? <==> value == NORMAL || value == NO_WRAP
    ensures r.Success? ==> (r.value.numberOfLines == 0 <==> Wraps(value))
    ensures r.Success? ==> (r.value.lineBreakMode == ByWordWrapping <==> Wraps(value))
    ensures r.Success? && !Wraps(value) ==> r.value == NativeWrap(ByTruncatingTail, 1)
    ensures r.Failure? ==> r.error == InvalidValueMessage(value)
  {
    if value == NORMAL then Success(NativeWrap(ByWordWrapping, 0))
    else if value == NO_WRAP then Success(NativeWrap(ByTruncatingTail, 1))
    else Failure(InvalidValueMessage(value))
  }

  /** Whatever `textWrap` was set to, the whitespace setter accepts the stored
      value, and the native label then allows unlimited lines exactly when
      `textWrap` reads true. */
  lemma TextWrapAlwaysSyncs(wrap: bool)
    ensures NativeWrapFor(WhiteSpaceFor(wrap)).Success?
    ensures NativeWrapFor(WhiteSpaceFor(wrap)).value.numberOfLines == 0 <==> wrap
  {
  }

  /** Whether `part` occurs in `s` starting at index `i`. */
  ghost predicate OccursAt(s: string, part: string, i: int)
  {
    0 <= i && i + |part| <= |s| && s[i..i + |part|] == part
  }

  /** Whether `part` occurs in `s`. */
  ghost predicate Contains(s: string, part: string)
  {
    exists i :: OccursAt(s, part, i)
  }

  lemma ContainsMiddle(a: string, b: string, c: string)
    ensures Contains(a + b + c, b)
  {
    var s := a + b + c;
    assert s[|a|..|a| + |b|] == b;
    assert OccursAt(s, b, |a|);
  }

  /** The error for an unrecognised value names that value and both valid
      values, each in double quotes. */
  lemma InvalidMessageNamesValues(value: WhiteSpace)
    ensures Contains(InvalidValueMessage(value), value)
    ensures Contains(InvalidValueMessage(value), "\"normal\"")
    ensures Contains(InvalidValueMessage(value), "\"nowrap\"")
  {
    var head := "Invalid whitespace value: ";
    var middle := ". Valid values are: ";
    var msg := InvalidValueMessage(value);
    assert msg == head + value + (middle + "\"normal\", \"nowrap\".");
    ContainsMiddle(head, value, middle + "\"normal\", \"nowrap\".");
    assert msg == (head + value + middle) + "\"normal\"" + ", \"nowrap\".";
    ContainsMiddle(head + value + middle, "\"normal\"", ", \"nowrap\".");
    assert msg == (head + value + middle + "\"normal\", ") + "\"nowrap\"" + ".";
    ContainsMiddle(head + value + middle + "\"normal\", ", "\"nowrap\"", ".");
  }
}
