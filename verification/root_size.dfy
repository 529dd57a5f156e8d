/** Conversion of an explicit root size from world units to layout units (`useDivide`). */
module RootSize {
  import opened Optional

  /** A size as the root accepts it and as it hands it on to the layout node:
      absent, a plain number, or a signal, taken at its current value (which may be
      `null`/`undefined`). */
  datatype Size = Absent | Plain(value: real) | Sig(current: Option<real>)

  /** `useDivide`: an absent size stays absent, a plain number passes through
      UNCHANGED, and only a signal's value is divided by the pixel size. */
  function Divide(size: Size, pixelSize: real): (r: Size)
    requires pixelSize > 0.0
    ensures r.Absent? <==> size.Absent?
    ensures r.Plain? <==> size.Plain?
    ensures r.Sig? <==> size.Sig?
    ensures size.Plain? ==> r.value == size.value
    ensures size.Sig? ==> (r.current.None? <==> size.current.None?)
    ensures size.Sig? && size.current.Some? ==> r.current.value * pixelSize == size.current.value
  {
    match size
    case Absent => Absent
    case Plain(x) => size
    case Sig(None) => Sig(None)
    case Sig(Some(s)) => Sig(Some(s / pixelSize))
  }

  /** Layout units back to world units, the inverse of dividing a signal's value. */
  function ToWorld(size: Size, pixelSize: real): Size
  {
    match size
    case Sig(Some(s)) => Sig(Some(s * pixelSize))
    case _ => size
  }

  /** Dividing and multiplying back by the pixel size recovers every size. */
  lemma DivideRoundTrip(size: Size, pixelSize: real)
    requires pixelSize > 0.0
    ensures ToWorld(Divide(size, pixelSize), pixelSize) == size
  {
  }

  /** The quirk: the same number gives different layout sizes depending on whether it
      arrives plain or wrapped in a signal, whenever the pixel size is not 1. */
  lemma PlainAndSignalDisagree(x: real, pixelSize: real)
    requires pixelSize > 0.0 && pixelSize != 1.0 && x != 0.0
    ensures Divide(Plain(x), pixelSize).value != Divide(Sig(Some(x)), pixelSize).current.value
  {
    var q := x / pixelSize;
    assert q * pixelSize == x;
    if q == x {
      calc {
        x * pixelSize;
        q * pixelSize;
        x;
      }
    }
  }

  /** A width of 200 world units at the default pixel size: as a plain number the
      layout receives 200, as a signal it receives 100000. */
  lemma DefaultPixelSizeScenario()
    ensures Divide(Plain(200.0), 0.002) == Plain(200.0)
    ensures Divide(Sig(Some(200.0)), 0.002) == Sig(Some(100000.0))
  {
  }
}
