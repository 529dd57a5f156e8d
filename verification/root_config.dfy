/** The options a UI root resolves once when it is created: layout precision, pixel
    size, and the explicit sizes it writes into its layout node as width and height. */
module RootConfig {
  import opened Optional
  import opened RootSize

  /** Layout quantisation tolerance used when none is given, in layout units. */
  const DefaultPrecision: real := 0.1

  /** World units per layout unit used when none is given. */
  const DefaultPixelSize: real := 0.002

  /** `precision ?? DEFAULT_PRECISION`: a given precision is kept as is, even 0. */
  function ResolvePrecision(precision: Option<real>): (r: real)
    ensures precision.Some? ==> r == precision.value
    ensures precision.None? ==> r == 0.1
  {
    Coalesce(precision, DefaultPrecision)
  }

  /** `pixelSize ?? DEFAULT_PIXEL_SIZE`: a given pixel size is kept as is. */
  function ResolvePixelSize(pixelSize: Option<real>): (r: real)
    ensures pixelSize.Some? ==> r == pixelSize.value
    ensures pixelSize.None? ==> r == 0.002
    ensures pixelSize.None? || pixelSize.value > 0.0 ==> r > 0.0
  {
    Coalesce(pixelSize, DefaultPixelSize)
  }

  /** The options of a root that this model covers. */
  datatype RootProperties = RootProperties(
    precision: Option<real>,
    pixelSize: Option<real>,
    sizeX: Size,
    sizeY: Size)

  /** What the root hands to its layout node. */
  datatype RootLayout = RootLayout(precision: real, pixelSize: real, width: Size, height: Size)

  /** Resolves the defaults and converts the explicit sizes to layout units with the
      resolved pixel size. Every explicit size can be recovered in world units, and a
      plain number reaches the layout node unchanged. */
  function ResolveRoot(props: RootProperties): (l: RootLayout)
    requires props.pixelSize.None? || props.pixelSize.value > 0.0
    ensures l.pixelSize > 0.0
    ensures props.pixelSize.None? ==> l.pixelSize == DefaultPixelSize
    ensures props.pixelSize.Some? ==> l.pixelSize == props.pixelSize.value
    ensures props.precision.None? ==> l.precision == DefaultPrecision
    ensures props.precision.Some? ==> l.precision == props.precision.value
    ensures ToWorld(l.width, l.pixelSize) == props.sizeX
    ensures ToWorld(l.height, l.pixelSize) == props.sizeY
    ensures props.sizeX.Plain? ==> l.width == props.sizeX
    ensures props.sizeY.Plain? ==> l.height == props.sizeY
  {
    var pixelSize := ResolvePixelSize(props.pixelSize);
    DivideRoundTrip(props.sizeX, pixelSize);
    DivideRoundTrip(props.sizeY, pixelSize);
    RootLayout(
      ResolvePrecision(props.precision),
      pixelSize,
      Divide(props.sizeX, pixelSize),
      Divide(props.sizeY, pixelSize))
  }
}
