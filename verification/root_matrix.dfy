/** The anchor translation of a root's world matrix (`useRootMatrix`). The alignment
    maps `alignmentXMap`/`alignmentYMap` are not part of this model; they are
    parameters, and no value of theirs is assumed. */
module RootMatrix {
  import opened Optional

  /** Horizontal anchors. */
  datatype AnchorX = Left | CenterX | Right

  /** Vertical anchors. */
  datatype AnchorY = Top | CenterY | Bottom

  /** A translation vector in the root's local space. */
  datatype Vec3 = Vec3(x: real, y: real, z: real)

  /** An omitted horizontal anchor defaults to the center. */
  function ResolveAnchorX(anchor: Option<AnchorX>): (r: AnchorX)
    ensures anchor.None? ==> r == CenterX
    ensures anchor.Some? ==> r == anchor.value
  {
    Coalesce(anchor, CenterX)
  }

  /** An omitted vertical anchor defaults to the center. */
  function ResolveAnchorY(anchor: Option<AnchorY>): (r: AnchorY)
    ensures anchor.None? ==> r == CenterY
    ensures anchor.Some? ==> r == anchor.value
  {
    Coalesce(anchor, CenterY)
  }

  /** The translation premultiplied onto the base matrix: each axis is the anchor's
      alignment factor times the measured size times the pixel size; z is always 0.
      A zero extent gives a zero offset on that axis whatever the anchor. */
  function AnchorOffset(
    alignX: AnchorX -> real, alignY: AnchorY -> real,
    anchorX: Option<AnchorX>, anchorY: Option<AnchorY>,
    width: real, height: real, pixelSize: real): (t: Vec3)
    ensures t.z == 0.0
    ensures width == 0.0 || pixelSize == 0.0 ==> t.x == 0.0
    ensures height == 0.0 || pixelSize == 0.0 ==> t.y == 0.0
  {
    var fx := alignX(ResolveAnchorX(anchorX));
    var fy := alignY(ResolveAnchorY(anchorY));
    Vec3(fx * width * pixelSize, fy * height * pixelSize, 0.0)
  }

  /** Omitting an anchor gives the same translation as passing `"center"` for it,
      whatever the other anchor, the size and the alignment maps. */
  lemma OmittedAnchorIsCenter(
    alignX: AnchorX -> real, alignY: AnchorY -> real,
    anchorX: Option<AnchorX>, anchorY: Option<AnchorY>,
    width: real, height: real, pixelSize: real)
    ensures AnchorOffset(alignX, alignY, None, anchorY, width, height, pixelSize)
         == AnchorOffset(alignX, alignY, Some(CenterX), anchorY, width, height, pixelSize)
    ensures AnchorOffset(alignX, alignY, anchorX, None, width, height, pixelSize)
         == AnchorOffset(alignX, alignY, anchorX, Some(CenterY), width, height, pixelSize)
  {
  }

  /** The alignment factor of each axis can be read back from a non-degenerate offset:
      the offset is the factor scaled by the extent in world units, and nothing else. */
  lemma FactorRecoverable(
    alignX: AnchorX -> real, alignY: AnchorY -> real,
    anchorX: Option<AnchorX>, anchorY: Option<AnchorY>,
    width: real, height: real, pixelSize: real)
    ensures var t := AnchorOffset(alignX, alignY, anchorX, anchorY, width, height, pixelSize);
            && (width * pixelSize != 0.0 ==> t.x / (width * pixelSize) == alignX(ResolveAnchorX(anchorX)))
            && (height * pixelSize != 0.0 ==> t.y / (height * pixelSize) == alignY(ResolveAnchorY(anchorY)))
  {
    Associate(alignX(ResolveAnchorX(anchorX)), width, pixelSize);
    Associate(alignY(ResolveAnchorY(anchorY)), height, pixelSize);
  }

  /** If every factor lies in [-1/2, 1/2], the offset stays inside the half-extent of
      the measured size scaled to world units. */
  lemma OffsetWithinHalfExtent(
    alignX: AnchorX -> real, alignY: AnchorY -> real,
    anchorX: Option<AnchorX>, anchorY: Option<AnchorY>,
    width: real, height: real, pixelSize: real)
    requires -0.5 <= alignX(ResolveAnchorX(anchorX)) <= 0.5
    requires -0.5 <= alignY(ResolveAnchorY(anchorY)) <= 0.5
    requires width >= 0.0 && height >= 0.0 && pixelSize > 0.0
    ensures var t := AnchorOffset(alignX, alignY, anchorX, anchorY, width, height, pixelSize);
            && -0.5 * (width * pixelSize) <= t.x <= 0.5 * (width * pixelSize)
            && -0.5 * (height * pixelSize) <= t.y <= 0.5 * (height * pixelSize)
  {
    var fx := alignX(ResolveAnchorX(anchorX));
    var fy := alignY(ResolveAnchorY(anchorY));
    var ex, ey := width * pixelSize, height * pixelSize;
    NonNegativeProduct(width, pixelSize);
    NonNegativeProduct(height, pixelSize);
    ScaledFactorBound(fx, ex);
    ScaledFactorBound(fy, ey);
    Associate(fx, width, pixelSize);
    Associate(fy, height, pixelSize);
    var t := AnchorOffset(alignX, alignY, anchorX, anchorY, width, height, pixelSize);
    assert t.x == fx * ex;
    assert t.y == fy * ey;
  }

  /** The extent of a non-negative size at a positive pixel size is non-negative. */
  lemma NonNegativeProduct(a: real, b: real)
    requires a >= 0.0 && b > 0.0
    ensures a * b >= 0.0
  {
  }

  /** Regrouping a product of three reals. */
  lemma Associate(a: real, b: real, c: real)
    ensures a * b * c == a * (b * c)
  {
  }

  /** A factor in [-1/2, 1/2] scales a non-negative extent into [-e/2, e/2]. */
  lemma ScaledFactorBound(f: real, e: real)
    requires -0.5 <= f <= 0.5 && e >= 0.0
    ensures -0.5 * e <= f * e <= 0.5 * e
  {
    assert (f + 0.5) * e >= 0.0;
    assert (0.5 - f) * e >= 0.0;
  }

  /** If the center maps to 0 on both axes, the default anchors give no offset. */
  lemma CenterGivesNoOffset(
    alignX: AnchorX -> real, alignY: AnchorY -> real,
    width: real, height: real, pixelSize: real)
    requires alignX(CenterX) == 0.0 && alignY(CenterY) == 0.0
    ensures AnchorOffset(alignX, alignY, None, None, width, height, pixelSize) == Vec3(0.0, 0.0, 0.0)
  {
  }

  /** If the two edges map to opposite factors, opposite anchors give opposite offsets. */
  lemma OppositeEdgesOppositeOffsets(
    alignX: AnchorX -> real, alignY: AnchorY -> real,
    width: real, height: real, pixelSize: real)
    requires alignX(Left) == -alignX(Right) && alignY(Top) == -alignY(Bottom)
    ensures var l := AnchorOffset(alignX, alignY, Some(Left), Some(Top), width, height, pixelSize);
            var r := AnchorOffset(alignX, alignY, Some(Right), Some(Bottom), width, height, pixelSize);
            l.x == -r.x && l.y == -r.y && l.z == r.z
  {
  }

  /** The offset grows linearly with the measured size. */
  lemma OffsetLinearInSize(
    alignX: AnchorX -> real, alignY: AnchorY -> real,
    anchorX: Option<AnchorX>, anchorY: Option<AnchorY>,
    width: real, height: real, pixelSize: real, k: real)
    ensures var t := AnchorOffset(alignX, alignY, anchorX, anchorY, width, height, pixelSize);
            var u := AnchorOffset(alignX, alignY, anchorX, anchorY, k * width, k * height, pixelSize);
            u == Vec3(k * t.x, k * t.y, 0.0)
  {
    var fx := alignX(ResolveAnchorX(anchorX));
    var fy := alignY(ResolveAnchorY(anchorY));
    assert fx * (k * width) * pixelSize == k * (fx * width * pixelSize);
    assert fy * (k * height) * pixelSize == k * (fy * height * pixelSize);
  }
}
