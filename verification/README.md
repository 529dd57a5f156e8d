# UI root coordinator: draw order, size conversion and anchor offset

This project models the pure computations inside the `Root` component of uikit
(`packages/uikit/src/components/root.tsx`), the component that turns a tree of
flexbox-laid-out panels and text into one UI root inside a three.js scene:

- `RenderOrder` — `reversePainterSortStable`, the comparator the root installs as the
  renderer's transparent sort. It compares group order, then render order; for two
  items of the same root it returns `orderKey(a) - orderKey(a)`, a value compared with
  itself; otherwise it sorts deeper items (larger `z`) first and breaks ties by
  ascending `id`. The comparator's result is modelled as a JavaScript number that may
  be NaN, and `SortSign` reads it as `Array.prototype.sort` does (the SortCompare
  operation of ECMA-262: NaN counts as +0).
- `RootSize` — `useDivide`, which converts an explicit size from world units to layout
  units: absent stays absent, a plain number passes through unchanged, a signal's value
  is divided by the pixel size (a `null`/`undefined` value gives `undefined`).
- `RootMatrix` — the translation that `useRootMatrix` premultiplies onto the root's
  base matrix: `(alignX[anchorX] * width * pixelSize, alignY[anchorY] * height * pixelSize, 0)`,
  with both anchors defaulting to `"center"`. The alignment maps are parameters.
- `RootConfig` — the defaults `precision ?? 0.1` and `pixelSize ?? 0.002`, and the
  width/height the root writes into its layout node.
- `Optional` — `Option`, standing for a value that may be `undefined`, and `??`.

Two behaviours of the code, as written, are worth knowing; the model follows the code:

- Only a SIGNAL size is divided by the pixel size. A plain `sizeX = 200` reaches the
  layout as 200, but the same value held in a signal becomes 100000 at pixel size 0.002
  (`RootSize.PlainAndSignalDisagree`, `RootSize.DefaultPixelSizeScenario`).
- The same-root branch compares an item's stacking order with itself, so stacking order
  never influences drawing, and the comparator is not transitive
  (`RenderOrder.NotTransitive`). Objects that belong to no UI root both carry an
  `undefined` root identifier, so they too take the same-root branch: their result is
  `undefined - undefined`, NaN, and they are never depth-sorted against each other
  (`RenderOrder.ForeignObjectsNeverDepthSorted`). Because only the first item's stacking
  order is read, for two same-root items that tie on group and render order the raw
  result is antisymmetric only when both or neither item carries one (equality as
  modelled, NaN counting as equal to NaN); the order the sort observes is antisymmetric
  for all items.

## Model

| member | source | states |
|---|---|---|
| RenderOrder.ReversePainterSortStable | packages/uikit/src/components/root.tsx:258-272 | the result is negative exactly when `a` precedes `b` in the lexicographic order (group order, render order, then for different roots larger z first and ascending id), positive exactly when `b` precedes `a`, zero/NaN exactly when tied; NaN exactly for a same-root tie where `a` has no stacking order |
| RenderOrder.SortSign | packages/uikit/src/components/root.tsx:274-276 | how the sort that the comparator is installed into reads a result: -1 exactly for a negative finite number, +1 exactly for a positive one, 0 for zero and for NaN |
| RenderOrder.GroupOrderDecides | packages/uikit/src/components/root.tsx:259-261 | differing group orders give `a.groupOrder - b.groupOrder` whatever the other fields |
| RenderOrder.RenderOrderDecides | packages/uikit/src/components/root.tsx:262-264 | equal group orders and differing render orders give `a.renderOrder - b.renderOrder` |
| RenderOrder.SameRootIgnoresStackingOrder | packages/uikit/src/components/root.tsx:265-267 | same root and tied group/render order give 0 for every stacking order, unchanged when either item's stacking order changes |
| RenderOrder.StackingOrderNeverMatters | packages/uikit/src/components/root.tsx:265-267 | for any pair, changing either item's stacking order (the first one's staying present) never changes the result |
| RenderOrder.DifferentRootsByDepthThenId | packages/uikit/src/components/root.tsx:268-271 | different roots with tied orders: `b.z - a.z` when depths differ (larger z first), else `a.id - b.id` |
| RenderOrder.ForeignObjectsNeverDepthSorted | packages/uikit/src/components/root.tsx:265-267 | two objects outside every root with tied orders give NaN, which the sort treats as equal, whatever their depths |
| RenderOrder.AntisymmetricSign | packages/uikit/src/components/root.tsx:258-272 | the sign the sort observes for `(a, b)` is the negation of the sign for `(b, a)`, for all items |
| RenderOrder.Antisymmetric | packages/uikit/src/components/root.tsx:258-272 | `cmp(a, b)` equals the negation of `cmp(b, a)` whenever both or neither item carries a stacking order, equality as modelled (NaN counting as equal to NaN, unlike JavaScript's `===`) |
| RenderOrder.AntisymmetryNeedsBothStackingOrders | packages/uikit/src/components/root.tsx:265-267 | a same-root pair where only the first item has a stacking order gives 0 one way and NaN the other |
| RenderOrder.Reflexive | packages/uikit/src/components/root.tsx:258-272 | an item compares equal to itself: 0 with a stacking order, NaN without |
| RenderOrder.NotTransitive | packages/uikit/src/components/root.tsx:258-272 | same-root A and B (z 1 and 3) tie, yet B sorts before C (other root, z 2) and C before A |
| RootSize.Divide | packages/uikit/src/components/root.tsx:205-224 | absent stays absent, a plain number is returned unchanged, an empty signal stays empty, a signal value `s` becomes a value that times the pixel size gives back `s` |
| RootSize.DivideRoundTrip | packages/uikit/src/components/root.tsx:214-219 | multiplying the converted size back by the pixel size recovers every input size |
| RootSize.PlainAndSignalDisagree | packages/uikit/src/components/root.tsx:211-221 | the same non-zero number gives different layout sizes as a plain number and as a signal whenever the pixel size is not 1 |
| RootSize.DefaultPixelSizeScenario | packages/uikit/src/components/root.tsx:205-224 | 200 world units at pixel size 0.002: 200 as a plain number, 100000 as a signal |
| RootMatrix.ResolveAnchorX | packages/uikit/src/components/root.tsx:233 | an omitted horizontal anchor is `"center"`, a given one is kept |
| RootMatrix.ResolveAnchorY | packages/uikit/src/components/root.tsx:234 | an omitted vertical anchor is `"center"`, a given one is kept |
| RootMatrix.AnchorOffset | packages/uikit/src/components/root.tsx:243-251 | the translation's z is always 0; a zero width (height) gives a zero x (y) whatever the anchor |
| RootMatrix.OmittedAnchorIsCenter | packages/uikit/src/components/root.tsx:233-234 | omitting either anchor gives the same translation as passing `"center"` for it |
| RootMatrix.FactorRecoverable | packages/uikit/src/components/root.tsx:247-251 | on each axis separately, whenever that axis's size times pixel size is non-zero, dividing the offset by it yields exactly the resolved anchor's alignment factor |
| RootMatrix.OffsetWithinHalfExtent | packages/uikit/src/components/root.tsx:247-251 | with factors in [-1/2, 1/2], each offset lies within half the measured size in world units |
| RootMatrix.CenterGivesNoOffset | packages/uikit/src/components/root.tsx:233-251 | if the center factors are 0, omitted anchors give the zero translation |
| RootMatrix.OppositeEdgesOppositeOffsets | packages/uikit/src/components/root.tsx:247-251 | if the edge factors are opposite, left/top and right/bottom anchors give opposite offsets |
| RootMatrix.OffsetLinearInSize | packages/uikit/src/components/root.tsx:243-251 | scaling the measured size by k scales the offset by k |
| Optional.Coalesce | packages/uikit/src/components/root.tsx:95 | `x ?? fallback`: a present value is kept as is (including 0), only an absent one is replaced by the fallback |
| RootConfig.ResolvePrecision | packages/uikit/src/components/root.tsx:94-97 | a given precision is kept, an omitted one is 0.1 |
| RootConfig.ResolvePixelSize | packages/uikit/src/components/root.tsx:94-97 | a given pixel size is kept, an omitted one is 0.002; the result is positive when the given one is |
| RootConfig.ResolveRoot | packages/uikit/src/components/root.tsx:93-158 | a given precision and pixel size are used unchanged, omitted ones become 0.1 and 0.002, the resolved pixel size is positive, and the width/height written to the layout node convert back to the given sizes, plain numbers unchanged |

## Left out

- React and hook plumbing (`forwardRef`, `useMemo`/`useEffect` caching, providers, `primitive`, `useThree`): UI wiring with no computation of its own.
- Signals and reactivity (`computed`, invalidation, dependency dedup): a signal is modelled as its current value.
- The layout engine (`FlexNode`, yoga loading, `createDeferredRequestLayoutCalculation`), instanced panel/glyph groups, scroll position, clipping rects, hover, interaction panels and layout listeners: they live in files that are not part of this model.
- `patchRenderOrder`'s call to `renderer.setTransparentSort`: a side effect on the renderer; only the comparator it installs is modelled.
- The `Matrix4` algebra (`clone`, `premultiply`, the shared scratch matrix): three.js floating-point internals; only the translation vector is modelled.
- `alignmentXMap` / `alignmentYMap`: defined in `utils.js`, which is not part of this model; they are function parameters, and lemmas that need their convention take it as a hypothesis.
- Transitivity of the comparator: it does not hold; only a counterexample is stated.
- RootSize.Divide: requires a positive pixel size; with 0 or a negative value JavaScript would yield Infinity or a negated size, which is not modelled.
- RootConfig.ResolveRoot: requires a given pixel size to be positive, for the same reason; the code itself accepts any number.
- IEEE-754 double arithmetic: group/render order, id and stacking order are unbounded integers and depths and sizes are exact reals, so rounding, infinities and `-0` are not modelled.
- Anchors are modelled as three values per axis (left/center/right, top/center/bottom); the key set of `alignmentXMap`/`alignmentYMap` is not modelled.
