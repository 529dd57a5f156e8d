/** The transparent-item comparator that a UI root installs into the renderer
    (`reversePainterSortStable`, installed by `patchRenderOrder`). */
module RenderOrder {
  import opened Optional

  /** A transparent render item as the renderer hands it to the comparator.
      `rootIdentifier` and `orderKey` are properties the UI library sets on its own
      scene objects; on any other object they are `undefined` (`None`). Root
      identifiers are compared by identity, modelled as integer tokens. */
  datatype RenderItem = RenderItem(
    groupOrder: int,
    renderOrder: int,
    z: real,
    id: int,
    rootIdentifier: Option<int>,
    orderKey: Option<int>)

  /** A JavaScript number as the comparator can return it: finite, or NaN
      (the result of subtracting `undefined`). */
  datatype Num = Finite(v: real) | NaN

  /** JavaScript subtraction of two possibly-undefined integer properties. */
  function Sub(x: Option<int>, y: Option<int>): Num
  {
    if x.Some? && y.Some? then Finite((x.value - y.value) as real) else NaN
  }

  /** Unary minus on a JavaScript number (NaN stays NaN). */
  function Neg(n: Num): Num
  {
    match n
    case Finite(v) => Finite(-v)
    case NaN => NaN
  }

  /** How `Array.prototype.sort` reads a comparator result (the SortCompare abstract
      operation of ECMA-262): negative puts the first argument first, positive the
      second, and zero or NaN leaves them unordered. */
  function SortSign(n: Num): (s: int)
    ensures -1 <= s <= 1
    ensures s < 0 <==> n.Finite? && n.v < 0.0
    ensures s > 0 <==> n.Finite? && n.v > 0.0
  {
    match n
    case NaN => 0
    case Finite(v) => if v < 0.0 then -1 else if v > 0.0 then 1 else 0
  }

  /** Both items carry the same root identifier; two objects outside any root both
      carry `undefined` and count as the same root too (`undefined === undefined`). */
  predicate SameRoot(a: RenderItem, b: RenderItem)
  {
    a.rootIdentifier == b.rootIdentifier
  }

  /** The declarative draw order the comparator realises: lexicographic on group
      order, then render order, and, only for items of different roots, farther
      depth first and then ascending id. Items of one root are never ordered
      beyond their group and render order. */
  predicate DrawsBefore(a: RenderItem, b: RenderItem)
  {
    || a.groupOrder < b.groupOrder
    || (a.groupOrder == b.groupOrder && a.renderOrder < b.renderOrder)
    || (&& a.groupOrder == b.groupOrder
        && a.renderOrder == b.renderOrder
        && !SameRoot(a, b)
        && (a.z > b.z || (a.z == b.z && a.id < b.id)))
  }

  /** The items the comparator leaves unordered. */
  predicate Tied(a: RenderItem, b: RenderItem)
  {
    && a.groupOrder == b.groupOrder
    && a.renderOrder == b.renderOrder
    && (SameRoot(a, b) || (a.z == b.z && a.id == b.id))
  }

  /** The comparator as written. In the same-root branch it subtracts the FIRST
      item's stacking order from itself, so stacking order never decides anything. */
  function ReversePainterSortStable(a: RenderItem, b: RenderItem): (r: Num)
    ensures SortSign(r) < 0 <==> DrawsBefore(a, b)
    ensures SortSign(r) > 0 <==> DrawsBefore(b, a)
    ensures SortSign(r) == 0 <==> Tied(a, b)
    ensures r.NaN? <==> Tied(a, b) && SameRoot(a, b) && a.orderKey.None?
  {
    if a.groupOrder != b.groupOrder then
      Finite((a.groupOrder - b.groupOrder) as real)
    else if a.renderOrder != b.renderOrder then
      Finite((a.renderOrder - b.renderOrder) as real)
    else if a.rootIdentifier == b.rootIdentifier then
      Sub(a.orderKey, a.orderKey)
    else if a.z != b.z then
      Finite(b.z - a.z)
    else
      Finite((a.id - b.id) as real)
  }

  /** Differing group orders decide the result alone, whatever the other fields. */
  lemma GroupOrderDecides(a: RenderItem, b: RenderItem)
    requires a.groupOrder != b.groupOrder
    ensures ReversePainterSortStable(a, b) == Finite((a.groupOrder - b.groupOrder) as real)
  {
  }

  /** With equal group orders, differing render orders decide the result alone. */
  lemma RenderOrderDecides(a: RenderItem, b: RenderItem)
    requires a.groupOrder == b.groupOrder && a.renderOrder != b.renderOrder
    ensures ReversePainterSortStable(a, b) == Finite((a.renderOrder - b.renderOrder) as real)
  {
  }

  /** Items of one root that tie on group and render order compare as 0 for every
      stacking order, and the result does not change when either stacking order does. */
  lemma SameRootIgnoresStackingOrder(a: RenderItem, b: RenderItem, k1: int, k2: int, kb: Option<int>)
    requires a.groupOrder == b.groupOrder && a.renderOrder == b.renderOrder
    requires SameRoot(a, b)
    ensures ReversePainterSortStable(a.(orderKey := Some(k1)), b) == Finite(0.0)
    ensures ReversePainterSortStable(a.(orderKey := Some(k1)), b)
         == ReversePainterSortStable(a.(orderKey := Some(k2)), b.(orderKey := kb))
  {
  }

  /** Stacking order never influences the comparator, for any pair of items, as long
      as the first item carries one. */
  lemma StackingOrderNeverMatters(a: RenderItem, b: RenderItem, k1: int, k2: int, kb1: Option<int>, kb2: Option<int>)
    ensures ReversePainterSortStable(a.(orderKey := Some(k1)), b.(orderKey := kb1))
         == ReversePainterSortStable(a.(orderKey := Some(k2)), b.(orderKey := kb2))
  {
  }

  /** Items of different roots that tie on group and render order: the deeper item
      (larger z) sorts first; only equal depths fall back to ascending id. */
  lemma DifferentRootsByDepthThenId(a: RenderItem, b: RenderItem)
    requires a.groupOrder == b.groupOrder && a.renderOrder == b.renderOrder
    requires !SameRoot(a, b)
    ensures a.z != b.z ==> ReversePainterSortStable(a, b) == Finite(b.z - a.z)
    ensures a.z == b.z ==> ReversePainterSortStable(a, b) == Finite((a.id - b.id) as real)
    ensures a.z > b.z ==> SortSign(ReversePainterSortStable(a, b)) < 0
  {
  }

  /** Two scene objects that belong to no UI root are never depth-sorted against each
      other once group and render orders tie: `undefined === undefined` sends them
      into the same-root branch, which yields NaN. */
  lemma ForeignObjectsNeverDepthSorted(a: RenderItem, b: RenderItem)
    requires a.groupOrder == b.groupOrder && a.renderOrder == b.renderOrder
    requires a.rootIdentifier.None? && b.rootIdentifier.None? && a.orderKey.None?
    ensures ReversePainterSortStable(a, b).NaN?
    ensures SortSign(ReversePainterSortStable(a, b)) == 0
  {
  }

  /** Antisymmetry of the order the sort observes, for all items. */
  lemma AntisymmetricSign(a: RenderItem, b: RenderItem)
    ensures SortSign(ReversePainterSortStable(a, b)) == -SortSign(ReversePainterSortStable(b, a))
  {
  }

  /** Antisymmetry of the raw result, whenever both or neither item carries a
      stacking order. */
  lemma Antisymmetric(a: RenderItem, b: RenderItem)
    requires a.orderKey.Some? <==> b.orderKey.Some?
    ensures ReversePainterSortStable(a, b) == Neg(ReversePainterSortStable(b, a))
  {
  }

  /** Without that premise raw antisymmetry fails: only the first item's stacking
      order is read, so swapping the arguments turns 0 into NaN. */
  lemma AntisymmetryNeedsBothStackingOrders()
    ensures var a := RenderItem(0, 0, 0.0, 1, Some(7), Some(3));
            var b := RenderItem(0, 0, 0.0, 2, Some(7), None);
            ReversePainterSortStable(a, b) == Finite(0.0)
            && ReversePainterSortStable(b, a) == NaN
            && Neg(ReversePainterSortStable(b, a)) != ReversePainterSortStable(a, b)
  {
  }

  /** An item compares equal to itself: 0 when it carries a stacking order, NaN otherwise. */
  lemma Reflexive(a: RenderItem)
    ensures SortSign(ReversePainterSortStable(a, a)) == 0
    ensures a.orderKey.Some? ==> ReversePainterSortStable(a, a) == Finite(0.0)
    ensures a.orderKey.None? ==> ReversePainterSortStable(a, a) == NaN
  {
  }

  /** The comparator is not a total order: two items A and B of one root compare as
      equal, yet a third item C of another root, between them in depth, sorts after
      B and before A. */
  lemma NotTransitive()
    ensures var A := RenderItem(0, 0, 1.0, 1, Some(1), Some(0));
            var B := RenderItem(0, 0, 3.0, 2, Some(1), Some(1));
            var C := RenderItem(0, 0, 2.0, 3, Some(2), Some(0));
            && SortSign(ReversePainterSortStable(A, B)) == 0
            && SortSign(ReversePainterSortStable(B, C)) < 0
            && SortSign(ReversePainterSortStable(C, A)) < 0
  {
  }
}
