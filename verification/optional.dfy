/** Optional values: the model of a JavaScript value that may be `undefined` or `null`. */
module Optional {

  /** `None` stands for `undefined` (or `null`, where the code treats both alike). */
  datatype Option<+T> = None | Some(value: T)

  /** The nullish-coalescing operator `x ?? fallback`: only an absent value is replaced,
      any present value (including 0) is kept. */
  function Coalesce<T>(x: Option<T>, fallback: T): (r: T)
    ensures x.Some? ==> r == x.value
    ensures x.None? ==> r == fallback
  {
    match x
    case Some(v) => v
    case None => fallback
  }
}
