/** Value types of the toolkit's crate root that the toggler widget uses:
    unsigned 16-bit sizes, length policies, alignments and the usual
    Option/Result wrappers. Their Rust definitions are not part of this model;
    only the variants the widget touches are given. */
module Native {

  /** Rust's `u16`. */
  newtype U16 = x: int | 0 <= x < 0x1_0000

  const U16_MAX: int := 0xFFFF

  datatype Option<T> = None | Some(value: T) {
    /** `Option::unwrap_or` */
    function UnwrapOr(default: T): (r: T)
      ensures Some? ==> r == value
      ensures None? ==> r == default
    {
      match this
      case Some(v) => v
      case None => default
    }
  }

  datatype Result<T, E> = Ok(value: T) | Err(error: E)

  /** How much space a widget asks for along one axis. */
  datatype Length = Fill | Shrink | Units(units: U16)

  datatype HorizontalAlignment = Left | Center | Right

  datatype VerticalAlignment = Top | Center | Bottom

  /** Cross-axis alignment of the children of a row. */
  datatype Align = Start | Center | End

  /** Why an arithmetic step of the widget aborts: Rust's overflow check on
      `u16` multiplication (a panic in builds with overflow checks on). */
  datatype ArithmeticError = MultiplyOverflow

  /** `a * b` on `u16` with overflow checking. */
  function CheckedMul(a: U16, b: U16): (r: Option<U16>)
    ensures r.Some? <==> a as int * b as int <= U16_MAX
    ensures r.Some? ==> r.value as int == a as int * b as int
  {
    if a as int * b as int <= U16_MAX then Some((a as int * b as int) as U16) else None
  }
}
