/** Values shared by every part of the model: Go pointers, 32-bit arithmetic and the patch of a resource. */
module Basics {

  /** A Go pointer to a value: `None` is nil. */
  datatype Option<+T> = None | Some(value: T)

  /** A Go slice, where a nil slice and an empty slice are different values. */
  datatype Slice<+T> = NilSlice | Elems(elems: seq<T>)

  /** The patch at the end of a reconcile is three requests, for the conditions, for metadata and spec, and for
      the rest of the status. All are made, and each may fail. */
  datatype CloseOutcome = CloseOutcome(conditionsOk: bool, objectOk: bool, statusOk: bool)

  const INT32_MAX: int := 0x7FFF_FFFF
  const INT32_MIN: int := -0x8000_0000

  predicate IsInt32(x: int) {
    INT32_MIN <= x <= INT32_MAX
  }

  /** The int32 that Go's conversion or int32 arithmetic yields for the exact result `x`. */
  function WrapInt32(x: int): (r: int)
    ensures IsInt32(r)
    ensures IsInt32(x) ==> r == x
  {
    (x - INT32_MIN) % 0x1_0000_0000 + INT32_MIN
  }

  function Min(a: int, b: int): int {
    if a < b then a else b
  }

  function Max(a: int, b: int): int {
    if a < b then b else a
  }
}
