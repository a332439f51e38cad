/** The checked conversions at the store's edge: naturals outside, signed columns inside. */
module Columns {
  import opened Wire

  /** The largest value a column holds. */
  const MAX_COLUMN: int := 0x7FFF_FFFF_FFFF_FFFF

  datatype StoreError =
    | NotFound(room: nat)
    | Full
    | CapExceeded
    | OutOfRange(value: int)

  predicate Fits(value: int) {
    0 <= value <= MAX_COLUMN
  }

  function ToColumn(value: nat): Result<int, StoreError> {
    if value <= MAX_COLUMN then Ok(value) else Err(OutOfRange(value))
  }

  function FromColumn(value: int): Result<nat, StoreError> {
    if value < 0 then Err(OutOfRange(value)) else Ok(value)
  }

  /** What goes into a column comes back out, and nothing else comes out as it. */
  lemma ColumnsRoundTrip(value: nat, column: int)
    requires column <= MAX_COLUMN
    ensures ToColumn(value) == Ok(column) <==> FromColumn(column) == Ok(value)
  {
  }
}
