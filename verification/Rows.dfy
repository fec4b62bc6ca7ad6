/** The values every part of the sink handles: rows, optional values and the
    saturating counters of the Rust code. */
module Rows {

  datatype Option<+T> = None | Some(value: T)

  const U64_MAX: nat := 0xFFFF_FFFF_FFFF_FFFF
  const U128_MAX: nat := 0xFFFF_FFFF_FFFF_FFFF_FFFF_FFFF_FFFF_FFFF

  /** An f64 is only ever compared by its bit pattern (`f64::to_bits`). */
  newtype FloatBits = x: int | 0 <= x <= 0xFFFF_FFFF_FFFF_FFFF

  /** One stored row. Two rows may agree in all five columns. */
  datatype Row = Row(tsMs: int, tagId: int, externalName: string, value: Option<FloatBits>, quality: string)

  function Min(a: int, b: int): int { if a <= b then a else b }

  function Max(a: int, b: int): int { if a >= b then a else b }

  /** `u64::saturating_add`. */
  function SatAdd(a: nat, b: nat): nat { Min(a + b, U64_MAX) }

  /** Where a group's rows go: the connection id and the table. */
  datatype Dest = Dest(connection: int, table: string)

  /** A set that is not empty has a member to pick. */
  lemma EmptyOrInhabited(ids: set<int>)
    ensures ids == {} || exists id :: id in ids
  {
    if forall id: int :: id !in ids {
      assert ids == {};
    }
  }
}
