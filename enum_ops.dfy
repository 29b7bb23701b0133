/** The free `T op T` operators for a registered enum (flags.h:262-287):
    `lhs | rhs`, `lhs & rhs` and `lhs ^ rhs` on two enum values build
    `bit_flags<T>{lhs}` and combine it with `rhs`. They take part in overload
    resolution only when the enum's registration leaves them enabled; where
    they do not, `None` stands for "no such operator".

    The flag set model fixes the enum at 16 bits and the storage at 64, so
    these operators are modelled for registrations that select
    `std::uint64_t` storage for a `std::uint16_t` enum, as `MyEnums` does. */
module EnumOperators {
  import opened Flags
  import opened Traits

  /** The registrations whose `bit_flags<T>` this model describes. */
  predicate SelectsModelledStorage(reg: Registration)
  {
    StorageOf(reg, UInt16) == Int(UInt64)
  }

  /** `T | T`. */
  function EnumOr(reg: Registration, lhs: Enum, rhs: Enum): (r: Option<BitFlags>)
    requires SelectsModelledStorage(reg)
    ensures r.Some? <==> !reg.declaresDisabled
  {
    if Enabled(reg) then Some(OrFlag(FromEnum(lhs), rhs)) else None
  }

  /** `T & T`. */
  function EnumAnd(reg: Registration, lhs: Enum, rhs: Enum): (r: Option<BitFlags>)
    requires SelectsModelledStorage(reg)
    ensures r.Some? <==> !reg.declaresDisabled
  {
    if Enabled(reg) then Some(AndFlag(FromEnum(lhs), rhs)) else None
  }

  /** `T ^ T`. */
  function EnumXor(reg: Registration, lhs: Enum, rhs: Enum): (r: Option<BitFlags>)
    requires SelectsModelledStorage(reg)
    ensures r.Some? <==> !reg.declaresDisabled
  {
    if Enabled(reg) then Some(XorFlag(FromEnum(lhs), rhs)) else None
  }

  /** Where it exists, `lhs | rhs` is the union of the two enum values' flag
      sets. */
  lemma EnumOrIsUnion(reg: Registration, lhs: Enum, rhs: Enum)
    requires SelectsModelledStorage(reg) && Enabled(reg)
    ensures EnumOr(reg, lhs, rhs) == Some(Or(FromEnum(lhs), FromEnum(rhs)))
  {
    OrFlagAgrees(FromEnum(lhs), rhs);
  }

  /** Where it exists, `lhs & rhs` is the intersection of the two enum values'
      flag sets. */
  lemma EnumAndIsIntersection(reg: Registration, lhs: Enum, rhs: Enum)
    requires SelectsModelledStorage(reg) && Enabled(reg)
    ensures EnumAnd(reg, lhs, rhs) == Some(And(FromEnum(lhs), FromEnum(rhs)))
  {
  }

  /** Where it exists, `lhs ^ rhs` is the symmetric difference of the two enum
      values' flag sets. */
  lemma EnumXorIsSymmetricDifference(reg: Registration, lhs: Enum, rhs: Enum)
    requires SelectsModelledStorage(reg) && Enabled(reg)
    ensures EnumXor(reg, lhs, rhs) == Some(Xor(FromEnum(lhs), FromEnum(rhs)))
  {
    XorFlagAgrees(FromEnum(lhs), rhs);
  }

  /** The result of `lhs | rhs` is a flag set no wider than the enum, so
      converting it back to the enum loses nothing. */
  lemma EnumOrFits(reg: Registration, lhs: Enum, rhs: Enum)
    requires SelectsModelledStorage(reg) && Enabled(reg)
    ensures FitsEnum(EnumOr(reg, lhs, rhs).value)
  {
  }
}
