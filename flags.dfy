/** The `bit_flags<T, V>` value type of sidekick/utility/flags.h, instantiated as
    the test suite instantiates it: the enum `MyEnums` with underlying type
    `std::uint16_t`, and the storage type `V = std::uint64_t` that its
    registration selects. A `bit_flags` value is nothing but its `bits`; every
    operator is a bitwise function of the operands' stored integers, after
    widening an enum operand to the storage type.

    The functions below follow the source operator by operator. Their
    contracts relate the operators to one another (the three operand shapes,
    `!=` against `==`, `!` against `bool`); what each operator means on flag
    sets is stated in the lemmas after them, against the inclusion order
    `Includes`. */
module Flags {

  /** A value of the enum `T` (`MyEnums`): its fixed underlying type is
      `std::uint16_t`, and such an enum can hold any value of that type. */
  type Enum = bv16

  /** The storage type `V` (`std::uint64_t`). */
  type Bits = bv64

  /** The value type: one stored integer, compared by value. */
  datatype BitFlags = BitFlags(bits: Bits)

  /** `static_cast<V>(e)`: zero-extends the enum's 16 bits to 64. */
  function Widen(e: Enum): Bits
  {
    e as bv64
  }

  /** Every flag set in `y` is also set in `x`: the reference order on flag sets. */
  predicate Includes(x: BitFlags, y: BitFlags)
  {
    x.bits & y.bits == y.bits
  }

  /** No bit above the enum's 16 bits is set. */
  predicate FitsEnum(x: BitFlags)
  {
    x.bits & 0xFFFF == x.bits
  }

  // ---------------------------------------------------------------------
  // Construction and conversion back to T (flags.h:72-85, 114-118)
  // ---------------------------------------------------------------------

  /** `bit_flags()`: the zero bitmask. */
  function Empty(): BitFlags
  {
    BitFlags(0)
  }

  /** `bit_flags(T e)`: the bit pattern of `e`, widened to the storage type. */
  function FromEnum(e: Enum): BitFlags
  {
    BitFlags(Widen(e))
  }

  /** `explicit bit_flags(V v)`: stores `v` verbatim, bits above the enum's
      width included. */
  function FromRaw(v: Bits): BitFlags
  {
    BitFlags(v)
  }

  /** `explicit operator T()`: reinterprets the stored integer as an enum
      value without validation. Converting a 64-bit value to an enum whose
      underlying type is `std::uint16_t` keeps the low 16 bits. */
  function ToEnum(x: BitFlags): Enum
  {
    LowBitsFit(x.bits);
    (x.bits & 0xFFFF) as bv16
  }

  // ---------------------------------------------------------------------
  // operator| (flags.h:173-195)
  // ---------------------------------------------------------------------

  /** Wrapper | wrapper. */
  function Or(lhs: BitFlags, rhs: BitFlags): BitFlags
  {
    BitFlags(lhs.bits | rhs.bits)
  }

  /** Wrapper | enum: ORs in the enum widened to the storage type. */
  function OrFlag(lhs: BitFlags, rhs: Enum): BitFlags
  {
    BitFlags(lhs.bits | Widen(rhs))
  }

  /** Enum | wrapper: ORs in the enum widened to the storage type. */
  function FlagOr(lhs: Enum, rhs: BitFlags): BitFlags
  {
    BitFlags(Widen(lhs) | rhs.bits)
  }

  // ---------------------------------------------------------------------
  // operator& (flags.h:197-219)
  // ---------------------------------------------------------------------

  /** Wrapper & wrapper. */
  function And(lhs: BitFlags, rhs: BitFlags): BitFlags
  {
    BitFlags(lhs.bits & rhs.bits)
  }

  /** Wrapper & enum: masks with the enum widened to the storage type. */
  function AndFlag(lhs: BitFlags, rhs: Enum): BitFlags
  {
    BitFlags(lhs.bits & Widen(rhs))
  }

  /** Enum & wrapper: masks with the enum widened to the storage type. */
  function FlagAnd(lhs: Enum, rhs: BitFlags): BitFlags
  {
    BitFlags(Widen(lhs) & rhs.bits)
  }

  // ---------------------------------------------------------------------
  // operator^ (flags.h:221-243)
  // ---------------------------------------------------------------------

  /** Wrapper ^ wrapper. */
  function Xor(lhs: BitFlags, rhs: BitFlags): BitFlags
  {
    BitFlags(lhs.bits ^ rhs.bits)
  }

  /** Wrapper ^ enum: toggles the bits of the enum widened to the storage type. */
  function XorFlag(lhs: BitFlags, rhs: Enum): BitFlags
  {
    BitFlags(lhs.bits ^ Widen(rhs))
  }

  /** Enum ^ wrapper: toggles the bits of the enum widened to the storage type. */
  function FlagXor(lhs: Enum, rhs: BitFlags): BitFlags
  {
    BitFlags(Widen(lhs) ^ rhs.bits)
  }

  // ---------------------------------------------------------------------
  // operator== and operator!= (flags.h:125-171)
  // ---------------------------------------------------------------------

  /** Wrapper == wrapper: equality of the flag sets. */
  function Eq(lhs: BitFlags, rhs: BitFlags): (r: bool)
    ensures r <==> lhs == rhs
  {
    lhs.bits == rhs.bits
  }

  /** Wrapper == enum: equality with the flag set built from the enum, that
      is, after widening the enum to the storage type. */
  function EqFlag(lhs: BitFlags, rhs: Enum): (r: bool)
    ensures r <==> lhs == FromEnum(rhs)
  {
    lhs.bits == Widen(rhs)
  }

  /** Enum == wrapper: the same answer as in the other order. */
  function FlagEq(lhs: Enum, rhs: BitFlags): (r: bool)
    ensures r <==> EqFlag(rhs, lhs)
  {
    rhs.bits == Widen(lhs)
  }

  /** Wrapper != wrapper: the negation of `==`. */
  function Ne(lhs: BitFlags, rhs: BitFlags): (r: bool)
    ensures r <==> !Eq(lhs, rhs)
  {
    lhs.bits != rhs.bits
  }

  /** Wrapper != enum, written in the source as `!(lhs == rhs)`. */
  function NeFlag(lhs: BitFlags, rhs: Enum): (r: bool)
    ensures r <==> lhs != FromEnum(rhs)
  {
    !EqFlag(lhs, rhs)
  }

  /** Enum != wrapper, written in the source as `!(lhs == rhs)`. */
  function FlagNe(lhs: Enum, rhs: BitFlags): (r: bool)
    ensures r <==> FromEnum(lhs) != rhs
  {
    !FlagEq(lhs, rhs)
  }

  // ---------------------------------------------------------------------
  // Truthiness (flags.h:108-112, 245-253)
  // ---------------------------------------------------------------------

  /** `explicit operator bool()`: the flag set is not the empty one. */
  function Truthy(x: BitFlags): (r: bool)
    ensures r <==> x != Empty()
  {
    x.bits != 0
  }

  /** `operator!`: the exact complement of the boolean conversion. */
  function Not(x: BitFlags): (r: bool)
    ensures r <==> !Truthy(x)
  {
    x.bits == 0
  }

  /** Masking with `0xFFFF` leaves a value that fits the enum's 16 bits. */
  lemma LowBitsFit(v: Bits)
    ensures v & 0xFFFF < 0x1_0000
  {
  }


  // ---------------------------------------------------------------------
  // The three operand shapes of each operator agree: an enum operand acts
  // as the flag set constructed from it (flags.h:77-80 with 176-243)
  // ---------------------------------------------------------------------

  lemma OrFlagAgrees(lhs: BitFlags, rhs: Enum)
    ensures OrFlag(lhs, rhs) == Or(lhs, FromEnum(rhs))
  {
  }

  lemma FlagOrAgrees(lhs: Enum, rhs: BitFlags)
    ensures FlagOr(lhs, rhs) == Or(FromEnum(lhs), rhs)
  {
  }

  lemma AndFlagAgrees(lhs: BitFlags, rhs: Enum)
    ensures AndFlag(lhs, rhs) == And(lhs, FromEnum(rhs))
  {
  }

  lemma FlagAndAgrees(lhs: Enum, rhs: BitFlags)
    ensures FlagAnd(lhs, rhs) == And(FromEnum(lhs), rhs)
  {
  }

  lemma XorFlagAgrees(lhs: BitFlags, rhs: Enum)
    ensures XorFlag(lhs, rhs) == Xor(lhs, FromEnum(rhs))
  {
  }

  lemma FlagXorAgrees(lhs: Enum, rhs: BitFlags)
    ensures FlagXor(lhs, rhs) == Xor(FromEnum(lhs), rhs)
  {
  }

  // ---------------------------------------------------------------------
  // Construction and conversion
  // ---------------------------------------------------------------------

  /** The default-constructed flag set is contained in every flag set. */
  lemma EmptyIncluded(x: BitFlags)
    ensures Includes(x, Empty())
  {
  }

  /** The default-constructed flag set compares equal to the enum value 0. */
  lemma EmptyEqualsZero()
    ensures EqFlag(Empty(), 0)
  {
  }

  /** The default-constructed flag set is falsy. */
  lemma EmptyIsFalsy()
    ensures Not(Empty())
  {
  }

  /** `explicit bit_flags(V)` given the widened enum builds the same flag set
      as `bit_flags(T)`. */
  lemma FromRawOfWidened(e: Enum)
    ensures FromRaw(Widen(e)) == FromEnum(e)
  {
  }

  /** Distinct enum values give distinct flag sets: widening loses nothing. */
  lemma FromEnumInjective(e1: Enum, e2: Enum)
    ensures FromEnum(e1) == FromEnum(e2) ==> e1 == e2
  {
  }

  /** A flag set built from an enum holds no bit above the enum's width. */
  lemma FromEnumFits(e: Enum)
    ensures FitsEnum(FromEnum(e))
  {
  }

  /** Converting a flag set built from `e` back to the enum gives `e`. */
  lemma ToEnumFromEnum(e: Enum)
    ensures ToEnum(FromEnum(e)) == e
  {
  }

  /** Converting to the enum keeps exactly the low 16 bits and drops the rest. */
  lemma ToEnumTruncates(x: BitFlags)
    ensures FromEnum(ToEnum(x)) == BitFlags(x.bits & 0xFFFF)
  {
  }

  /** So converting to the enum and back reproduces the flag set exactly when
      it holds no bit above the enum's width. */
  lemma FromEnumToEnum(x: BitFlags)
    ensures FromEnum(ToEnum(x)) == x <==> FitsEnum(x)
  {
  }

  /** A flag set built from `e` is truthy exactly when `e` is not zero. */
  lemma FromEnumTruthy(e: Enum)
    ensures Truthy(FromEnum(e)) <==> e != 0
  {
  }

  /** Two flag sets are equal exactly when each holds the other's flags. */
  lemma EqIsMutualInclusion(lhs: BitFlags, rhs: BitFlags)
    ensures Eq(lhs, rhs) <==> Includes(lhs, rhs) && Includes(rhs, lhs)
  {
  }

  // ---------------------------------------------------------------------
  // `|` is the union of flag sets
  // ---------------------------------------------------------------------

  lemma OrCommutes(a: BitFlags, b: BitFlags)
    ensures Or(a, b) == Or(b, a)
  {
  }

  /** So `e | x` and `x | e` give the same flag set. */
  lemma OrFlagCommutes(x: BitFlags, e: Enum)
    ensures FlagOr(e, x) == OrFlag(x, e)
  {
  }

  /** A chain `a | b | c` does not depend on its grouping. */
  lemma OrAssociative(a: BitFlags, b: BitFlags, c: BitFlags)
    ensures Or(Or(a, b), c) == Or(a, Or(b, c))
  {
  }

  /** OR-ing in the empty flag set changes nothing. */
  lemma OrEmpty(x: BitFlags)
    ensures Or(x, Empty()) == x
  {
  }

  /** `lhs | rhs` keeps every flag of `lhs` ... */
  lemma OrHoldsLeft(lhs: BitFlags, rhs: BitFlags)
    ensures Includes(Or(lhs, rhs), lhs)
  {
  }

  /** ... and every flag of `rhs` ... */
  lemma OrHoldsRight(lhs: BitFlags, rhs: BitFlags)
    ensures Includes(Or(lhs, rhs), rhs)
  {
  }

  /** ... and adds none of its own: every flag set holding both operands
      holds their union. */
  lemma OrIsLeast(lhs: BitFlags, rhs: BitFlags, y: BitFlags)
    requires Includes(y, lhs) && Includes(y, rhs)
    ensures Includes(y, Or(lhs, rhs))
  {
  }

  // ---------------------------------------------------------------------
  // `&` is the intersection of flag sets
  // ---------------------------------------------------------------------

  lemma AndCommutes(a: BitFlags, b: BitFlags)
    ensures And(a, b) == And(b, a)
  {
  }

  /** So `e & x` and `x & e` give the same flag set. */
  lemma AndFlagCommutes(x: BitFlags, e: Enum)
    ensures FlagAnd(e, x) == AndFlag(x, e)
  {
  }

  /** `lhs & rhs` is contained in `lhs` ... */
  lemma AndWithinLeft(lhs: BitFlags, rhs: BitFlags)
    ensures Includes(lhs, And(lhs, rhs))
  {
  }

  /** ... and in `rhs` ... */
  lemma AndWithinRight(lhs: BitFlags, rhs: BitFlags)
    ensures Includes(rhs, And(lhs, rhs))
  {
  }

  /** ... and loses no shared flag: it holds every flag set that both
      operands hold. */
  lemma AndIsGreatest(lhs: BitFlags, rhs: BitFlags, y: BitFlags)
    requires Includes(lhs, y) && Includes(rhs, y)
    ensures Includes(And(lhs, rhs), y)
  {
  }

  /** `x & e` is `e`'s flag set when `x` holds all of `e`'s flags ... */
  lemma AndFlagKeepsHeld(x: BitFlags, e: Enum)
    requires Includes(x, FromEnum(e))
    ensures AndFlag(x, e) == FromEnum(e)
  {
  }

  /** ... and only then. */
  lemma AndFlagKeepsOnlyHeld(x: BitFlags, e: Enum)
    requires AndFlag(x, e) == FromEnum(e)
    ensures Includes(x, FromEnum(e))
  {
  }

  /** So `x & e` is truthy whenever `x` holds the flags of a nonzero `e`. */
  lemma AndFlagTruthy(x: BitFlags, e: Enum)
    requires e != 0 && Includes(x, FromEnum(e))
    ensures Truthy(AndFlag(x, e))
  {
  }

  // ---------------------------------------------------------------------
  // `^` is the symmetric difference of flag sets
  // ---------------------------------------------------------------------

  lemma XorCommutes(a: BitFlags, b: BitFlags)
    ensures Xor(a, b) == Xor(b, a)
  {
  }

  /** So `e ^ x` and `x ^ e` give the same flag set. */
  lemma XorFlagCommutes(x: BitFlags, e: Enum)
    ensures FlagXor(e, x) == XorFlag(x, e)
  {
  }

  /** The flags in exactly one operand, together with the shared ones, make
      up the union ... */
  lemma XorJoinsShared(lhs: BitFlags, rhs: BitFlags)
    ensures Or(Xor(lhs, rhs), And(lhs, rhs)) == Or(lhs, rhs)
  {
  }

  /** ... and hold none of the shared flags. */
  lemma XorMissesShared(lhs: BitFlags, rhs: BitFlags)
    ensures And(Xor(lhs, rhs), And(lhs, rhs)) == Empty()
  {
  }

  /** `^` undoes itself. */
  lemma XorSelfInverse(x: BitFlags, y: BitFlags)
    ensures Xor(Xor(x, y), y) == x
  {
  }

  /** `^` with an enum value undoes itself too. */
  lemma XorFlagSelfInverse(x: BitFlags, e: Enum)
    ensures XorFlag(XorFlag(x, e), e) == x
  {
  }
}
