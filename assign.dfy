/** The compound assignments `|=`, `&=` and `^=` of `bit_flags`
    (flags.h:87-106). They are the only members that change a flag set in
    place: each updates the stored integer of the object it is called on and
    returns that same object, so that calls can be chained. */
module Assign {
  import opened Flags

  /** A `bit_flags` object whose `bits` can be updated in place. */
  class BitFlagsObject {
    var bits: Bits

    /** The flag set the object currently holds. */
    function Value(): BitFlags
      reads this
    {
      BitFlags(bits)
    }

    /** Copy-initialisation from a flag set value. */
    constructor (init: BitFlags)
      ensures Value() == init
    {
      bits := init.bits;
    }

    /** `x |= rhs`: the object afterwards holds `x | rhs`, and the call
        returns the object itself. */
    method OrAssign(rhs: Enum) returns (self: BitFlagsObject)
      modifies this
      ensures self == this
      ensures Value() == OrFlag(old(Value()), rhs)
    {
      bits := bits | Widen(rhs);
      self := this;
    }

    /** `x &= rhs`: the object afterwards holds `x & rhs`, and the call
        returns the object itself. */
    method AndAssign(rhs: Enum) returns (self: BitFlagsObject)
      modifies this
      ensures self == this
      ensures Value() == AndFlag(old(Value()), rhs)
    {
      bits := bits & Widen(rhs);
      self := this;
    }

    /** `x ^= rhs`: the object afterwards holds `x ^ rhs`, and the call
        returns the object itself. */
    method XorAssign(rhs: Enum) returns (self: BitFlagsObject)
      modifies this
      ensures self == this
      ensures Value() == XorFlag(old(Value()), rhs)
    {
      bits := bits ^ Widen(rhs);
      self := this;
    }
  }
}
