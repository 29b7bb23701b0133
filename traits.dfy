/** The compile-time customisation point of flags.h:13-58, as data. A
    specialisation of `enable_bit_flags_for_enum<T>` may declare a member type
    `type` (the storage type `V` to use) and a member type `disabled` (to
    switch the free `T op T` operators off). The primary template itself
    declares `type = void`. */
module Traits {

  datatype Option<T> = None | Some(value: T)

  /** The unsigned integer types an enum can have as underlying type, or a
      registration can name as storage type. */
  datatype IntType = UInt8 | UInt16 | UInt32 | UInt64

  /** What `bit_flags_underlying_type<T>::type` can come out as: `void`, or an
      integer type. */
  datatype Storage = Void | Int(width: IntType)

  /** What the `enable_bit_flags_for_enum<T>` seen for an enum declares: its
      member `type`, if any, and whether it has a member `disabled`. */
  datatype Registration = Registration(declaredType: Option<Storage>, declaresDisabled: bool)

  /** The primary template as written: `using type = void;` and no `disabled`
      (flags.h:13-17). Every enum without a specialisation of its own sees this. */
  const PrimaryTemplate: Registration := Registration(Some(Void), false)

  /** The registration of the test suite's `MyEnums`: storage `std::uint64_t`,
      free operators left on. */
  const MyEnumsRegistration: Registration := Registration(Some(Int(UInt64)), false)

  /** `bit_flags_enabled_v<T>` (flags.h:26-39): the free operators exist
      unless the registration declares `disabled`. */
  predicate Enabled(reg: Registration)
  {
    !reg.declaresDisabled
  }

  /** `bit_flags_underlying_type_t<T>` (flags.h:45-58): the registration's
      own `type` when it declares one, and the enum's underlying type
      otherwise. */
  function StorageOf(reg: Registration, underlying: IntType): Storage
  {
    match reg.declaredType
    case Some(t) => t
    case None => Int(underlying)
  }

  /** `bit_flags<T>` has a storage type only when `StorageOf` names an
      integer type; with `void` its `bits` member cannot be declared. */
  predicate Usable(reg: Registration, underlying: IntType)
  {
    StorageOf(reg, underlying).Int?
  }

  /** The primary template corrected to what the header's comments describe:
      it declares no `type`, so an enum without a specialisation falls back
      to its underlying type. Like the code (and unlike the comment that asks
      for a specialisation to enable the operators), it declares no
      `disabled`, so the free operators stay on by default. */
  const IntendedPrimaryTemplate: Registration := Registration(None, false)

  /** As written, an enum without a specialisation gets `void` storage, not
      its underlying type, so `bit_flags<T>` is unusable for it, although
      its free operators are switched on. */
  lemma PrimaryTemplateGivesVoid(underlying: IntType)
    ensures StorageOf(PrimaryTemplate, underlying) == Void
    ensures Enabled(PrimaryTemplate) && !Usable(PrimaryTemplate, underlying)
  {
  }

  /** With the corrected primary template, an enum without a specialisation
      gets its underlying type as storage, and `bit_flags<T>` is usable. */
  lemma IntendedTemplateGivesUnderlying(underlying: IntType)
    ensures StorageOf(IntendedPrimaryTemplate, underlying) == Int(underlying)
    ensures Enabled(IntendedPrimaryTemplate) && Usable(IntendedPrimaryTemplate, underlying)
  {
  }

  /** A specialisation that names a type gets that type, whatever the enum's
      underlying type: `MyEnums`, whose underlying type is `std::uint16_t`,
      gets `std::uint64_t` (the test suite's static assertion). */
  lemma MyEnumsStorage()
    ensures StorageOf(MyEnumsRegistration, UInt16) == Int(UInt64)
    ensures Enabled(MyEnumsRegistration)
  {
  }
}
