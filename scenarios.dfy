/** The scenarios of the test suite for `bit_flags<MyEnums>`
    (flags_test.cpp:11-98), restated on the model. Each test case becomes a
    method that performs the same steps, `|=`, `&=` and `^=` on an object and
    the other operators on values, and whose postcondition is the test's
    expectations. */
module Scenarios {
  import opened Flags
  import opened Assign
  import opened Traits
  import opened EnumOperators
  import opened Chains

  /** The enumerators of `MyEnums`. */
  const ZERO: Enum := 0x0
  const ONE: Enum := 0x1
  const TWO: Enum := 0x2
  const THREE: Enum := 0x4
  const FOUR: Enum := 0x8

  /** `ONE | TWO` with the free enum operator, as `MyEnums` is registered. */
  function OneOrTwo(): (r: BitFlags)
    ensures r.bits == 0x3
  {
    MyEnumsStorage();
    EnumOr(MyEnumsRegistration, ONE, TWO).value
  }

  /** "Default initialization is zero". */
  method DefaultInitialization() returns (flags: BitFlags)
    ensures EqFlag(flags, ZERO) && FlagEq(ZERO, flags)
    ensures Not(flags)
  {
    flags := Empty();
  }

  /** "Initialize with enum". */
  method InitializeWithEnum() returns (flags: BitFlags)
    ensures EqFlag(flags, ONE) && FlagEq(ONE, flags)
    ensures Truthy(flags)
  {
    flags := FromEnum(ONE);
  }

  /** "Initialize with raw value". */
  method InitializeWithRaw() returns (flags: BitFlags)
    ensures flags.bits == 0x01
    ensures Truthy(flags)
  {
    flags := FromRaw(0x01);
  }

  /** "OR bit_flags with enum". */
  method OrWithEnum() returns (flags0: BitFlags, flags1: BitFlags)
    ensures flags0.bits == 0x3 && flags1.bits == 0xc
    ensures Or(flags0, flags1).bits == 0xf
  {
    var obj := new BitFlagsObject(FromEnum(ONE));
    var _ := obj.OrAssign(TWO);
    flags0 := obj.Value();
    flags1 := FromEnum(THREE);
    flags1 := OrFlag(flags1, FOUR);
    flags1 := FlagOr(FOUR, flags1);
  }

  /** "AND bit_flags with enum". */
  method AndWithEnum() returns (flags1: BitFlags, flags2: BitFlags, flags3: BitFlags)
    ensures EqFlag(flags1, TWO) && EqFlag(flags2, TWO)
    ensures Truthy(AndFlag(flags3, ONE)) && Truthy(AndFlag(flags3, TWO))
  {
    var flags0 := OrFlag(OneOrTwo(), THREE);
    var obj := new BitFlagsObject(flags0);
    var _ := obj.AndAssign(TWO);
    flags1 := obj.Value();
    flags2 := And(flags0, flags1);
    flags3 := And(flags0, OneOrTwo());
  }

  /** "XOR bit_flags with enum". */
  method XorWithEnum() returns (flags0: BitFlags)
    ensures Eq(flags0, OrFlag(OneOrTwo(), THREE))
    ensures EqFlag(XorChain(flags0, [ONE, TWO]), THREE)
  {
    MyEnumsStorage();
    var obj := new BitFlagsObject(EnumOr(MyEnumsRegistration, ONE, THREE).value);
    var _ := obj.XorAssign(TWO);
    flags0 := obj.Value();
    XorChainOfTwo(flags0, ONE, TWO);
  }

  /** `ONE | TWO | THREE` as the test writes it (the free operator, then
      flag set with enumerator) is the left-grouped `|` chain over `TWO` and
      `THREE` starting from `ONE`. */
  lemma OneTwoThreeIsChain()
    ensures OrFlag(OneOrTwo(), THREE) == OrChain(FromEnum(ONE), [TWO, THREE])
  {
    var one := FromEnum(ONE);
    assert [TWO, THREE][1..] == [THREE] && [THREE][1..] == [];
    assert OrChain(one, [TWO, THREE]) == OrChain(OrFlag(one, TWO), [THREE]);
    assert OrChain(OrFlag(one, TWO), [THREE]) == OrFlag(OrFlag(one, TWO), THREE);
  }
}
