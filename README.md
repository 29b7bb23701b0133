# bit_flags: a verified model

This project models `sidekick::bit_flags<T, V>` from
`sources/common/include/sidekick/utility/flags.h`: a value type that holds a
combination of flags of an enum `T` in one integer `bits` of a storage type
`V`. The header gives it:

- constructors (empty, from one enumerator, explicitly from a raw integer);
- `|`, `&` and `^` in three operand shapes (flag set with flag set, flag set
  with enumerator, enumerator with flag set);
- the compound assignments `|=`, `&=` and `^=`;
- `==` and `!=` in the same three shapes;
- `explicit operator bool`, `operator!` and an unchecked `explicit operator T`;
- free `T op T` operators that produce a `bit_flags<T>`. A trait,
  `enable_bit_flags_for_enum<T>`, switches these on or off and chooses `V`.

The widths are the ones the test suite instantiates: `MyEnums` has underlying
type `std::uint16_t` (`bv16`), and its registration selects
`V = std::uint64_t` (`bv64`). Widening an enumerator to the storage type is
`e as bv64`. Converting the 64-bit storage back to the 16-bit enum keeps the
low 16 bits, and the model says so explicitly.

The files:

- `flags.dfy`, module `Flags`: the value type `BitFlags` and every operator
  as a pure function, following the header line by line. The lemmas say what
  the operators mean against a reference order on flag sets,
  `Includes(x, y)` ("every flag of `y` is set in `x`"). `|` is the least upper
  bound, `&` the greatest lower bound and `^` the symmetric difference. The
  three operand shapes agree, `!=` negates `==`, `!` negates `bool`, and
  conversion to the enum round-trips.
- `chains.dfy`, module `Chains`: left-grouped chains such as
  `ONE | TWO | THREE` and `flags0 ^ ONE ^ TWO`, with inductive proofs. A `|`
  chain is the least flag set holding its start and every enumerator in it.
  Toggling the same enumerators again in reverse order undoes a `^` chain.
  The scenarios tie the test's own chains to these definitions.
- `assign.dfy`, module `Assign`: the class `BitFlagsObject`, whose methods
  `OrAssign`, `AndAssign` and `XorAssign` update `bits` in place. Each
  returns the object itself and leaves it holding `x op e`.
- `traits.dfy`, module `Traits`: the registration trait, as data. It decides
  whether the free operators exist and which storage type `bit_flags<T>`
  gets.
- `enum_ops.dfy`, module `EnumOperators`: the free `T op T` operators. They
  return `None` where the registration disables them.
- `scenarios.dfy`, module `Scenarios`: the test suite's cases, performed step
  by step on the model, with the tests' expectations as postconditions.

## Model

| member | source | states |
|---|---|---|
| `Flags.Widen` | sources/common/include/sidekick/utility/flags.h:77-80 | definition, no contract: `static_cast<V>(e)`, zero-extension of the 16-bit enum to 64 bits; its meaning is stated by `Flags.FromEnumInjective` and `Flags.FromEnumFits` |
| `Flags.Empty` | sources/common/include/sidekick/utility/flags.h:72-75 | definition, no contract: `bit_flags()` stores 0; its meaning is stated by `Flags.EmptyIncluded`, `Flags.EmptyEqualsZero` and `Flags.EmptyIsFalsy` |
| `Flags.FromEnum` | sources/common/include/sidekick/utility/flags.h:77-80 | definition, no contract: `bit_flags(e)` stores the widened enumerator; its meaning is stated by `Flags.FromEnumInjective`, `Flags.FromEnumFits`, `Flags.FromEnumTruthy` and `Flags.ToEnumFromEnum` |
| `Flags.FromRaw` | sources/common/include/sidekick/utility/flags.h:82-85 | definition, no contract: `explicit bit_flags(v)` stores `v` verbatim; its meaning is stated by `Flags.FromRawOfWidened` and `Scenarios.InitializeWithRaw` |
| `Flags.ToEnum` | sources/common/include/sidekick/utility/flags.h:114-118 | definition, no contract: `explicit operator T` keeps the low 16 bits; its meaning is stated by `Flags.ToEnumFromEnum`, `Flags.ToEnumTruncates` and `Flags.FromEnumToEnum` |
| `Flags.Or` | sources/common/include/sidekick/utility/flags.h:176-181 | definition, no contract: bitwise OR of the stored integers; its meaning is stated by `Flags.OrHoldsLeft`, `Flags.OrHoldsRight` and `Flags.OrIsLeast` (least upper bound), with `Flags.OrCommutes`, `Flags.OrAssociative` and `Flags.OrEmpty` |
| `Flags.OrFlag` | sources/common/include/sidekick/utility/flags.h:183-188 | definition, no contract: OR with the widened enumerator; its meaning is stated by `Flags.OrFlagAgrees` and `Flags.OrFlagCommutes` |
| `Flags.FlagOr` | sources/common/include/sidekick/utility/flags.h:190-195 | definition, no contract: OR with the widened enumerator on the left; its meaning is stated by `Flags.FlagOrAgrees` and `Flags.OrFlagCommutes` |
| `Flags.And` | sources/common/include/sidekick/utility/flags.h:200-205 | definition, no contract: bitwise AND of the stored integers; its meaning is stated by `Flags.AndWithinLeft`, `Flags.AndWithinRight` and `Flags.AndIsGreatest` (greatest lower bound), with `Flags.AndCommutes` |
| `Flags.AndFlag` | sources/common/include/sidekick/utility/flags.h:207-212 | definition, no contract: AND with the widened enumerator; its meaning is stated by `Flags.AndFlagAgrees`, `Flags.AndFlagKeepsHeld`, `Flags.AndFlagKeepsOnlyHeld` and `Flags.AndFlagTruthy` |
| `Flags.FlagAnd` | sources/common/include/sidekick/utility/flags.h:214-219 | definition, no contract: AND with the widened enumerator on the left; its meaning is stated by `Flags.FlagAndAgrees` and `Flags.AndFlagCommutes` |
| `Flags.Xor` | sources/common/include/sidekick/utility/flags.h:224-229 | definition, no contract: bitwise XOR of the stored integers; its meaning is stated by `Flags.XorJoinsShared` and `Flags.XorMissesShared` (symmetric difference), with `Flags.XorCommutes` and `Flags.XorSelfInverse` |
| `Flags.XorFlag` | sources/common/include/sidekick/utility/flags.h:231-236 | definition, no contract: XOR with the widened enumerator; its meaning is stated by `Flags.XorFlagAgrees` and `Flags.XorFlagSelfInverse` |
| `Flags.FlagXor` | sources/common/include/sidekick/utility/flags.h:238-243 | definition, no contract: XOR with the widened enumerator on the left; its meaning is stated by `Flags.FlagXorAgrees` and `Flags.XorFlagCommutes` |
| `Flags.Eq` | sources/common/include/sidekick/utility/flags.h:128-133 | `lhs == rhs` holds exactly when the two flag sets are the same value |
| `Flags.EqFlag` | sources/common/include/sidekick/utility/flags.h:135-140 | `x == e` holds exactly when `x` is the flag set constructed from `e` (comparison after widening `e`) |
| `Flags.FlagEq` | sources/common/include/sidekick/utility/flags.h:142-147 | `e == x` gives the same answer as `x == e` |
| `Flags.Ne` | sources/common/include/sidekick/utility/flags.h:152-157 | `!=` on two flag sets is exactly the negation of `==` |
| `Flags.NeFlag` | sources/common/include/sidekick/utility/flags.h:159-164 | `x != e` holds exactly when `x` is not the flag set constructed from `e` |
| `Flags.FlagNe` | sources/common/include/sidekick/utility/flags.h:166-171 | `e != x` holds exactly when the flag set constructed from `e` is not `x` |
| `Flags.Truthy` | sources/common/include/sidekick/utility/flags.h:108-112 | `bool(x)` holds exactly when `x` is not the empty (default-constructed) flag set |
| `Flags.Not` | sources/common/include/sidekick/utility/flags.h:248-253 | `!x` is the exact complement of `bool(x)` |
| `Flags.OrFlagAgrees` | sources/common/include/sidekick/utility/flags.h:183-188 | OR with an enumerator `e` on the right is OR with `bit_flags(e)` |
| `Flags.FlagOrAgrees` | sources/common/include/sidekick/utility/flags.h:190-195 | OR with an enumerator `e` on the left is OR with `bit_flags(e)` |
| `Flags.AndFlagAgrees` | sources/common/include/sidekick/utility/flags.h:207-212 | `x & e` is `x & bit_flags(e)` |
| `Flags.FlagAndAgrees` | sources/common/include/sidekick/utility/flags.h:214-219 | `e & x` is `bit_flags(e) & x` |
| `Flags.XorFlagAgrees` | sources/common/include/sidekick/utility/flags.h:231-236 | `x ^ e` is `x ^ bit_flags(e)` |
| `Flags.FlagXorAgrees` | sources/common/include/sidekick/utility/flags.h:238-243 | `e ^ x` is `bit_flags(e) ^ x` |
| `Flags.EmptyIncluded` | sources/common/include/sidekick/utility/flags.h:72-75 | the default-constructed flag set is contained in every flag set |
| `Flags.EmptyEqualsZero` | sources/common/include/sidekick/utility/flags.h:72-75 | the default-constructed flag set compares equal to the enumerator value 0 |
| `Flags.EmptyIsFalsy` | sources/common/include/sidekick/utility/flags.h:72-75 | the default-constructed flag set is falsy under `!` |
| `Flags.FromRawOfWidened` | sources/common/include/sidekick/utility/flags.h:82-85 | the explicit raw constructor given a widened enumerator builds the same flag set as the enum constructor |
| `Flags.FromEnumInjective` | sources/common/include/sidekick/utility/flags.h:77-80 | distinct enumerator values give distinct flag sets |
| `Flags.FromEnumFits` | sources/common/include/sidekick/utility/flags.h:77-80 | a flag set constructed from an enumerator has no bit above the enum's 16 bits |
| `Flags.FromEnumTruthy` | sources/common/include/sidekick/utility/flags.h:77-80 | a flag set constructed from `e` is truthy exactly when `e` is nonzero |
| `Flags.ToEnumFromEnum` | sources/common/include/sidekick/utility/flags.h:114-118 | converting `bit_flags(e)` back to `T` returns `e` |
| `Flags.ToEnumTruncates` | sources/common/include/sidekick/utility/flags.h:114-118 | converting to `T` keeps exactly the low 16 bits of `bits`, without validation |
| `Flags.FromEnumToEnum` | sources/common/include/sidekick/utility/flags.h:114-118 | converting to `T` and back reproduces the flag set exactly when it has no bit above the enum's width |
| `Flags.EqIsMutualInclusion` | sources/common/include/sidekick/utility/flags.h:128-133 | two flag sets are equal exactly when each includes the other |
| `Flags.OrCommutes` | sources/common/include/sidekick/utility/flags.h:176-181 | OR of two flag sets is commutative |
| `Flags.OrFlagCommutes` | sources/common/include/sidekick/utility/flags.h:183-195 | OR with an enumerator gives the same flag set in either operand order |
| `Flags.OrAssociative` | sources/common/include/sidekick/utility/flags.h:176-181 | OR is associative, so an OR chain does not depend on its grouping |
| `Flags.OrEmpty` | sources/common/include/sidekick/utility/flags.h:176-181 | OR-ing in the empty flag set changes nothing |
| `Flags.OrHoldsLeft` | sources/common/include/sidekick/utility/flags.h:176-181 | the OR of two flag sets includes the left operand |
| `Flags.OrHoldsRight` | sources/common/include/sidekick/utility/flags.h:176-181 | the OR of two flag sets includes the right operand |
| `Flags.OrIsLeast` | sources/common/include/sidekick/utility/flags.h:176-181 | every flag set including both operands includes their OR (OR is the least upper bound) |
| `Flags.AndCommutes` | sources/common/include/sidekick/utility/flags.h:200-205 | `a & b` equals `b & a` |
| `Flags.AndFlagCommutes` | sources/common/include/sidekick/utility/flags.h:207-219 | `e & x` equals `x & e` |
| `Flags.AndWithinLeft` | sources/common/include/sidekick/utility/flags.h:200-205 | `lhs & rhs` is included in `lhs` |
| `Flags.AndWithinRight` | sources/common/include/sidekick/utility/flags.h:200-205 | `lhs & rhs` is included in `rhs` |
| `Flags.AndIsGreatest` | sources/common/include/sidekick/utility/flags.h:200-205 | every flag set included in both operands is included in `lhs & rhs` |
| `Flags.AndFlagKeepsHeld` | sources/common/include/sidekick/utility/flags.h:207-212 | if `x` holds all of `e`'s flags, `x & e` is `e`'s flag set |
| `Flags.AndFlagKeepsOnlyHeld` | sources/common/include/sidekick/utility/flags.h:207-212 | if `x & e` is `e`'s flag set, `x` holds all of `e`'s flags |
| `Flags.AndFlagTruthy` | sources/common/include/sidekick/utility/flags.h:207-212 | `x & e` is truthy whenever `x` holds all flags of a nonzero `e` |
| `Flags.XorCommutes` | sources/common/include/sidekick/utility/flags.h:224-229 | `a ^ b` equals `b ^ a` |
| `Flags.XorFlagCommutes` | sources/common/include/sidekick/utility/flags.h:231-243 | `e ^ x` equals `x ^ e` |
| `Flags.XorJoinsShared` | sources/common/include/sidekick/utility/flags.h:224-229 | the flags in exactly one operand, OR-ed with the shared flags, make up the OR of the operands |
| `Flags.XorMissesShared` | sources/common/include/sidekick/utility/flags.h:224-229 | `lhs ^ rhs` holds none of the shared flags |
| `Flags.XorSelfInverse` | sources/common/include/sidekick/utility/flags.h:224-229 | `(x ^ y) ^ y` is `x` |
| `Flags.XorFlagSelfInverse` | sources/common/include/sidekick/utility/flags.h:231-236 | `(x ^ e) ^ e` is `x` |
| `Chains.OrChain` | sources/common/include/sidekick/utility/flags.h:183-188 | definition, no contract: a left-grouped chain of flag set with enumerator ORs; its meaning is stated by `Chains.OrChainHoldsStart`, `Chains.OrChainHoldsEach` and `Chains.OrChainIsLeast` |
| `Chains.XorChain` | sources/common/include/sidekick/utility/flags.h:231-236 | definition, no contract: a left-grouped chain of flag set with enumerator XORs; its meaning is stated by `Chains.XorChainOfTwo`, `Chains.XorChainAppend` and `Chains.XorChainUndo` |
| `Chains.XorChainOfTwo` | sources/common/include/sidekick/utility/flags.h:231-236 | a chain over two enumerators is `(x ^ a) ^ b`, as the test expression `flags0 ^ ONE ^ TWO` groups |
| `Chains.OrChainHoldsStart` | sources/common/include/sidekick/utility/flags.h:183-188 | a left-grouped OR chain of enumerators starting from `x` includes `x` |
| `Chains.OrChainHoldsEach` | sources/common/include/sidekick/utility/flags.h:183-188 | a left-grouped OR chain of enumerators includes the flag set of every enumerator in it |
| `Chains.OrChainIsLeast` | sources/common/include/sidekick/utility/flags.h:183-188 | every flag set including `x` and every `ek` includes the whole chain |
| `Chains.XorChainAppend` | sources/common/include/sidekick/utility/flags.h:231-236 | a `^` chain over `a + b` continues the chain over `a` with `b` |
| `Chains.XorChainUndo` | sources/common/include/sidekick/utility/flags.h:231-236 | applying a `^` chain and then the same enumerators in reverse order restores the start |
| `Assign.BitFlagsObject.Value` | sources/common/include/sidekick/utility/flags.h:120 | definition, no contract: the flag set held in the object's `bits`; the assignment methods' postconditions are stated through it |
| `Assign.BitFlagsObject.constructor` | sources/common/include/sidekick/utility/flags.h:120 | a new object holds the flag set it was initialised with |
| `Assign.BitFlagsObject.OrAssign` | sources/common/include/sidekick/utility/flags.h:87-92 | the OR-assignment of `e` leaves the object holding its old flag set OR `e`, and returns the same object |
| `Assign.BitFlagsObject.AndAssign` | sources/common/include/sidekick/utility/flags.h:94-99 | the AND-assignment of `e` leaves the object holding its old flag set AND `e`, and returns the same object |
| `Assign.BitFlagsObject.XorAssign` | sources/common/include/sidekick/utility/flags.h:101-106 | the XOR-assignment of `e` leaves the object holding its old flag set XOR `e`, and returns the same object |
| `Traits.Enabled` | sources/common/include/sidekick/utility/flags.h:26-39 | definition, no contract: the free operators exist unless the registration declares `disabled`; its meaning is stated by `EnumOperators.EnumOr`, `EnumOperators.EnumAnd` and `EnumOperators.EnumXor` |
| `Traits.StorageOf` | sources/common/include/sidekick/utility/flags.h:45-58 | definition, no contract: the registration's `type` if it declares one, else the underlying type; its meaning is stated by `Traits.PrimaryTemplateGivesVoid`, `Traits.IntendedTemplateGivesUnderlying` and `Traits.MyEnumsStorage` |
| `Traits.Usable` | sources/common/include/sidekick/utility/flags.h:66-70 | definition, no contract: `bit_flags<T>` has an integer storage type (not `void`); used by `Traits.PrimaryTemplateGivesVoid` and `Traits.IntendedTemplateGivesUnderlying` |
| `Traits.PrimaryTemplateGivesVoid` | sources/common/include/sidekick/utility/flags.h:13-58 | as written, an enum without a specialisation gets `void` storage although its free operators are enabled |
| `Traits.IntendedTemplateGivesUnderlying` | sources/common/include/sidekick/utility/flags.h:10-17 | with a primary template that declares no `type`, the storage falls back to the enum's underlying type |
| `Traits.MyEnumsStorage` | sources/common/test/flags_test.cpp:22-30 | a specialisation naming `std::uint64_t` gets that storage for the `std::uint16_t` enum, with the operators enabled |
| `EnumOperators.EnumOr` | sources/common/include/sidekick/utility/flags.h:262-269 | the enum-enum OR exists exactly when the registration declares no `disabled` |
| `EnumOperators.EnumAnd` | sources/common/include/sidekick/utility/flags.h:271-278 | `T & T` exists exactly when the registration declares no `disabled` |
| `EnumOperators.EnumXor` | sources/common/include/sidekick/utility/flags.h:280-287 | `T ^ T` exists exactly when the registration declares no `disabled` |
| `EnumOperators.EnumOrIsUnion` | sources/common/include/sidekick/utility/flags.h:262-269 | where it exists, the enum-enum OR is the union of the two enumerators' flag sets |
| `EnumOperators.EnumAndIsIntersection` | sources/common/include/sidekick/utility/flags.h:271-278 | where it exists, `a & b` is the intersection of the two enumerators' flag sets |
| `EnumOperators.EnumXorIsSymmetricDifference` | sources/common/include/sidekick/utility/flags.h:280-287 | where it exists, `a ^ b` is the symmetric difference of the two enumerators' flag sets |
| `EnumOperators.EnumOrFits` | sources/common/include/sidekick/utility/flags.h:262-269 | the enum-enum OR has no bit above the enum's width, so converting it to `T` loses nothing |
| `Scenarios.OneOrTwo` | sources/common/test/flags_test.cpp:85 | the enum-enum OR of `ONE` and `TWO` has bits `0x3` |
| `Scenarios.DefaultInitialization` | sources/common/test/flags_test.cpp:32-39 | a default-constructed flag set equals `ZERO` in both orders and `!flags` holds |
| `Scenarios.InitializeWithEnum` | sources/common/test/flags_test.cpp:41-48 | `bit_flags{ONE}` equals `ONE` in both orders and is truthy |
| `Scenarios.InitializeWithRaw` | sources/common/test/flags_test.cpp:50-56 | `bit_flags{0x01}` stores `0x01` and is truthy |
| `Scenarios.OrWithEnum` | sources/common/test/flags_test.cpp:58-71 | after the OR-assignment and both mixed OR shapes the sets hold `0x3` and `0xc`, and their OR holds `0xf` |
| `Scenarios.AndWithEnum` | sources/common/test/flags_test.cpp:73-88 | `&=` and `&` keep exactly `TWO`, and masking `flags0 & (ONE OR TWO)` with `ONE` or with `TWO` is truthy |
| `Scenarios.XorWithEnum` | sources/common/test/flags_test.cpp:90-98 | XOR-assigning `TWO` to `ONE OR THREE` gives `ONE OR TWO OR THREE`, and the chain `^ ONE ^ TWO` (`Chains.XorChain`) then gives `THREE` |
| `Scenarios.OneTwoThreeIsChain` | sources/common/test/flags_test.cpp:75 | `ONE OR TWO OR THREE` as the test writes it (free operator, then flag set with enumerator) is the OR chain `Chains.OrChain` over `TWO` and `THREE` from `ONE` |

## Left out

- Template metaprogramming (`void_t` detection, `enable_if_t`, the `static_assert` that `T` is an enum) is not executed code. The registration trait is modelled as a record (`Traits.Registration`), and its two outcomes (enabled, storage type) as functions of it.
- Overload resolution, implicit versus `explicit` conversions, `constexpr` and `noexcept` have no run-time behaviour and are not modelled.
- Only the instantiation the test suite uses is modelled: a 16-bit enum with 64-bit storage. Storage narrower than the enum (where `static_cast<V>(e)` would truncate) is not covered. Converting 64-bit storage back to the 16-bit enum is modelled as keeping the low 16 bits.
- EnumOperators.EnumOr, EnumOperators.EnumAnd, EnumOperators.EnumXor: these require a registration that selects `std::uint64_t` storage for a `std::uint16_t` enum. The flag set model is fixed at those widths, while the header accepts any registration whose storage is an integer type.
- Copying a `bit_flags` (`auto flags1 = flags0`) is value semantics. It is modelled by constructing a fresh `Assign.BitFlagsObject` from the value. Aliasing through references returned by `|=`, `&=` and `^=` is modelled only as far as "the returned object is the receiver".
- The Catch2 test harness is not modelled. Its assertions appear as the postconditions of the `Scenarios` methods.

## Findings

| source | as written | input that shows it | evidently intended | confidence | as-written member | corrected member |
|---|---|---|---|---|---|---|
| sources/common/include/sidekick/utility/flags.h:13-17 | The primary `enable_bit_flags_for_enum<T>` declares `using type = void`. So the detection at lines 51-55 also matches for an enum with no specialisation, and `bit_flags<T>` gets `V = void`. The fallback to `std::underlying_type_t<T>` (lines 45-49) is reached only through a specialisation that declares no `type`. Meanwhile the free `T op T` operators stay enabled, because the primary template declares no `disabled`. For an unscoped such enum, `a | b` can then select the free operator template (an exact match) over the built-in operator, and instantiating `bit_flags<T, void>` fails. | any enum with no specialisation, e.g. one with underlying type `std::uint8_t`: its storage comes out `void`, not `std::uint8_t` | the comments at lines 10-11 and 16 describe the underlying type as the default storage, and `type` as something a specialisation defines only to choose another type. The corrected member keeps the code's default of leaving the free operators on for every enum without a specialisation (no `disabled`), although the comment at line 9 says a specialisation is what enables them. | medium; not executed | `Traits.PrimaryTemplateGivesVoid` | `Traits.IntendedTemplateGivesUnderlying` |
