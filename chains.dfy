/** Chained operator expressions such as `ONE | TWO | THREE` or
    `flags0 ^ ONE ^ TWO`. C++ groups `|` and `^` to the left, so a chain that
    starts from a flag set and applies one enum value after another evaluates
    as a left fold of the wrapper/enum operator over the enum values. */
module Chains {
  import opened Flags

  /** `x | es[0] | es[1] | ... | es[n-1]`, grouped to the left. */
  function OrChain(x: BitFlags, es: seq<Enum>): BitFlags
    decreases |es|
  {
    if es == [] then x else OrChain(OrFlag(x, es[0]), es[1..])
  }

  /** `x ^ es[0] ^ es[1] ^ ... ^ es[n-1]`, grouped to the left. */
  function XorChain(x: BitFlags, es: seq<Enum>): BitFlags
    decreases |es|
  {
    if es == [] then x else XorChain(XorFlag(x, es[0]), es[1..])
  }

  /** Inclusion is transitive. */
  lemma IncludesTransitive(a: BitFlags, b: BitFlags, c: BitFlags)
    requires Includes(a, b) && Includes(b, c)
    ensures Includes(a, c)
  {
  }

  /** A chain of `|` keeps every flag of the set it starts from. */
  lemma {:induction false} OrChainHoldsStart(x: BitFlags, es: seq<Enum>)
    ensures Includes(OrChain(x, es), x)
    decreases |es|
  {
    if es != [] {
      var next := OrFlag(x, es[0]);
      OrChainHoldsStart(next, es[1..]);
      OrFlagAgrees(x, es[0]);
      OrHoldsLeft(x, FromEnum(es[0]));
      IncludesTransitive(OrChain(x, es), next, x);
    }
  }

  /** A chain of `|` holds every flag of every enum value in it. */
  lemma {:induction false} OrChainHoldsEach(x: BitFlags, es: seq<Enum>, k: nat)
    requires k < |es|
    ensures Includes(OrChain(x, es), FromEnum(es[k]))
    decreases |es|
  {
    var next := OrFlag(x, es[0]);
    if k == 0 {
      OrChainHoldsStart(next, es[1..]);
      OrFlagAgrees(x, es[0]);
      OrHoldsRight(x, FromEnum(es[0]));
      IncludesTransitive(OrChain(x, es), next, FromEnum(es[0]));
    } else {
      OrChainHoldsEach(next, es[1..], k - 1);
    }
  }

  /** A chain of `|` adds no flag of its own: any flag set that holds the
      start and every enum value in the chain holds the whole chain. */
  lemma {:induction false} OrChainIsLeast(x: BitFlags, es: seq<Enum>, y: BitFlags)
    requires Includes(y, x)
    requires forall k :: 0 <= k < |es| ==> Includes(y, FromEnum(es[k]))
    ensures Includes(y, OrChain(x, es))
    decreases |es|
  {
    if es != [] {
      OrFlagAgrees(x, es[0]);
      OrIsLeast(x, FromEnum(es[0]), y);
      OrChainIsLeast(OrFlag(x, es[0]), es[1..], y);
    }
  }

  /** A chain over two enumerators is `x ^ a ^ b`, grouped to the left. */
  lemma XorChainOfTwo(x: BitFlags, a: Enum, b: Enum)
    ensures XorChain(x, [a, b]) == XorFlag(XorFlag(x, a), b)
  {
    assert [a, b][1..] == [b] && [b][1..] == [];
    assert XorChain(x, [a, b]) == XorChain(XorFlag(x, a), [b]);
  }

  /** `es` in reverse order. */
  function Reverse(es: seq<Enum>): seq<Enum>
    decreases |es|
  {
    if es == [] then [] else Reverse(es[1..]) + [es[0]]
  }

  /** A chain over `a + b` is the chain over `b` continued from the chain
      over `a`. */
  lemma {:induction false} XorChainAppend(x: BitFlags, a: seq<Enum>, b: seq<Enum>)
    ensures XorChain(x, a + b) == XorChain(XorChain(x, a), b)
    decreases |a|
  {
    if a != [] {
      assert (a + b)[0] == a[0];
      assert (a + b)[1..] == a[1..] + b;
      XorChainAppend(XorFlag(x, a[0]), a[1..], b);
    } else {
      assert a + b == b;
    }
  }

  /** Toggling the same enum values again, in reverse order, restores the
      flag set the chain started from. */
  lemma {:induction false} XorChainUndo(x: BitFlags, es: seq<Enum>)
    ensures XorChain(XorChain(x, es), Reverse(es)) == x
    decreases |es|
  {
    if es != [] {
      var next := XorFlag(x, es[0]);
      calc {
        XorChain(XorChain(x, es), Reverse(es));
        XorChain(XorChain(next, es[1..]), Reverse(es[1..]) + [es[0]]);
        { XorChainAppend(XorChain(next, es[1..]), Reverse(es[1..]), [es[0]]); }
        XorChain(XorChain(XorChain(next, es[1..]), Reverse(es[1..])), [es[0]]);
        { XorChainUndo(next, es[1..]); }
        XorChain(next, [es[0]]);
        { XorFlagSelfInverse(x, es[0]); }
        x;
      }
    }
  }
}
