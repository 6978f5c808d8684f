/**
  * Clash.Ext.EnumExt: flag tests on [Flags] enums, over the 8-bit masks that
  * Direction and WaveDash's Buttons use.
  */
module EnumExt {

  /** Bit `i` of `f` is set. */
  predicate Bit(f: bv8, i: nat)
    requires i < 8
  {
    f & (1 << i) != 0
  }

  /** Has(flags, flag): Enum.HasFlag, every bit of `flag` is set in `flags`. */
  predicate Has(flags: bv8, flag: bv8) {
    flags & flag == flag
  }

  /** All(flags, flag): the same test as Has. */
  predicate All(flags: bv8, flag: bv8)
    ensures All(flags, flag) <==> Has(flags, flag)
  {
    flags & flag == flag
  }

  /** Any(flags, flag): the two masks share a bit. */
  predicate Any(flags: bv8, flag: bv8) {
    flags & flag != 0
  }

  /** Has is "every bit of flag is a bit of flags". */
  lemma {:induction false} HasIsEveryBit(flags: bv8, flag: bv8)
    ensures Has(flags, flag) <==> forall i :: 0 <= i < 8 ==> (Bit(flag, i) ==> Bit(flags, i))
  {
    if forall i :: 0 <= i < 8 ==> (Bit(flag, i) ==> Bit(flags, i)) {
      assert Bit(flag, 0) ==> Bit(flags, 0);
      assert Bit(flag, 1) ==> Bit(flags, 1);
      assert Bit(flag, 2) ==> Bit(flags, 2);
      assert Bit(flag, 3) ==> Bit(flags, 3);
      assert Bit(flag, 4) ==> Bit(flags, 4);
      assert Bit(flag, 5) ==> Bit(flags, 5);
      assert Bit(flag, 6) ==> Bit(flags, 6);
      assert Bit(flag, 7) ==> Bit(flags, 7);
    }
  }

  /** Any is "some bit is set in both". */
  lemma {:induction false} AnyIsSomeBit(flags: bv8, flag: bv8)
    ensures Any(flags, flag) <==> exists i :: 0 <= i < 8 && Bit(flag, i) && Bit(flags, i)
  {
    if Any(flags, flag) {
      if !(Bit(flag, 0) && Bit(flags, 0)) && !(Bit(flag, 1) && Bit(flags, 1))
        && !(Bit(flag, 2) && Bit(flags, 2)) && !(Bit(flag, 3) && Bit(flags, 3))
        && !(Bit(flag, 4) && Bit(flags, 4)) && !(Bit(flag, 5) && Bit(flags, 5))
        && !(Bit(flag, 6) && Bit(flags, 6))
      {
        assert Bit(flag, 7) && Bit(flags, 7);
      }
    }
  }

  /** The empty flag is always had and never shared; a non-empty one that is had is shared. */
  lemma EmptyAndNonEmptyFlag(flags: bv8, flag: bv8)
    ensures Has(flags, 0) && !Any(flags, 0)
    ensures flag != 0 && Has(flags, flag) ==> Any(flags, flag)
  {
  }
}
