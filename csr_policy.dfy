/**
 * Capability and implicit-flush policy of a command-stream receiver (CSR).
 *
 * A CSR works for the set of tiles (sub-devices) named by its device bitfield.
 * It is "multi OS context capable" when that set holds more than one tile, and
 * that in turn switches off the implicit-flush optimisations unless direct
 * submission is active.
 */
module CsrPolicy {

  /** How a receiver hands work to the GPU: at once, or held back and submitted in one go. */
  datatype DispatchMode = ImmediateDispatch | BatchedDispatch

  /** Bit `i` of the device bitfield `mask`: tile `i` is served by the CSR. */
  predicate Bit(mask: nat, i: nat)
    decreases i
  {
    if i == 0 then mask % 2 == 1 else Bit(mask / 2, i - 1)
  }

  /** Number of set bits of `mask` (std::bitset::count). */
  function PopCount(mask: nat): nat
  {
    if mask == 0 then 0 else mask % 2 + PopCount(mask / 2)
  }

  /** A CSR is multi OS context capable iff its device bitfield has more than one bit set. */
  function IsMultiOsContextCapable(deviceBitfield: nat): (capable: bool)
    ensures capable ==> exists i: nat, j: nat :: i < j && Bit(deviceBitfield, i) && Bit(deviceBitfield, j)
    ensures (exists i: nat, j: nat :: i < j && Bit(deviceBitfield, i) && Bit(deviceBitfield, j)) ==> capable
  {
    MultiBitIff(deviceBitfield);
    PopCount(deviceBitfield) > 1
  }

  lemma {:induction false} SomeBitIff(mask: nat)
    ensures PopCount(mask) > 0 ==> exists i: nat :: Bit(mask, i)
    ensures (exists i: nat :: Bit(mask, i)) ==> PopCount(mask) > 0
    decreases mask
  {
    if mask == 0 {
      forall i: nat ensures !Bit(mask, i) { ZeroHasNoBit(i); }
    } else {
      assert PopCount(mask) == mask % 2 + PopCount(mask / 2);
      if mask % 2 == 1 {
        assert Bit(mask, 0);
      } else {
        SomeBitIff(mask / 2);
        if PopCount(mask) > 0 {
          var i: nat :| Bit(mask / 2, i);
          assert Bit(mask, i + 1);
        } else {
          forall i: nat ensures !Bit(mask, i) {
            if i > 0 { assert Bit(mask, i) == Bit(mask / 2, i - 1); }
          }
        }
      }
    }
  }

  lemma {:induction false} ZeroHasNoBit(i: nat)
    ensures !Bit(0, i)
    decreases i
  {
    if i > 0 { ZeroHasNoBit(i - 1); }
  }

  lemma {:induction false} MultiBitIff(mask: nat)
    ensures PopCount(mask) > 1 ==> exists i: nat, j: nat :: i < j && Bit(mask, i) && Bit(mask, j)
    ensures (exists i: nat, j: nat :: i < j && Bit(mask, i) && Bit(mask, j)) ==> PopCount(mask) > 1
    decreases mask
  {
    if mask == 0 {
      forall i: nat ensures !Bit(mask, i) { ZeroHasNoBit(i); }
    } else {
      assert PopCount(mask) == mask % 2 + PopCount(mask / 2);
      SomeBitIff(mask / 2);
      MultiBitIff(mask / 2);
      if PopCount(mask) > 1 {
        if mask % 2 == 1 {
          var j: nat :| Bit(mask / 2, j);
          assert Bit(mask, 0) && Bit(mask, j + 1);
        } else {
          var i: nat, j: nat :| i < j && Bit(mask / 2, i) && Bit(mask / 2, j);
          assert Bit(mask, i + 1) && Bit(mask, j + 1);
        }
      } else {
        forall i: nat, j: nat | i < j ensures !(Bit(mask, i) && Bit(mask, j)) {
          assert Bit(mask, j) == Bit(mask / 2, j - 1);
          if i > 0 { assert Bit(mask, i) == Bit(mask / 2, i - 1); }
        }
      }
    }
  }

  /** The masks the capability tests use: 0b11 spans two tiles, 0b10 only one. */
  lemma TestMasks()
    ensures IsMultiOsContextCapable(3)
    ensures !IsMultiOsContextCapable(2)
  {
    assert PopCount(3) == 2;
    assert PopCount(2) == 1;
  }

  /**
   * checkPlatformSupportsNewResourceImplicitFlush: never for a multi-context CSR;
   * otherwise the OS interface's setting, when the platform default allows it.
   */
  function SupportsNewResourceImplicitFlush(multiOsContextCapable: bool, defaultSettingForNewResource: bool,
                                            osNewResourceImplicitFlush: bool): (supported: bool)
    ensures supported ==> !multiOsContextCapable && defaultSettingForNewResource
    ensures !multiOsContextCapable && defaultSettingForNewResource ==> supported == osNewResourceImplicitFlush
  {
    if multiOsContextCapable then false
    else if defaultSettingForNewResource then osNewResourceImplicitFlush
    else false
  }

  /**
   * checkPlatformSupportsGpuIdleImplicitFlush: a multi-context CSR supports it only
   * while direct submission is active; then the platform default and the OS setting decide.
   */
  function SupportsGpuIdleImplicitFlush(multiOsContextCapable: bool, directSubmissionActive: bool,
                                        defaultSettingForGpuIdle: bool, osGpuIdleImplicitFlush: bool): (supported: bool)
    ensures supported ==> (!multiOsContextCapable || directSubmissionActive) && defaultSettingForGpuIdle
    ensures (!multiOsContextCapable || directSubmissionActive) && defaultSettingForGpuIdle
            ==> supported == osGpuIdleImplicitFlush
  {
    if multiOsContextCapable && !directSubmissionActive then false
    else if defaultSettingForGpuIdle then osGpuIdleImplicitFlush
    else false
  }
}
