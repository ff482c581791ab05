/**
 * The XeHP-and-later scratch-space controller.
 *
 * The controller owns a scratch allocation and an optional private-scratch
 * allocation, each sized `alignUp(perThreadSize, 64) * computeUnitsUsedForScratch`
 * bytes, and keeps their RENDER_SURFACE_STATE descriptors in a ring of slots of
 * the surface-state heap.  Each slot holds one descriptor, or two when private
 * scratch is supported (scratch at index 2s, private scratch at index 2s+1).
 * An allocation is only ever replaced by a strictly larger one; the old one is
 * handed to the CSR's temporary-allocation list, stamped with the current task
 * count, so that it is freed once the GPU is done with it.
 *
 * The pure functions below give the meaning of every operation on a value of the
 * controller's state; the class `ScratchSpaceController` performs the same steps
 * in place and is proved against them.
 */
module ScratchSpace {
  import opened Wrappers

  /** sizeof(RENDER_SURFACE_STATE) in bytes. */
  const SurfaceStateSize: nat := 64
  /** Per-thread scratch sizes are rounded up to this many bytes. */
  const ScratchSizeAlignment: nat := 64

  /** alignUp(size, 64): the least multiple of 64 that is not below `size`. */
  function AlignUp(size: nat): (aligned: nat)
    ensures aligned % ScratchSizeAlignment == 0
    ensures size <= aligned < size + ScratchSizeAlignment
  {
    (size + ScratchSizeAlignment - 1) / ScratchSizeAlignment * ScratchSizeAlignment
  }

  /** No multiple of 64 at or above `size` lies below AlignUp(size). */
  lemma AlignUpIsLeast(size: nat, m: nat)
    requires m % ScratchSizeAlignment == 0 && size <= m
    ensures AlignUp(size) <= m
  {
  }

  /**
   * EnablePrivateScratchSlot1 debug flag: -1 keeps the platform default,
   * any other value switches private scratch on (non-zero) or off (zero).
   */
  function PrivateScratchSupported(enablePrivateScratchSlot1: int, platformDefault: bool): (supported: bool)
    ensures enablePrivateScratchSlot1 == -1 ==> supported == platformDefault
    ensures enablePrivateScratchSlot1 != -1 ==> (supported <==> enablePrivateScratchSlot1 != 0)
  {
    if enablePrivateScratchSlot1 != -1 then enablePrivateScratchSlot1 != 0 else platformDefault
  }

  /** Descriptors per slot: the private descriptor doubles the slot width. */
  function DescriptorsPerSlot(privateScratchSupported: bool): nat
  {
    if privateScratchSupported then 2 else 1
  }

  /** stateSlotsCount: 16 slots, or 32 when private scratch is supported. */
  function StateSlotsCount(privateScratchSupported: bool): (count: nat)
    ensures count == 16 * DescriptorsPerSlot(privateScratchSupported)
  {
    if privateScratchSupported then 32 else 16
  }

  /** Heap index of the first descriptor of slot `slot`. */
  function DescriptorIndex(slot: nat, privateScratchSupported: bool): nat
  {
    slot * DescriptorsPerSlot(privateScratchSupported)
  }

  /** getOffsetToSurfaceState: byte offset of slot `slot` in the surface-state heap. */
  function OffsetToSurfaceState(slot: nat, privateScratchSupported: bool): (offset: nat)
    ensures offset == DescriptorIndex(slot, privateScratchSupported) * SurfaceStateSize
    ensures offset % SurfaceStateSize == 0
  {
    var offset := slot * SurfaceStateSize;
    if privateScratchSupported then offset * 2 else offset
  }

  /** Distinct slots occupy disjoint byte ranges of the heap. */
  lemma SlotRegionsDisjoint(s: nat, t: nat, privateScratchSupported: bool)
    requires s < t
    ensures OffsetToSurfaceState(s, privateScratchSupported)
              + DescriptorsPerSlot(privateScratchSupported) * SurfaceStateSize
            <= OffsetToSurfaceState(t, privateScratchSupported)
  {
    var d := DescriptorsPerSlot(privateScratchSupported);
    assert (t - s) * d >= d;
    assert t * d == s * d + (t - s) * d;
  }

  datatype SurfaceType = SurftypeNull | SurftypeScratch

  /**
   * A RENDER_SURFACE_STATE as the controller programs it.  `bufferLength` is the
   * value the hardware splits into width, height and depth.
   */
  datatype SurfaceState = SurfaceState(surfaceType: SurfaceType, surfaceBaseAddress: nat,
                                       surfacePitch: nat, bufferLength: nat)

  /** A graphics allocation: its GPU virtual address and underlying buffer size. */
  datatype Allocation = Allocation(gpuAddress: nat, size: nat)

  /** An allocation on the CSR's temporary list, reclaimable after `taskCount` completes. */
  datatype TemporaryAllocation = TemporaryAllocation(allocation: Allocation, taskCount: nat)

  datatype ScratchConfig = ScratchConfig(computeUnitsUsedForScratch: nat, privateScratchSupported: bool)

  /** The controller's state, without the surface-state heap. */
  datatype ScratchState = ScratchState(
    slotId: nat,
    updateSlots: bool,
    perThreadScratchSize: nat,
    scratchSizeBytes: nat,
    scratchAllocation: Option<Allocation>,
    perThreadPrivateScratchSize: nat,
    privateScratchSizeBytes: nat,
    privateScratchAllocation: Option<Allocation>,
    temporaryAllocations: seq<TemporaryAllocation>)

  /**
   * The arguments of setRequiredScratchSpace, plus the GPU addresses the memory
   * manager hands out if a scratch or private allocation has to be created.
   */
  datatype ScratchRequest = ScratchRequest(
    scratchSlot: nat,
    requiredPerThreadScratchSize: nat,
    requiredPerThreadPrivateScratchSize: nat,
    currentTaskCount: nat,
    newScratchAddress: nat,
    newPrivateScratchAddress: nat)

  /** The state a freshly constructed controller starts in. */
  const InitialState := ScratchState(0, true, 0, 0, None, 0, 0, None, [])

  /** What every reachable controller state satisfies. */
  ghost predicate Consistent(s: ScratchState, cfg: ScratchConfig)
  {
    && s.perThreadScratchSize % ScratchSizeAlignment == 0
    && s.scratchSizeBytes == s.perThreadScratchSize * cfg.computeUnitsUsedForScratch
    && (s.scratchAllocation.Some? <==> s.scratchSizeBytes > 0)
    && (s.scratchAllocation.Some? ==> s.scratchAllocation.value.size == s.scratchSizeBytes)
    && s.perThreadPrivateScratchSize % ScratchSizeAlignment == 0
    && s.privateScratchSizeBytes == s.perThreadPrivateScratchSize * cfg.computeUnitsUsedForScratch
    && (s.privateScratchAllocation.Some? <==> s.privateScratchSizeBytes > 0)
    && (s.privateScratchAllocation.Some? ==> s.privateScratchAllocation.value.size == s.privateScratchSizeBytes)
    && (!cfg.privateScratchSupported ==> s.privateScratchSizeBytes == 0)
  }

  lemma InitialStateConsistent(cfg: ScratchConfig)
    ensures Consistent(InitialState, cfg)
  {
  }

  // ---------------------------------------------------------------------------
  // Descriptors
  // ---------------------------------------------------------------------------

  /**
   * The descriptor of one scratch class: type SCRATCH, the allocation's address
   * (0 without an allocation), pitch = per-thread size, length = computeUnits - 1.
   */
  function ScratchSurfaceState(allocation: Option<Allocation>, perThreadSize: nat, computeUnits: nat): (state: SurfaceState)
    requires computeUnits > 0
    ensures state.surfaceType == SurftypeScratch
    ensures state.surfaceBaseAddress == (if allocation.Some? then allocation.value.gpuAddress else 0)
    ensures state.surfacePitch == perThreadSize
    ensures state.bufferLength + 1 == computeUnits
  {
    var address := if allocation.Some? then allocation.value.gpuAddress else 0;
    SurfaceState(SurftypeScratch, address, perThreadSize, computeUnits - 1)
  }

  /** The heap has room for every descriptor of slot `slot`. */
  predicate SlotFits(heapLength: nat, slot: nat, cfg: ScratchConfig)
  {
    DescriptorIndex(slot, cfg.privateScratchSupported) + DescriptorsPerSlot(cfg.privateScratchSupported) <= heapLength
  }

  /** The descriptors of `s`'s current slot in `heap` describe `s`'s allocations. */
  ghost predicate SlotHolds(heap: seq<SurfaceState>, s: ScratchState, cfg: ScratchConfig)
    requires cfg.computeUnitsUsedForScratch > 0
    requires SlotFits(|heap|, s.slotId, cfg)
  {
    var idx := DescriptorIndex(s.slotId, cfg.privateScratchSupported);
    && heap[idx] == ScratchSurfaceState(s.scratchAllocation, s.perThreadScratchSize, cfg.computeUnitsUsedForScratch)
    && (cfg.privateScratchSupported ==>
          heap[idx + 1] == ScratchSurfaceState(s.privateScratchAllocation, s.perThreadPrivateScratchSize,
                                               cfg.computeUnitsUsedForScratch))
  }

  /** Heap index `k` belongs to slot `slot`. */
  predicate InSlot(k: nat, slot: nat, cfg: ScratchConfig)
  {
    DescriptorIndex(slot, cfg.privateScratchSupported) <= k
    < DescriptorIndex(slot, cfg.privateScratchSupported) + DescriptorsPerSlot(cfg.privateScratchSupported)
  }

  /** `now` differs from `before` at most in the entries of slot `slot`. */
  ghost predicate UnchangedOutsideSlot(now: seq<SurfaceState>, before: seq<SurfaceState>, slot: nat, cfg: ScratchConfig)
  {
    |now| == |before| && forall k :: 0 <= k < |now| && !InSlot(k, slot, cfg) ==> now[k] == before[k]
  }

  lemma UnchangedOutsideSlotTrans(a: seq<SurfaceState>, b: seq<SurfaceState>, c: seq<SurfaceState>, slot: nat,
                                  cfg: ScratchConfig)
    requires UnchangedOutsideSlot(a, b, slot, cfg) && UnchangedOutsideSlot(b, c, slot, cfg)
    ensures UnchangedOutsideSlot(a, c, slot, cfg)
  {
  }

  /**
   * programSurfaceStateAtPtr: write the descriptors of `s` into its current slot.
   * Exactly the slot's entries change.
   */
  function WriteSlot(heap: seq<SurfaceState>, s: ScratchState, cfg: ScratchConfig): (written: seq<SurfaceState>)
    requires cfg.computeUnitsUsedForScratch > 0
    requires SlotFits(|heap|, s.slotId, cfg)
    ensures |written| == |heap|
    ensures SlotHolds(written, s, cfg)
    ensures UnchangedOutsideSlot(written, heap, s.slotId, cfg)
  {
    var idx := DescriptorIndex(s.slotId, cfg.privateScratchSupported);
    var cu := cfg.computeUnitsUsedForScratch;
    var withScratch := heap[idx := ScratchSurfaceState(s.scratchAllocation, s.perThreadScratchSize, cu)];
    if cfg.privateScratchSupported then
      withScratch[idx + 1 := ScratchSurfaceState(s.privateScratchAllocation, s.perThreadPrivateScratchSize, cu)]
    else
      withScratch
  }

  /** Writing a slot that already holds the state's descriptors changes nothing. */
  lemma WriteSlotIdempotent(heap: seq<SurfaceState>, s: ScratchState, cfg: ScratchConfig)
    requires cfg.computeUnitsUsedForScratch > 0
    requires SlotFits(|heap|, s.slotId, cfg)
    requires SlotHolds(heap, s, cfg)
    ensures WriteSlot(heap, s, cfg) == heap
  {
    var w := WriteSlot(heap, s, cfg);
    var idx := DescriptorIndex(s.slotId, cfg.privateScratchSupported);
    forall i | 0 <= i < |heap| ensures w[i] == heap[i] {
      if i == idx {
      } else if cfg.privateScratchSupported && i == idx + 1 {
      }
    }
  }

  /** getScratchPatchAddress: the offset of the current slot once any allocation exists, else 0. */
  function ScratchPatchAddress(s: ScratchState, privateScratchSupported: bool): (address: nat)
    ensures s.scratchAllocation.None? && s.privateScratchAllocation.None? ==> address == 0
    ensures s.scratchAllocation.Some? || s.privateScratchAllocation.Some? ==>
              address == OffsetToSurfaceState(s.slotId, privateScratchSupported)
  {
    if s.scratchAllocation.Some? || s.privateScratchAllocation.Some? then
      OffsetToSurfaceState(s.slotId, privateScratchSupported)
    else
      0
  }

  // ---------------------------------------------------------------------------
  // State transitions
  // ---------------------------------------------------------------------------

  /** The slot update programSurfaceState makes before writing: one step when updateSlots is set. */
  function AdvanceSlot(s: ScratchState): (t: ScratchState)
    ensures t.slotId == (if s.updateSlots then s.slotId + 1 else s.slotId)
    ensures t == s.(slotId := t.slotId)
  {
    if s.updateSlots then s.(slotId := s.slotId + 1) else s
  }

  /**
   * setNewSshPtr's effect on the state: only when the heap changed and a scratch
   * allocation exists are the descriptors reprogrammed, from slot 0 when
   * `changeId` is set and from the current slot otherwise.
   */
  function NewSshState(s: ScratchState, heapChanged: bool, changeId: bool): (t: ScratchState)
    ensures !(heapChanged && s.scratchAllocation.Some?) ==> t == s
    ensures heapChanged && s.scratchAllocation.Some? && !changeId ==> t == AdvanceSlot(s)
    ensures heapChanged && s.scratchAllocation.Some? && changeId ==> t == AdvanceSlot(s.(slotId := 0))
  {
    if heapChanged && s.scratchAllocation.Some? then AdvanceSlot(if changeId then s.(slotId := 0) else s) else s
  }

  /** setNewSshPtr's cfeStateDirty: settled by the allocation when the heap changed, else untouched. */
  function NewSshDirty(s: ScratchState, heapChanged: bool, cfeStateDirty: bool): (dirty: bool)
    ensures heapChanged ==> (dirty <==> s.scratchAllocation.Some?)
    ensures !heapChanged ==> dirty == cfeStateDirty
  {
    if heapChanged then s.scratchAllocation.Some? else cfeStateDirty
  }

  /** A replaced allocation goes onto the temporary list, stamped with the current task count. */
  function ReleaseAllocation(allocation: Option<Allocation>, temporaries: seq<TemporaryAllocation>,
                             taskCount: nat): (released: seq<TemporaryAllocation>)
    ensures allocation.None? ==> released == temporaries
    ensures allocation.Some? ==> released == temporaries + [TemporaryAllocation(allocation.value, taskCount)]
  {
    if allocation.Some? then temporaries + [TemporaryAllocation(allocation.value, taskCount)] else temporaries
  }

  /** The GPU addresses of the allocations awaiting release. */
  function TemporaryAddresses(temporaries: seq<TemporaryAllocation>): (addresses: set<nat>)
    ensures forall i :: 0 <= i < |temporaries| ==> temporaries[i].allocation.gpuAddress in addresses
    ensures forall a :: a in addresses ==> exists i :: 0 <= i < |temporaries| && temporaries[i].allocation.gpuAddress == a
  {
    if temporaries == [] then {}
    else
      var init := temporaries[..|temporaries| - 1];
      var last := temporaries[|temporaries| - 1];
      var rest := TemporaryAddresses(init);
      assert forall i :: 0 <= i < |init| ==> init[i] == temporaries[i];
      rest + {last.allocation.gpuAddress}
  }

  lemma TemporaryAddressesSnoc(temporaries: seq<TemporaryAllocation>, t: TemporaryAllocation)
    ensures TemporaryAddresses(temporaries + [t]) == TemporaryAddresses(temporaries) + {t.allocation.gpuAddress}
  {
    assert (temporaries + [t])[..|temporaries|] == temporaries;
  }

  /** The GPU address of an allocation, if there is one. */
  function AddressOf(allocation: Option<Allocation>): set<nat>
  {
    if allocation.Some? then {allocation.value.gpuAddress} else {}
  }

  /** Every GPU address the controller still holds: its two allocations and those awaiting release. */
  function LiveAddresses(s: ScratchState): set<nat>
  {
    AddressOf(s.scratchAllocation) + AddressOf(s.privateScratchAllocation) + TemporaryAddresses(s.temporaryAllocations)
  }

  /**
   * What the memory manager guarantees of the allocations it creates for a request:
   * neither aliases an allocation the controller still holds, and the two differ.
   */
  predicate FreshAddresses(s: ScratchState, req: ScratchRequest)
  {
    && req.newScratchAddress !in LiveAddresses(s)
    && req.newPrivateScratchAddress !in LiveAddresses(s)
    && req.newScratchAddress != req.newPrivateScratchAddress
  }

  /** The current allocations alias neither each other nor an allocation awaiting release. */
  predicate DistinctLive(s: ScratchState)
  {
    && (s.scratchAllocation.Some? ==>
          s.scratchAllocation.value.gpuAddress !in TemporaryAddresses(s.temporaryAllocations))
    && (s.privateScratchAllocation.Some? ==>
          s.privateScratchAllocation.value.gpuAddress !in TemporaryAddresses(s.temporaryAllocations))
    && (s.scratchAllocation.Some? && s.privateScratchAllocation.Some? ==>
          s.scratchAllocation.value.gpuAddress != s.privateScratchAllocation.value.gpuAddress)
  }

  /** Bytes prepareScratchAllocation needs for a per-thread size. */
  function RequiredBytes(perThreadSize: nat, cfg: ScratchConfig): nat
  {
    AlignUp(perThreadSize) * cfg.computeUnitsUsedForScratch
  }

  predicate ScratchGrows(s: ScratchState, cfg: ScratchConfig, req: ScratchRequest)
  {
    s.scratchSizeBytes < RequiredBytes(req.requiredPerThreadScratchSize, cfg)
  }

  predicate PrivateGrows(s: ScratchState, cfg: ScratchConfig, req: ScratchRequest)
  {
    cfg.privateScratchSupported
    && s.privateScratchSizeBytes < RequiredBytes(req.requiredPerThreadPrivateScratchSize, cfg)
  }

  /** The scratchSurfaceDirty flag prepareScratchAllocation reports. */
  predicate SurfaceDirty(s: ScratchState, cfg: ScratchConfig, req: ScratchRequest)
  {
    ScratchGrows(s, cfg, req) || PrivateGrows(s, cfg, req)
  }

  /**
   * prepareScratchAllocation: each scratch class whose required byte count exceeds
   * the current one gets a new allocation of exactly that size; nothing else moves.
   */
  function PrepareScratch(s: ScratchState, cfg: ScratchConfig, req: ScratchRequest): (t: ScratchState)
    ensures t.slotId == s.slotId && t.updateSlots == s.updateSlots
    ensures ScratchGrows(s, cfg, req) ==>
              && t.perThreadScratchSize == AlignUp(req.requiredPerThreadScratchSize)
              && t.scratchSizeBytes == RequiredBytes(req.requiredPerThreadScratchSize, cfg)
              && t.scratchAllocation == Some(Allocation(req.newScratchAddress, t.scratchSizeBytes))
    ensures !ScratchGrows(s, cfg, req) ==>
              && t.perThreadScratchSize == s.perThreadScratchSize
              && t.scratchSizeBytes == s.scratchSizeBytes
              && t.scratchAllocation == s.scratchAllocation
    ensures PrivateGrows(s, cfg, req) ==>
              && t.perThreadPrivateScratchSize == AlignUp(req.requiredPerThreadPrivateScratchSize)
              && t.privateScratchSizeBytes == RequiredBytes(req.requiredPerThreadPrivateScratchSize, cfg)
              && t.privateScratchAllocation == Some(Allocation(req.newPrivateScratchAddress, t.privateScratchSizeBytes))
    ensures !PrivateGrows(s, cfg, req) ==>
              && t.perThreadPrivateScratchSize == s.perThreadPrivateScratchSize
              && t.privateScratchSizeBytes == s.privateScratchSizeBytes
              && t.privateScratchAllocation == s.privateScratchAllocation
    ensures t.temporaryAllocations ==
              ReleaseAllocation(if PrivateGrows(s, cfg, req) then s.privateScratchAllocation else None,
                                ReleaseAllocation(if ScratchGrows(s, cfg, req) then s.scratchAllocation else None,
                                                  s.temporaryAllocations, req.currentTaskCount),
                                req.currentTaskCount)
  {
    var bytes := RequiredBytes(req.requiredPerThreadScratchSize, cfg);
    var s1 :=
      if s.scratchSizeBytes < bytes then
        s.(temporaryAllocations := ReleaseAllocation(s.scratchAllocation, s.temporaryAllocations, req.currentTaskCount),
           scratchSizeBytes := bytes,
           perThreadScratchSize := AlignUp(req.requiredPerThreadScratchSize),
           scratchAllocation := Some(Allocation(req.newScratchAddress, bytes)))
      else s;
    var privateBytes := RequiredBytes(req.requiredPerThreadPrivateScratchSize, cfg);
    if cfg.privateScratchSupported && s1.privateScratchSizeBytes < privateBytes then
      s1.(temporaryAllocations := ReleaseAllocation(s1.privateScratchAllocation, s1.temporaryAllocations, req.currentTaskCount),
          privateScratchSizeBytes := privateBytes,
          perThreadPrivateScratchSize := AlignUp(req.requiredPerThreadPrivateScratchSize),
          privateScratchAllocation := Some(Allocation(req.newPrivateScratchAddress, privateBytes)))
    else s1
  }

  /** The slot the dirty path of setRequiredScratchSpace moves to: the explicit slot, or the next one. */
  function DirtySlot(s: ScratchState, scratchSlot: nat): (slot: nat)
    ensures scratchSlot != 0 ==> slot == scratchSlot
    ensures scratchSlot == 0 ==> slot == s.slotId + 1
  {
    if scratchSlot != 0 then scratchSlot else s.slotId + 1
  }

  /** State after setNewSshPtr (changeId iff no explicit slot) and prepareScratchAllocation. */
  function PreparedState(s: ScratchState, cfg: ScratchConfig, req: ScratchRequest, heapChanged: bool): ScratchState
  {
    PrepareScratch(NewSshState(s, heapChanged, req.scratchSlot == 0), cfg, req)
  }

  /**
   * setRequiredScratchSpace on the controller state: sizes never shrink, and a
   * request neither class grows by touches nothing the heap switch did not.
   */
  function RequireScratch(s: ScratchState, cfg: ScratchConfig, req: ScratchRequest, heapChanged: bool): (t: ScratchState)
    ensures t.scratchSizeBytes >= s.scratchSizeBytes && t.privateScratchSizeBytes >= s.privateScratchSizeBytes
    ensures !SurfaceDirty(NewSshState(s, heapChanged, req.scratchSlot == 0), cfg, req) ==>
              t == NewSshState(s, heapChanged, req.scratchSlot == 0)
    ensures SurfaceDirty(NewSshState(s, heapChanged, req.scratchSlot == 0), cfg, req) ==> t.updateSlots
  {
    var p := PreparedState(s, cfg, req, heapChanged);
    if SurfaceDirty(NewSshState(s, heapChanged, req.scratchSlot == 0), cfg, req) then
      p.(updateSlots := true, slotId := DirtySlot(p, req.scratchSlot))
    else p
  }

  /**
   * setRequiredScratchSpace's cfeStateDirty result: set by any growth and by a
   * heap switch with a scratch allocation, never cleared on the same heap, and
   * cleared only by a heap switch without a scratch allocation.
   */
  function RequireScratchDirty(s: ScratchState, cfg: ScratchConfig, req: ScratchRequest, heapChanged: bool,
                               cfeStateDirty: bool): (dirty: bool)
    ensures SurfaceDirty(NewSshState(s, heapChanged, req.scratchSlot == 0), cfg, req) ==> dirty
    ensures heapChanged && s.scratchAllocation.Some? ==> dirty
    ensures !heapChanged && cfeStateDirty ==> dirty
    ensures cfeStateDirty && !dirty ==> heapChanged && s.scratchAllocation.None?
  {
    SurfaceDirty(NewSshState(s, heapChanged, req.scratchSlot == 0), cfg, req)
    || NewSshDirty(s, heapChanged, cfeStateDirty)
  }

  /** Every slot setRequiredScratchSpace writes lies inside the ring and inside the heap. */
  predicate CanRequireScratch(s: ScratchState, cfg: ScratchConfig, req: ScratchRequest, heapChanged: bool,
                              heapLength: nat)
  {
    var mid := NewSshState(s, heapChanged, req.scratchSlot == 0);
    var slots := StateSlotsCount(cfg.privateScratchSupported);
    && (heapChanged && s.scratchAllocation.Some? ==> mid.slotId < slots && SlotFits(heapLength, mid.slotId, cfg))
    && (var t := RequireScratch(s, cfg, req, heapChanged); t.slotId < slots && SlotFits(heapLength, t.slotId, cfg))
  }

  /**
   * setRequiredScratchSpace on the new heap's contents: after a growth the
   * current slot describes the new allocations; with no growth and no
   * reprogramming after a heap switch the heap is untouched.
   */
  function RequireScratchHeap(heap: seq<SurfaceState>, s: ScratchState, cfg: ScratchConfig, req: ScratchRequest,
                              heapChanged: bool): (written: seq<SurfaceState>)
    requires cfg.computeUnitsUsedForScratch > 0
    requires CanRequireScratch(s, cfg, req, heapChanged, |heap|)
    ensures |written| == |heap|
    ensures SurfaceDirty(NewSshState(s, heapChanged, req.scratchSlot == 0), cfg, req) ==>
              SlotHolds(written, RequireScratch(s, cfg, req, heapChanged), cfg)
    ensures (!(heapChanged && s.scratchAllocation.Some?)
             && !SurfaceDirty(NewSshState(s, heapChanged, req.scratchSlot == 0), cfg, req)) ==> written == heap
  {
    var mid := NewSshState(s, heapChanged, req.scratchSlot == 0);
    var rewritten := if heapChanged && s.scratchAllocation.Some? then WriteSlot(heap, mid, cfg) else heap;
    if SurfaceDirty(mid, cfg, req) then WriteSlot(rewritten, RequireScratch(s, cfg, req, heapChanged), cfg)
    else rewritten
  }

  // ---------------------------------------------------------------------------
  // Properties of setRequiredScratchSpace
  // ---------------------------------------------------------------------------

  /** Sizes are aligned up to 64 and scaled by the compute units, and never shrink. */
  lemma RequireScratchSizes(s: ScratchState, cfg: ScratchConfig, req: ScratchRequest, heapChanged: bool)
    ensures var t := RequireScratch(s, cfg, req, heapChanged);
            && t.scratchSizeBytes >= s.scratchSizeBytes
            && t.scratchSizeBytes >= req.requiredPerThreadScratchSize * cfg.computeUnitsUsedForScratch
            && (t.scratchSizeBytes == if s.scratchSizeBytes < RequiredBytes(req.requiredPerThreadScratchSize, cfg)
                                      then RequiredBytes(req.requiredPerThreadScratchSize, cfg) else s.scratchSizeBytes)
            && t.privateScratchSizeBytes >= s.privateScratchSizeBytes
  {
    var cu := cfg.computeUnitsUsedForScratch;
    assert AlignUp(req.requiredPerThreadScratchSize) * cu >= req.requiredPerThreadScratchSize * cu by {
      MulMono(req.requiredPerThreadScratchSize, AlignUp(req.requiredPerThreadScratchSize), cu);
    }
  }

  lemma MulMono(a: nat, b: nat, c: nat)
    requires a <= b
    ensures a * c <= b * c
  {
  }

  /** setRequiredScratchSpace keeps the state consistent. */
  lemma RequireScratchConsistent(s: ScratchState, cfg: ScratchConfig, req: ScratchRequest, heapChanged: bool)
    requires Consistent(s, cfg)
    ensures Consistent(RequireScratch(s, cfg, req, heapChanged), cfg)
  {
    var mid := NewSshState(s, heapChanged, req.scratchSlot == 0);
    assert Consistent(mid, cfg);
    var p := PrepareScratch(mid, cfg, req);
    var cu := cfg.computeUnitsUsedForScratch;
    if ScratchGrows(mid, cfg, req) {
      assert p.scratchSizeBytes == AlignUp(req.requiredPerThreadScratchSize) * cu;
      assert p.scratchSizeBytes > 0;
    }
    if PrivateGrows(mid, cfg, req) {
      assert p.privateScratchSizeBytes == AlignUp(req.requiredPerThreadPrivateScratchSize) * cu;
      assert p.privateScratchSizeBytes > 0;
    }
    assert Consistent(p, cfg);
  }

  /**
   * With fresh addresses from the memory manager, prepareScratchAllocation keeps
   * the live allocations pairwise distinct, loses none of them (a replaced one
   * moves to the temporary list) and adds only the new ones.
   */
  lemma PrepareScratchKeepsAddresses(s: ScratchState, cfg: ScratchConfig, req: ScratchRequest)
    requires DistinctLive(s) && FreshAddresses(s, req)
    ensures var t := PrepareScratch(s, cfg, req);
            && DistinctLive(t)
            && LiveAddresses(s) <= LiveAddresses(t)
            && LiveAddresses(t) <= LiveAddresses(s) + {req.newScratchAddress, req.newPrivateScratchAddress}
  {
    var taskCount := req.currentTaskCount;
    var scratchReleased := if ScratchGrows(s, cfg, req) then s.scratchAllocation else None;
    var privateReleased := if PrivateGrows(s, cfg, req) then s.privateScratchAllocation else None;
    var temps1 := ReleaseAllocation(scratchReleased, s.temporaryAllocations, taskCount);
    ReleaseAddresses(scratchReleased, s.temporaryAllocations, taskCount);
    ReleaseAddresses(privateReleased, temps1, taskCount);
    var t := PrepareScratch(s, cfg, req);
    assert TemporaryAddresses(t.temporaryAllocations)
           == TemporaryAddresses(s.temporaryAllocations) + AddressOf(scratchReleased) + AddressOf(privateReleased);
  }

  /** Releasing an allocation adds exactly its address to those awaiting release. */
  lemma ReleaseAddresses(allocation: Option<Allocation>, temporaries: seq<TemporaryAllocation>, taskCount: nat)
    ensures TemporaryAddresses(ReleaseAllocation(allocation, temporaries, taskCount))
            == TemporaryAddresses(temporaries) + AddressOf(allocation)
  {
    if allocation.Some? {
      TemporaryAddressesSnoc(temporaries, TemporaryAllocation(allocation.value, taskCount));
    }
  }

  /** The same for all of setRequiredScratchSpace, which moves only the slot besides. */
  lemma RequireScratchKeepsAddresses(s: ScratchState, cfg: ScratchConfig, req: ScratchRequest, heapChanged: bool)
    requires DistinctLive(s) && FreshAddresses(s, req)
    ensures var t := RequireScratch(s, cfg, req, heapChanged);
            && DistinctLive(t)
            && LiveAddresses(s) <= LiveAddresses(t)
            && LiveAddresses(t) <= LiveAddresses(s) + {req.newScratchAddress, req.newPrivateScratchAddress}
  {
    var mid := NewSshState(s, heapChanged, req.scratchSlot == 0);
    assert mid == s.(slotId := mid.slotId, updateSlots := mid.updateSlots);
    PrepareScratchKeepsAddresses(mid, cfg, req);
  }

  /**
   * A strictly larger request with no explicit slot, on the same heap: the slot
   * advances by exactly one, cfeStateDirty is set, the new allocation has the
   * memory manager's fresh address (so differs from the old one, which is still
   * live on the temporary list), and the new slot's descriptor points at it.
   */
  lemma BiggerScratchReplacesAllocation(s: ScratchState, cfg: ScratchConfig, req: ScratchRequest,
                                        heap: seq<SurfaceState>, cfeStateDirty: bool)
    requires cfg.computeUnitsUsedForScratch > 0
    requires req.scratchSlot == 0
    requires s.scratchSizeBytes < RequiredBytes(req.requiredPerThreadScratchSize, cfg)
    requires FreshAddresses(s, req)
    requires CanRequireScratch(s, cfg, req, false, |heap|)
    ensures var t := RequireScratch(s, cfg, req, false);
            && t.slotId == s.slotId + 1
            && t.updateSlots
            && RequireScratchDirty(s, cfg, req, false, cfeStateDirty)
            && t.scratchAllocation.Some?
            && t.scratchAllocation.value.gpuAddress == req.newScratchAddress
            && (s.scratchAllocation.Some? ==> t.scratchAllocation.value.gpuAddress != s.scratchAllocation.value.gpuAddress)
            && (s.scratchAllocation.Some? ==>
                  TemporaryAllocation(s.scratchAllocation.value, req.currentTaskCount) in t.temporaryAllocations)
            && RequireScratchHeap(heap, s, cfg, req, false)[DescriptorIndex(t.slotId, cfg.privateScratchSupported)]
                 .surfaceBaseAddress == req.newScratchAddress
  {
    var t := RequireScratch(s, cfg, req, false);
    assert NewSshState(s, false, true) == s;
    assert ScratchGrows(s, cfg, req);
    if s.scratchAllocation.Some? {
      var rel := ReleaseAllocation(s.scratchAllocation, s.temporaryAllocations, req.currentTaskCount);
      assert rel[|rel| - 1] == TemporaryAllocation(s.scratchAllocation.value, req.currentTaskCount);
      assert TemporaryAllocation(s.scratchAllocation.value, req.currentTaskCount) in rel;
      if PrivateGrows(s, cfg, req) {
        var rel2 := ReleaseAllocation(s.privateScratchAllocation, rel, req.currentTaskCount);
        assert rel2[|rel| - 1] == rel[|rel| - 1];
      }
    }
  }

  /**
   * The private counterpart: with private scratch, a strictly larger private
   * request with no explicit slot, on the same heap, advances the slot by one
   * (so the private descriptor moves from index 2 * slot + 1 to 2 * slot + 3),
   * sets cfeStateDirty, and gives the private class the memory manager's fresh
   * address, different from the replaced one, which is queued for release.
   */
  lemma BiggerPrivateScratchReplacesAllocation(s: ScratchState, cfg: ScratchConfig, req: ScratchRequest,
                                               heap: seq<SurfaceState>, cfeStateDirty: bool)
    requires cfg.computeUnitsUsedForScratch > 0 && cfg.privateScratchSupported
    requires req.scratchSlot == 0
    requires s.privateScratchSizeBytes < RequiredBytes(req.requiredPerThreadPrivateScratchSize, cfg)
    requires FreshAddresses(s, req)
    requires CanRequireScratch(s, cfg, req, false, |heap|)
    ensures var t := RequireScratch(s, cfg, req, false);
            && t.slotId == s.slotId + 1
            && t.updateSlots
            && RequireScratchDirty(s, cfg, req, false, cfeStateDirty)
            && t.privateScratchAllocation.Some?
            && t.privateScratchAllocation.value.gpuAddress == req.newPrivateScratchAddress
            && (s.privateScratchAllocation.Some? ==>
                  && t.privateScratchAllocation.value.gpuAddress != s.privateScratchAllocation.value.gpuAddress
                  && TemporaryAllocation(s.privateScratchAllocation.value, req.currentTaskCount)
                       == t.temporaryAllocations[|t.temporaryAllocations| - 1])
            && DescriptorIndex(t.slotId, true) + 1 == 2 * s.slotId + 3
            && RequireScratchHeap(heap, s, cfg, req, false)[DescriptorIndex(t.slotId, true) + 1]
                 .surfaceBaseAddress == req.newPrivateScratchAddress
  {
    assert NewSshState(s, false, true) == s;
    assert PrivateGrows(s, cfg, req);
  }

  /**
   * Re-requesting sizes that fit, on the same heap: nothing is allocated, the slot
   * and descriptors stay, and cfeStateDirty keeps the caller's value.
   */
  lemma SameSizeKeepsState(s: ScratchState, cfg: ScratchConfig, req: ScratchRequest, heap: seq<SurfaceState>,
                           cfeStateDirty: bool)
    requires cfg.computeUnitsUsedForScratch > 0
    requires RequiredBytes(req.requiredPerThreadScratchSize, cfg) <= s.scratchSizeBytes
    requires cfg.privateScratchSupported ==>
               RequiredBytes(req.requiredPerThreadPrivateScratchSize, cfg) <= s.privateScratchSizeBytes
    requires CanRequireScratch(s, cfg, req, false, |heap|)
    ensures RequireScratch(s, cfg, req, false) == s
    ensures RequireScratchHeap(heap, s, cfg, req, false) == heap
    ensures RequireScratchDirty(s, cfg, req, false, cfeStateDirty) == cfeStateDirty
  {
    assert NewSshState(s, false, req.scratchSlot == 0) == s;
    assert !SurfaceDirty(s, cfg, req);
  }

  /** On the dirty path an explicit non-zero slot is taken exactly, and updateSlots is set. */
  lemma ExplicitSlotIsTaken(s: ScratchState, cfg: ScratchConfig, req: ScratchRequest, heapChanged: bool)
    requires req.scratchSlot != 0
    requires SurfaceDirty(s, cfg, req)
    ensures RequireScratch(s, cfg, req, heapChanged).slotId == req.scratchSlot
    ensures RequireScratch(s, cfg, req, heapChanged).updateSlots
  {
    var mid := NewSshState(s, heapChanged, false);
    assert mid.scratchSizeBytes == s.scratchSizeBytes && mid.privateScratchSizeBytes == s.privateScratchSizeBytes;
    assert SurfaceDirty(mid, cfg, req);
  }

  /** With private scratch unsupported a private size is ignored: no private allocation, size stays 0. */
  lemma PrivateDisabledIgnoresPrivateSize(s: ScratchState, cfg: ScratchConfig, req: ScratchRequest, heapChanged: bool)
    requires !cfg.privateScratchSupported
    requires Consistent(s, cfg)
    ensures RequireScratch(s, cfg, req, heapChanged).privateScratchSizeBytes == 0
    ensures RequireScratch(s, cfg, req, heapChanged).privateScratchAllocation.None?
  {
  }

  /**
   * A new heap while a scratch allocation exists: the heap changes, cfeStateDirty is
   * set, and with a fitting size and no explicit slot the slot restarts from 0 and
   * advances to 1 (updateSlots set), the allocation is kept, and the descriptor is
   * rewritten into the new heap at that slot.
   */
  lemma NewHeapRewritesDescriptor(s: ScratchState, cfg: ScratchConfig, req: ScratchRequest,
                                  heap: seq<SurfaceState>, cfeStateDirty: bool)
    requires cfg.computeUnitsUsedForScratch > 0
    requires s.scratchAllocation.Some? && s.updateSlots
    requires req.scratchSlot == 0
    requires RequiredBytes(req.requiredPerThreadScratchSize, cfg) <= s.scratchSizeBytes
    requires cfg.privateScratchSupported ==>
               RequiredBytes(req.requiredPerThreadPrivateScratchSize, cfg) <= s.privateScratchSizeBytes
    requires CanRequireScratch(s, cfg, req, true, |heap|)
    ensures var t := RequireScratch(s, cfg, req, true);
            && t.slotId == 1
            && t.scratchAllocation == s.scratchAllocation
            && RequireScratchDirty(s, cfg, req, true, cfeStateDirty)
            && SlotHolds(RequireScratchHeap(heap, s, cfg, req, true), t, cfg)
            && RequireScratchHeap(heap, s, cfg, req, true)[DescriptorIndex(1, cfg.privateScratchSupported)]
                 .surfaceBaseAddress == s.scratchAllocation.value.gpuAddress
  {
    var mid := NewSshState(s, true, true);
    assert mid == s.(slotId := 1);
    assert !SurfaceDirty(mid, cfg, req);
  }

  /** A new heap while no scratch allocation exists: cfeStateDirty stays false when nothing grows. */
  lemma NewHeapWithoutAllocationIsClean(s: ScratchState, cfg: ScratchConfig, req: ScratchRequest, cfeStateDirty: bool)
    requires s.scratchAllocation.None?
    requires !SurfaceDirty(s, cfg, req)
    ensures !RequireScratchDirty(s, cfg, req, true, cfeStateDirty)
    ensures RequireScratch(s, cfg, req, true) == s
  {
  }

  /** After any request that dirtied the surface the patch address is non-zero. */
  lemma PatchAddressNonZeroAfterAllocation(s: ScratchState, cfg: ScratchConfig, req: ScratchRequest, heapChanged: bool)
    requires SurfaceDirty(NewSshState(s, heapChanged, req.scratchSlot == 0), cfg, req)
    ensures ScratchPatchAddress(RequireScratch(s, cfg, req, heapChanged), cfg.privateScratchSupported) > 0
  {
    var t := RequireScratch(s, cfg, req, heapChanged);
    var mid := NewSshState(s, heapChanged, req.scratchSlot == 0);
    if ScratchGrows(mid, cfg, req) {
      assert t.scratchAllocation.Some?;
    } else {
      assert t.privateScratchAllocation.Some?;
    }
    assert t.slotId >= 1;
    assert OffsetToSurfaceState(t.slotId, cfg.privateScratchSupported) >= SurfaceStateSize;
  }

  // ---------------------------------------------------------------------------
  // Sequences of requests
  // ---------------------------------------------------------------------------

  /** Plain per-thread scratch requests (no explicit slot, no private scratch, same heap). */
  function ScratchRequestFor(size: nat, taskCount: nat, address: nat): ScratchRequest
  {
    ScratchRequest(0, size, 0, taskCount, address, 0)
  }

  /** setRequiredScratchSpace applied to `sizes` in turn on the same heap. */
  function RequireAll(s: ScratchState, cfg: ScratchConfig, sizes: seq<nat>, addresses: seq<nat>): ScratchState
    requires |addresses| == |sizes|
    decreases |sizes|
  {
    if |sizes| == 0 then s
    else RequireAll(RequireScratch(s, cfg, ScratchRequestFor(sizes[0], 0, addresses[0]), false), cfg,
                    sizes[1..], addresses[1..])
  }

  /** Each size needs strictly more bytes than the one before (and the first more than `start`). */
  predicate StrictlyGrowing(start: nat, sizes: seq<nat>, cfg: ScratchConfig)
  {
    && (|sizes| > 0 ==> start < RequiredBytes(sizes[0], cfg))
    && forall k :: 0 < k < |sizes| ==> RequiredBytes(sizes[k - 1], cfg) < RequiredBytes(sizes[k], cfg)
  }

  /**
   * Strictly growing requests advance the slot once per request, and leave the
   * scratch size at the last request's byte count.
   */
  lemma {:induction false} GrowingRequestsAdvanceSlot(s: ScratchState, cfg: ScratchConfig, sizes: seq<nat>,
                                                      addresses: seq<nat>)
    requires |addresses| == |sizes| && |sizes| > 0
    requires StrictlyGrowing(s.scratchSizeBytes, sizes, cfg)
    ensures RequireAll(s, cfg, sizes, addresses).slotId == s.slotId + |sizes|
    ensures RequireAll(s, cfg, sizes, addresses).scratchSizeBytes == RequiredBytes(sizes[|sizes| - 1], cfg)
    decreases |sizes|
  {
    var req := ScratchRequestFor(sizes[0], 0, addresses[0]);
    var t := RequireScratch(s, cfg, req, false);
    assert NewSshState(s, false, true) == s;
    assert ScratchGrows(s, cfg, req);
    assert t.slotId == s.slotId + 1;
    assert t.scratchSizeBytes == RequiredBytes(sizes[0], cfg);
    if |sizes| > 1 {
      assert StrictlyGrowing(t.scratchSizeBytes, sizes[1..], cfg) by {
        assert RequiredBytes(sizes[0], cfg) < RequiredBytes(sizes[1], cfg);
        forall k | 0 < k < |sizes[1..]|
          ensures RequiredBytes(sizes[1..][k - 1], cfg) < RequiredBytes(sizes[1..][k], cfg)
        {
          assert sizes[1..][k] == sizes[k + 1] && sizes[1..][k - 1] == sizes[k];
        }
      }
      GrowingRequestsAdvanceSlot(t, cfg, sizes[1..], addresses[1..]);
      assert sizes[1..][|sizes[1..]| - 1] == sizes[|sizes| - 1];
    }
  }

  /**
   * Growth is measured after alignment: per-thread sizes 1 and then 2 both need 64
   * bytes per thread, so the second request neither allocates nor moves the slot.
   */
  lemma AlignedSizesDoNotGrow(cfg: ScratchConfig)
    requires cfg.computeUnitsUsedForScratch > 0
    ensures var first := RequireScratch(InitialState, cfg, ScratchRequestFor(1, 0, 0x1000), false);
            var second := RequireScratch(first, cfg, ScratchRequestFor(2, 0, 0x2000), false);
            && first.slotId == 1 && first.perThreadScratchSize == 64
            && second == first
  {
    var r1 := ScratchRequestFor(1, 0, 0x1000);
    var r2 := ScratchRequestFor(2, 0, 0x2000);
    assert AlignUp(1) == 64 && AlignUp(2) == 64;
    assert NewSshState(InitialState, false, true) == InitialState;
    assert ScratchGrows(InitialState, cfg, r1);
    var first := RequireScratch(InitialState, cfg, r1, false);
    assert NewSshState(first, false, true) == first;
    assert !SurfaceDirty(first, cfg, r2);
  }

  /**
   * The growth sequence of the replace-allocation test: from slot 6, per-thread
   * sizes 0x1000 then 0x2000 give slots 7 and 8 and patch addresses 7 * 128 and 8 * 128.
   */
  lemma ReplaceAllocationScenario(cu: nat)
    requires cu > 0
    ensures var cfg := ScratchConfig(cu, true);
            var s0 := InitialState.(slotId := 6);
            var s1 := RequireScratch(s0, cfg, ScratchRequestFor(0x1000, 0, 0x1_0000), false);
            var s2 := RequireScratch(s1, cfg, ScratchRequestFor(0x2000, 0, 0x2_0000), false);
            && s1.slotId == 7 && ScratchPatchAddress(s1, true) == 896
            && s2.slotId == 8 && ScratchPatchAddress(s2, true) == 1024
            && s2.scratchAllocation.value.gpuAddress != s1.scratchAllocation.value.gpuAddress
  {
    var cfg := ScratchConfig(cu, true);
    var s0 := InitialState.(slotId := 6);
    assert AlignUp(0x1000) == 0x1000 && AlignUp(0x2000) == 0x2000;
    var r1 := ScratchRequestFor(0x1000, 0, 0x1_0000);
    assert NewSshState(s0, false, true) == s0;
    assert ScratchGrows(s0, cfg, r1);
    var s1 := RequireScratch(s0, cfg, r1, false);
    assert s1.scratchSizeBytes == 0x1000 * cu;
    var r2 := ScratchRequestFor(0x2000, 0, 0x2_0000);
    assert NewSshState(s1, false, true) == s1;
    assert ScratchGrows(s1, cfg, r2);
  }

  /**
   * The only-private-scratch test: with private scratch, a private request alone
   * creates only the private allocation and the patch address is 2 * 64 (slot 1),
   * and its descriptor lands at heap index 3.
   */
  lemma OnlyPrivateScratchScenario(cu: nat, heap: seq<SurfaceState>)
    requires cu > 0 && |heap| == 6
    ensures var cfg := ScratchConfig(cu, true);
            var req := ScratchRequest(0, 0, 0x1000, 0, 0, 0x3_0000);
            var t := RequireScratch(InitialState, cfg, req, false);
            && t.scratchAllocation.None? && t.privateScratchAllocation.Some?
            && ScratchPatchAddress(t, true) == 2 * SurfaceStateSize
            && CanRequireScratch(InitialState, cfg, req, false, |heap|)
            && RequireScratchHeap(heap, InitialState, cfg, req, false)[3].surfaceBaseAddress == 0x3_0000
            && RequireScratchHeap(heap, InitialState, cfg, req, false)[2].surfaceBaseAddress == 0
  {
    var cfg := ScratchConfig(cu, true);
    var req := ScratchRequest(0, 0, 0x1000, 0, 0, 0x3_0000);
    assert AlignUp(0) == 0 && AlignUp(0x1000) == 0x1000;
    assert NewSshState(InitialState, false, true) == InitialState;
    assert !ScratchGrows(InitialState, cfg, req);
    assert PrivateGrows(InitialState, cfg, req);
  }

  // ---------------------------------------------------------------------------
  // The controller
  // ---------------------------------------------------------------------------

  class ScratchSpaceController {
    const computeUnitsUsedForScratch: nat
    const privateScratchSupported: bool
    const stateSlotsCount: nat

    var slotId: nat
    var updateSlots: bool
    var perThreadScratchSize: nat
    var scratchSizeBytes: nat
    var scratchAllocation: Option<Allocation>
    var perThreadPrivateScratchSize: nat
    var privateScratchSizeBytes: nat
    var privateScratchAllocation: Option<Allocation>
    /** The CSR's temporary-allocation storage, where replaced allocations go. */
    var temporaryAllocations: seq<TemporaryAllocation>
    var surfaceStateHeap: array?<SurfaceState>

    function Config(): ScratchConfig
    {
      ScratchConfig(computeUnitsUsedForScratch, privateScratchSupported)
    }

    function State(): ScratchState
      reads this
    {
      ScratchState(slotId, updateSlots, perThreadScratchSize, scratchSizeBytes, scratchAllocation,
                   perThreadPrivateScratchSize, privateScratchSizeBytes, privateScratchAllocation,
                   temporaryAllocations)
    }

    ghost predicate Valid()
      reads this
    {
      && computeUnitsUsedForScratch > 0
      && stateSlotsCount == StateSlotsCount(privateScratchSupported)
      && Consistent(State(), Config())
      && DistinctLive(State())
    }

    function GetScratchPatchAddress(): (address: nat)
      reads this
      ensures scratchAllocation.None? && privateScratchAllocation.None? ==> address == 0
      ensures scratchAllocation.Some? || privateScratchAllocation.Some? ==>
                address == slotId * SurfaceStateSize * (if privateScratchSupported then 2 else 1)
    {
      ScratchPatchAddress(State(), privateScratchSupported)
    }

    function GetOffsetToSurfaceState(requiredSlotCount: nat): (offset: nat)
      ensures offset == requiredSlotCount * SurfaceStateSize * (if privateScratchSupported then 2 else 1)
    {
      OffsetToSurfaceState(requiredSlotCount, privateScratchSupported)
    }

    constructor (computeUnits: nat, enablePrivateScratchSlot1: int, platformSupportsPrivateScratch: bool)
      requires computeUnits > 0
      ensures Valid()
      ensures privateScratchSupported == PrivateScratchSupported(enablePrivateScratchSlot1, platformSupportsPrivateScratch)
      ensures stateSlotsCount == (if privateScratchSupported then 32 else 16)
      ensures State() == InitialState && surfaceStateHeap == null
    {
      computeUnitsUsedForScratch := computeUnits;
      var supported := PrivateScratchSupported(enablePrivateScratchSlot1, platformSupportsPrivateScratch);
      privateScratchSupported := supported;
      stateSlotsCount := StateSlotsCount(supported);
      slotId := 0;
      updateSlots := true;
      perThreadScratchSize := 0;
      scratchSizeBytes := 0;
      scratchAllocation := None;
      perThreadPrivateScratchSize := 0;
      privateScratchSizeBytes := 0;
      privateScratchAllocation := None;
      temporaryAllocations := [];
      surfaceStateHeap := null;
    }

    /**
     * programSurfaceState: advance the slot when updateSlots is set, then write the
     * slot's descriptors into the current heap.
     */
    method ProgramSurfaceState()
      requires Valid() && surfaceStateHeap != null
      requires AdvanceSlot(State()).slotId < stateSlotsCount
      requires SlotFits(surfaceStateHeap.Length, AdvanceSlot(State()).slotId, Config())
      modifies this, surfaceStateHeap
      ensures Valid() && surfaceStateHeap == old(surfaceStateHeap)
      ensures State() == AdvanceSlot(old(State()))
      ensures surfaceStateHeap[..] == WriteSlot(old(surfaceStateHeap[..]), State(), Config())
    {
      if updateSlots {
        slotId := slotId + 1;
      }
      var idx := DescriptorIndex(slotId, privateScratchSupported);
      surfaceStateHeap[idx] := ScratchSurfaceState(scratchAllocation, perThreadScratchSize, computeUnitsUsedForScratch);
      if privateScratchSupported {
        surfaceStateHeap[idx + 1] :=
          ScratchSurfaceState(privateScratchAllocation, perThreadPrivateScratchSize, computeUnitsUsedForScratch);
      }
    }

    /**
     * setNewSshPtr: a different heap replaces the current one; if a scratch
     * allocation exists its descriptors are programmed into the new heap and
     * cfeStateDirty is set, otherwise cfeStateDirty is cleared.
     */
    method SetNewSshPtr(newSsh: array<SurfaceState>, cfeStateDirty: bool, changeId: bool) returns (cfeDirty: bool)
      requires Valid()
      requires var mid := NewSshState(State(), surfaceStateHeap != newSsh, changeId);
               surfaceStateHeap != newSsh && scratchAllocation.Some? ==>
                 mid.slotId < stateSlotsCount && SlotFits(newSsh.Length, mid.slotId, Config())
      modifies this, newSsh
      ensures Valid() && surfaceStateHeap == newSsh
      ensures State() == NewSshState(old(State()), old(surfaceStateHeap) != newSsh, changeId)
      ensures cfeDirty == NewSshDirty(old(State()), old(surfaceStateHeap) != newSsh, cfeStateDirty)
      ensures newSsh[..] == if old(surfaceStateHeap) != newSsh && old(scratchAllocation).Some?
                            then WriteSlot(old(newSsh[..]), State(), Config()) else old(newSsh[..])
    {
      cfeDirty := cfeStateDirty;
      if surfaceStateHeap != newSsh {
        surfaceStateHeap := newSsh;
        if scratchAllocation.None? {
          cfeDirty := false;
        } else {
          if changeId {
            slotId := 0;
          }
          ProgramSurfaceState();
          cfeDirty := true;
        }
      }
    }

    /** prepareScratchAllocation; returns scratchSurfaceDirty. */
    method PrepareScratchAllocation(req: ScratchRequest) returns (scratchSurfaceDirty: bool)
      requires Valid() && FreshAddresses(State(), req)
      modifies this
      ensures Valid() && surfaceStateHeap == old(surfaceStateHeap)
      ensures State() == PrepareScratch(old(State()), Config(), req)
      ensures scratchSurfaceDirty == SurfaceDirty(old(State()), Config(), req)
    {
      ghost var before := State();
      var alignedSize := AlignUp(req.requiredPerThreadScratchSize);
      var requiredBytes := alignedSize * computeUnitsUsedForScratch;
      scratchSurfaceDirty := false;
      if scratchSizeBytes < requiredBytes {
        temporaryAllocations := ReleaseAllocation(scratchAllocation, temporaryAllocations, req.currentTaskCount);
        scratchSurfaceDirty := true;
        scratchSizeBytes := requiredBytes;
        perThreadScratchSize := alignedSize;
        scratchAllocation := Some(Allocation(req.newScratchAddress, requiredBytes));
      }
      if privateScratchSupported {
        var alignedPrivateSize := AlignUp(req.requiredPerThreadPrivateScratchSize);
        var requiredPrivateBytes := alignedPrivateSize * computeUnitsUsedForScratch;
        if privateScratchSizeBytes < requiredPrivateBytes {
          temporaryAllocations :=
            ReleaseAllocation(privateScratchAllocation, temporaryAllocations, req.currentTaskCount);
          scratchSurfaceDirty := true;
          privateScratchSizeBytes := requiredPrivateBytes;
          perThreadPrivateScratchSize := alignedPrivateSize;
          privateScratchAllocation := Some(Allocation(req.newPrivateScratchAddress, requiredPrivateBytes));
        }
      }
      assert State() == PrepareScratch(before, Config(), req);
      RequireScratchConsistent(before, Config(), req, false);
      PrepareScratchKeepsAddresses(before, Config(), req);
      assert NewSshState(before, false, req.scratchSlot == 0) == before;
    }

    /**
     * The dirty path of setRequiredScratchSpace: move to the explicit slot, or
     * advance by one, and program the descriptors there.
     */
    method ProgramDirtySlot(scratchSlot: nat)
      requires Valid() && surfaceStateHeap != null
      requires DirtySlot(State(), scratchSlot) < stateSlotsCount
      requires SlotFits(surfaceStateHeap.Length, DirtySlot(State(), scratchSlot), Config())
      modifies this, surfaceStateHeap
      ensures Valid() && surfaceStateHeap == old(surfaceStateHeap)
      ensures State() == old(State()).(updateSlots := true, slotId := DirtySlot(old(State()), scratchSlot))
      ensures surfaceStateHeap[..] == WriteSlot(old(surfaceStateHeap[..]), State(), Config())
    {
      if scratchSlot != 0 {
        slotId := scratchSlot;
        updateSlots := false;
      } else {
        updateSlots := true;
      }
      ProgramSurfaceState();
      updateSlots := true;
    }

    /**
     * setRequiredScratchSpace: adopt the heap, grow the allocations as needed and,
     * if either grew, move to the next (or the explicit) slot and program it.
     * Returns the new cfeStateDirty.
     */
    method SetRequiredScratchSpace(ssh: array<SurfaceState>, req: ScratchRequest, cfeStateDirty: bool)
      returns (cfeDirty: bool)
      requires Valid() && FreshAddresses(State(), req)
      requires CanRequireScratch(State(), Config(), req, surfaceStateHeap != ssh, ssh.Length)
      modifies this, ssh
      ensures Valid() && surfaceStateHeap == ssh
      ensures State() == RequireScratch(old(State()), Config(), req, old(surfaceStateHeap) != ssh)
      ensures cfeDirty == RequireScratchDirty(old(State()), Config(), req, old(surfaceStateHeap) != ssh, cfeStateDirty)
      ensures ssh[..] == RequireScratchHeap(old(ssh[..]), old(State()), Config(), req, old(surfaceStateHeap) != ssh)
    {
      ghost var s0 := State();
      ghost var heapChanged := surfaceStateHeap != ssh;
      cfeDirty := SetNewSshPtr(ssh, cfeStateDirty, req.scratchSlot == 0);
      ghost var mid := State();
      ghost var midHeap := ssh[..];
      assert mid == NewSshState(s0, heapChanged, req.scratchSlot == 0);
      assert midHeap == if heapChanged && s0.scratchAllocation.Some? then WriteSlot(old(ssh[..]), mid, Config())
                        else old(ssh[..]);
      assert LiveAddresses(mid) == LiveAddresses(s0);
      var scratchSurfaceDirty := PrepareScratchAllocation(req);
      assert State() == PreparedState(s0, Config(), req, heapChanged);
      assert scratchSurfaceDirty == SurfaceDirty(mid, Config(), req);
      RequireScratchConsistent(s0, Config(), req, heapChanged);
      if scratchSurfaceDirty {
        cfeDirty := true;
        ProgramDirtySlot(req.scratchSlot);
      }
    }

    /** One further heap of programHeaps: the same slot, programmed into `heap`. */
    method ProgramSurfaceStateInto(heap: array<SurfaceState>)
      requires Valid() && slotId < stateSlotsCount && SlotFits(heap.Length, slotId, Config())
      modifies this, heap
      ensures Valid() && surfaceStateHeap == heap
      ensures State() == old(State()).(updateSlots := false)
      ensures heap[..] == WriteSlot(old(heap[..]), State(), Config())
    {
      surfaceStateHeap := heap;
      updateSlots := false;
      ProgramSurfaceState();
    }

    /** The loop of programHeaps: every heap after the first gets the current slot's descriptors. */
    method ProgramFurtherHeaps(heaps: seq<array<SurfaceState>>)
      requires Valid() && |heaps| >= 1 && slotId < stateSlotsCount
      requires forall i :: 1 <= i < |heaps| ==> SlotFits(heaps[i].Length, slotId, Config())
      modifies this, heaps
      ensures Valid()
      ensures |heaps| == 1 ==> State() == old(State()) && surfaceStateHeap == old(surfaceStateHeap)
      ensures |heaps| > 1 ==> State() == old(State()).(updateSlots := false) && surfaceStateHeap == heaps[|heaps| - 1]
      ensures forall i :: 1 <= i < |heaps| ==> SlotHolds(heaps[i][..], State(), Config())
      ensures forall i :: 0 <= i < |heaps| ==> UnchangedOutsideSlot(heaps[i][..], old(heaps[i][..]), slotId, Config())
      ensures forall i :: 0 <= i < |heaps| && heaps[i] !in heaps[1..] ==> heaps[i][..] == old(heaps[i][..])
    {
      ghost var target := State();
      var i := 1;
      while i < |heaps|
        invariant 1 <= i <= |heaps|
        invariant Valid()
        invariant i == 1 ==> State() == target && surfaceStateHeap == old(surfaceStateHeap)
        invariant i > 1 ==> State() == target.(updateSlots := false) && surfaceStateHeap == heaps[i - 1]
        invariant forall j :: 1 <= j < i ==> SlotHolds(heaps[j][..], target, Config())
        invariant forall j :: 0 <= j < |heaps| ==> UnchangedOutsideSlot(heaps[j][..], old(heaps[j][..]), target.slotId, Config())
        invariant forall j :: 0 <= j < |heaps| && heaps[j] !in heaps[1..i] ==> heaps[j][..] == old(heaps[j][..])
        modifies this, heaps
      {
        ghost var before := heaps[i][..];
        ProgramSurfaceStateInto(heaps[i]);
        forall j | 0 <= j < |heaps| && heaps[j] == heaps[i]
          ensures UnchangedOutsideSlot(heaps[j][..], old(heaps[j][..]), target.slotId, Config())
        {
          UnchangedOutsideSlotTrans(heaps[j][..], before, old(heaps[j][..]), target.slotId, Config());
        }
        i := i + 1;
      }
    }

    /**
     * programHeaps: setRequiredScratchSpace on the first heap, then the same
     * descriptors (without moving the slot) into each further heap.
     */
    method ProgramHeaps(heaps: seq<array<SurfaceState>>, req: ScratchRequest, cfeStateDirty: bool)
      returns (cfeDirty: bool)
      requires Valid() && |heaps| >= 1 && FreshAddresses(State(), req)
      requires CanRequireScratch(State(), Config(), req, surfaceStateHeap != heaps[0], heaps[0].Length)
      requires forall i :: 1 <= i < |heaps| ==>
                 SlotFits(heaps[i].Length, RequireScratch(State(), Config(), req, surfaceStateHeap != heaps[0]).slotId,
                          Config())
      modifies this, heaps
      ensures Valid() && surfaceStateHeap == heaps[|heaps| - 1]
      ensures State() == RequireScratch(old(State()), Config(), req, old(surfaceStateHeap) != heaps[0]).(updateSlots := true)
      ensures cfeDirty == RequireScratchDirty(old(State()), Config(), req, old(surfaceStateHeap) != heaps[0], cfeStateDirty)
      ensures forall i :: 1 <= i < |heaps| ==> SlotHolds(heaps[i][..], State(), Config())
      ensures forall i :: 0 <= i < |heaps| && heaps[i] != heaps[0] ==>
                UnchangedOutsideSlot(heaps[i][..], old(heaps[i][..]), slotId, Config())
      ensures heaps[0] !in heaps[1..] ==>
                heaps[0][..] == RequireScratchHeap(old(heaps[0][..]), old(State()), Config(), req,
                                                   old(surfaceStateHeap) != heaps[0])
    {
      cfeDirty := SetRequiredScratchSpace(heaps[0], req, cfeStateDirty);
      ProgramFurtherHeaps(heaps);
      updateSlots := true;
    }
  }
}
