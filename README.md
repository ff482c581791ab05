# Command-stream receiver residency and scratch space, in Dafny

This project models parts of the Intel compute runtime (NEO) that sit around
the command-stream receiver (CSR). The CSR is the object that builds command
buffers and hands them to the kernel-mode driver.

- **XeHP scratch-space controller** (`scratch_space.dfy`). The controller owns
  a scratch allocation and a private-scratch allocation. Each is
  `alignUp(perThreadSize, 64) * computeUnitsUsedForScratch` bytes, and each is
  replaced only by a strictly larger one. The replaced allocation goes to the
  CSR's temporary list. The controller programs the allocations'
  RENDER_SURFACE_STATE descriptors into a ring of slots in the surface-state
  heap:
  - there are 16 slots, each with one descriptor;
  - with private scratch there are 32 slots, each with two descriptors.

  The class `ScratchSpaceController` keeps the heap as an `array` and updates
  it in place. Each method is proved against a pure function on the
  controller state (`RequireScratch`, `RequireScratchHeap`, `NewSshState`,
  `AdvanceSlot`, …). The properties the tests assert are lemmas about those
  functions.
- **WDDM memory-manager residency bookkeeping** (`wddm_residency.dfy`): the
  residency list, the eviction list and the trim-candidate list. It also
  covers makeResident/makeNonResident marking, processEviction,
  processResidency with the OS make-resident call, and reclamation of
  temporary and reusable allocations by task count. The class
  `WddmMemoryManager` holds these lists as fields and updates them in place.
  Each method is proved equal to a pure function on a `ResidencyState` value.
- **WDDM command stream receiver** (`wddm_csr.dfy`). It covers:
  - the command-buffer header (throttle to slice, subslice and EU fields;
    preemption; coherency);
  - the submit address;
  - the monitored-fence flush stamp;
  - KmDaf locking of linear-stream and fill-pattern allocations;
  - flush and flushTask in immediate and batched dispatch;
  - flushBatchedSubmissions;
  - waitForTaskCountAndCleanAllocationList.
- **The DRM test receiver's residency queries** (`drm_csr.dfy`): the linear
  searches `isResident` and `getResident` over the `residency` vector, the
  `makeNonResident` recording, and the override setters.
- **CSR policies** (`csr_policy.dfy`): "multi OS context capable" holds
  exactly when the device bitfield has at least two bits set. The file also
  holds the new-resource and GPU-idle implicit-flush checks.
- **XE_HPC state compute mode** (`state_compute_mode.dfy`): whether
  STATE_COMPUTE_MODE must be programmed.

The production sources of the scratch controller, the WDDM receiver and the
WDDM memory manager are not part of this model. Their behaviour is modelled
from the unit tests that state it value by value. Where a test admits several
implementations, the model takes the simplest one that satisfies every
assertion. `wrappers.dfy` provides `Option`.

## Model

| member | source | states |
|---|---|---|
| ScratchSpace.AlignUp | opencl/test/unit_test/command_stream/command_stream_receiver_hw_tests_xehp_plus.cpp:221-232 | the per-thread size is rounded up to a multiple of 64, never down and by less than 64 |
| ScratchSpace.AlignUpIsLeast | opencl/test/unit_test/command_stream/command_stream_receiver_hw_tests_xehp_plus.cpp:590-607 | no multiple of 64 at or above the size is below the aligned size |
| ScratchSpace.PrivateScratchSupported | opencl/test/unit_test/command_stream/command_stream_receiver_hw_tests_xehp_plus.cpp:572-588 | the EnablePrivateScratchSlot1 flag overrides the platform default unless it is -1 |
| ScratchSpace.StateSlotsCount | opencl/test/unit_test/command_stream/command_stream_receiver_hw_tests_xehp_plus.cpp:572-588 | 16 slots times the descriptors per slot (32 with private scratch) |
| ScratchSpace.OffsetToSurfaceState | opencl/test/unit_test/command_stream/command_stream_receiver_hw_tests_xehp_plus.cpp:307-331 | the slot's byte offset is the index of its first descriptor times 64; with private scratch each slot is two descriptors wide |
| ScratchSpace.SlotRegionsDisjoint | opencl/test/unit_test/command_stream/command_stream_receiver_hw_tests_xehp_plus.cpp:625-632 | a lower slot's descriptors end at or before a higher slot's offset |
| ScratchSpace.InitialStateConsistent | opencl/test/unit_test/command_stream/command_stream_receiver_hw_tests_xehp_plus.cpp:150-156 | the fresh controller (no allocations, sizes 0) satisfies the size/allocation invariant |
| ScratchSpace.ScratchSurfaceState | opencl/test/unit_test/command_stream/command_stream_receiver_hw_tests_xehp_plus.cpp:164-207 | a descriptor is of type SCRATCH, with the allocation's address (0 when absent), pitch equal to the per-thread size and length computeUnits-1 |
| ScratchSpace.WriteSlot | opencl/test/unit_test/command_stream/command_stream_receiver_hw_tests_xehp_plus.cpp:550-570 | programming a slot makes it hold the state's descriptors (private descriptor at index 2s+1) and changes no other heap entry |
| ScratchSpace.WriteSlotIdempotent | opencl/test/unit_test/command_stream/command_stream_receiver_hw_tests_xehp_plus.cpp:522-548 | reprogramming a slot that already holds the descriptors leaves the heap as it was |
| ScratchSpace.ScratchPatchAddress | opencl/test/unit_test/command_stream/command_stream_receiver_hw_tests_xehp_plus.cpp:109-156 | the patch address is 0 without any allocation, otherwise the offset of the current slot |
| ScratchSpace.AdvanceSlot | opencl/test/unit_test/command_stream/command_stream_receiver_hw_tests_xehp_plus.cpp:429-463 | programSurfaceState moves the slot by one exactly when updateSlots is set, and changes nothing else |
| ScratchSpace.NewSshState | opencl/test/unit_test/command_stream/command_stream_receiver_hw_tests_xehp_plus.cpp:388-427 | a new heap with a scratch allocation reprograms from the current slot (changeId false) or from slot 0 (changeId true); otherwise the state is unchanged |
| ScratchSpace.NewSshDirty | opencl/test/unit_test/command_stream/command_stream_receiver_hw_tests_xehp_plus.cpp:209-219 | after a new heap, cfeStateDirty is set iff a scratch allocation exists; with the same heap the caller's value stays |
| ScratchSpace.ReleaseAllocation | opencl/test/unit_test/command_stream/command_stream_receiver_hw_tests_xehp_plus.cpp:268-305 | a replaced allocation is appended to the temporary list with the current task count |
| ScratchSpace.TemporaryAddresses | opencl/test/unit_test/command_stream/command_stream_receiver_hw_tests_xehp_plus.cpp:268-305 | the addresses of the temporary list are exactly those of its entries |
| ScratchSpace.PrepareScratchKeepsAddresses | opencl/test/unit_test/command_stream/command_stream_receiver_hw_tests_xehp_plus.cpp:268-305 | with fresh addresses, prepareScratchAllocation keeps the live allocations pairwise distinct, loses none of them and adds only the new ones |
| ScratchSpace.RequireScratchKeepsAddresses | opencl/test/unit_test/command_stream/command_stream_receiver_hw_tests_xehp_plus.cpp:465-491 | the same for the whole of setRequiredScratchSpace: a replaced allocation stays live on the temporary list and never shares its address with the new one |
| ScratchSpace.PrepareScratch | opencl/test/unit_test/command_stream/command_stream_receiver_hw_tests_xehp_plus.cpp:268-305 | each scratch class that needs more bytes gets a fresh allocation of exactly the aligned size times the compute units, and its old allocation is released; a class that fits is untouched, as is the slot |
| ScratchSpace.DirtySlot | opencl/test/unit_test/command_stream/command_stream_receiver_hw_tests_xehp_plus.cpp:307-331 | the dirty path moves to an explicit non-zero slot, or else one past the current slot |
| ScratchSpace.RequireScratch | opencl/test/unit_test/command_stream/command_stream_receiver_hw_tests_xehp_plus.cpp:164-331 | sizes never shrink; a request neither class grows by leaves the state as the heap switch left it; a growth sets updateSlots |
| ScratchSpace.RequireScratchDirty | opencl/test/unit_test/command_stream/command_stream_receiver_hw_tests_xehp_plus.cpp:209-266 | cfeStateDirty is set by any growth and by a heap switch with a scratch allocation, is never cleared on the same heap, and is cleared only by a heap switch without one |
| ScratchSpace.RequireScratchHeap | opencl/test/unit_test/command_stream/command_stream_receiver_hw_tests_xehp_plus.cpp:164-331 | the heap keeps its length; after a growth the current slot describes the new allocations; with no growth and no reprogramming the heap is untouched |
| ScratchSpace.RequireScratchSizes | opencl/test/unit_test/command_stream/command_stream_receiver_hw_tests_xehp_plus.cpp:221-232 | after setRequiredScratchSpace the sizes never shrink, cover the request, and equal the aligned request exactly when it grew |
| ScratchSpace.RequireScratchConsistent | opencl/test/unit_test/command_stream/command_stream_receiver_hw_tests_xehp_plus.cpp:268-305 | setRequiredScratchSpace preserves the invariant: aligned sizes, bytes = size times compute units, an allocation exactly when the bytes are non-zero, of that size, and no private bytes when unsupported |
| ScratchSpace.BiggerScratchReplacesAllocation | opencl/test/unit_test/command_stream/command_stream_receiver_hw_tests_xehp_plus.cpp:268-305 | given the memory manager's fresh address, a strictly larger request advances the slot by exactly one, sets cfeStateDirty, installs an allocation whose address differs from the replaced one, keeps the replaced one on the temporary list, and the new slot's descriptor points at the new address |
| ScratchSpace.BiggerPrivateScratchReplacesAllocation | opencl/test/unit_test/command_stream/command_stream_receiver_hw_tests_xehp_plus.cpp:465-491 | with private scratch, a strictly larger private request advances the slot by one (private descriptor from index 2s+1 to 2s+3), sets cfeStateDirty, gives the private class an address different from the replaced one, which is queued for release, and that descriptor holds the new address |
| ScratchSpace.SameSizeKeepsState | opencl/test/unit_test/command_stream/command_stream_receiver_hw_tests_xehp_plus.cpp:522-548 | a request that fits (the private size only counting when private scratch is supported) changes neither the state nor the heap, and cfeStateDirty keeps the caller's value |
| ScratchSpace.ExplicitSlotIsTaken | opencl/test/unit_test/command_stream/command_stream_receiver_hw_tests_xehp_plus.cpp:307-331 | an explicit non-zero scratchSlot becomes slotId exactly, and updateSlots is set |
| ScratchSpace.PrivateDisabledIgnoresPrivateSize | opencl/test/unit_test/command_stream/command_stream_receiver_hw_tests_xehp_plus.cpp:609-623 | without private scratch a private size leaves privateScratchSizeBytes at 0 and creates no allocation |
| ScratchSpace.NewHeapRewritesDescriptor | opencl/test/unit_test/command_stream/command_stream_receiver_hw_tests_xehp_plus.cpp:234-266 | a new heap with an allocation and a fitting request sets cfeStateDirty, keeps the allocation, lands on slot 1, and writes the descriptor with the allocation's address into the new heap |
| ScratchSpace.NewHeapWithoutAllocationIsClean | opencl/test/unit_test/command_stream/command_stream_receiver_hw_tests_xehp_plus.cpp:209-219 | a new heap without an allocation and with nothing growing leaves cfeStateDirty false and the state unchanged |
| ScratchSpace.PatchAddressNonZeroAfterAllocation | opencl/test/unit_test/command_stream/command_stream_receiver_hw_tests_xehp_plus.cpp:109-126 | any request that dirtied the surface leaves a non-zero patch address |
| ScratchSpace.GrowingRequestsAdvanceSlot | opencl/test/unit_test/command_stream/command_stream_receiver_hw_tests_xehp_plus.cpp:268-305 | n strictly growing requests advance the slot by n and leave the last request's byte count |
| ScratchSpace.AlignedSizesDoNotGrow | opencl/test/unit_test/command_stream/command_stream_receiver_hw_tests_xehp_plus.cpp:221-232 | per-thread sizes 1 and then 2 both align to 64: the second request changes nothing |
| ScratchSpace.ReplaceAllocationScenario | opencl/test/unit_test/command_stream/command_stream_receiver_hw_tests_xehp_plus.cpp:268-305 | from slot 6, growing requests give slots 7 and 8, patch addresses 7*128 and 8*128, and distinct allocations |
| ScratchSpace.OnlyPrivateScratchScenario | opencl/test/unit_test/command_stream/command_stream_receiver_hw_tests_xehp_plus.cpp:493-520 | a private request alone creates only the private allocation; the patch address is 2*64, and its descriptor is at heap index 3 while the scratch descriptor at index 2 has address 0 |
| ScratchSpace.ScratchSpaceController.constructor | opencl/test/unit_test/command_stream/command_stream_receiver_hw_tests_xehp_plus.cpp:572-588 | the controller starts with no allocations, sizes 0, slot 0, updateSlots set and 16 or 32 slots |
| ScratchSpace.ScratchSpaceController.GetScratchPatchAddress | opencl/test/unit_test/command_stream/command_stream_receiver_hw_tests_xehp_plus.cpp:109-156 | 0 without any allocation, otherwise the current slot times 64 bytes per descriptor times the descriptors per slot |
| ScratchSpace.ScratchSpaceController.GetOffsetToSurfaceState | opencl/test/unit_test/command_stream/command_stream_receiver_hw_tests_xehp_plus.cpp:625-632 | the slot times 64 bytes per descriptor times the descriptors per slot |
| ScratchSpace.ScratchSpaceController.ProgramSurfaceState | opencl/test/unit_test/command_stream/command_stream_receiver_hw_tests_xehp_plus.cpp:429-463 | the slot advances only when updateSlots is set; the heap array receives exactly that slot's descriptors |
| ScratchSpace.ScratchSpaceController.SetNewSshPtr | opencl/test/unit_test/command_stream/command_stream_receiver_hw_tests_xehp_plus.cpp:388-427 | the new heap is adopted; state, dirty flag and heap contents follow NewSshState, NewSshDirty and WriteSlot |
| ScratchSpace.ScratchSpaceController.PrepareScratchAllocation | opencl/test/unit_test/command_stream/command_stream_receiver_hw_tests_xehp_plus.cpp:268-305 | the state becomes PrepareScratch, and the returned scratchSurfaceDirty reports that a class grew |
| ScratchSpace.ScratchSpaceController.ProgramDirtySlot | opencl/test/unit_test/command_stream/command_stream_receiver_hw_tests_xehp_plus.cpp:307-331 | the dirty path moves to DirtySlot, sets updateSlots, and writes that slot into the heap |
| ScratchSpace.ScratchSpaceController.SetRequiredScratchSpace | opencl/test/unit_test/command_stream/command_stream_receiver_hw_tests_xehp_plus.cpp:164-331 | the state, the cfeStateDirty result and the heap array are RequireScratch, RequireScratchDirty and RequireScratchHeap of the old state |
| ScratchSpace.ScratchSpaceController.ProgramSurfaceStateInto | opencl/test/unit_test/command_stream/command_stream_receiver_hw_tests_xehp_plus.cpp:333-386 | a further heap gets the current slot's descriptors without moving the slot |
| ScratchSpace.ScratchSpaceController.ProgramFurtherHeaps | opencl/test/unit_test/command_stream/command_stream_receiver_hw_tests_xehp_plus.cpp:333-386 | every heap after the first holds the current slot's descriptors, nothing outside that slot changes, a heap not among the further ones is untouched, and the slot stays |
| ScratchSpace.ScratchSpaceController.ProgramHeaps | opencl/test/unit_test/command_stream/command_stream_receiver_hw_tests_xehp_plus.cpp:333-386 | the first heap ends as RequireScratchHeap of its old contents (when it is not repeated later), the other heaps get the same slot's descriptors and nothing else, and afterwards updateSlots is set |
| CsrPolicy.IsMultiOsContextCapable | opencl/test/unit_test/command_stream/command_stream_receiver_hw_tests_xehp_plus.cpp:716-738 | capable iff the device bitfield has two distinct set bits |
| CsrPolicy.SomeBitIff | opencl/test/unit_test/command_stream/command_stream_receiver_hw_tests_xehp_plus.cpp:716-738 | the popcount is non-zero iff some bit is set |
| CsrPolicy.MultiBitIff | opencl/test/unit_test/command_stream/command_stream_receiver_hw_tests_xehp_plus.cpp:716-738 | the popcount exceeds one iff two distinct bits are set |
| CsrPolicy.TestMasks | opencl/test/unit_test/command_stream/command_stream_receiver_hw_tests_xehp_plus.cpp:716-738 | bitfield 0b11 is capable and 0b10 is not |
| CsrPolicy.SupportsNewResourceImplicitFlush | opencl/test/unit_test/command_stream/command_stream_receiver_hw_tests_xehp_plus.cpp:740-773 | supported only for a single-context CSR whose platform default allows it, and then exactly as the OS setting says |
| CsrPolicy.SupportsGpuIdleImplicitFlush | opencl/test/unit_test/command_stream/command_stream_receiver_hw_tests_xehp_plus.cpp:775-824 | a multi-context CSR supports it only with direct submission active; then the platform default gates the OS setting |
| StateComputeMode.IsStateComputeModeRequired | shared/source/xe_hpc_core/state_compute_mode_helper_xe_hpc_core.cpp:13-15 | required whenever coherency or GRF count changed or the thread arbitration policy is programmed, and false when all three are false |
| StateComputeMode.IgnoresOtherFlags | shared/source/xe_hpc_core/state_compute_mode_helper_xe_hpc_core.cpp:14 | two flag sets that agree on the coherency and GRF fields give the same answer |
| DrmCsr.TestedDrmCommandStreamReceiver.WithMode | unit_tests/mocks/linux/mock_drm_command_stream_receiver.h:19-20 | the receiver starts with an empty residency vector and the given close-worker mode; the makeNonResident record, uninitialised in the mock, is fixed at (not called, no allocation) |
| DrmCsr.TestedDrmCommandStreamReceiver.constructor | unit_tests/mocks/linux/mock_drm_command_stream_receiver.h:21-22 | the overload without a mode starts with the close worker inactive and an empty residency vector; the makeNonResident record is fixed as in WithMode |
| DrmCsr.TestedDrmCommandStreamReceiver.OverrideGemCloseWorkerOperationMode | unit_tests/mocks/linux/mock_drm_command_stream_receiver.h:24-26 | the close-worker mode becomes exactly the given value |
| DrmCsr.TestedDrmCommandStreamReceiver.OverrideDispatchPolicy | unit_tests/mocks/linux/mock_drm_command_stream_receiver.h:28-30 | the dispatch mode becomes exactly the given value |
| DrmCsr.TestedDrmCommandStreamReceiver.ResidencyVectorPushBack | unit_tests/mocks/linux/mock_drm_command_stream_receiver.h:66 | the buffer object is appended to the residency vector |
| DrmCsr.TestedDrmCommandStreamReceiver.IsResident | unit_tests/mocks/linux/mock_drm_command_stream_receiver.h:32-41 | returns true iff the buffer object occurs in the residency vector; the vector is unchanged |
| DrmCsr.TestedDrmCommandStreamReceiver.GetResident | unit_tests/mocks/linux/mock_drm_command_stream_receiver.h:49-58 | returns the buffer object iff it occurs in the residency vector and null otherwise; the vector is unchanged |
| DrmCsr.TestedDrmCommandStreamReceiver.MakeNonResident | unit_tests/mocks/linux/mock_drm_command_stream_receiver.h:43-47 | records called = true and the given allocation |
| WddmResidency.AddToTrimCandidateList | unit_tests/os_interface/windows/device_command_stream_tests.cpp:520-539 | an allocation is appended unless already a candidate, so the list keeps no duplicates |
| WddmResidency.AddAllToTrimCandidateList | unit_tests/os_interface/windows/device_command_stream_tests.cpp:520-539 | adding a batch keeps the old list as a prefix and grows it by at most one per allocation |
| WddmResidency.AddAllToTrimCandidateListSpec | unit_tests/os_interface/windows/device_command_stream_tests.cpp:520-539 | adding a batch keeps the list duplicate-free and the earlier candidates first, and yields exactly the union |
| WddmResidency.IndexOf | unit_tests/os_interface/windows/device_command_stream_tests.cpp:668-690 | the first position of the allocation in the trim list |
| WddmResidency.TrimCandidateListPosition | unit_tests/os_interface/windows/device_command_stream_tests.cpp:668-690 | a candidate's position is its index in the list; a non-candidate's is trimListUnusedPosition |
| WddmResidency.RemoveFromTrimCandidateList | unit_tests/os_interface/windows/device_command_stream_tests.cpp:649-690 | the allocation is no longer a candidate, all others stay, no duplicates appear, and a non-candidate changes nothing |
| WddmResidency.RemoveAllFromTrimCandidateList | unit_tests/os_interface/windows/device_command_stream_tests.cpp:649-690 | removing a pack never lengthens the list |
| WddmResidency.RemoveAllFromTrimCandidateListSpec | unit_tests/os_interface/windows/device_command_stream_tests.cpp:649-690 | after removing a pack, exactly the earlier candidates outside the pack remain, without duplicates |
| WddmResidency.MakeResident | unit_tests/os_interface/windows/device_command_stream_tests.cpp:488-502 | the allocation is marked for the next task count; it is appended to the residency list with that task count iff not already marked for it; no OS call is made and OS residency, the eviction and trim lists and every other field are unchanged |
| WddmResidency.MakeResidentIdempotent | unit_tests/os_interface/windows/device_command_stream_tests.cpp:488-502 | making an allocation resident twice for one submission lists it once |
| WddmResidency.MakeNonResident | unit_tests/os_interface/windows/device_command_stream_tests.cpp:504-518 | a resident evictable allocation is appended to the eviction list; a resident non-evictable one only becomes evictable; either way it is no longer resident |
| WddmResidency.MakeNonResidentAll | unit_tests/os_interface/windows/device_command_stream_tests.cpp:668-690 | over a pack nothing becomes resident or non-evictable, the eviction list only grows at its end, and the residency and trim lists are untouched |
| WddmResidency.MakeNonResidentAllSpec | unit_tests/os_interface/windows/device_command_stream_tests.cpp:668-690 | after a pack is made non-resident, exactly the residents outside the pack remain resident. The eviction list only grows, and only with pack members. Only the eviction list, the residency marks and the evictable flags change |
| WddmResidency.ProcessEviction | unit_tests/os_interface/windows/device_command_stream_tests.cpp:541-556 | the eviction list is empty afterwards |
| WddmResidency.ProcessEvictionSpec | unit_tests/os_interface/windows/device_command_stream_tests.cpp:520-539 | every former eviction candidate becomes a trim candidate once, the earlier candidates stay first, and a fresh batch of 2 grows the list by 2 |
| WddmResidency.ResidencyHandles | unit_tests/os_interface/windows/device_command_stream_tests.cpp:649-666 | the OS handle pack is no longer than the pack |
| WddmResidency.FreshBatchGrowsTrimList | unit_tests/os_interface/windows/device_command_stream_tests.cpp:520-539 | a duplicate-free batch of non-candidates is appended as it is |
| WddmResidency.ResidencyHandlesSpec | unit_tests/os_interface/windows/device_command_stream_tests.cpp:649-666 | the handles passed to the OS are exactly the pack's non-resident allocations, each once |
| WddmResidency.SetOf | unit_tests/os_interface/windows/device_command_stream_tests.cpp:649-666 | the set of a pack's members |
| WddmResidency.ProcessResidency | unit_tests/os_interface/windows/device_command_stream_tests.cpp:649-666 | the whole pack is marked resident; one OS make-resident call is made with the non-resident handles, and none when there are none |
| WddmResidency.ProcessResidencySpec | unit_tests/os_interface/windows/device_command_stream_tests.cpp:668-690 | after processResidency no pack member is a trim candidate, the others stay, and there are no duplicates |
| WddmResidency.ResidencyRoundTrip | unit_tests/os_interface/windows/device_command_stream_tests.cpp:668-690 | makeResident, processResidency and makeSurfacePackNonResident leave both lists empty and move the allocation's trim position from unused to 0 |
| WddmResidency.MakeSurfacePackNonResident | unit_tests/os_interface/windows/device_command_stream_tests.cpp:668-690 | the eviction list ends empty, the residency list is cleared exactly when it was the pack, and the trim list only grows at its end |
| WddmResidency.ReclaimMembership | unit_tests/os_interface/windows/device_command_stream_tests.cpp:617-647 | an allocation is freed exactly when its task count is at or below the wait target, and kept exactly when it is above |
| WddmResidency.ReclaimPartition | unit_tests/os_interface/windows/device_command_stream_tests.cpp:617-647 | kept and freed allocations together are the original list as a multiset |
| WddmResidency.ReclaimAllAtMax | unit_tests/os_interface/windows/device_command_stream_tests.cpp:605-615 | waiting for (uint32_t)-1 frees the whole list and keeps nothing |
| WddmResidency.ReclaimCompletedExample | unit_tests/os_interface/windows/device_command_stream_tests.cpp:617-647 | with task counts 1 and 100 and a wait for 1, only the first allocation is freed |
| WddmResidency.Reclaim | unit_tests/os_interface/windows/device_command_stream_tests.cpp:605-647 | freed allocations are appended, the other list is untouched, and every allocation kept has a task count above the wait target |
| WddmResidency.WddmMemoryManager.constructor | unit_tests/os_interface/windows/device_command_stream_tests.cpp:58-92 | the memory manager starts with every list, map and set empty |
| WddmResidency.WddmMemoryManager.PushAllocationForResidency | unit_tests/os_interface/windows/device_command_stream_tests.cpp:488-502 | the allocation is appended to the residency list |
| WddmResidency.WddmMemoryManager.PushAllocationForEviction | unit_tests/os_interface/windows/device_command_stream_tests.cpp:520-556 | the allocation is appended to the eviction list |
| WddmResidency.WddmMemoryManager.ClearResidencyAllocations | unit_tests/os_interface/windows/device_command_stream_tests.cpp:668-690 | the residency list becomes empty |
| WddmResidency.WddmMemoryManager.SetEvictable | unit_tests/os_interface/windows/device_command_stream_tests.cpp:692-776 | the allocation leaves the non-evictable set when made evictable and joins it otherwise |
| WddmResidency.WddmMemoryManager.MarkNonResident | unit_tests/os_interface/windows/device_command_stream_tests.cpp:504-518 | the allocation loses its residency mark and no other mark changes |
| WddmResidency.WddmMemoryManager.SetResidencyTaskCount | unit_tests/os_interface/windows/device_command_stream_tests.cpp:692-776 | the allocation's residency mark becomes the given task count |
| WddmResidency.WddmMemoryManager.StoreAllocation | unit_tests/os_interface/windows/device_command_stream_tests.cpp:575-586 | the allocation is appended to the list of its usage and the other list is untouched |
| WddmResidency.WddmMemoryManager.SetTaskCount | unit_tests/os_interface/windows/device_command_stream_tests.cpp:488-502 | the allocation's task count is set; task counts stay 32-bit |
| WddmResidency.WddmMemoryManager.AddToTrimCandidate | unit_tests/os_interface/windows/device_command_stream_tests.cpp:520-539 | the trim list becomes AddToTrimCandidateList of the old one |
| WddmResidency.WddmMemoryManager.MakeNonResidentEvictionAllocations | unit_tests/os_interface/windows/device_command_stream_tests.cpp:520-556 | the in-place loop leaves the state equal to ProcessEviction of the old state |
| WddmResidency.WddmMemoryManager.RemoveFromTrimCandidates | unit_tests/os_interface/windows/device_command_stream_tests.cpp:668-690 | the trim list becomes RemoveFromTrimCandidateList of the old one |
| WddmResidency.WddmMemoryManager.MakeResidentStep | unit_tests/os_interface/windows/device_command_stream_tests.cpp:649-666 | one step collects the allocation's handle iff it was not resident, marks it resident and takes it off the trim list |
| WddmResidency.WddmMemoryManager.CollectResidencyHandles | unit_tests/os_interface/windows/device_command_stream_tests.cpp:649-666 | the loop collects exactly ResidencyHandles, marks the pack resident and removes it from the trim list |
| WddmResidency.WddmMemoryManager.MakeResidentResidencyAllocations | unit_tests/os_interface/windows/device_command_stream_tests.cpp:649-690 | the state becomes ProcessResidency of the old state, and the trim list stays duplicate-free |
| WddmResidency.WddmMemoryManager.FreeAllocationsList | unit_tests/os_interface/windows/device_command_stream_tests.cpp:605-647 | the in-place filter leaves the state equal to Reclaim of the old state |
| WddmCsr.RequestedSubsliceCount | unit_tests/os_interface/windows/device_command_stream_tests.cpp:309-361 | LOW requests 1 subslice and MEDIUM 0; HIGH requests SubSliceCount when it is at most 7, else 0 |
| WddmCsr.InitialHeader | unit_tests/os_interface/windows/device_command_stream_tests.cpp:287-307 | the constructed header needs mid-batch preemption support iff the default mode is MidThread, and does not require coherency |
| WddmCsr.SubmitHeader | unit_tests/os_interface/windows/device_command_stream_tests.cpp:228-361 | the submitted header copies the batch's coherency request, sets slice state 0 and the throttle's subslice count, sets the EU count to EUCount / SubSliceCount, and keeps the preemption flag |
| WddmCsr.SubmitAddress | unit_tests/os_interface/windows/device_command_stream_tests.cpp:200-226 | the submit address is the command buffer's GPU address plus the batch's offset |
| WddmCsr.ThrottleHeaders | unit_tests/os_interface/windows/device_command_stream_tests.cpp:309-361 | concrete header values for LOW, MEDIUM and HIGH, including HIGH on a GT with more than 7 subslices |
| WddmCsr.KmDafLockableSpec | unit_tests/os_interface/windows/device_command_stream_tests.cpp:363-486 | exactly the pack's linear-stream and fill-pattern allocations are locked, each as many times as it occurs in the pack |
| WddmCsr.KmDafLockable | unit_tests/os_interface/windows/device_command_stream_tests.cpp:363-486 | no more allocations are locked than the pack holds |
| WddmCsr.KmDafLockExamples | unit_tests/os_interface/windows/device_command_stream_tests.cpp:424-486 | a linear stream and a fill pattern get one lock each, a buffer none |
| WddmCsr.FlushResidency | unit_tests/os_interface/windows/device_command_stream_tests.cpp:649-666 | batched dispatch appends the command buffer to the container and it ends up resident; immediate dispatch flushes the container, or else the residency list with the command buffer appended when it was not yet marked for this submission; the whole pack is marked resident |
| WddmCsr.ImmediateFlushMakesCommandBufferResident | unit_tests/os_interface/windows/device_command_stream_tests.cpp:649-666 | an immediate flush of a command buffer that is not resident, and either not yet marked for this submission or already on the residency list, makes exactly one OS make-resident call, whose handles include the command buffer |
| WddmCsr.MakeResidentThenImmediateFlush | unit_tests/os_interface/windows/device_command_stream_tests.cpp:649-666 | after makeResident marks the command buffer, the immediate flush still makes exactly one OS call that includes it |
| WddmCsr.MakeResidentAllMarks | unit_tests/os_interface/windows/device_command_stream_tests.cpp:692-776 | every surface of flushTask is marked for the next task count, and the residency list only grows |
| WddmCsr.MakeResidentAll | unit_tests/os_interface/windows/device_command_stream_tests.cpp:692-776 | the residency list only grows at its end, by at most one per allocation; OS residency, trim list and evictable flags do not move |
| WddmCsr.TaskResidency | unit_tests/os_interface/windows/device_command_stream_tests.cpp:692-776 | the dynamic and indirect heaps become non-evictable, no flag is lost, and the residency list only grows |
| WddmCsr.TaskResidencyFacts | unit_tests/os_interface/windows/device_command_stream_tests.cpp:692-776 | after flushTask's residency step, all five surfaces are listed and marked, only the dynamic and indirect heaps are non-evictable, and the trim and eviction lists are untouched |
| WddmCsr.MakeNonResidentAllEvicts | unit_tests/os_interface/windows/device_command_stream_tests.cpp:668-690 | making a pack non-resident evicts exactly its resident, evictable members |
| WddmCsr.ReleasedTrimCandidates | unit_tests/os_interface/windows/device_command_stream_tests.cpp:668-690 | releasing a container leaves as trim candidates exactly the earlier ones plus its resident, evictable members |
| WddmCsr.BatchedFlushReleases | unit_tests/os_interface/windows/device_command_stream_tests.cpp:692-776 | a batched flush followed by its release makes trim candidates of exactly the pack's resident evictable members and the evictable command buffer; the eviction list ends empty |
| WddmCsr.BatchedFlushTrimsEvictableSurfaces | unit_tests/os_interface/windows/device_command_stream_tests.cpp:692-776 | after the batched flushTask and flushBatchedSubmissions, the tag, task stream, surface heap and CSR stream are trim candidates; the dynamic and indirect heaps are not |
| WddmCsr.BatchedFlushOfTaskSurfaces | unit_tests/os_interface/windows/device_command_stream_tests.cpp:692-776 | from any queued state holding the five task surfaces with only the dynamic and indirect heaps non-evictable, the batched flush and release leave the other surfaces and the CSR stream as trim candidates and empty the eviction list |
| WddmCsr.TaskPackTrimCandidates | unit_tests/os_interface/windows/device_command_stream_tests.cpp:692-776 | given which allocations a release leaves as trim candidates, the evictable task surfaces are among them and the dynamic and indirect heaps are not |
| WddmCsr.WddmCommandStreamReceiver.constructor | unit_tests/os_interface/windows/device_command_stream_tests.cpp:780-786 | dispatch is batched unless overridden; the header follows InitialHeader; the monitored fence starts at 1 |
| WddmCsr.WddmCommandStreamReceiver.OverrideDispatchPolicy | unit_tests/os_interface/windows/device_command_stream_tests.cpp:692-700 | the dispatch mode becomes exactly the given value |
| WddmCsr.WddmCommandStreamReceiver.MakeResident | unit_tests/os_interface/windows/device_command_stream_tests.cpp:488-502 | the memory manager's state becomes MakeResident of the old one, and the log of OS make-resident calls is unchanged |
| WddmCsr.WddmCommandStreamReceiver.MakeNonResident | unit_tests/os_interface/windows/device_command_stream_tests.cpp:504-518 | the memory manager's state becomes MakeNonResident of the old one |
| WddmCsr.WddmCommandStreamReceiver.ProcessEviction | unit_tests/os_interface/windows/device_command_stream_tests.cpp:520-556 | the memory manager's state becomes ProcessEviction of the old one |
| WddmCsr.WddmCommandStreamReceiver.ProcessResidency | unit_tests/os_interface/windows/device_command_stream_tests.cpp:649-690 | the container, or else the residency list, is processed as ProcessResidency |
| WddmCsr.WddmCommandStreamReceiver.MakeSurfacePackNonResident | unit_tests/os_interface/windows/device_command_stream_tests.cpp:668-690 | the loop makes the pack non-resident, clears the residency list when it was the pack, and processes eviction |
| WddmCsr.WddmCommandStreamReceiver.KmDafLockAllocations | unit_tests/os_interface/windows/device_command_stream_tests.cpp:399-486 | the lock log gains exactly KmDafLockable of the container, or else of the residency list |
| WddmCsr.WddmCommandStreamReceiver.Submit | unit_tests/os_interface/windows/device_command_stream_tests.cpp:186-198 | one submission is recorded, the fence advances, and the stamp is the last submitted fence |
| WddmCsr.WddmCommandStreamReceiver.MakeBatchResident | unit_tests/os_interface/windows/device_command_stream_tests.cpp:649-666 | the memory manager ends in the FlushResidency state, and the returned container is the flushed pack |
| WddmCsr.WddmCommandStreamReceiver.Flush | unit_tests/os_interface/windows/device_command_stream_tests.cpp:186-486 | one submit at SubmitAddress with the SubmitHeader header; the stamp equals lastSubmittedFence; the allocations are made resident; KmDaf locks exactly the lockable ones only when KmDaf is enabled |
| WddmCsr.WddmCommandStreamReceiver.LockAndSubmit | unit_tests/os_interface/windows/device_command_stream_tests.cpp:186-486 | the header becomes SubmitHeader of the old header, the lock log gains the KmDaf-lockable part of the pack only when KmDaf is on, one submission at SubmitAddress is recorded and the fence advances by one |
| WddmCsr.WddmCommandStreamReceiver.MakeTaskSurfacesResident | unit_tests/os_interface/windows/device_command_stream_tests.cpp:692-776 | the tag, task stream and three heaps are made resident in order, and the dynamic and indirect heaps become non-evictable |
| WddmCsr.WddmCommandStreamReceiver.QueueCommandBuffer | unit_tests/os_interface/windows/device_command_stream_tests.cpp:692-776 | the command buffer is queued with the residency list as its surfaces, and the residency list empties |
| WddmCsr.WddmCommandStreamReceiver.FlushImmediately | unit_tests/os_interface/windows/device_command_stream_tests.cpp:649-690 | immediate dispatch flushes the batch and releases the residency list at once: the submission carries SubmitHeader of the old header, the fence advances by one, and the lock log gains the KmDaf-lockable part of the flushed pack when KmDaf is on |
| WddmCsr.WddmCommandStreamReceiver.FlushTask | unit_tests/os_interface/windows/device_command_stream_tests.cpp:692-776 | the task count advances. Batched dispatch queues the command buffer and leaves submissions, header, fences and lock log as they were; immediate dispatch submits once with SubmitHeader of the old header, advances the fence, locks the KmDaf-lockable pack when enabled and releases the pack |
| WddmCsr.WddmCommandStreamReceiver.FlushBatchedSubmissions | unit_tests/os_interface/windows/device_command_stream_tests.cpp:692-776 | with work queued in batched dispatch, one submit of the first buffer with all queued surfaces is made with SubmitHeader of the old header (so carrying its coherency request), the fence advances, the KmDaf-lockable surfaces are locked when enabled, the queue is empty and the pack released; otherwise submissions, queue, residency state, header, fences and lock log stay as they were |
| WddmCsr.WddmCommandStreamReceiver.WaitForTaskCountAndCleanAllocationList | unit_tests/os_interface/windows/device_command_stream_tests.cpp:605-647 | the memory manager is reclaimed for the required task count; at (uint32_t)-1 the list empties and every allocation is freed |
| WddmCsr.WddmCommandStreamReceiver.CreateAllocationAndHandleResidency | unit_tests/os_interface/windows/device_command_stream_tests.cpp:575-586 | the fresh allocation is made resident (residency list size 1) and, if asked (the default), put on the deferred-free list |
| WddmCsr.TaskCountsAreThirtyTwoBit | unit_tests/os_interface/windows/device_command_stream_tests.cpp:605-615 | under the memory manager's invariant every recorded task count is at most (uint32_t)-1 |

## Left out

- Bit-exact GPU commands are not modelled: the RENDER_SURFACE_STATE, CFE_STATE and MI_SEMAPHORE_WAIT layouts and the split of the buffer length into width, height and depth. Descriptors are abstract records.
- Parsing of command streams in the tests is not modelled; it is test harness, not controller logic.
- Slot wrap-around past stateSlotsCount is not modelled. The tests never drive the slot past the slot count, so every slot written must lie below it as a precondition (`CanRequireScratch`).
- Allocation failure and placement across tiles are left out. The memory manager's GPU addresses for new allocations are parameters of `ScratchRequest`, and the tile mask is not recorded.
- ScratchSpace.ScratchSpaceController.SetRequiredScratchSpace: the memory manager's promise that a new allocation aliases no live one is a precondition (`FreshAddresses`), because the memory manager is not part of this model. The same precondition is on `PrepareScratchAllocation`, `ProgramHeaps` and the replacement lemmas.
- The 32-bit wrap of alignUp and of the size product is left out, because sizes are unbounded naturals.
- The stateBaseAddressDirty out-parameter of setRequiredScratchSpace is left out; no test reads it.
- Per-DSS backed buffers, ray-tracing command sizes and the default SSH size are left out; they are constants with no logic.
- Timestamp packets, events, blocked queues and cross-CSR synchronisation are concurrency and queue logic, outside this model.
- GMM page-table managers, GDI function tables, translation-table init, the AUB-dump factory, WDDM version selection, host-pointer fragments and the real GDI submit, wait and makeResident calls are OS plumbing. The OS make-resident call is recorded as `makeResidentCalls`.
- The blocking wait for the monitored fence is not modelled; the fence values are fields.
- Submit failure and makeCoherent are left out; submit always succeeds.
- Trim callbacks, residency completion data and fragments are left out.
- The trim list leaves no null holes on removal in this model; removal compacts the list. The tests only distinguish "unused" from "a position".
- Per-allocation fields (residency task count, task count, evictable, resident) are maps and sets keyed by the allocation, not fields of allocation objects.
- Allocations and buffer objects are compared by value, not by pointer identity: two distinct objects are assumed to differ in handle.
- WddmCsr.WddmCommandStreamReceiver.FlushTask: task counts are kept below 0xFFFFFFFF (`Valid()` and the preconditions of `FlushTask` and `WaitForTaskCountAndCleanAllocationList`), so the uint32 wrap-around of task counts is not modelled.
- WddmCsr.KmDafLockable: its own contract only bounds the number of locks; which allocations are locked is stated by `KmDafLockableSpec`.
- WddmCsr.FlushTask: preemption and SIP allocations, and the other command-programming parts of flushTask, are left out. Only the tag, the task stream and the three heaps are made resident.
- WddmCsr.FlushTask: the dynamic and indirect heaps are marked non-evictable. That is one implementation that matches the tests' "unused trim position" for them; the tests do not show why.
- WddmCsr.WddmCommandStreamReceiver.FlushBatchedSubmissions: the aggregator's grouping by memory budget and the chaining of several batch buffers are not modelled. All queued buffers go out as one submission.
- WddmCsr.WddmCommandStreamReceiver.MakeSurfacePackNonResident: the latestFlushedTaskCount update and the temporary-allocation clean are left out.
- Adaptive and device-default dispatch modes are left out; only immediate and batched dispatch are modelled.
- WddmCsr.WddmCommandStreamReceiver.KmDafLockAllocations: only the log of locked allocations is kept. The number of lock calls is its length.
- DrmCsr.TestedDrmCommandStreamReceiver.MakeNonResident: the delegation to the DRM base receiver is not modelled; that code is not part of this model.
- The DRM receiver's constructor internals (the Drm object, the execution environment) are not modelled.
- DrmCsr.TestedDrmCommandStreamReceiver.WithMode: the dispatch mode chosen by the DRM base receiver's constructor is not modelled; both constructors leave it unconstrained.
- DrmCsr.TestedDrmCommandStreamReceiver.constructor: as for `WithMode`, the initial dispatch mode is left unconstrained.
- DrmCsr.TestedDrmCommandStreamReceiver.WithMode: the mock never initialises its makeNonResident record; the model picks (not called, no allocation) for it.
- DrmCsr.TestedDrmCommandStreamReceiver.constructor: the same choice of (not called, no allocation) for the record the mock leaves uninitialised.
- `getResidencyVector` hands out a pointer to the vector. That aliasing is modelled only by `ResidencyVectorPushBack`, the one use the tests make of it.
- The fields of CsrSizeRequestFlags are declared in a header that is not part of this model. The flag record lists the change flags by name.
- The DRM hardware-info configuration tests and the sub-device declarations hold no modellable logic.
