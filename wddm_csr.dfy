/**
 * The WDDM command stream receiver: it builds the command-buffer header the
 * kernel-mode driver reads, makes the submission's allocations resident, locks
 * KmDaf-annotated allocations, submits, and returns the monitored fence value
 * it submitted with.  In batched dispatch it queues command buffers and submits
 * them later in one go.
 */
module WddmCsr {
  import opened Wrappers
  import opened WddmResidency
  import opened CsrPolicy

  /** The largest subslice count a HIGH throttle may request. */
  const MaxRequestedSubsliceCount: nat := 7

  datatype QueueThrottle = Low | Medium | High
  datatype PreemptionMode = Disabled | MidBatch | ThreadGroup | MidThread

  datatype GtSystemInfo = GtSystemInfo(euCount: nat, subSliceCount: nat)

  /** The fields of COMMAND_BUFFER_HEADER the receiver writes. */
  datatype CommandBufferHeader = CommandBufferHeader(
    umdRequestedSliceState: nat,
    umdRequestedSubsliceCount: nat,
    umdRequestedEUCount: nat,
    needsMidBatchPreEmptionSupport: bool,
    requiresCoherency: bool)

  datatype BatchBuffer = BatchBuffer(
    commandBufferAllocation: GraphicsAllocation,
    startOffset: nat,
    requiresCoherency: bool,
    throttle: QueueThrottle)

  /** One call of the WDDM submit: command-buffer GPU address and header. */
  datatype Submission = Submission(commandBufferAddress: nat, header: CommandBufferHeader)

  /** A command buffer held back in batched dispatch, with the surfaces it needs resident. */
  datatype CommandBuffer = CommandBuffer(batchBuffer: BatchBuffer, surfaces: seq<GraphicsAllocation>)

  // ---------------------------------------------------------------------------
  // Command-buffer header
  // ---------------------------------------------------------------------------

  /** UmdRequestedSubsliceCount for a throttle: LOW asks for one, MEDIUM for the default, HIGH for all (up to seven). */
  function RequestedSubsliceCount(throttle: QueueThrottle, subSliceCount: nat): (count: nat)
    ensures count <= MaxRequestedSubsliceCount
    ensures throttle == Low ==> count == 1
    ensures throttle == Medium ==> count == 0
    ensures throttle == High && subSliceCount <= MaxRequestedSubsliceCount ==> count == subSliceCount
    ensures throttle == High && subSliceCount > MaxRequestedSubsliceCount ==> count == 0
  {
    match throttle
    case Low => 1
    case Medium => 0
    case High => if subSliceCount <= MaxRequestedSubsliceCount then subSliceCount else 0
  }

  /** The header the constructor prepares: mid-batch preemption support exactly for a mid-thread default. */
  function InitialHeader(preemptionMode: PreemptionMode): (header: CommandBufferHeader)
    ensures header.needsMidBatchPreEmptionSupport <==> preemptionMode == MidThread
    ensures !header.requiresCoherency
  {
    CommandBufferHeader(0, 0, 0, preemptionMode == MidThread, false)
  }

  /** The header as flush fills it in for one batch buffer. */
  function SubmitHeader(header: CommandBufferHeader, batch: BatchBuffer, gt: GtSystemInfo): (submitted: CommandBufferHeader)
    requires gt.subSliceCount > 0
    ensures submitted.requiresCoherency == batch.requiresCoherency
    ensures submitted.umdRequestedSliceState == 0
    ensures submitted.umdRequestedSubsliceCount == RequestedSubsliceCount(batch.throttle, gt.subSliceCount)
    ensures submitted.umdRequestedEUCount * gt.subSliceCount <= gt.euCount < (submitted.umdRequestedEUCount + 1) * gt.subSliceCount
    ensures submitted.needsMidBatchPreEmptionSupport == header.needsMidBatchPreEmptionSupport
  {
    header.(requiresCoherency := batch.requiresCoherency,
            umdRequestedSliceState := 0,
            umdRequestedEUCount := gt.euCount / gt.subSliceCount,
            umdRequestedSubsliceCount := RequestedSubsliceCount(batch.throttle, gt.subSliceCount))
  }

  /** Flush submits the command buffer's GPU address plus the batch's start offset. */
  function SubmitAddress(batch: BatchBuffer): (address: nat)
    ensures address >= batch.commandBufferAllocation.gpuAddress
    ensures address - batch.commandBufferAllocation.gpuAddress == batch.startOffset
  {
    batch.commandBufferAllocation.gpuAddress + batch.startOffset
  }

  /** The header fields for the three throttles on a GT with `subSlices` subslices and 8 EUs per subslice. */
  lemma ThrottleHeaders(allocation: GraphicsAllocation, header: CommandBufferHeader)
    ensures SubmitHeader(header, BatchBuffer(allocation, 0, false, Low), GtSystemInfo(48, 6)).umdRequestedSubsliceCount == 1
    ensures SubmitHeader(header, BatchBuffer(allocation, 0, false, Low), GtSystemInfo(48, 6)).umdRequestedEUCount == 8
    ensures SubmitHeader(header, BatchBuffer(allocation, 0, false, Medium), GtSystemInfo(48, 6)).umdRequestedSubsliceCount == 0
    ensures SubmitHeader(header, BatchBuffer(allocation, 0, false, High), GtSystemInfo(48, 6)).umdRequestedSubsliceCount == 6
    ensures SubmitHeader(header, BatchBuffer(allocation, 0, false, High), GtSystemInfo(64, 8)).umdRequestedSubsliceCount == 0
  {
  }

  // ---------------------------------------------------------------------------
  // KmDaf
  // ---------------------------------------------------------------------------

  /** KmDaf locks linear streams and fill patterns only. */
  predicate IsKmDafLockable(allocationType: AllocationType)
  {
    allocationType == LinearStream || allocationType == FillPattern
  }

  /** The allocations kmDafLockAllocations locks, in order. */
  function KmDafLockable(pack: seq<GraphicsAllocation>): (locked: seq<GraphicsAllocation>)
    ensures |locked| <= |pack|
    decreases |pack|
  {
    if |pack| == 0 then []
    else
      var last := pack[|pack| - 1];
      KmDafLockable(pack[..|pack| - 1]) + (if IsKmDafLockable(last.allocationType) then [last] else [])
  }

  /** An allocation is locked exactly when it is in the pack and is a linear stream or fill pattern. */
  lemma {:induction false} KmDafLockableSpec(pack: seq<GraphicsAllocation>)
    ensures forall a :: a in KmDafLockable(pack) <==> a in pack && IsKmDafLockable(a.allocationType)
    ensures |KmDafLockable(pack)| <= |pack|
    ensures forall a :: multiset(KmDafLockable(pack))[a] == if IsKmDafLockable(a.allocationType) then multiset(pack)[a] else 0
    decreases |pack|
  {
    if |pack| > 0 {
      var init := pack[..|pack| - 1];
      KmDafLockableSpec(init);
      assert pack == init + [pack[|pack| - 1]];
    }
  }

  /** One lock for a linear stream or a fill pattern, none for a buffer. */
  lemma KmDafLockExamples(handle: nat, gpuAddress: nat)
    ensures |KmDafLockable([GraphicsAllocation(handle, LinearStream, gpuAddress)])| == 1
    ensures |KmDafLockable([GraphicsAllocation(handle, FillPattern, gpuAddress)])| == 1
    ensures KmDafLockable([GraphicsAllocation(handle, Buffer, gpuAddress)]) == []
  {
    assert [GraphicsAllocation(handle, LinearStream, gpuAddress)][..0] == [];
    assert [GraphicsAllocation(handle, FillPattern, gpuAddress)][..0] == [];
    assert [GraphicsAllocation(handle, Buffer, gpuAddress)][..0] == [];
  }

  // ---------------------------------------------------------------------------
  // Residency effect of flush, flushTask and flushBatchedSubmissions
  // ---------------------------------------------------------------------------

  /** What flush leaves in the memory manager, and the pack it makes resident. */
  datatype FlushEffect = FlushEffect(residency: ResidencyState, allocationsForResidency: seq<GraphicsAllocation>)

  /**
   * Immediate dispatch makes the command buffer resident through the residency
   * list; batched dispatch appends it to the caller's container and marks it for
   * the current task count.  Then the pack is made resident.
   */
  function FlushResidency(r: ResidencyState, mode: DispatchMode, batch: BatchBuffer,
                          container: Option<seq<GraphicsAllocation>>, taskCount: nat): (effect: FlushEffect)
    requires mode == BatchedDispatch ==> container.Some?
    ensures mode == BatchedDispatch ==>
              effect.allocationsForResidency == container.value + [batch.commandBufferAllocation]
    ensures mode == BatchedDispatch ==> batch.commandBufferAllocation in effect.residency.resident
    ensures effect.residency.resident == r.resident + SetOf(effect.allocationsForResidency)
    ensures mode == ImmediateDispatch && container.Some? ==> effect.allocationsForResidency == container.value
    ensures mode == ImmediateDispatch && container.None? && NotYetMarked(r, batch.commandBufferAllocation, taskCount) ==>
              effect.allocationsForResidency == r.residencyAllocations + [batch.commandBufferAllocation]
    ensures mode == ImmediateDispatch && container.None? && !NotYetMarked(r, batch.commandBufferAllocation, taskCount) ==>
              effect.allocationsForResidency == r.residencyAllocations
  {
    var cb := batch.commandBufferAllocation;
    var before := if mode == ImmediateDispatch then MakeResident(r, cb, taskCount)
                  else r.(residencyTaskCount := r.residencyTaskCount[cb := taskCount]);
    var pack := if mode == ImmediateDispatch then container.GetOr(before.residencyAllocations)
                else container.value + [cb];
    FlushEffect(ProcessResidency(before, pack), pack)
  }

  /**
   * The allocation is not yet marked resident for the submission after
   * `taskCount`: the condition under which makeResident appends it to the
   * residency list.
   */
  predicate NotYetMarked(r: ResidencyState, a: GraphicsAllocation, taskCount: nat)
  {
    a !in r.residencyTaskCount || r.residencyTaskCount[a] <= taskCount
  }

  /**
   * Immediate flush of a command buffer that is not resident, and either not yet
   * marked for this submission or already on the residency list (an earlier
   * makeResident): exactly one makeResident call reaches the OS, and the command
   * buffer is among its handles.
   */
  lemma ImmediateFlushMakesCommandBufferResident(r: ResidencyState, batch: BatchBuffer, taskCount: nat)
    requires batch.commandBufferAllocation !in r.resident
    requires NotYetMarked(r, batch.commandBufferAllocation, taskCount) || batch.commandBufferAllocation in r.residencyAllocations
    ensures var calls := FlushResidency(r, ImmediateDispatch, batch, None, taskCount).residency.makeResidentCalls;
            && |calls| == |r.makeResidentCalls| + 1
            && calls[..|r.makeResidentCalls|] == r.makeResidentCalls
            && batch.commandBufferAllocation in calls[|r.makeResidentCalls|]
  {
    var cb := batch.commandBufferAllocation;
    var before := MakeResident(r, cb, taskCount);
    var pack := before.residencyAllocations;
    assert pack == r.residencyAllocations + [cb] || pack == r.residencyAllocations;
    assert cb in pack;
    ResidencyHandlesSpec(pack, before.resident);
    assert cb in ResidencyHandles(pack, before.resident);
  }

  /**
   * The test's sequence: makeResident of a command buffer not yet marked, then an
   * immediate flush.  The flush still makes it resident in exactly one OS call.
   */
  lemma MakeResidentThenImmediateFlush(r: ResidencyState, batch: BatchBuffer, taskCount: nat)
    requires batch.commandBufferAllocation !in r.resident
    requires NotYetMarked(r, batch.commandBufferAllocation, taskCount)
    ensures var marked := MakeResident(r, batch.commandBufferAllocation, taskCount);
            var calls := FlushResidency(marked, ImmediateDispatch, batch, None, taskCount).residency.makeResidentCalls;
            && !NotYetMarked(marked, batch.commandBufferAllocation, taskCount)
            && |calls| == |r.makeResidentCalls| + 1
            && batch.commandBufferAllocation in calls[|r.makeResidentCalls|]
  {
    ImmediateFlushMakesCommandBufferResident(MakeResident(r, batch.commandBufferAllocation, taskCount), batch, taskCount);
  }

  /**
   * makeResident on each allocation of a list, in order: the residency list only
   * grows at its end, and neither the OS residency, the trim list nor the
   * evictable flags move.
   */
  function MakeResidentAll(r: ResidencyState, allocations: seq<GraphicsAllocation>, taskCount: nat): (t: ResidencyState)
    ensures r.residencyAllocations <= t.residencyAllocations
    ensures |t.residencyAllocations| <= |r.residencyAllocations| + |allocations|
    ensures t.resident == r.resident && t.trimCandidateList == r.trimCandidateList && t.nonEvictable == r.nonEvictable
    decreases |allocations|
  {
    if |allocations| == 0 then r
    else MakeResident(MakeResidentAll(r, allocations[..|allocations| - 1], taskCount), allocations[|allocations| - 1], taskCount)
  }

  lemma MakeResidentAllSnoc(r: ResidencyState, allocations: seq<GraphicsAllocation>, a: GraphicsAllocation, taskCount: nat)
    ensures MakeResidentAll(r, allocations + [a], taskCount) == MakeResident(MakeResidentAll(r, allocations, taskCount), a, taskCount)
  {
    assert (allocations + [a])[..|allocations|] == allocations;
  }

  /** Every allocation a list makes resident is marked for the next task count. */
  lemma {:induction false} MakeResidentAllMarks(r: ResidencyState, allocations: seq<GraphicsAllocation>, taskCount: nat)
    ensures forall a :: a in allocations ==>
              a in MakeResidentAll(r, allocations, taskCount).residencyTaskCount
              && MakeResidentAll(r, allocations, taskCount).residencyTaskCount[a] == taskCount + 1
    ensures r.residencyAllocations <= MakeResidentAll(r, allocations, taskCount).residencyAllocations
    decreases |allocations|
  {
    if |allocations| > 0 {
      var init := allocations[..|allocations| - 1];
      MakeResidentAllMarks(r, init, taskCount);
      assert allocations == init + [allocations[|allocations| - 1]];
    }
  }

  /** The surfaces of flushTask: tag, task stream and the three heaps; the dynamic and indirect heaps turn non-evictable. */
  function TaskResidency(r: ResidencyState, tag: GraphicsAllocation, taskStream: GraphicsAllocation,
                         dsh: GraphicsAllocation, ioh: GraphicsAllocation, ssh: GraphicsAllocation, taskCount: nat): (t: ResidencyState)
    ensures dsh in t.nonEvictable && ioh in t.nonEvictable
    ensures r.nonEvictable <= t.nonEvictable
    ensures r.residencyAllocations <= t.residencyAllocations
  {
    var made := MakeResidentAll(r, [tag, taskStream, dsh, ioh, ssh], taskCount);
    made.(nonEvictable := made.nonEvictable + {dsh} + {ioh})
  }

  /** The surfaces of all queued command buffers, in queue order: the pack flushBatchedSubmissions makes resident. */
  function QueuedSurfaces(queue: seq<CommandBuffer>): seq<GraphicsAllocation>
    decreases |queue|
  {
    if |queue| == 0 then [] else QueuedSurfaces(queue[..|queue| - 1]) + queue[|queue| - 1].surfaces
  }

  /**
   * The batched flushTask scenario: the flushed pack leaves the tag, task stream,
   * surface heap and receiver command stream as trim candidates but not the
   * non-evictable dynamic and indirect heaps.
   */
  lemma BatchedFlushTrimsEvictableSurfaces(r: ResidencyState, tag: GraphicsAllocation, taskStream: GraphicsAllocation,
                                           dsh: GraphicsAllocation, ioh: GraphicsAllocation, ssh: GraphicsAllocation,
                                           csrStream: GraphicsAllocation, taskCount: nat)
    requires r.residencyAllocations == [] && r.evictionAllocations == [] && r.trimCandidateList == []
    requires r.residencyTaskCount == map[] && r.nonEvictable == {}
    ensures var queued := TaskResidency(r, tag, taskStream, dsh, ioh, ssh, taskCount);
            var batch := BatchBuffer(csrStream, 0, true, Medium);
            var flushed := FlushResidency(queued.(residencyAllocations := []), BatchedDispatch, batch,
                                          Some(queued.residencyAllocations), taskCount + 1);
            var released := MakeSurfacePackNonResident(flushed.residency, Some(flushed.allocationsForResidency));
            && (forall a :: a in [tag, taskStream, ssh, csrStream] && a != dsh && a != ioh ==> a in released.trimCandidateList)
            && dsh !in released.trimCandidateList && ioh !in released.trimCandidateList
            && released.evictionAllocations == []
  {
    var queued := TaskResidency(r, tag, taskStream, dsh, ioh, ssh, taskCount);
    TaskResidencyFacts(r, tag, taskStream, dsh, ioh, ssh, taskCount);
    BatchedFlushOfTaskSurfaces(queued, tag, taskStream, dsh, ioh, ssh, csrStream, taskCount + 1);
  }

  /** The batched flush and release of a queue holding flushTask's surfaces. */
  lemma BatchedFlushOfTaskSurfaces(queued: ResidencyState, tag: GraphicsAllocation, taskStream: GraphicsAllocation,
                                   dsh: GraphicsAllocation, ioh: GraphicsAllocation, ssh: GraphicsAllocation,
                                   csrStream: GraphicsAllocation, taskCount: nat)
    requires queued.trimCandidateList == [] && queued.evictionAllocations == []
    requires queued.nonEvictable == {dsh, ioh}
    requires forall a :: a in [tag, taskStream, dsh, ioh, ssh] ==>
               a in queued.residencyTaskCount && a in queued.residencyAllocations
    ensures var batch := BatchBuffer(csrStream, 0, true, Medium);
            var flushed := FlushResidency(queued.(residencyAllocations := []), BatchedDispatch, batch,
                                          Some(queued.residencyAllocations), taskCount);
            var released := MakeSurfacePackNonResident(flushed.residency, Some(flushed.allocationsForResidency));
            && (forall a :: a in [tag, taskStream, ssh, csrStream] && a != dsh && a != ioh ==> a in released.trimCandidateList)
            && dsh !in released.trimCandidateList && ioh !in released.trimCandidateList
            && released.evictionAllocations == []
  {
    var batch := BatchBuffer(csrStream, 0, true, Medium);
    BatchedFlushReleases(queued, batch, taskCount);
    var flushed := FlushResidency(queued.(residencyAllocations := []), BatchedDispatch, batch,
                                  Some(queued.residencyAllocations), taskCount);
    var released := MakeSurfacePackNonResident(flushed.residency, Some(flushed.allocationsForResidency));
    TaskPackTrimCandidates(released.trimCandidateList, queued, tag, taskStream, dsh, ioh, ssh, csrStream);
  }

  /** The trim candidates a released task pack leaves, read off the characterisation of BatchedFlushReleases. */
  lemma TaskPackTrimCandidates(trim: seq<GraphicsAllocation>, queued: ResidencyState, tag: GraphicsAllocation,
                               taskStream: GraphicsAllocation, dsh: GraphicsAllocation, ioh: GraphicsAllocation,
                               ssh: GraphicsAllocation, commandBuffer: GraphicsAllocation)
    requires forall a :: a in trim <==>
               ((a in queued.residencyAllocations && a in queued.residencyTaskCount) || a == commandBuffer)
               && a !in queued.nonEvictable
    requires queued.nonEvictable == {dsh, ioh}
    requires forall a :: a in [tag, taskStream, dsh, ioh, ssh] ==>
               a in queued.residencyTaskCount && a in queued.residencyAllocations
    ensures forall a :: a in [tag, taskStream, ssh, commandBuffer] && a != dsh && a != ioh ==> a in trim
    ensures dsh !in trim && ioh !in trim
  {
    forall a | a in [tag, taskStream, ssh, commandBuffer] && a != dsh && a != ioh
      ensures a in trim
    {
      assert a == commandBuffer || a in [tag, taskStream, dsh, ioh, ssh];
    }
  }

  /**
   * A batched flush of a queued pack, followed by its release, leaves as trim
   * candidates exactly the evictable members of the pack that were resident,
   * and the command buffer if it is evictable.
   */
  lemma BatchedFlushReleases(queued: ResidencyState, batch: BatchBuffer, taskCount: nat)
    requires queued.trimCandidateList == [] && queued.evictionAllocations == []
    ensures var flushed := FlushResidency(queued.(residencyAllocations := []), BatchedDispatch, batch,
                                          Some(queued.residencyAllocations), taskCount);
            var released := MakeSurfacePackNonResident(flushed.residency, Some(flushed.allocationsForResidency));
            && released.evictionAllocations == []
            && forall a :: a in released.trimCandidateList <==>
                 ((a in queued.residencyAllocations && a in queued.residencyTaskCount) || a == batch.commandBufferAllocation)
                 && a !in queued.nonEvictable
  {
    var flushed := FlushResidency(queued.(residencyAllocations := []), BatchedDispatch, batch,
                                  Some(queued.residencyAllocations), taskCount);
    var pack := flushed.allocationsForResidency;
    assert pack == queued.residencyAllocations + [batch.commandBufferAllocation];
    RemoveAllFromTrimCandidateListSpec(queued.trimCandidateList, pack);
    assert flushed.residency.trimCandidateList == [];
    assert flushed.residency.residencyTaskCount == queued.residencyTaskCount[batch.commandBufferAllocation := taskCount];
    ReleasedTrimCandidates(flushed.residency, pack);
  }

  /** What flushTask's residency step leaves behind, starting from nothing resident. */
  lemma TaskResidencyFacts(r: ResidencyState, tag: GraphicsAllocation, taskStream: GraphicsAllocation,
                           dsh: GraphicsAllocation, ioh: GraphicsAllocation, ssh: GraphicsAllocation, taskCount: nat)
    requires r.residencyAllocations == [] && r.evictionAllocations == [] && r.trimCandidateList == []
    requires r.residencyTaskCount == map[] && r.nonEvictable == {}
    ensures var queued := TaskResidency(r, tag, taskStream, dsh, ioh, ssh, taskCount);
            && queued.nonEvictable == {dsh, ioh}
            && queued.trimCandidateList == [] && queued.evictionAllocations == []
            && (forall a :: a in [tag, taskStream, dsh, ioh, ssh] ==> a in queued.residencyTaskCount)
            && (forall a :: a in [tag, taskStream, dsh, ioh, ssh] ==> a in queued.residencyAllocations)
  {
    var surfaces := [tag, taskStream, dsh, ioh, ssh];
    MakeResidentAllMarks(r, surfaces, taskCount);
    MakeResidentAllTrim(r, surfaces, taskCount);
    MakeResidentAllEviction(r, surfaces, taskCount);
    MakeResidentAllEvictable(r, surfaces, taskCount);
    MakeResidentAllListed(r, surfaces, taskCount);
  }

  /** An allocation new to the residency marks is listed when made resident. */
  lemma {:induction false} MakeResidentAllListed(r: ResidencyState, allocations: seq<GraphicsAllocation>, taskCount: nat)
    requires r.residencyTaskCount == map[]
    ensures forall a :: a in allocations ==> a in MakeResidentAll(r, allocations, taskCount).residencyAllocations
    decreases |allocations|
  {
    if |allocations| > 0 {
      var init := allocations[..|allocations| - 1];
      var last := allocations[|allocations| - 1];
      MakeResidentAllListed(r, init, taskCount);
      MakeResidentAllMarked(r, init, taskCount, last);
      assert allocations == init + [last];
    }
  }

  /** The residency marks after makeResident on a list are those of the list's members. */
  lemma {:induction false} MakeResidentAllMarked(r: ResidencyState, allocations: seq<GraphicsAllocation>, taskCount: nat, a: GraphicsAllocation)
    requires r.residencyTaskCount == map[]
    ensures a in MakeResidentAll(r, allocations, taskCount).residencyTaskCount ==>
              a in allocations && MakeResidentAll(r, allocations, taskCount).residencyTaskCount[a] == taskCount + 1
    decreases |allocations|
  {
    if |allocations| > 0 {
      var init := allocations[..|allocations| - 1];
      MakeResidentAllMarked(r, init, taskCount, a);
      assert allocations == init + [allocations[|allocations| - 1]];
    }
  }

  /** makeResident never touches the trim list. */
  lemma {:induction false} MakeResidentAllTrim(r: ResidencyState, allocations: seq<GraphicsAllocation>, taskCount: nat)
    ensures MakeResidentAll(r, allocations, taskCount).trimCandidateList == r.trimCandidateList
    decreases |allocations|
  {
    if |allocations| > 0 {
      MakeResidentAllTrim(r, allocations[..|allocations| - 1], taskCount);
    }
  }

  /** makeResident never touches the eviction list. */
  lemma {:induction false} MakeResidentAllEviction(r: ResidencyState, allocations: seq<GraphicsAllocation>, taskCount: nat)
    ensures MakeResidentAll(r, allocations, taskCount).evictionAllocations == r.evictionAllocations
    decreases |allocations|
  {
    if |allocations| > 0 {
      MakeResidentAllEviction(r, allocations[..|allocations| - 1], taskCount);
    }
  }

  /** makeResident never touches the evictable flags. */
  lemma {:induction false} MakeResidentAllEvictable(r: ResidencyState, allocations: seq<GraphicsAllocation>, taskCount: nat)
    ensures MakeResidentAll(r, allocations, taskCount).nonEvictable == r.nonEvictable
    decreases |allocations|
  {
    if |allocations| > 0 {
      MakeResidentAllEvictable(r, allocations[..|allocations| - 1], taskCount);
    }
  }

  /**
   * Making a pack non-resident evicts exactly its resident, evictable members,
   * after whatever the eviction list already held.
   */
  lemma {:induction false} MakeNonResidentAllEvicts(r: ResidencyState, pack: seq<GraphicsAllocation>)
    ensures forall a :: a in MakeNonResidentAll(r, pack).evictionAllocations <==>
              a in r.evictionAllocations || (a in pack && a in r.residencyTaskCount && a !in r.nonEvictable)
    decreases |pack|
  {
    if |pack| > 0 {
      var init := pack[..|pack| - 1];
      var last := pack[|pack| - 1];
      MakeNonResidentAllEvicts(r, init);
      MakeNonResidentAllSpec(r, init);
      NonEvictableOnlyShrinks(r, init);
      assert pack == init + [last];
      var mid := MakeNonResidentAll(r, init);
      assert MakeNonResidentAll(r, pack) == MakeNonResident(mid, last);
      assert last in mid.residencyTaskCount <==> last in r.residencyTaskCount && last !in init;
      if last !in init {
        NonEvictableKeptOutsidePack(r, init, last);
      }
    }
  }

  /** The evictable flag of an allocation outside the pack does not change. */
  lemma {:induction false} NonEvictableKeptOutsidePack(r: ResidencyState, pack: seq<GraphicsAllocation>, a: GraphicsAllocation)
    requires a !in pack
    ensures a in MakeNonResidentAll(r, pack).nonEvictable <==> a in r.nonEvictable
    decreases |pack|
  {
    if |pack| > 0 {
      var init := pack[..|pack| - 1];
      assert pack == init + [pack[|pack| - 1]];
      NonEvictableKeptOutsidePack(r, init, a);
    }
  }

  /**
   * Releasing a container with an empty eviction list leaves as trim candidates
   * the earlier candidates and exactly the container's resident, evictable members.
   */
  lemma ReleasedTrimCandidates(r: ResidencyState, pack: seq<GraphicsAllocation>)
    requires NoDuplicates(r.trimCandidateList)
    requires r.evictionAllocations == []
    ensures var released := MakeSurfacePackNonResident(r, Some(pack));
            && released.evictionAllocations == []
            && forall a :: a in released.trimCandidateList <==>
                 a in r.trimCandidateList || (a in pack && a in r.residencyTaskCount && a !in r.nonEvictable)
  {
    var afterPack := MakeNonResidentAll(r, pack);
    MakeNonResidentAllEvicts(r, pack);
    MakeNonResidentAllSpec(r, pack);
    AddAllToTrimCandidateListSpec(afterPack.trimCandidateList, afterPack.evictionAllocations);
  }

  lemma {:induction false} NonEvictableOnlyShrinks(r: ResidencyState, pack: seq<GraphicsAllocation>)
    ensures MakeNonResidentAll(r, pack).nonEvictable <= r.nonEvictable
    decreases |pack|
  {
    if |pack| > 0 {
      NonEvictableOnlyShrinks(r, pack[..|pack| - 1]);
    }
  }

  // ---------------------------------------------------------------------------
  // The receiver
  // ---------------------------------------------------------------------------

  class WddmCommandStreamReceiver {
    const memoryManager: WddmMemoryManager
    const gtSystemInfo: GtSystemInfo
    const kmDafEnabled: bool
    const tagAllocation: GraphicsAllocation
    /** The receiver's own command stream, which batched command buffers are built in. */
    const commandStreamAllocation: GraphicsAllocation
    var dispatchMode: DispatchMode
    var taskCount: nat
    var commandBufferHeader: CommandBufferHeader
    /** The allocations passed to the KmDaf lock call, one entry per call. */
    var kmDafLockedAllocations: seq<GraphicsAllocation>
    var submissions: seq<Submission>
    /** The monitored fence of the OS context. */
    var currentFenceValue: nat
    var lastSubmittedFence: nat
    /** The submission aggregator's queue of held-back command buffers. */
    var commandBufferList: seq<CommandBuffer>

    ghost predicate Valid()
      reads this, memoryManager
    {
      && memoryManager.Valid()
      && gtSystemInfo.subSliceCount > 0
      && taskCount < TaskCountMax
      && currentFenceValue == lastSubmittedFence + 1
    }

    /**
     * The dispatch mode is the debug override when one is set, batched otherwise;
     * the header asks for mid-batch preemption support for a mid-thread default.
     */
    constructor (memoryManager: WddmMemoryManager, gtSystemInfo: GtSystemInfo, preemptionMode: PreemptionMode,
                 dispatchModeOverride: Option<DispatchMode>, kmDafEnabled: bool,
                 tagAllocation: GraphicsAllocation, commandStreamAllocation: GraphicsAllocation)
      requires memoryManager.Valid() && gtSystemInfo.subSliceCount > 0
      ensures Valid()
      ensures this.memoryManager == memoryManager && this.gtSystemInfo == gtSystemInfo
      ensures this.kmDafEnabled == kmDafEnabled
      ensures this.tagAllocation == tagAllocation && this.commandStreamAllocation == commandStreamAllocation
      ensures dispatchMode == dispatchModeOverride.GetOr(BatchedDispatch)
      ensures commandBufferHeader == InitialHeader(preemptionMode)
      ensures taskCount == 0 && submissions == [] && kmDafLockedAllocations == [] && commandBufferList == []
      ensures currentFenceValue == 1 && lastSubmittedFence == 0
    {
      this.memoryManager := memoryManager;
      this.gtSystemInfo := gtSystemInfo;
      this.kmDafEnabled := kmDafEnabled;
      this.tagAllocation := tagAllocation;
      this.commandStreamAllocation := commandStreamAllocation;
      dispatchMode := dispatchModeOverride.GetOr(BatchedDispatch);
      taskCount := 0;
      commandBufferHeader := InitialHeader(preemptionMode);
      kmDafLockedAllocations := [];
      submissions := [];
      currentFenceValue := 1;
      lastSubmittedFence := 0;
      commandBufferList := [];
    }

    method OverrideDispatchPolicy(mode: DispatchMode)
      modifies this`dispatchMode
      ensures dispatchMode == mode
    {
      dispatchMode := mode;
    }

    /** makeResident for the next submission: the allocation is only listed and marked; the OS is not called. */
    method MakeResident(a: GraphicsAllocation)
      requires Valid()
      modifies memoryManager
      ensures Valid()
      ensures memoryManager.State() == WddmResidency.MakeResident(old(memoryManager.State()), a, taskCount)
      ensures memoryManager.makeResidentCalls == old(memoryManager.makeResidentCalls)
    {
      var submissionTaskCount := taskCount + 1;
      if a !in memoryManager.residencyTaskCount || memoryManager.residencyTaskCount[a] < submissionTaskCount {
        memoryManager.PushAllocationForResidency(a);
        memoryManager.SetTaskCount(a, submissionTaskCount);
      }
      memoryManager.SetResidencyTaskCount(a, submissionTaskCount);
    }

    /** makeNonResident. */
    method MakeNonResident(a: GraphicsAllocation)
      requires Valid()
      modifies memoryManager
      ensures Valid()
      ensures memoryManager.State() == WddmResidency.MakeNonResident(old(memoryManager.State()), a)
    {
      if a in memoryManager.residencyTaskCount {
        if a !in memoryManager.nonEvictable {
          memoryManager.PushAllocationForEviction(a);
        } else {
          memoryManager.SetEvictable(a, true);
        }
      }
      memoryManager.MarkNonResident(a);
    }

    method ProcessEviction()
      requires Valid()
      modifies memoryManager
      ensures Valid()
      ensures memoryManager.State() == WddmResidency.ProcessEviction(old(memoryManager.State()))
    {
      memoryManager.MakeNonResidentEvictionAllocations();
    }

    /** processResidency of the given container, or of the residency list. */
    method ProcessResidency(container: Option<seq<GraphicsAllocation>>)
      requires Valid()
      modifies memoryManager
      ensures Valid()
      ensures memoryManager.State()
              == WddmResidency.ProcessResidency(old(memoryManager.State()), container.GetOr(old(memoryManager.residencyAllocations)))
    {
      memoryManager.MakeResidentResidencyAllocations(container.GetOr(memoryManager.residencyAllocations));
    }

    /** makeSurfacePackNonResident of the given container, or of the residency list. */
    method MakeSurfacePackNonResident(container: Option<seq<GraphicsAllocation>>)
      requires Valid()
      modifies memoryManager
      ensures Valid()
      ensures memoryManager.State() == WddmResidency.MakeSurfacePackNonResident(old(memoryManager.State()), container)
    {
      var pack := container.GetOr(memoryManager.residencyAllocations);
      var i := 0;
      while i < |pack|
        invariant 0 <= i <= |pack|
        invariant Valid()
        invariant memoryManager.State() == MakeNonResidentAll(old(memoryManager.State()), pack[..i])
      {
        assert pack[..i + 1][..i] == pack[..i];
        MakeNonResident(pack[i]);
        i := i + 1;
      }
      assert pack[..i] == pack;
      if container.None? {
        memoryManager.ClearResidencyAllocations();
      }
      ProcessEviction();
    }

    /** kmDafLockAllocations: lock each linear stream and fill pattern of the pack. */
    method KmDafLockAllocations(container: Option<seq<GraphicsAllocation>>)
      modifies this`kmDafLockedAllocations
      ensures kmDafLockedAllocations
              == old(kmDafLockedAllocations) + KmDafLockable(container.GetOr(memoryManager.residencyAllocations))
    {
      var pack := container.GetOr(memoryManager.residencyAllocations);
      var i := 0;
      while i < |pack|
        invariant 0 <= i <= |pack|
        invariant kmDafLockedAllocations == old(kmDafLockedAllocations) + KmDafLockable(pack[..i])
      {
        assert pack[..i + 1][..i] == pack[..i];
        if IsKmDafLockable(pack[i].allocationType) {
          kmDafLockedAllocations := kmDafLockedAllocations + [pack[i]];
        }
        i := i + 1;
      }
      assert pack[..i] == pack;
    }

    /** The WDDM submit: record the call and advance the monitored fence. */
    method Submit(commandBufferAddress: nat) returns (flushStamp: nat)
      requires Valid()
      modifies this`submissions, this`lastSubmittedFence, this`currentFenceValue
      ensures Valid()
      ensures submissions == old(submissions) + [Submission(commandBufferAddress, commandBufferHeader)]
      ensures lastSubmittedFence == old(currentFenceValue) && currentFenceValue == old(currentFenceValue) + 1
      ensures flushStamp == lastSubmittedFence
    {
      submissions := submissions + [Submission(commandBufferAddress, commandBufferHeader)];
      lastSubmittedFence := currentFenceValue;
      currentFenceValue := currentFenceValue + 1;
      flushStamp := lastSubmittedFence;
    }

    /** The residency part of flush: the command buffer joins the pack, and the pack is made resident. */
    method MakeBatchResident(batch: BatchBuffer, container: Option<seq<GraphicsAllocation>>)
      returns (allocationsForResidency: Option<seq<GraphicsAllocation>>)
      requires Valid()
      requires dispatchMode == BatchedDispatch ==> container.Some?
      modifies memoryManager
      ensures Valid()
      ensures var effect := FlushResidency(old(memoryManager.State()), dispatchMode, batch, container, taskCount);
              && memoryManager.State() == effect.residency
              && allocationsForResidency.GetOr(memoryManager.residencyAllocations) == effect.allocationsForResidency
              && allocationsForResidency == (if dispatchMode == BatchedDispatch then Some(effect.allocationsForResidency) else container)
    {
      var cb := batch.commandBufferAllocation;
      if dispatchMode == ImmediateDispatch {
        MakeResident(cb);
        allocationsForResidency := container;
      } else {
        allocationsForResidency := Some(container.value + [cb]);
        memoryManager.SetResidencyTaskCount(cb, taskCount);
      }
      ProcessResidency(allocationsForResidency);
    }

    /**
     * flush: make the batch's allocations resident, fill in the header, lock the
     * KmDaf allocations when KmDaf is on, and submit once at the batch's address.
     * The returned stamp is the fence value the submission was made with.  In
     * batched dispatch the caller's container comes back with the command
     * buffer appended.
     */
    method Flush(batch: BatchBuffer, container: Option<seq<GraphicsAllocation>>)
      returns (flushStamp: nat, allocationsForResidency: Option<seq<GraphicsAllocation>>)
      requires Valid()
      requires dispatchMode == BatchedDispatch ==> container.Some?
      modifies this`submissions, this`lastSubmittedFence, this`currentFenceValue, this`commandBufferHeader,
               this`kmDafLockedAllocations, memoryManager
      ensures Valid()
      ensures var effect := FlushResidency(old(memoryManager.State()), dispatchMode, batch, container, taskCount);
              && memoryManager.State() == effect.residency
              && allocationsForResidency == (if dispatchMode == BatchedDispatch then Some(effect.allocationsForResidency) else container)
              && kmDafLockedAllocations
                 == old(kmDafLockedAllocations) + (if kmDafEnabled then KmDafLockable(effect.allocationsForResidency) else [])
      ensures commandBufferHeader == SubmitHeader(old(commandBufferHeader), batch, gtSystemInfo)
      ensures submissions == old(submissions) + [Submission(SubmitAddress(batch), commandBufferHeader)]
      ensures flushStamp == lastSubmittedFence == old(currentFenceValue)
      ensures currentFenceValue == old(currentFenceValue) + 1
    {
      allocationsForResidency := MakeBatchResident(batch, container);
      flushStamp := LockAndSubmit(batch, allocationsForResidency);
    }

    /**
     * The submit part of flush: fill in the header for the batch, lock the
     * KmDaf allocations of the pack when KmDaf is on, and submit once at the
     * batch's address.
     */
    method LockAndSubmit(batch: BatchBuffer, pack: Option<seq<GraphicsAllocation>>) returns (flushStamp: nat)
      requires Valid()
      modifies this`submissions, this`lastSubmittedFence, this`currentFenceValue, this`commandBufferHeader,
               this`kmDafLockedAllocations
      ensures Valid()
      ensures kmDafLockedAllocations
              == old(kmDafLockedAllocations)
                 + (if kmDafEnabled then KmDafLockable(pack.GetOr(memoryManager.residencyAllocations)) else [])
      ensures commandBufferHeader == SubmitHeader(old(commandBufferHeader), batch, gtSystemInfo)
      ensures submissions == old(submissions) + [Submission(SubmitAddress(batch), commandBufferHeader)]
      ensures flushStamp == lastSubmittedFence == old(currentFenceValue)
      ensures currentFenceValue == old(currentFenceValue) + 1
    {
      var commandStreamAddress := SubmitAddress(batch);
      commandBufferHeader := SubmitHeader(commandBufferHeader, batch, gtSystemInfo);
      if kmDafEnabled {
        KmDafLockAllocations(pack);
      }
      flushStamp := Submit(commandStreamAddress);
    }

    /** The surfaces of flushTask made resident; the dynamic and indirect heaps are kept from eviction. */
    method MakeTaskSurfacesResident(taskStream: GraphicsAllocation, dsh: GraphicsAllocation, ioh: GraphicsAllocation,
                                    ssh: GraphicsAllocation)
      requires Valid()
      modifies memoryManager
      ensures Valid()
      ensures memoryManager.State() == TaskResidency(old(memoryManager.State()), tagAllocation, taskStream, dsh, ioh, ssh, taskCount)
    {
      ghost var before := memoryManager.State();
      var surfaces := [tagAllocation, taskStream, dsh, ioh, ssh];
      var i := 0;
      while i < |surfaces|
        invariant 0 <= i <= |surfaces|
        invariant Valid()
        invariant memoryManager.State() == MakeResidentAll(before, surfaces[..i], taskCount)
      {
        MakeResidentAllSnoc(before, surfaces[..i], surfaces[i], taskCount);
        assert surfaces[..i + 1] == surfaces[..i] + [surfaces[i]];
        MakeResident(surfaces[i]);
        i := i + 1;
      }
      assert surfaces[..i] == surfaces;
      memoryManager.SetEvictable(dsh, false);
      memoryManager.SetEvictable(ioh, false);
    }

    /** Batched dispatch: the command buffer is held back with the residency list, which it takes over. */
    method QueueCommandBuffer(batch: BatchBuffer)
      requires Valid()
      modifies this`commandBufferList, memoryManager
      ensures Valid()
      ensures commandBufferList == old(commandBufferList) + [CommandBuffer(batch, old(memoryManager.residencyAllocations))]
      ensures memoryManager.State() == old(memoryManager.State()).(residencyAllocations := [])
    {
      commandBufferList := commandBufferList + [CommandBuffer(batch, memoryManager.residencyAllocations)];
      memoryManager.ClearResidencyAllocations();
    }

    /** Immediate dispatch: flush the batch and release the residency list at once. */
    method FlushImmediately(batch: BatchBuffer)
      requires Valid() && dispatchMode == ImmediateDispatch
      modifies this`submissions, this`lastSubmittedFence, this`currentFenceValue, this`commandBufferHeader,
               this`kmDafLockedAllocations, memoryManager
      ensures Valid()
      ensures var effect := FlushResidency(old(memoryManager.State()), ImmediateDispatch, batch, None, taskCount);
              && memoryManager.State() == WddmResidency.MakeSurfacePackNonResident(effect.residency, None)
              && kmDafLockedAllocations
                 == old(kmDafLockedAllocations) + (if kmDafEnabled then KmDafLockable(effect.allocationsForResidency) else [])
      ensures commandBufferHeader == SubmitHeader(old(commandBufferHeader), batch, gtSystemInfo)
      ensures submissions == old(submissions) + [Submission(SubmitAddress(batch), commandBufferHeader)]
      ensures lastSubmittedFence == old(currentFenceValue) && currentFenceValue == old(currentFenceValue) + 1
    {
      var flushStamp, pack := Flush(batch, None);
      MakeSurfacePackNonResident(None);
    }

    /**
     * flushTask, as far as residency and dispatch go: the tag, the task stream and
     * the three heaps are made resident; in immediate dispatch the receiver's
     * command stream is flushed and the pack released at once, in batched
     * dispatch the command buffer is queued with the residency list, which
     * empties.  The task count advances either way.
     */
    method FlushTask(taskStream: GraphicsAllocation, dsh: GraphicsAllocation, ioh: GraphicsAllocation, ssh: GraphicsAllocation,
                     startOffset: nat, requiresCoherency: bool, throttle: QueueThrottle)
      returns (completionTaskCount: nat)
      requires Valid()
      requires taskCount + 1 < TaskCountMax
      modifies this`taskCount, this`commandBufferList, this`submissions, this`lastSubmittedFence, this`currentFenceValue,
               this`commandBufferHeader, this`kmDafLockedAllocations, memoryManager
      ensures Valid()
      ensures completionTaskCount == taskCount == old(taskCount) + 1
      ensures dispatchMode == old(dispatchMode)
      ensures var batch := BatchBuffer(commandStreamAllocation, startOffset, requiresCoherency, throttle);
              var queued := TaskResidency(old(memoryManager.State()), tagAllocation, taskStream, dsh, ioh, ssh, old(taskCount));
              if dispatchMode == BatchedDispatch then
                && commandBufferList == old(commandBufferList) + [CommandBuffer(batch, queued.residencyAllocations)]
                && memoryManager.State() == queued.(residencyAllocations := [])
                && submissions == old(submissions)
                && unchanged(this`commandBufferHeader, this`lastSubmittedFence, this`currentFenceValue, this`kmDafLockedAllocations)
              else
                var effect := FlushResidency(queued, ImmediateDispatch, batch, None, old(taskCount));
                && commandBufferList == old(commandBufferList)
                && memoryManager.State() == WddmResidency.MakeSurfacePackNonResident(effect.residency, None)
                && commandBufferHeader == SubmitHeader(old(commandBufferHeader), batch, gtSystemInfo)
                && submissions == old(submissions) + [Submission(SubmitAddress(batch), commandBufferHeader)]
                && lastSubmittedFence == old(currentFenceValue) && currentFenceValue == old(currentFenceValue) + 1
                && kmDafLockedAllocations
                   == old(kmDafLockedAllocations) + (if kmDafEnabled then KmDafLockable(effect.allocationsForResidency) else [])
    {
      MakeTaskSurfacesResident(taskStream, dsh, ioh, ssh);
      var batch := BatchBuffer(commandStreamAllocation, startOffset, requiresCoherency, throttle);
      if dispatchMode == BatchedDispatch {
        QueueCommandBuffer(batch);
      } else {
        FlushImmediately(batch);
      }
      taskCount := taskCount + 1;
      completionTaskCount := taskCount;
    }

    /**
     * flushBatchedSubmissions: in batched dispatch, the queued command buffers go
     * to the GPU as one submission of the first buffer with the surfaces of all of
     * them, the pack is released and the queue is empty.  Immediate dispatch has
     * nothing queued and does nothing.
     */
    method FlushBatchedSubmissions()
      requires Valid()
      modifies this`submissions, this`lastSubmittedFence, this`currentFenceValue, this`commandBufferHeader,
               this`kmDafLockedAllocations, this`commandBufferList, memoryManager
      ensures Valid()
      ensures old(dispatchMode) == ImmediateDispatch || old(commandBufferList) == [] ==>
                && submissions == old(submissions) && commandBufferList == old(commandBufferList)
                && memoryManager.State() == old(memoryManager.State())
                && unchanged(this`commandBufferHeader, this`lastSubmittedFence, this`currentFenceValue, this`kmDafLockedAllocations)
      ensures dispatchMode == BatchedDispatch && old(commandBufferList) != [] ==>
                var primary := old(commandBufferList)[0].batchBuffer;
                var effect := FlushResidency(old(memoryManager.State()), BatchedDispatch, primary,
                                             Some(QueuedSurfaces(old(commandBufferList))), taskCount);
                && commandBufferList == []
                && submissions == old(submissions) + [Submission(SubmitAddress(primary), commandBufferHeader)]
                && commandBufferHeader == SubmitHeader(old(commandBufferHeader), primary, gtSystemInfo)
                && commandBufferHeader.requiresCoherency == primary.requiresCoherency
                && lastSubmittedFence == old(currentFenceValue) && currentFenceValue == old(currentFenceValue) + 1
                && kmDafLockedAllocations
                   == old(kmDafLockedAllocations) + (if kmDafEnabled then KmDafLockable(effect.allocationsForResidency) else [])
                && memoryManager.State()
                   == WddmResidency.MakeSurfacePackNonResident(effect.residency, Some(effect.allocationsForResidency))
    {
      if dispatchMode == ImmediateDispatch || commandBufferList == [] {
        return;
      }
      var primary := commandBufferList[0].batchBuffer;
      var surfacesForSubmit := QueuedSurfaces(commandBufferList);
      var flushStamp, pack := Flush(primary, Some(surfacesForSubmit));
      MakeSurfacePackNonResident(pack);
      commandBufferList := [];
    }

    /**
     * waitForTaskCountAndCleanAllocationList: free the allocations of the given
     * list whose task count the GPU has reached; TaskCountMax frees them all.
     */
    method WaitForTaskCountAndCleanAllocationList(requiredTaskCount: nat, usage: AllocationUsage)
      requires Valid() && requiredTaskCount <= TaskCountMax
      modifies memoryManager
      ensures Valid()
      ensures memoryManager.State() == Reclaim(old(memoryManager.State()), requiredTaskCount, usage)
      ensures requiredTaskCount == TaskCountMax && usage == TemporaryAllocation ==>
                memoryManager.temporaryAllocations == [] && multiset(memoryManager.freedAllocations)
                == multiset(old(memoryManager.freedAllocations)) + multiset(old(memoryManager.temporaryAllocations))
      ensures requiredTaskCount == TaskCountMax && usage == ReusableAllocation ==>
                memoryManager.reusableAllocations == []
    {
      ghost var before := memoryManager.State();
      memoryManager.FreeAllocationsList(requiredTaskCount, usage);
      if requiredTaskCount == TaskCountMax {
        TaskCountsAreThirtyTwoBit(before, before.temporaryAllocations);
        TaskCountsAreThirtyTwoBit(before, before.reusableAllocations);
        ReclaimAllAtMax(before.temporaryAllocations, before.allocationTaskCount);
        ReclaimAllAtMax(before.reusableAllocations, before.allocationTaskCount);
      }
    }

    /**
     * createAllocationAndHandleResidency for a fresh allocation: make it resident
     * and, if asked (the default), defer its freeing.
     */
    method CreateAllocationAndHandleResidency(a: GraphicsAllocation, addToDeferFreeList: bool := true)
      requires Valid()
      modifies memoryManager
      ensures Valid()
      ensures var made := WddmResidency.MakeResident(old(memoryManager.State()), a, taskCount);
              memoryManager.State()
              == if addToDeferFreeList then made.(temporaryAllocations := made.temporaryAllocations + [a]) else made
    {
      MakeResident(a);
      if addToDeferFreeList {
        memoryManager.StoreAllocation(a, TemporaryAllocation);
      }
    }
  }

  lemma TaskCountsAreThirtyTwoBit(r: ResidencyState, list: seq<GraphicsAllocation>)
    requires ResidencyInvariant(r)
    ensures forall a :: a in list ==> TaskCountOf(r.allocationTaskCount, a) <= TaskCountMax
  {
  }
}
