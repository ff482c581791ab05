/**
 * Residency, eviction and reclamation bookkeeping of the WDDM memory manager.
 *
 * The memory manager keeps the list of allocations to make resident for the
 * next submission, the list of allocations to evict, and the trim-candidate
 * list the OS trims from under memory pressure.  Per-allocation attributes
 * (residency task count, task count, evictable, WDDM resident flag) live on the
 * allocation objects in the source; here they are maps and sets keyed by the
 * allocation.  Allocations whose last use is done are reclaimed from the
 * temporary and reusable lists by task count.
 *
 * The pure functions give each operation's meaning on a `ResidencyState`
 * value; the class `WddmMemoryManager` performs them in place.
 */
module WddmResidency {
  import opened Wrappers

  /** (uint32_t)-1: the task count of an allocation never used, and "reclaim everything". */
  const TaskCountMax: nat := 0xFFFF_FFFF
  /** (size_t)-1: trimCandidateListPosition of an allocation that is not a trim candidate. */
  const TrimListUnusedPosition: nat := 0xFFFF_FFFF_FFFF_FFFF

  datatype AllocationType = Unknown | Buffer | LinearStream | FillPattern

  /** A graphics allocation's identity: its WDDM handle, type and GPU address. */
  datatype GraphicsAllocation = GraphicsAllocation(handle: nat, allocationType: AllocationType, gpuAddress: nat)

  datatype AllocationUsage = TemporaryAllocation | ReusableAllocation

  datatype ResidencyState = ResidencyState(
    residencyAllocations: seq<GraphicsAllocation>,
    evictionAllocations: seq<GraphicsAllocation>,
    trimCandidateList: seq<GraphicsAllocation>,
    /** residencyTaskCount; an allocation without an entry is ObjectNotResident. */
    residencyTaskCount: map<GraphicsAllocation, nat>,
    /** taskCount; an allocation without an entry is ObjectNotUsed (TaskCountMax). */
    allocationTaskCount: map<GraphicsAllocation, nat>,
    /** Allocations whose evictable flag is cleared. */
    nonEvictable: set<GraphicsAllocation>,
    /** Allocations whose WDDM residency data says resident. */
    resident: set<GraphicsAllocation>,
    temporaryAllocations: seq<GraphicsAllocation>,
    reusableAllocations: seq<GraphicsAllocation>,
    freedAllocations: seq<GraphicsAllocation>,
    /** The handle packs passed to the OS makeResident call, one per call. */
    makeResidentCalls: seq<seq<GraphicsAllocation>>)

  const EmptyResidency := ResidencyState([], [], [], map[], map[], {}, {}, [], [], [], [])

  predicate NoDuplicates<T(==)>(s: seq<T>)
  {
    forall i, j :: 0 <= i < j < |s| ==> s[i] != s[j]
  }

  function TaskCountOf(taskCounts: map<GraphicsAllocation, nat>, a: GraphicsAllocation): nat
  {
    if a in taskCounts then taskCounts[a] else TaskCountMax
  }

  // ---------------------------------------------------------------------------
  // Trim-candidate list
  // ---------------------------------------------------------------------------

  /** addToTrimCandidateList: append unless already a candidate. */
  function AddToTrimCandidateList(trim: seq<GraphicsAllocation>, a: GraphicsAllocation): (added: seq<GraphicsAllocation>)
    ensures NoDuplicates(trim) ==> NoDuplicates(added)
    ensures a in trim ==> added == trim
    ensures a !in trim ==> added == trim + [a]
  {
    if a in trim then trim else trim + [a]
  }

  /** Each of `allocations` added to the trim-candidate list in turn: the list only grows at its end, by at most one per allocation. */
  function AddAllToTrimCandidateList(trim: seq<GraphicsAllocation>, allocations: seq<GraphicsAllocation>): (added: seq<GraphicsAllocation>)
    ensures trim <= added
    ensures |added| <= |trim| + |allocations|
    decreases |allocations|
  {
    if |allocations| == 0 then trim
    else AddToTrimCandidateList(AddAllToTrimCandidateList(trim, allocations[..|allocations| - 1]),
                                allocations[|allocations| - 1])
  }

  /**
   * Adding a batch keeps the list free of duplicates, keeps the earlier
   * candidates in place, and makes exactly the union of candidates.
   */
  lemma {:induction false} AddAllToTrimCandidateListSpec(trim: seq<GraphicsAllocation>, allocations: seq<GraphicsAllocation>)
    requires NoDuplicates(trim)
    ensures NoDuplicates(AddAllToTrimCandidateList(trim, allocations))
    ensures trim <= AddAllToTrimCandidateList(trim, allocations)
    ensures forall a :: a in AddAllToTrimCandidateList(trim, allocations) <==> a in trim || a in allocations
    decreases |allocations|
  {
    if |allocations| > 0 {
      var init := allocations[..|allocations| - 1];
      AddAllToTrimCandidateListSpec(trim, init);
      assert allocations == init + [allocations[|allocations| - 1]];
    }
  }

  /** The index of the first occurrence of `a`. */
  function IndexOf(trim: seq<GraphicsAllocation>, a: GraphicsAllocation): (index: nat)
    requires a in trim
    ensures index < |trim| && trim[index] == a
    ensures forall k :: 0 <= k < index ==> trim[k] != a
    decreases |trim|
  {
    if trim[0] == a then 0 else 1 + IndexOf(trim[1..], a)
  }

  /** trimCandidateListPosition: the allocation's index in the list, or TrimListUnusedPosition. */
  function TrimCandidateListPosition(trim: seq<GraphicsAllocation>, a: GraphicsAllocation): (position: nat)
    ensures a in trim ==> position < |trim| && trim[position] == a
    ensures a !in trim ==> position == TrimListUnusedPosition
  {
    if a in trim then IndexOf(trim, a) else TrimListUnusedPosition
  }

  /** removeFromTrimCandidateList: the allocation is no longer a trim candidate. */
  function RemoveFromTrimCandidateList(trim: seq<GraphicsAllocation>, a: GraphicsAllocation): (removed: seq<GraphicsAllocation>)
    ensures forall x :: x in removed <==> x in trim && x != a
    ensures NoDuplicates(trim) ==> NoDuplicates(removed)
    ensures |removed| <= |trim|
    ensures a !in trim ==> removed == trim
    decreases |trim|
  {
    if |trim| == 0 then []
    else
      var rest := RemoveFromTrimCandidateList(trim[1..], a);
      assert NoDuplicates(trim) ==> NoDuplicates(trim[1..]) && trim[0] !in trim[1..];
      if trim[0] == a then rest else [trim[0]] + rest
  }

  /** Each of `allocations` taken off the trim-candidate list in turn: the list only shrinks. */
  function RemoveAllFromTrimCandidateList(trim: seq<GraphicsAllocation>, allocations: seq<GraphicsAllocation>): (removed: seq<GraphicsAllocation>)
    ensures |removed| <= |trim|
    decreases |allocations|
  {
    if |allocations| == 0 then trim
    else RemoveFromTrimCandidateList(RemoveAllFromTrimCandidateList(trim, allocations[..|allocations| - 1]),
                                     allocations[|allocations| - 1])
  }

  lemma RemoveAllSnoc(trim: seq<GraphicsAllocation>, allocations: seq<GraphicsAllocation>, a: GraphicsAllocation)
    ensures RemoveAllFromTrimCandidateList(trim, allocations + [a])
            == RemoveFromTrimCandidateList(RemoveAllFromTrimCandidateList(trim, allocations), a)
  {
    assert (allocations + [a])[..|allocations|] == allocations;
  }

  lemma {:induction false} RemoveAllFromTrimCandidateListSpec(trim: seq<GraphicsAllocation>, allocations: seq<GraphicsAllocation>)
    ensures forall x :: x in RemoveAllFromTrimCandidateList(trim, allocations) <==> x in trim && x !in allocations
    ensures NoDuplicates(trim) ==> NoDuplicates(RemoveAllFromTrimCandidateList(trim, allocations))
    ensures trim == [] ==> RemoveAllFromTrimCandidateList(trim, allocations) == []
    decreases |allocations|
  {
    if |allocations| > 0 {
      var init := allocations[..|allocations| - 1];
      RemoveAllFromTrimCandidateListSpec(trim, init);
      assert allocations == init + [allocations[|allocations| - 1]];
    }
  }

  // ---------------------------------------------------------------------------
  // Residency
  // ---------------------------------------------------------------------------

  /**
   * CommandStreamReceiver::makeResident for the submission after `taskCount`:
   * an allocation not yet marked for that submission is pushed onto the residency
   * list and takes its task count; it is marked either way.
   */
  function MakeResident(r: ResidencyState, a: GraphicsAllocation, taskCount: nat): (t: ResidencyState)
    ensures a in t.residencyTaskCount && t.residencyTaskCount[a] == taskCount + 1
    ensures (a !in r.residencyTaskCount || r.residencyTaskCount[a] < taskCount + 1) ==>
              t.residencyAllocations == r.residencyAllocations + [a] && TaskCountOf(t.allocationTaskCount, a) == taskCount + 1
    ensures !(a !in r.residencyTaskCount || r.residencyTaskCount[a] < taskCount + 1) ==>
              t.residencyAllocations == r.residencyAllocations && t.allocationTaskCount == r.allocationTaskCount
    ensures t == r.(residencyAllocations := t.residencyAllocations, allocationTaskCount := t.allocationTaskCount,
                    residencyTaskCount := t.residencyTaskCount)
    ensures t.makeResidentCalls == r.makeResidentCalls && t.resident == r.resident
  {
    var submissionTaskCount := taskCount + 1;
    if a !in r.residencyTaskCount || r.residencyTaskCount[a] < submissionTaskCount then
      r.(residencyAllocations := r.residencyAllocations + [a],
         allocationTaskCount := r.allocationTaskCount[a := submissionTaskCount],
         residencyTaskCount := r.residencyTaskCount[a := submissionTaskCount])
    else
      r.(residencyTaskCount := r.residencyTaskCount[a := submissionTaskCount])
  }

  /** makeResident twice for the same submission lists the allocation once. */
  lemma MakeResidentIdempotent(r: ResidencyState, a: GraphicsAllocation, taskCount: nat)
    ensures MakeResident(MakeResident(r, a, taskCount), a, taskCount).residencyAllocations
            == MakeResident(r, a, taskCount).residencyAllocations
    ensures a !in r.residencyTaskCount ==>
              MakeResident(MakeResident(r, a, taskCount), a, taskCount).residencyAllocations == r.residencyAllocations + [a]
  {
  }

  /**
   * CommandStreamReceiver::makeNonResident: a resident allocation goes onto the
   * eviction list if evictable, or merely becomes evictable again; either way it
   * is no longer resident.
   */
  function MakeNonResident(r: ResidencyState, a: GraphicsAllocation): (t: ResidencyState)
    ensures a !in t.residencyTaskCount
    ensures forall x :: x in t.residencyTaskCount <==> x in r.residencyTaskCount && x != a
    ensures a in r.residencyTaskCount && a !in r.nonEvictable ==>
              t.evictionAllocations == r.evictionAllocations + [a] && t.nonEvictable == r.nonEvictable
    ensures !(a in r.residencyTaskCount && a !in r.nonEvictable) ==> t.evictionAllocations == r.evictionAllocations
    ensures a in r.residencyTaskCount && a in r.nonEvictable ==> t.nonEvictable == r.nonEvictable - {a}
  {
    if a in r.residencyTaskCount then
      if a !in r.nonEvictable then
        r.(evictionAllocations := r.evictionAllocations + [a], residencyTaskCount := r.residencyTaskCount - {a})
      else
        r.(nonEvictable := r.nonEvictable - {a}, residencyTaskCount := r.residencyTaskCount - {a})
    else
      r
  }

  /**
   * makeNonResident over a pack, in order: nothing becomes resident, the eviction
   * list only grows at its end, no allocation becomes non-evictable, and the
   * residency and trim lists are untouched.
   */
  function MakeNonResidentAll(r: ResidencyState, pack: seq<GraphicsAllocation>): (t: ResidencyState)
    ensures forall x :: x in t.residencyTaskCount ==> x in r.residencyTaskCount
    ensures r.evictionAllocations <= t.evictionAllocations
    ensures t.nonEvictable <= r.nonEvictable
    ensures t.residencyAllocations == r.residencyAllocations && t.trimCandidateList == r.trimCandidateList
    decreases |pack|
  {
    if |pack| == 0 then r else MakeNonResident(MakeNonResidentAll(r, pack[..|pack| - 1]), pack[|pack| - 1])
  }

  /**
   * After a pack is made non-resident none of it is resident, the rest keeps its
   * residency, and only eviction list, residency marks and evictable flags moved.
   */
  lemma {:induction false} MakeNonResidentAllSpec(r: ResidencyState, pack: seq<GraphicsAllocation>)
    ensures forall x :: x in MakeNonResidentAll(r, pack).residencyTaskCount <==> x in r.residencyTaskCount && x !in pack
    ensures r.evictionAllocations <= MakeNonResidentAll(r, pack).evictionAllocations
    ensures forall x :: x in MakeNonResidentAll(r, pack).evictionAllocations ==> x in r.evictionAllocations || x in pack
    ensures var t := MakeNonResidentAll(r, pack);
            t == r.(evictionAllocations := t.evictionAllocations, residencyTaskCount := t.residencyTaskCount,
                    nonEvictable := t.nonEvictable)
    decreases |pack|
  {
    if |pack| > 0 {
      var init := pack[..|pack| - 1];
      MakeNonResidentAllSpec(r, init);
      assert pack == init + [pack[|pack| - 1]];
    }
  }

  /** processEviction: every eviction candidate becomes a trim candidate; the eviction list empties. */
  function ProcessEviction(r: ResidencyState): (t: ResidencyState)
    ensures t.evictionAllocations == []
  {
    r.(trimCandidateList := AddAllToTrimCandidateList(r.trimCandidateList, r.evictionAllocations),
       evictionAllocations := [])
  }

  /** processEviction leaves every former eviction candidate on the trim list, each once. */
  lemma ProcessEvictionSpec(r: ResidencyState)
    requires NoDuplicates(r.trimCandidateList)
    ensures NoDuplicates(ProcessEviction(r).trimCandidateList)
    ensures r.trimCandidateList <= ProcessEviction(r).trimCandidateList
    ensures forall a :: a in ProcessEviction(r).trimCandidateList <==> a in r.trimCandidateList || a in r.evictionAllocations
    ensures NoDuplicates(r.evictionAllocations) && (forall a :: a in r.evictionAllocations ==> a !in r.trimCandidateList) ==>
              |ProcessEviction(r).trimCandidateList| == |r.trimCandidateList| + |r.evictionAllocations|
  {
    AddAllToTrimCandidateListSpec(r.trimCandidateList, r.evictionAllocations);
    if NoDuplicates(r.evictionAllocations) && (forall a :: a in r.evictionAllocations ==> a !in r.trimCandidateList) {
      FreshBatchGrowsTrimList(r.trimCandidateList, r.evictionAllocations);
    }
  }

  lemma {:induction false} FreshBatchGrowsTrimList(trim: seq<GraphicsAllocation>, allocations: seq<GraphicsAllocation>)
    requires NoDuplicates(trim) && NoDuplicates(allocations)
    requires forall a :: a in allocations ==> a !in trim
    ensures AddAllToTrimCandidateList(trim, allocations) == trim + allocations
    decreases |allocations|
  {
    if |allocations| > 0 {
      var init := allocations[..|allocations| - 1];
      var last := allocations[|allocations| - 1];
      assert NoDuplicates(init);
      FreshBatchGrowsTrimList(trim, init);
      assert last !in init;
      assert allocations == init + [last];
    }
  }

  /**
   * The handles makeResidentResidencyAllocations passes to the OS: each allocation
   * of the pack that is not resident yet, once.
   */
  function ResidencyHandles(pack: seq<GraphicsAllocation>, resident: set<GraphicsAllocation>): (handles: seq<GraphicsAllocation>)
    ensures |handles| <= |pack|
    decreases |pack|
  {
    if |pack| == 0 then []
    else
      var init := pack[..|pack| - 1];
      var last := pack[|pack| - 1];
      var previous := ResidencyHandles(init, resident);
      if last in resident || last in init then previous else previous + [last]
  }

  /** The handle pack holds each non-resident allocation of the pack exactly once, and nothing else. */
  lemma {:induction false} ResidencyHandlesSpec(pack: seq<GraphicsAllocation>, resident: set<GraphicsAllocation>)
    ensures forall a :: a in ResidencyHandles(pack, resident) <==> a in pack && a !in resident
    ensures NoDuplicates(ResidencyHandles(pack, resident))
    decreases |pack|
  {
    if |pack| > 0 {
      var init := pack[..|pack| - 1];
      ResidencyHandlesSpec(init, resident);
      assert pack == init + [pack[|pack| - 1]];
    }
  }

  lemma ResidencyHandlesSnoc(pack: seq<GraphicsAllocation>, a: GraphicsAllocation, resident: set<GraphicsAllocation>)
    ensures ResidencyHandles(pack + [a], resident)
            == if a in resident || a in pack then ResidencyHandles(pack, resident) else ResidencyHandles(pack, resident) + [a]
  {
    assert (pack + [a])[..|pack|] == pack;
  }

  /** The allocations of a pack, as a set. */
  function SetOf(pack: seq<GraphicsAllocation>): (members: set<GraphicsAllocation>)
    ensures forall a :: a in members <==> a in pack
    decreases |pack|
  {
    if |pack| == 0 then {}
    else
      assert pack == pack[..|pack| - 1] + [pack[|pack| - 1]];
      SetOf(pack[..|pack| - 1]) + {pack[|pack| - 1]}
  }

  /**
   * makeResidentResidencyAllocations: the pack's non-resident allocations go to the
   * OS in one call (none if all are resident), every pack member leaves the trim
   * list and is marked resident.
   */
  function ProcessResidency(r: ResidencyState, pack: seq<GraphicsAllocation>): (t: ResidencyState)
    ensures t.resident == r.resident + SetOf(pack)
    ensures |ResidencyHandles(pack, r.resident)| > 0 ==>
              t.makeResidentCalls == r.makeResidentCalls + [ResidencyHandles(pack, r.resident)]
    ensures |ResidencyHandles(pack, r.resident)| == 0 ==> t.makeResidentCalls == r.makeResidentCalls
  {
    var handles := ResidencyHandles(pack, r.resident);
    r.(trimCandidateList := RemoveAllFromTrimCandidateList(r.trimCandidateList, pack),
       resident := r.resident + SetOf(pack),
       makeResidentCalls := if |handles| > 0 then r.makeResidentCalls + [handles] else r.makeResidentCalls)
  }

  /** After processResidency no pack member is a trim candidate and the list keeps no duplicates. */
  lemma ProcessResidencySpec(r: ResidencyState, pack: seq<GraphicsAllocation>)
    requires NoDuplicates(r.trimCandidateList)
    ensures forall a :: a in ProcessResidency(r, pack).trimCandidateList
                        <==> a in r.trimCandidateList && a !in pack
    ensures NoDuplicates(ProcessResidency(r, pack).trimCandidateList)
  {
    RemoveAllFromTrimCandidateListSpec(r.trimCandidateList, pack);
  }

  /** One iteration of makeResidentResidencyAllocations' loop keeps the loop's three equalities. */
  lemma ResidencyLoopStep(pack: seq<GraphicsAllocation>, i: nat, resident0: set<GraphicsAllocation>,
                          trim0: seq<GraphicsAllocation>, resident: set<GraphicsAllocation>,
                          handles: seq<GraphicsAllocation>, trim: seq<GraphicsAllocation>)
    requires i < |pack|
    requires resident == resident0 + SetOf(pack[..i])
    requires handles == ResidencyHandles(pack[..i], resident0)
    requires trim == RemoveAllFromTrimCandidateList(trim0, pack[..i])
    ensures resident + {pack[i]} == resident0 + SetOf(pack[..i + 1])
    ensures (if pack[i] in resident then handles else handles + [pack[i]]) == ResidencyHandles(pack[..i + 1], resident0)
    ensures RemoveFromTrimCandidateList(trim, pack[i]) == RemoveAllFromTrimCandidateList(trim0, pack[..i + 1])
  {
    var a := pack[i];
    assert pack[..i + 1] == pack[..i] + [a];
    assert pack[..i + 1][..i] == pack[..i];
    ResidencyHandlesSnoc(pack[..i], a, resident0);
    RemoveAllSnoc(trim0, pack[..i], a);
  }

  /**
   * makeSurfacePackNonResident: the pack (the given container, or the residency
   * list) is made non-resident, the residency list is cleared when it was the
   * pack, and eviction is processed.
   */
  function MakeSurfacePackNonResident(r: ResidencyState, container: Option<seq<GraphicsAllocation>>): (t: ResidencyState)
    ensures t.evictionAllocations == []
    ensures container.None? ==> t.residencyAllocations == []
    ensures container.Some? ==> t.residencyAllocations == r.residencyAllocations
    ensures r.trimCandidateList <= t.trimCandidateList
  {
    var afterPack := MakeNonResidentAll(r, container.GetOr(r.residencyAllocations));
    ProcessEviction(if container.None? then afterPack.(residencyAllocations := []) else afterPack)
  }

  /**
   * makeResident, processResidency and makeSurfacePackNonResident in a row leave
   * both lists empty and put the allocation at position 0 of an empty trim list.
   */
  lemma ResidencyRoundTrip(r: ResidencyState, a: GraphicsAllocation, taskCount: nat)
    requires r.residencyAllocations == [] && r.evictionAllocations == [] && r.trimCandidateList == []
    requires a !in r.residencyTaskCount && a !in r.nonEvictable
    ensures var made := MakeResident(r, a, taskCount);
            var processed := ProcessResidency(made, made.residencyAllocations);
            var released := MakeSurfacePackNonResident(processed, None);
            && made.residencyAllocations == [a]
            && TrimCandidateListPosition(made.trimCandidateList, a) == TrimListUnusedPosition
            && released.residencyAllocations == [] && released.evictionAllocations == []
            && TrimCandidateListPosition(released.trimCandidateList, a) == 0
  {
    var made := MakeResident(r, a, taskCount);
    assert made.residencyAllocations == [a];
    var processed := ProcessResidency(made, made.residencyAllocations);
    RemoveAllFromTrimCandidateListSpec(made.trimCandidateList, [a]);
    assert processed.trimCandidateList == [];
    assert processed.residencyAllocations == [a] && processed.evictionAllocations == [];
    assert a in processed.residencyTaskCount && a !in processed.nonEvictable;
    assert [a][..0] == [];
    assert MakeNonResidentAll(processed, []) == processed;
    var afterPack := MakeNonResidentAll(processed, [a]);
    assert afterPack == MakeNonResident(processed, a);
    assert afterPack.evictionAllocations == [a];
    var released := MakeSurfacePackNonResident(processed, None);
    assert released.trimCandidateList == AddAllToTrimCandidateList([], [a]);
    assert AddAllToTrimCandidateList([], [a]) == AddToTrimCandidateList(AddAllToTrimCandidateList([], []), a);
  }

  // ---------------------------------------------------------------------------
  // Reclamation
  // ---------------------------------------------------------------------------

  /** The allocations freeAllocationsList keeps on the list, in order: those the GPU has not yet completed. */
  function Retained(list: seq<GraphicsAllocation>, taskCounts: map<GraphicsAllocation, nat>, waitTaskCount: nat): seq<GraphicsAllocation>
    decreases |list|
  {
    if |list| == 0 then []
    else
      var last := list[|list| - 1];
      Retained(list[..|list| - 1], taskCounts, waitTaskCount) + (if TaskCountOf(taskCounts, last) > waitTaskCount then [last] else [])
  }

  /** The allocations freeAllocationsList hands to the memory manager to free, in order: those whose task count is reached. */
  function Reclaimed(list: seq<GraphicsAllocation>, taskCounts: map<GraphicsAllocation, nat>, waitTaskCount: nat): seq<GraphicsAllocation>
    decreases |list|
  {
    if |list| == 0 then []
    else
      var last := list[|list| - 1];
      Reclaimed(list[..|list| - 1], taskCounts, waitTaskCount) + (if TaskCountOf(taskCounts, last) <= waitTaskCount then [last] else [])
  }

  /** An allocation is kept exactly when its task count is above the wait target, and freed exactly when it is not. */
  lemma {:induction false} ReclaimMembership(list: seq<GraphicsAllocation>, taskCounts: map<GraphicsAllocation, nat>, waitTaskCount: nat)
    ensures forall a :: a in Retained(list, taskCounts, waitTaskCount) <==> a in list && TaskCountOf(taskCounts, a) > waitTaskCount
    ensures forall a :: a in Reclaimed(list, taskCounts, waitTaskCount) <==> a in list && TaskCountOf(taskCounts, a) <= waitTaskCount
    decreases |list|
  {
    if |list| > 0 {
      var init := list[..|list| - 1];
      ReclaimMembership(init, taskCounts, waitTaskCount);
      assert list == init + [list[|list| - 1]];
    }
  }

  /** Reclamation splits the list: every allocation is either kept or freed, none lost or doubled. */
  lemma {:induction false} ReclaimPartition(list: seq<GraphicsAllocation>, taskCounts: map<GraphicsAllocation, nat>, waitTaskCount: nat)
    ensures multiset(Retained(list, taskCounts, waitTaskCount)) + multiset(Reclaimed(list, taskCounts, waitTaskCount))
            == multiset(list)
    decreases |list|
  {
    if |list| > 0 {
      var init := list[..|list| - 1];
      var last := list[|list| - 1];
      ReclaimPartition(init, taskCounts, waitTaskCount);
      assert list == init + [last];
    }
  }

  /** Waiting for TaskCountMax frees every allocation whose task count is a 32-bit value. */
  lemma {:induction false} ReclaimAllAtMax(list: seq<GraphicsAllocation>, taskCounts: map<GraphicsAllocation, nat>)
    requires forall a :: a in list ==> TaskCountOf(taskCounts, a) <= TaskCountMax
    ensures Retained(list, taskCounts, TaskCountMax) == []
    ensures Reclaimed(list, taskCounts, TaskCountMax) == list
    decreases |list|
  {
    if |list| > 0 {
      var init := list[..|list| - 1];
      var last := list[|list| - 1];
      assert list == init + [last];
      assert last in list;
      ReclaimAllAtMax(init, taskCounts);
    }
  }

  /** Task counts 1 and 100, waiting for 1: only the first allocation is freed. */
  lemma ReclaimCompletedExample(first: GraphicsAllocation, second: GraphicsAllocation)
    requires first != second
    ensures var taskCounts := map[first := 1, second := 100];
            Reclaimed([first, second], taskCounts, 1) == [first] && Retained([first, second], taskCounts, 1) == [second]
  {
    var taskCounts := map[first := 1, second := 100];
    var list := [first, second];
    assert list[..1] == [first];
    assert [first][..0] == [];
    assert TaskCountOf(taskCounts, first) == 1 && TaskCountOf(taskCounts, second) == 100;
    assert Reclaimed([first], taskCounts, 1) == [first];
    assert Retained([first], taskCounts, 1) == [];
  }

  /**
   * freeAllocationsList on the list of the given usage: the other list is left
   * alone, freed allocations are appended, and what stays has not completed.
   */
  function Reclaim(r: ResidencyState, waitTaskCount: nat, usage: AllocationUsage): (t: ResidencyState)
    ensures r.freedAllocations <= t.freedAllocations
    ensures usage == TemporaryAllocation ==>
              && t.reusableAllocations == r.reusableAllocations
              && forall a :: a in t.temporaryAllocations ==> TaskCountOf(r.allocationTaskCount, a) > waitTaskCount
    ensures usage == ReusableAllocation ==>
              && t.temporaryAllocations == r.temporaryAllocations
              && forall a :: a in t.reusableAllocations ==> TaskCountOf(r.allocationTaskCount, a) > waitTaskCount
  {
    ReclaimMembership(r.temporaryAllocations, r.allocationTaskCount, waitTaskCount);
    ReclaimMembership(r.reusableAllocations, r.allocationTaskCount, waitTaskCount);
    match usage
    case TemporaryAllocation =>
      r.(temporaryAllocations := Retained(r.temporaryAllocations, r.allocationTaskCount, waitTaskCount),
         freedAllocations := r.freedAllocations + Reclaimed(r.temporaryAllocations, r.allocationTaskCount, waitTaskCount))
    case ReusableAllocation =>
      r.(reusableAllocations := Retained(r.reusableAllocations, r.allocationTaskCount, waitTaskCount),
         freedAllocations := r.freedAllocations + Reclaimed(r.reusableAllocations, r.allocationTaskCount, waitTaskCount))
  }

  /** Every task count the memory manager records fits in 32 bits, and trim candidates are distinct. */
  ghost predicate ResidencyInvariant(r: ResidencyState)
  {
    && NoDuplicates(r.trimCandidateList)
    && forall a :: a in r.allocationTaskCount ==> r.allocationTaskCount[a] <= TaskCountMax
  }

  // ---------------------------------------------------------------------------
  // The memory manager
  // ---------------------------------------------------------------------------

  class WddmMemoryManager {
    var residencyAllocations: seq<GraphicsAllocation>
    var evictionAllocations: seq<GraphicsAllocation>
    var trimCandidateList: seq<GraphicsAllocation>
    var residencyTaskCount: map<GraphicsAllocation, nat>
    var allocationTaskCount: map<GraphicsAllocation, nat>
    var nonEvictable: set<GraphicsAllocation>
    var resident: set<GraphicsAllocation>
    var temporaryAllocations: seq<GraphicsAllocation>
    var reusableAllocations: seq<GraphicsAllocation>
    var freedAllocations: seq<GraphicsAllocation>
    var makeResidentCalls: seq<seq<GraphicsAllocation>>

    function State(): ResidencyState
      reads this
    {
      ResidencyState(residencyAllocations, evictionAllocations, trimCandidateList, residencyTaskCount,
                     allocationTaskCount, nonEvictable, resident, temporaryAllocations, reusableAllocations,
                     freedAllocations, makeResidentCalls)
    }

    ghost predicate Valid()
      reads this
    {
      ResidencyInvariant(State())
    }

    constructor ()
      ensures Valid() && State() == EmptyResidency
    {
      residencyAllocations := [];
      evictionAllocations := [];
      trimCandidateList := [];
      residencyTaskCount := map[];
      allocationTaskCount := map[];
      nonEvictable := {};
      resident := {};
      temporaryAllocations := [];
      reusableAllocations := [];
      freedAllocations := [];
      makeResidentCalls := [];
    }

    method PushAllocationForResidency(a: GraphicsAllocation)
      modifies this`residencyAllocations
      ensures residencyAllocations == old(residencyAllocations) + [a]
    {
      residencyAllocations := residencyAllocations + [a];
    }

    method PushAllocationForEviction(a: GraphicsAllocation)
      modifies this`evictionAllocations
      ensures evictionAllocations == old(evictionAllocations) + [a]
    {
      evictionAllocations := evictionAllocations + [a];
    }

    method ClearResidencyAllocations()
      modifies this`residencyAllocations
      ensures residencyAllocations == []
    {
      residencyAllocations := [];
    }

    /** setEvictable on an allocation. */
    method SetEvictable(a: GraphicsAllocation, evictable: bool)
      modifies this`nonEvictable
      ensures nonEvictable == if evictable then old(nonEvictable) - {a} else old(nonEvictable) + {a}
    {
      nonEvictable := if evictable then nonEvictable - {a} else nonEvictable + {a};
    }

    /** The task count makeResident gives an allocation. */
    method SetTaskCount(a: GraphicsAllocation, taskCount: nat)
      requires Valid() && taskCount <= TaskCountMax
      modifies this`allocationTaskCount
      ensures Valid()
      ensures allocationTaskCount == old(allocationTaskCount)[a := taskCount]
    {
      allocationTaskCount := allocationTaskCount[a := taskCount];
    }

    /** residencyTaskCount = ObjectNotResident. */
    method MarkNonResident(a: GraphicsAllocation)
      modifies this`residencyTaskCount
      ensures residencyTaskCount == old(residencyTaskCount) - {a}
    {
      residencyTaskCount := residencyTaskCount - {a};
    }

    method SetResidencyTaskCount(a: GraphicsAllocation, taskCount: nat)
      modifies this`residencyTaskCount
      ensures residencyTaskCount == old(residencyTaskCount)[a := taskCount]
    {
      residencyTaskCount := residencyTaskCount[a := taskCount];
    }

    /** storeAllocation: the allocation joins the list of the given usage. */
    method StoreAllocation(a: GraphicsAllocation, usage: AllocationUsage)
      modifies this`temporaryAllocations, this`reusableAllocations
      ensures usage == TemporaryAllocation ==>
                temporaryAllocations == old(temporaryAllocations) + [a] && reusableAllocations == old(reusableAllocations)
      ensures usage == ReusableAllocation ==>
                reusableAllocations == old(reusableAllocations) + [a] && temporaryAllocations == old(temporaryAllocations)
    {
      if usage == TemporaryAllocation {
        temporaryAllocations := temporaryAllocations + [a];
      } else {
        reusableAllocations := reusableAllocations + [a];
      }
    }

    /** addToTrimCandidateList. */
    method AddToTrimCandidate(a: GraphicsAllocation)
      requires Valid()
      modifies this`trimCandidateList
      ensures Valid()
      ensures trimCandidateList == AddToTrimCandidateList(old(trimCandidateList), a)
    {
      if a !in trimCandidateList {
        trimCandidateList := trimCandidateList + [a];
      }
    }

    /** makeNonResidentEvictionAllocations: every eviction candidate becomes a trim candidate, then the list is emptied. */
    method MakeNonResidentEvictionAllocations()
      requires Valid()
      modifies this`trimCandidateList, this`evictionAllocations
      ensures Valid()
      ensures State() == ProcessEviction(old(State()))
    {
      var i := 0;
      while i < |evictionAllocations|
        invariant 0 <= i <= |evictionAllocations|
        invariant evictionAllocations == old(evictionAllocations)
        invariant trimCandidateList == AddAllToTrimCandidateList(old(trimCandidateList), evictionAllocations[..i])
        invariant Valid()
      {
        assert evictionAllocations[..i + 1][..i] == evictionAllocations[..i];
        AddToTrimCandidate(evictionAllocations[i]);
        i := i + 1;
      }
      assert evictionAllocations[..i] == evictionAllocations;
      evictionAllocations := [];
    }

    /** removeFromTrimCandidateList, for an allocation that is a trim candidate. */
    method RemoveFromTrimCandidates(a: GraphicsAllocation)
      modifies this`trimCandidateList
      ensures trimCandidateList == RemoveFromTrimCandidateList(old(trimCandidateList), a)
    {
      if a in trimCandidateList {
        trimCandidateList := RemoveFromTrimCandidateList(trimCandidateList, a);
      }
    }

    /** One allocation of makeResidentResidencyAllocations' loop. */
    method MakeResidentStep(a: GraphicsAllocation, handles: seq<GraphicsAllocation>) returns (collected: seq<GraphicsAllocation>)
      modifies this`trimCandidateList, this`resident
      ensures collected == if a in old(resident) then handles else handles + [a]
      ensures resident == old(resident) + {a}
      ensures trimCandidateList == RemoveFromTrimCandidateList(old(trimCandidateList), a)
    {
      collected := handles;
      if a !in resident {
        collected := handles + [a];
      }
      RemoveFromTrimCandidates(a);
      resident := resident + {a};
    }

    /**
     * makeResidentResidencyAllocations: collect the handles of the pack's
     * allocations that are not resident, take each out of the trim list, mark it
     * resident, then make the collected handles resident in one OS call.
     */
    method MakeResidentResidencyAllocations(pack: seq<GraphicsAllocation>)
      requires Valid()
      modifies this`trimCandidateList, this`resident, this`makeResidentCalls
      ensures Valid()
      ensures State() == ProcessResidency(old(State()), pack)
    {
      var handles := CollectResidencyHandles(pack);
      RemoveAllFromTrimCandidateListSpec(old(trimCandidateList), pack);
      if |handles| > 0 {
        makeResidentCalls := makeResidentCalls + [handles];
      }
    }

    /** The loop of makeResidentResidencyAllocations over the pack. */
    method CollectResidencyHandles(pack: seq<GraphicsAllocation>) returns (handles: seq<GraphicsAllocation>)
      modifies this`trimCandidateList, this`resident
      ensures handles == ResidencyHandles(pack, old(resident))
      ensures resident == old(resident) + SetOf(pack)
      ensures trimCandidateList == RemoveAllFromTrimCandidateList(old(trimCandidateList), pack)
    {
      handles := [];
      var i := 0;
      while i < |pack|
        invariant 0 <= i <= |pack|
        invariant resident == old(resident) + SetOf(pack[..i])
        invariant handles == ResidencyHandles(pack[..i], old(resident))
        invariant trimCandidateList == RemoveAllFromTrimCandidateList(old(trimCandidateList), pack[..i])
      {
        ResidencyLoopStep(pack, i, old(resident), old(trimCandidateList), resident, handles, trimCandidateList);
        handles := MakeResidentStep(pack[i], handles);
        i := i + 1;
      }
      assert pack[..i] == pack;
    }

    /**
     * freeAllocationsList: detach the list, free each allocation whose task count
     * is at or below `waitTaskCount`, and put the others back in order.
     */
    method FreeAllocationsList(waitTaskCount: nat, usage: AllocationUsage)
      requires Valid()
      modifies this`temporaryAllocations, this`reusableAllocations, this`freedAllocations
      ensures Valid()
      ensures State() == Reclaim(old(State()), waitTaskCount, usage)
    {
      var list := if usage == TemporaryAllocation then temporaryAllocations else reusableAllocations;
      var left: seq<GraphicsAllocation> := [];
      var i := 0;
      while i < |list|
        invariant 0 <= i <= |list|
        invariant left == Retained(list[..i], allocationTaskCount, waitTaskCount)
        invariant freedAllocations == old(freedAllocations) + Reclaimed(list[..i], allocationTaskCount, waitTaskCount)
        invariant temporaryAllocations == old(temporaryAllocations) && reusableAllocations == old(reusableAllocations)
      {
        var a := list[i];
        assert list[..i + 1][..i] == list[..i] && list[..i + 1][i] == a;
        if TaskCountOf(allocationTaskCount, a) <= waitTaskCount {
          freedAllocations := freedAllocations + [a];
        } else {
          left := left + [a];
        }
        i := i + 1;
      }
      assert list[..i] == list;
      if usage == TemporaryAllocation {
        temporaryAllocations := left;
      } else {
        reusableAllocations := left;
      }
    }
  }
}
