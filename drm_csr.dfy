/**
 * The test double of the DRM command stream receiver.  The receiver keeps the
 * buffer objects of the next execbuffer in its `residency` vector; the double
 * answers membership queries on it by linear search, records the last
 * makeNonResident call, and lets tests override the dispatch mode and the
 * gem-close worker mode.
 */
module DrmCsr {
  import opened Wrappers
  import opened CsrPolicy

  /** A kernel buffer object, by its GEM handle. */
  datatype BufferObject = BufferObject(handle: nat)

  datatype GemCloseWorkerMode = GemCloseWorkerInactive | GemCloseWorkerActive

  /** A graphics allocation, by identity. */
  datatype GraphicsAllocation = GraphicsAllocation(id: nat)

  /** What the double records about the last makeNonResident call. */
  datatype MakeResidentNonResidentResult = MakeResidentNonResidentResult(called: bool, allocation: Option<GraphicsAllocation>)

  class TestedDrmCommandStreamReceiver {
    var residency: seq<BufferObject>
    var dispatchMode: DispatchMode
    var gemCloseWorkerOperationMode: GemCloseWorkerMode
    var makeNonResidentResult: MakeResidentNonResidentResult

    /**
     * A fresh receiver with the given close-worker mode and an empty residency
     * vector.  The makeNonResident record, which the mock leaves uninitialised,
     * starts as (not called, no allocation) here.  The dispatch mode is whatever
     * the base receiver chose.
     */
    constructor WithMode(mode: GemCloseWorkerMode)
      ensures residency == [] && gemCloseWorkerOperationMode == mode
      ensures !makeNonResidentResult.called && makeNonResidentResult.allocation.None?
    {
      residency := [];
      gemCloseWorkerOperationMode := mode;
      makeNonResidentResult := MakeResidentNonResidentResult(false, None);
    }

    /** The overload without a mode: the close worker starts inactive; the record starts as in `WithMode`. */
    constructor ()
      ensures residency == [] && gemCloseWorkerOperationMode == GemCloseWorkerInactive
      ensures !makeNonResidentResult.called && makeNonResidentResult.allocation.None?
    {
      residency := [];
      gemCloseWorkerOperationMode := GemCloseWorkerInactive;
      makeNonResidentResult := MakeResidentNonResidentResult(false, None);
    }

    method OverrideGemCloseWorkerOperationMode(overrideValue: GemCloseWorkerMode)
      modifies this`gemCloseWorkerOperationMode
      ensures gemCloseWorkerOperationMode == overrideValue
    {
      gemCloseWorkerOperationMode := overrideValue;
    }

    method OverrideDispatchPolicy(overrideValue: DispatchMode)
      modifies this`dispatchMode
      ensures dispatchMode == overrideValue
    {
      dispatchMode := overrideValue;
    }

    /** A test's push_back through getResidencyVector. */
    method ResidencyVectorPushBack(bo: BufferObject)
      modifies this`residency
      ensures residency == old(residency) + [bo]
    {
      residency := residency + [bo];
    }

    /** isResident: search the residency vector, stopping at the first match. */
    method IsResident(bo: BufferObject) returns (resident: bool)
      ensures resident <==> bo in residency
    {
      resident := false;
      var i := 0;
      while i < |residency|
        invariant 0 <= i <= |residency|
        invariant !resident
        invariant bo !in residency[..i]
      {
        if residency[i] == bo {
          resident := true;
          break;
        }
        assert residency[..i + 1] == residency[..i] + [residency[i]];
        i := i + 1;
      }
      assert !resident ==> residency[..i] == residency;
    }

    /** getResident: the buffer object when the residency vector holds it, null otherwise. */
    method GetResident(bo: BufferObject) returns (found: Option<BufferObject>)
      ensures found == Some(bo) <==> bo in residency
      ensures found == None <==> bo !in residency
    {
      found := None;
      var i := 0;
      while i < |residency|
        invariant 0 <= i <= |residency|
        invariant found == None
        invariant bo !in residency[..i]
      {
        if residency[i] == bo {
          found := Some(residency[i]);
          break;
        }
        assert residency[..i + 1] == residency[..i] + [residency[i]];
        i := i + 1;
      }
      assert found == None ==> residency[..i] == residency;
    }

    /** makeNonResident: record the call and the allocation. */
    method MakeNonResident(gfxAllocation: GraphicsAllocation)
      modifies this`makeNonResidentResult
      ensures makeNonResidentResult == MakeResidentNonResidentResult(true, Some(gfxAllocation))
    {
      makeNonResidentResult := MakeResidentNonResidentResult(true, Some(gfxAllocation));
    }
  }
}
