/**
 * Whether a STATE_COMPUTE_MODE command must be programmed on XE_HPC: exactly
 * when the coherency request or the GRF count changed, or the thread
 * arbitration policy is being programmed.
 */
module StateComputeMode {

  /** The change flags a receiver gathers while sizing its next command stream. */
  datatype CsrSizeRequestFlags = CsrSizeRequestFlags(
    l3ConfigChanged: bool,
    coherencyRequestChanged: bool,
    preemptionRequestChanged: bool,
    mediaSamplerConfigChanged: bool,
    hasSharedHandles: bool,
    numGrfRequiredChanged: bool,
    specialPipelineSelectModeChanged: bool,
    activePartitionsChanged: bool)

  function IsStateComputeModeRequired(csrSizeRequestFlags: CsrSizeRequestFlags, isThreadArbitionPolicyProgrammed: bool): (required: bool)
    ensures csrSizeRequestFlags.coherencyRequestChanged ==> required
    ensures csrSizeRequestFlags.numGrfRequiredChanged ==> required
    ensures isThreadArbitionPolicyProgrammed ==> required
    ensures (!csrSizeRequestFlags.coherencyRequestChanged && !csrSizeRequestFlags.numGrfRequiredChanged
             && !isThreadArbitionPolicyProgrammed) ==> !required
  {
    csrSizeRequestFlags.coherencyRequestChanged || csrSizeRequestFlags.numGrfRequiredChanged || isThreadArbitionPolicyProgrammed
  }

  /** Only the coherency and GRF flags matter: every other change flag is ignored. */
  lemma IgnoresOtherFlags(flags: CsrSizeRequestFlags, other: CsrSizeRequestFlags, isThreadArbitionPolicyProgrammed: bool)
    requires flags.coherencyRequestChanged == other.coherencyRequestChanged
    requires flags.numGrfRequiredChanged == other.numGrfRequiredChanged
    ensures IsStateComputeModeRequired(flags, isThreadArbitionPolicyProgrammed)
            == IsStateComputeModeRequired(other, isThreadArbitionPolicyProgrammed)
  {
  }
}
