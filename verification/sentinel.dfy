/**
 * The error sentinel: a file whose survival with a nonzero size is the only
 * trace the converter's errors leave. Its state is its size, `None` when it
 * does not exist.
 */
module Sentinel {
  import opened Wrappers

  /**
   * The sentinel after the converter call. Opening it in append mode creates
   * it if needed, and the converter's standard error is appended; when the
   * open throws, the converter is never started and the file is as before.
   */
  function AfterConverter(before: Option<nat>, openOk: bool, stderrBytes: nat): (after: Option<nat>)
    ensures openOk ==> after == Some(before.GetOr(0) + stderrBytes)
    ensures !openOk ==> after == before
  {
    if openOk then Some(before.GetOr(0) + stderrBytes) else before
  }

  /**
   * The cleanup rule: the sentinel is deleted if and only if it exists with
   * size 0. `unlinkOk` says whether `unlinkSync` succeeds when called; its
   * failure is swallowed and leaves the empty sentinel in place.
   */
  function Cleanup(size: Option<nat>, unlinkOk: bool): (after: Option<nat>)
    ensures after.None? <==> size.None? || (size == Some(0) && unlinkOk)
    ensures after.Some? ==> after == size
    ensures after.Some? && after.value == 0 ==> !unlinkOk
  {
    if size == Some(0) && unlinkOk then None else size
  }

  /**
   * Starting without a sentinel (or with an empty one), it survives the run
   * with a nonzero size exactly when the converter wrote to its standard
   * error, and then holds just those bytes; an empty one is left only when
   * its deletion failed.
   */
  lemma SentinelSignalsErrors(before: Option<nat>, stderrBytes: nat, unlinkOk: bool)
    requires before.None? || before == Some(0)
    ensures Cleanup(AfterConverter(before, true, stderrBytes), unlinkOk)
         == if stderrBytes > 0 then Some(stderrBytes) else if unlinkOk then None else Some(0)
  {
  }

  /** A sentinel left nonempty by an earlier run is never deleted, whatever the converter does. */
  lemma NonEmptySentinelSurvives(before: nat, openOk: bool, stderrBytes: nat, unlinkOk: bool)
    requires before > 0
    ensures Cleanup(AfterConverter(Some(before), openOk, stderrBytes), unlinkOk).Some?
    ensures Cleanup(AfterConverter(Some(before), openOk, stderrBytes), unlinkOk).value >= before
  {
  }
}
