/**
 * The debug verbosity levels of PluginLogger and the gate that decides
 * whether a debug message of a requested level is emitted under the level
 * the plugin is configured with.
 */
module DebugLevels {

  /** PluginLogger.DebugLevel, constructors in declaration order. The order is
      not a severity order: see Covers and NoRankThreshold. */
  datatype DebugLevel = None | UserLog | DeveloperLog | SystemLog

  /** The enum constant's name(), as it appears in log file names. */
  function Name(level: DebugLevel): string
  {
    match level
    case None => "NONE"
    case UserLog => "USER_LOG"
    case DeveloperLog => "DEVELOPER_LOG"
    case SystemLog => "SYSTEM_LOG"
  }

  /** The verbosity matrix: a configured level covers a requested one when the
      requested level is a real message level and the configuration is either
      that very level or DEVELOPER_LOG. USER_LOG and SYSTEM_LOG are siblings. */
  predicate Covers(configured: DebugLevel, requested: DebugLevel)
  {
    requested != None && (configured == DeveloperLog || configured == requested)
  }

  /** The switch over the requested level that guards every debug emission and
      every debug file write. */
  function Gate(requested: DebugLevel, configured: DebugLevel): (emit: bool)
    ensures emit <==> Covers(configured, requested)
    ensures requested == None ==> !emit
    ensures configured == None ==> !emit
  {
    match requested
    case UserLog => configured == UserLog || configured == DeveloperLog
    case SystemLog => configured == SystemLog || configured == DeveloperLog
    case DeveloperLog => configured == DeveloperLog
    case None => false
  }

  /** No ranking of the levels, the declaration order included, turns the gate
      into a threshold test "requested ranks at most configured". */
  lemma NoRankThreshold(rank: DebugLevel -> int)
    ensures !(forall c, r :: c != None && r != None ==> (Covers(c, r) <==> rank(r) <= rank(c)))
  {
    if rank(UserLog) <= rank(SystemLog) {
      assert !Covers(SystemLog, UserLog);
    } else {
      assert !Covers(UserLog, SystemLog);
    }
  }
}
