/** The log file name, built from the date, the compact time and the session and agent identifiers. */
module LogPath {
  import opened JsText

  /** The log directory, relative to the working directory. */
  const LogDir := ".claude/logs"

  /** The error sentinel: the converter's standard error is appended here. */
  const ErrorLog := ".claude/logs/.converter-errors.log"

  /** How many characters of each identifier go into the name. */
  const IdPrefix: nat := 8

  /** `${LogDir}/${date}-${time}-${session8}-subagent-${agentType}-${agent8}.md`. */
  function LogFileName(dateStr: string, timePart: string, sessionId: string, agentType: string, agentId: string): (name: string)
    ensures |name| >= 29 && name[..13] == LogDir + "/" && name[|name| - 3..] == ".md"
    ensures |name| == 29 + |dateStr| + |timePart| + |Take(sessionId, IdPrefix)| + |agentType| + |Take(agentId, IdPrefix)|
  {
    LogDir + "/" + dateStr + "-" + timePart + "-" + Take(sessionId, IdPrefix) +
    "-subagent-" + agentType + "-" + Take(agentId, IdPrefix) + ".md"
  }

  /** The fields of a log file name whose date, time and identifier prefixes have their usual widths. */
  datatype NameFields = NameFields(dateStr: string, timePart: string, session8: string, agentType: string, agent8: string)

  /** Reads the fields back from a name, by position. */
  function ParseLogFileName(name: string): NameFields
    requires |name| >= 59
  {
    NameFields(name[13..23], name[24..28], name[29..37], name[47..|name| - 12], name[|name| - 11..|name| - 3])
  }

  /**
   * With a 10-character date, a 4-character time and identifiers of at least
   * 8 characters, the name lies in the log directory, ends in ".md", and its
   * fields can be read back: the name determines the date, the time, the
   * agent type and the identifier prefixes.
   */
  lemma ParseLogFileNameInverse(dateStr: string, timePart: string, sessionId: string, agentType: string, agentId: string)
    requires |dateStr| == 10 && |timePart| == 4 && |sessionId| >= IdPrefix && |agentId| >= IdPrefix
    ensures var name := LogFileName(dateStr, timePart, sessionId, agentType, agentId);
      && |name| >= 59
      && name[..13] == LogDir + "/"
      && name[|name| - 3..] == ".md"
      && ParseLogFileName(name) == NameFields(dateStr, timePart, sessionId[..8], agentType, agentId[..8])
  {
  }

  /** Two runs get the same name only when their dates, times, agent types and identifier prefixes agree. */
  lemma LogFileNameCollision(d1: string, t1: string, s1: string, ty1: string, a1: string,
                             d2: string, t2: string, s2: string, ty2: string, a2: string)
    requires |d1| == 10 && |t1| == 4 && |s1| >= IdPrefix && |a1| >= IdPrefix
    requires |d2| == 10 && |t2| == 4 && |s2| >= IdPrefix && |a2| >= IdPrefix
    requires LogFileName(d1, t1, s1, ty1, a1) == LogFileName(d2, t2, s2, ty2, a2)
    ensures d1 == d2 && t1 == t2 && ty1 == ty2 && s1[..8] == s2[..8] && a1[..8] == a2[..8]
  {
    ParseLogFileNameInverse(d1, t1, s1, ty1, a1);
    ParseLogFileNameInverse(d2, t2, s2, ty2, a2);
  }
}
