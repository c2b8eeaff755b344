/**
 * The SubagentStop event payload and the defaults applied to its fields,
 * followed by the decision to abort when there is no transcript to log.
 */
module HookInput {
  import opened Wrappers
  import opened JsText

  /** The fields read from the parsed payload; `None` is an absent or null field. */
  datatype RawInput = RawInput(
    agentTranscriptPath: Option<string>,
    sessionId: Option<string>,
    agentId: Option<string>,
    agentType: Option<string>)

  /** The fields after defaulting. */
  datatype Fields = Fields(transcriptPath: string, sessionId: string, agentId: string, agentType: string)

  const UnknownId := "unknown"
  const DefaultAgentType := "subagent"

  /** Each falsy field is replaced by its default; a truthy one is kept as it is. */
  function Defaults(raw: RawInput): (f: Fields)
    ensures f.transcriptPath == (if Falsy(raw.agentTranscriptPath) then "" else raw.agentTranscriptPath.value)
    ensures f.sessionId == (if Falsy(raw.sessionId) then UnknownId else raw.sessionId.value)
    ensures f.agentId == (if Falsy(raw.agentId) then UnknownId else raw.agentId.value)
    ensures f.agentType == (if Falsy(raw.agentType) then DefaultAgentType else raw.agentType.value)
  {
    Fields(
      Or(raw.agentTranscriptPath, ""),
      Or(raw.sessionId, UnknownId),
      Or(raw.agentId, UnknownId),
      Or(raw.agentType, DefaultAgentType))
  }

  /** The identifiers are never empty after defaulting, so every later string built from them is too. */
  lemma DefaultedIdsNonEmpty(raw: RawInput)
    ensures Defaults(raw).sessionId != "" && Defaults(raw).agentId != "" && Defaults(raw).agentType != ""
  {
  }

  /** The run stops here, with no further effect, when the transcript path is empty or names no file. */
  predicate Aborts(f: Fields, fileExists: string -> bool) {
    f.transcriptPath == "" || !fileExists(f.transcriptPath)
  }

  /** An absent or empty transcript path always aborts, whatever the file system holds. */
  lemma FalsyPathAborts(raw: RawInput, fileExists: string -> bool)
    requires Falsy(raw.agentTranscriptPath)
    ensures Aborts(Defaults(raw), fileExists)
  {
  }
}
