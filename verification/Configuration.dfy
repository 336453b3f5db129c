/** The session limits of `agent/__init__.py` that the other modules rely on. */
module Configuration {

  datatype SessionConfiguration = SessionConfiguration(
    maxModelTurns: int, maxToolRounds: int, maxToolCalls: int,
    maxHistoryMessages: int, maxHistoryCharacters: int, recentHistoryMessages: int,
    maxToolContextCharacters: int)
  {
    /** What `__post_init__` accepts. */
    predicate Valid() {
      && maxModelTurns >= 1 && 0 <= maxToolRounds < maxModelTurns && maxToolCalls >= 1
      && maxHistoryMessages >= 1 && maxHistoryCharacters >= 1 && recentHistoryMessages >= 1
      && maxToolContextCharacters >= 1 && recentHistoryMessages <= maxHistoryMessages
    }
  }
}
