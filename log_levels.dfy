/** The severities a message and a logger can carry (the `LogLevels` enum). */
module Levels {

  /** The enum's four members; each one's string value is its own name. */
  datatype LogLevels = DEBUG | ERROR | INFO | WARNING

  /**
   * Reference definition of the documented order of permissiveness:
   * DEBUG is the most permissive threshold, ERROR the most restrictive.
   */
  function Rank(l: LogLevels): (r: nat)
    ensures r < 4
  {
    match l
    case DEBUG => 0
    case INFO => 1
    case WARNING => 2
    case ERROR => 3
  }
}
