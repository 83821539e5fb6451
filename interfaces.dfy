/** The shapes of a log message and of a logger's options. */
module Interfaces {
  import opened Wrappers
  import opened Levels

  /** A snapshot of a message: what is serialised into a log file. */
  datatype MessageRecord = MessageRecord(timestamp: Option<string>, level: Option<LogLevels>, message: string)

  /**
   * A message object as callers pass it around; the logger fills in its
   * level and timestamp in place.
   */
  class MessageTemplate {
    var timestamp: Option<string>
    var level: Option<LogLevels>
    var message: string

    constructor (message: string, level: Option<LogLevels>, timestamp: Option<string>)
      ensures Record() == MessageRecord(timestamp, level, message)
    {
      this.timestamp := timestamp;
      this.level := level;
      this.message := message;
    }

    /** The object's current field values. */
    function Record(): MessageRecord
      reads this
    {
      MessageRecord(timestamp, level, message)
    }
  }

  /**
   * A logger's options. The object is shared: the logger keeps a reference
   * to the very object its creator passed in, and fills in defaults there.
   */
  class Options {
    var level: Option<LogLevels>
    var fileNameTemplate: Option<string>
    var hasColor: Option<bool>
    var logsDirPath: string

    constructor (logsDirPath: string, level: Option<LogLevels>, fileNameTemplate: Option<string>, hasColor: Option<bool>)
      ensures this.logsDirPath == logsDirPath && this.level == level
      ensures this.fileNameTemplate == fileNameTemplate && this.hasColor == hasColor
    {
      this.logsDirPath := logsDirPath;
      this.level := level;
      this.fileNameTemplate := fileNameTemplate;
      this.hasColor := hasColor;
    }
  }
}
