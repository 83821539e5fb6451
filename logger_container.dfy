/** The registry of loggers: an append-only list searched by name. */
module Container {
  import opened Wrappers

  /**
   * A registered logger. The registry only ever looks at a logger's name;
   * being an object, a logger has an identity, so two loggers with the same
   * name are still two different entries.
   */
  class RegisteredLogger {
    const loggerName: string

    constructor (loggerName: string)
      ensures this.loggerName == loggerName
    {
      this.loggerName := loggerName;
    }
  }

  /** The text of the error raised when no logger has the requested name. */
  function NotFoundMessage(loggerName: string): string {
    "Cannot find logger of name " + loggerName
  }

  /** Position of the first logger named `loggerName`, if there is one. */
  function FirstIndex(loggers: seq<RegisteredLogger>, loggerName: string): (r: Option<nat>)
    ensures r.Some? ==> r.value < |loggers| && loggers[r.value].loggerName == loggerName
    ensures r.Some? ==> forall j :: 0 <= j < r.value ==> loggers[j].loggerName != loggerName
    ensures r.None? <==> forall j :: 0 <= j < |loggers| ==> loggers[j].loggerName != loggerName
  {
    if |loggers| == 0 then None
    else if loggers[0].loggerName == loggerName then Some(0)
    else
      match FirstIndex(loggers[1..], loggerName)
      case Some(i) => Some(i + 1)
      case None => None
  }

  /**
   * Appending keeps every earlier lookup, and makes the appended logger's
   * name found: at the earliest logger of that name, which is the new one
   * only if no earlier logger has its name.
   */
  lemma {:induction false} FirstIndexAppend(loggers: seq<RegisteredLogger>, logger: RegisteredLogger, loggerName: string)
    ensures FirstIndex(loggers, loggerName).Some? ==>
              FirstIndex(loggers + [logger], loggerName) == FirstIndex(loggers, loggerName)
    ensures FirstIndex(loggers, loggerName).None? ==>
              FirstIndex(loggers + [logger], loggerName)
              == if logger.loggerName == loggerName then Some(|loggers|) else None
  {
    if |loggers| > 0 && loggers[0].loggerName != loggerName {
      assert (loggers + [logger])[1..] == loggers[1..] + [logger];
      FirstIndexAppend(loggers[1..], logger, loggerName);
    }
  }

  class LoggerContainer {
    var loggers: seq<RegisteredLogger>

    constructor ()
      ensures loggers == []
    {
      loggers := [];
    }

    /** Appends `logger`, whether or not a logger of that name is already registered. */
    method AddLogger(logger: RegisteredLogger)
      modifies this
      ensures loggers == old(loggers) + [logger]
    {
      loggers := loggers + [logger];
    }

    /**
     * The first registered logger named `loggerName`, or the "Cannot find
     * logger of name" error when there is none. The list is left as it is.
     */
    method GetLogger(loggerName: string) returns (r: Result<RegisteredLogger, string>)
      ensures r.Ok? ==> r.value.loggerName == loggerName
      ensures r.Ok? ==> exists i :: 0 <= i < |loggers| && loggers[i] == r.value
                                    && forall j :: 0 <= j < i ==> loggers[j].loggerName != loggerName
      ensures r.Err? <==> forall j :: 0 <= j < |loggers| ==> loggers[j].loggerName != loggerName
      ensures r.Err? ==> r.error == "Cannot find logger of name " + loggerName
      ensures r == match FirstIndex(loggers, loggerName)
                   case Some(i) => Ok(loggers[i])
                   case None => Err(NotFoundMessage(loggerName))
    {
      var i := 0;
      while i < |loggers|
        invariant 0 <= i <= |loggers|
        invariant forall j :: 0 <= j < i ==> loggers[j].loggerName != loggerName
      {
        if loggers[i].loggerName == loggerName {
          return Ok(loggers[i]);
        }
        i := i + 1;
      }
      return Err(NotFoundMessage(loggerName));
    }
  }

  /**
   * After `AddLogger(l)`, looking up `l`'s name succeeds; if an earlier
   * logger had that name, the earlier one is returned.
   */
  method AddThenGet(c: LoggerContainer, logger: RegisteredLogger) returns (r: Result<RegisteredLogger, string>)
    modifies c
    ensures c.loggers == old(c.loggers) + [logger]
    ensures r.Ok? && r.value.loggerName == logger.loggerName
    ensures r.value == (if FirstIndex(old(c.loggers), logger.loggerName).Some?
                        then old(c.loggers)[FirstIndex(old(c.loggers), logger.loggerName).value]
                        else logger)
  {
    FirstIndexAppend(c.loggers, logger, logger.loggerName);
    c.AddLogger(logger);
    r := c.GetLogger(logger.loggerName);
  }

  /**
   * Two loggers "foo" and "bar": asking for "bar" gives the second one, and
   * asking for "baz" fails with an error naming "baz"; an empty registry
   * fails for "foo".
   */
  method RegistryScenario() returns (empty: Result<RegisteredLogger, string>, bar: Result<RegisteredLogger, string>, baz: Result<RegisteredLogger, string>)
    ensures empty == Err("Cannot find logger of name foo")
    ensures bar.Ok? && bar.value.loggerName == "bar"
    ensures baz == Err("Cannot find logger of name baz")
  {
    var loggers := new LoggerContainer();
    empty := loggers.GetLogger("foo");
    var foo := new RegisteredLogger("foo");
    loggers.AddLogger(foo);
    var barLogger := new RegisteredLogger("bar");
    loggers.AddLogger(barLogger);
    bar := loggers.GetLogger("bar");
    baz := loggers.GetLogger("baz");
    assert NotFoundMessage("foo") == "Cannot find logger of name foo";
    assert NotFoundMessage("baz") == "Cannot find logger of name baz";
  }
}
