/**
 * The logger: how a log file is named, where it goes, how the message is
 * completed, and when it is written.
 *
 * The file system and the clock are outside the model. A directory listing
 * is passed in as the sequence of entry names, the current date as the
 * three `Date` getter values and the current instant as its ISO-8601 text.
 * Instead of touching files, the operations return the effects they would
 * perform, in order.
 */
module Logger {
  import opened Wrappers
  import opened Levels
  import opened Selector
  import opened Text
  import opened Utils
  import opened Interfaces

  /** The template used when the options give none, or an empty one. */
  const DefaultTemplate: string := "my_file"

  /** Reading a directory's listing, or writing one serialised message to a file. */
  datatype Effect = ReadDir(dirPath: string) | WriteFile(filePath: string, payload: MessageRecord)

  // ---------------------------------------------------------------------------
  // File names

  /** The template in use: the configured one if it is a non-empty string. */
  function Template(fileNameTemplate: Option<string>): (t: string)
    ensures t != ""
  {
    if fileNameTemplate.Some? && fileNameTemplate.value != "" then fileNameTemplate.value else DefaultTemplate
  }

  /** "<template>-<date>": the text an entry must contain to count as the same log series. */
  function NameKey(fileNameTemplate: Option<string>, dateTime: string): string {
    Template(fileNameTemplate) + "-" + dateTime
  }

  /** `files.filter(file => file.includes(key))`. */
  function SameName(files: seq<string>, key: string): (r: seq<string>)
    ensures |r| <= |files|
    ensures forall f :: f in r <==> f in files && Includes(f, key)
  {
    if files == [] then []
    else (if Includes(files[0], key) then [files[0]] else []) + SameName(files[1..], key)
  }

  /** The number put at the end of the next file name: one more than the matching entries. */
  function Suffix(fileNameTemplate: Option<string>, dateTime: string, files: seq<string>): (k: nat)
    ensures 1 <= k <= |files| + 1
  {
    |SameName(files, NameKey(fileNameTemplate, dateTime))| + 1
  }

  /** Splits "<key>-<n>.json" and reads n back; None if `name` has another shape. */
  function ParseFileName(key: string, name: string): Option<nat> {
    if |name| >= |key| + 6 && name[..|key| + 1] == key + "-" && name[|name| - 5..] == ".json"
    then ParseNat(name[|key| + 1..|name| - 5])
    else None
  }

  /** "<template>-<date>-<k+1>.json", where k counts the listing's entries that contain "<template>-<date>". */
  function BuildFileName(fileNameTemplate: Option<string>, dateTime: string, files: seq<string>): (name: string)
    ensures name == NameKey(fileNameTemplate, dateTime) + "-" + NatToString(Suffix(fileNameTemplate, dateTime, files)) + ".json"
    ensures ParseFileName(NameKey(fileNameTemplate, dateTime), name) == Some(Suffix(fileNameTemplate, dateTime, files))
  {
    var key := NameKey(fileNameTemplate, dateTime);
    var k := Suffix(fileNameTemplate, dateTime, files);
    var name := key + "-" + NatToString(k) + ".json";
    assert name[..|key| + 1] == key + "-";
    assert name[|key| + 1..|name| - 5] == NatToString(k);
    ParseNatToString(k);
    name
  }

  /** The full path: the logs directory, a '/', and the file name, with nothing normalised. */
  function BuildFilePath(logsDirPath: string, fileName: string): (path: string)
    ensures |path| == |logsDirPath| + 1 + |fileName|
    ensures path[..|logsDirPath|] == logsDirPath && path[|logsDirPath|] == '/'
    ensures path[|logsDirPath| + 1..] == fileName
  {
    logsDirPath + "/" + fileName
  }

  /** No template, or an empty one, means "my_file"; any other template is used as given. */
  lemma TemplateDefault(t: string)
    ensures Template(None) == "my_file" && Template(Some("")) == "my_file"
    ensures t != "" ==> Template(Some(t)) == t
  {
  }

  /**
   * The filter keeps each matching entry as many times as the listing has
   * it, and drops every other entry: its size is the number of matches.
   */
  lemma {:induction false} SameNameMultiplicity(files: seq<string>, key: string, f: string)
    ensures multiset(SameName(files, key))[f] == if Includes(f, key) then multiset(files)[f] else 0
  {
    if files != [] {
      SameNameMultiplicity(files[1..], key, f);
      assert files == [files[0]] + files[1..];
    }
  }

  /** Filtering a concatenation filters each part. */
  lemma {:induction false} SameNameConcat(a: seq<string>, b: seq<string>, key: string)
    ensures SameName(a + b, key) == SameName(a, key) + SameName(b, key)
  {
    if a != [] {
      assert (a + b)[1..] == a[1..] + b;
      SameNameConcat(a[1..], b, key);
    } else {
      assert a + b == b;
    }
  }

  /** With an empty directory the first file of the day ends in "-1.json". */
  lemma EmptyListingStartsAtOne(fileNameTemplate: Option<string>, dateTime: string)
    ensures Suffix(fileNameTemplate, dateTime, []) == 1
    ensures BuildFileName(fileNameTemplate, dateTime, []) == NameKey(fileNameTemplate, dateTime) + "-1.json"
  {
  }

  /**
   * One more entry anywhere in the listing raises the suffix by exactly one
   * if it contains the key, and leaves it alone otherwise.
   */
  lemma InsertEntry(fileNameTemplate: Option<string>, dateTime: string, a: seq<string>, b: seq<string>, f: string)
    ensures var key := NameKey(fileNameTemplate, dateTime);
            Suffix(fileNameTemplate, dateTime, a + [f] + b)
            == Suffix(fileNameTemplate, dateTime, a + b) + (if Includes(f, key) then 1 else 0)
  {
    var key := NameKey(fileNameTemplate, dateTime);
    SameNameConcat(a + [f], b, key);
    SameNameConcat(a, [f], key);
    SameNameConcat(a, b, key);
    assert SameName([f], key) == (if Includes(f, key) then [f] else []) + SameName([], key);
  }

  /** A file name contains the key it was counted under. */
  lemma FileNameIncludesKey(fileNameTemplate: Option<string>, dateTime: string, files: seq<string>)
    ensures Includes(BuildFileName(fileNameTemplate, dateTime, files), NameKey(fileNameTemplate, dateTime))
  {
    var key := NameKey(fileNameTemplate, dateTime);
    var digits := NatToString(Suffix(fileNameTemplate, dateTime, files));
    var rest := "-" + digits + ".json";
    IncludesInside("", key, rest);
    assert "" + key + rest == key + rest;
    assert key + rest == key + "-" + digits + ".json";
  }

  /**
   * Once the file a name was built for is in the directory, the next name
   * for the same day carries the next number.
   */
  lemma NextNameAfterWrite(fileNameTemplate: Option<string>, dateTime: string, files: seq<string>)
    ensures var name := BuildFileName(fileNameTemplate, dateTime, files);
            Suffix(fileNameTemplate, dateTime, files + [name]) == Suffix(fileNameTemplate, dateTime, files) + 1
  {
    var name := BuildFileName(fileNameTemplate, dateTime, files);
    FileNameIncludesKey(fileNameTemplate, dateTime, files);
    InsertEntry(fileNameTemplate, dateTime, files, [], name);
    assert files + [name] + [] == files + [name];
    assert files + [] == files;
  }

  /** The match is by containment, not by prefix: any entry with the key inside it counts. */
  lemma ContainmentNotPrefix(fileNameTemplate: Option<string>, dateTime: string, p: string, q: string)
    ensures Suffix(fileNameTemplate, dateTime, [p + NameKey(fileNameTemplate, dateTime) + q]) == 2
  {
    var key := NameKey(fileNameTemplate, dateTime);
    IncludesInside(p, key, q);
    assert SameName([p + key + q], key) == [p + key + q] + SameName([], key);
  }

  /** With no template configured the name starts with "my_file" (an empty directory gives number 1). */
  lemma DefaultFileNameExample()
    ensures BuildFileName(None, "2020-10-05", []) == "my_file-2020-10-05-1.json"
  {
    assert NameKey(None, "2020-10-05") == "my_file-2020-10-05";
    assert NatToString(1) == "1";
  }

  /** One file of the series already in the directory makes the next one number 2. */
  lemma SecondFileNameExample()
    ensures BuildFileName(Some("basic-test"), "2020-10-05", ["basic-test-2020-10-05-1.json"])
            == "basic-test-2020-10-05-2.json"
  {
    var key := NameKey(Some("basic-test"), "2020-10-05");
    assert key == "basic-test-2020-10-05";
    ContainmentNotPrefix(Some("basic-test"), "2020-10-05", "", "-1.json");
    assert "" + key + "-1.json" == "basic-test-2020-10-05-1.json";
    assert NatToString(2) == "2";
  }

  /**
   * Counting is not a uniqueness check: if an earlier file of the day is
   * gone, the next name can be one that is already in the directory, and
   * writing it overwrites that file.
   */
  lemma NameCanCollide()
    ensures var files := ["basic-test-2020-10-05-2.json"];
            BuildFileName(Some("basic-test"), "2020-10-05", files) in files
  {
    var key := NameKey(Some("basic-test"), "2020-10-05");
    assert key == "basic-test-2020-10-05";
    ContainmentNotPrefix(Some("basic-test"), "2020-10-05", "", "-2.json");
    assert "" + key + "-2.json" == "basic-test-2020-10-05-2.json";
    assert NatToString(2) == "2";
    var name := BuildFileName(Some("basic-test"), "2020-10-05", ["basic-test-2020-10-05-2.json"]);
    assert name == key + "-2.json";
    assert name == "basic-test-2020-10-05-2.json";
  }

  /** Distinct file names in one directory give distinct paths. */
  lemma BuildFilePathInjective(logsDirPath: string, n1: string, n2: string)
    requires BuildFilePath(logsDirPath, n1) == BuildFilePath(logsDirPath, n2)
    ensures n1 == n2
  {
    assert n1 == BuildFilePath(logsDirPath, n1)[|logsDirPath| + 1..];
  }

  // ---------------------------------------------------------------------------
  // Messages and the write decision

  /** The message as `buildMessage` leaves it: level INFO if it had none, timestamp `now`. */
  function Built(rec: MessageRecord, now: string): (r: MessageRecord)
    ensures r.level.Some? && r.timestamp == Some(now) && r.message == rec.message
    ensures rec.level.Some? ==> r.level == rec.level
    ensures rec.level.None? ==> r.level == Some(INFO)
  {
    MessageRecord(Some(now), if rec.level.None? then Some(INFO) else rec.level, rec.message)
  }

  /** Building a built message again with the same instant changes nothing. */
  lemma BuiltIdempotent(rec: MessageRecord, now: string)
    ensures Built(Built(rec, now), now) == Built(rec, now)
  {
  }

  /** Filling in the level does not change what the gate decides. */
  lemma BuiltKeepsGate(sel: LevelSelector, rec: MessageRecord, now: string)
    ensures sel.CheckLevel(Built(rec, now).level) == sel.CheckLevel(rec.level)
  {
  }

  /** What `writeOutLog` does: write the built message to `filePath` iff the gate accepts its level. */
  function WriteDecision(sel: LevelSelector, filePath: string, rec: MessageRecord, now: string): (w: Option<Effect>)
    ensures w.Some? <==> sel.CheckLevel(rec.level)
    ensures w.Some? ==> w.value.WriteFile? && w.value.filePath == filePath
    ensures w.Some? ==> w.value.payload == Built(rec, now)
  {
    if sel.CheckLevel(rec.level) then Some(WriteFile(filePath, Built(rec, now))) else None
  }

  /** Every message that is written carries a level, and that level passes the gate. */
  lemma WrittenLevelPasses(sel: LevelSelector, filePath: string, rec: MessageRecord, now: string)
    requires WriteDecision(sel, filePath, rec, now).Some?
    ensures var p := WriteDecision(sel, filePath, rec, now).value.payload;
            p.level.Some? && sel.CheckLevel(p.level) && Rank(p.level.value) >= Rank(sel.level)
  {
  }

  /**
   * The effects of `triggerLogger`: the logs directory is always listed, to
   * name the file, and only then does the gate decide whether it is written.
   */
  function TriggerEffects(sel: LevelSelector, logsDirPath: string, fileNameTemplate: Option<string>,
                          year: int, monthIndex: int, day: int, now: string,
                          files: seq<string>, rec: MessageRecord): (effects: seq<Effect>)
    requires ValidDate(monthIndex, day)
    ensures 1 <= |effects| <= 2 && effects[0] == ReadDir(logsDirPath)
    ensures |effects| == 2 <==> sel.CheckLevel(rec.level)
  {
    var dateTime := BuildDateTimeString(year, monthIndex, day);
    var fileName := BuildFileName(fileNameTemplate, dateTime, files);
    var filePath := BuildFilePath(logsDirPath, fileName);
    match WriteDecision(sel, filePath, rec, now)
    case Some(e) => [ReadDir(logsDirPath), e]
    case None => [ReadDir(logsDirPath)]
  }

  /**
   * A written message goes to "<dir>/<template>-<YYYY-MM-DD>-<k+1>.json"
   * in the listed directory, for that day's date.
   */
  lemma TriggerWritesNamedFile(sel: LevelSelector, logsDirPath: string, fileNameTemplate: Option<string>,
                               year: int, monthIndex: int, day: int, now: string,
                               files: seq<string>, rec: MessageRecord)
    requires ValidDate(monthIndex, day)
    requires sel.CheckLevel(rec.level)
    ensures var effects := TriggerEffects(sel, logsDirPath, fileNameTemplate, year, monthIndex, day, now, files, rec);
            var dateTime := BuildDateTimeString(year, monthIndex, day);
            && effects[1] == WriteFile(BuildFilePath(logsDirPath, BuildFileName(fileNameTemplate, dateTime, files)), Built(rec, now))
            && ParseFileName(NameKey(fileNameTemplate, dateTime), effects[1].filePath[|logsDirPath| + 1..])
               == Some(Suffix(fileNameTemplate, dateTime, files))
  {
  }

  // ---------------------------------------------------------------------------
  // The logger object

  class SimpleLogger {
    const loggerName: string
    const options: Options
    const levelSelector: LevelSelector

    constructor (loggerName: string, options: Options, levelSelector: LevelSelector)
      ensures this.loggerName == loggerName && this.options == options && this.levelSelector == levelSelector
    {
      this.loggerName := loggerName;
      this.options := options;
      this.levelSelector := levelSelector;
    }

    /** Completes the caller's message object in place and returns that same object. */
    method BuildMessage(messageTemplate: MessageTemplate, now: string) returns (r: MessageTemplate)
      modifies messageTemplate
      ensures r == messageTemplate
      ensures messageTemplate.Record() == Built(old(messageTemplate.Record()), now)
    {
      if messageTemplate.level.None? {
        messageTemplate.level := Some(INFO);
      }
      messageTemplate.timestamp := Some(now);
      r := messageTemplate;
    }

    /**
     * Writes the message to `filePath` if the gate accepts its level; the
     * message object is completed only in that case. None stands for the
     * `undefined` returned when nothing is written.
     */
    method WriteOutLog(filePath: string, messageTemplate: MessageTemplate, now: string) returns (written: Option<Effect>)
      modifies messageTemplate
      ensures written == WriteDecision(levelSelector, filePath, old(messageTemplate.Record()), now)
      ensures messageTemplate.Record()
              == if written.Some? then Built(old(messageTemplate.Record()), now) else old(messageTemplate.Record())
    {
      var shouldWriteToFile := levelSelector.CheckLevel(messageTemplate.level);
      if shouldWriteToFile {
        var built := BuildMessage(messageTemplate, now);
        written := Some(WriteFile(filePath, built.Record()));
      } else {
        written := None;
      }
    }

    /**
     * Names the file for today (listing the logs directory), builds its path,
     * and hands both to `WriteOutLog`, which applies the gate.
     */
    method TriggerLogger(messageTemplate: MessageTemplate, year: int, monthIndex: int, day: int,
                         now: string, files: seq<string>) returns (effects: seq<Effect>)
      requires ValidDate(monthIndex, day)
      modifies messageTemplate
      ensures effects == TriggerEffects(levelSelector, options.logsDirPath, options.fileNameTemplate,
                                        year, monthIndex, day, now, files, old(messageTemplate.Record()))
      ensures messageTemplate.Record()
              == if |effects| == 2 then Built(old(messageTemplate.Record()), now) else old(messageTemplate.Record())
    {
      var dateTime := BuildDateTimeString(year, monthIndex, day);
      effects := [ReadDir(options.logsDirPath)];
      var newFileName := BuildFileName(options.fileNameTemplate, dateTime, files);
      var newFilePath := BuildFilePath(options.logsDirPath, newFileName);
      var written := WriteOutLog(newFilePath, messageTemplate, now);
      if written.Some? {
        effects := effects + [written.value];
      }
    }

    /**
     * The leveled entry points (`debug`, `info`, `warning`, `error`): a fresh
     * message with the given text and level goes through `TriggerLogger`.
     */
    method Log(level: LogLevels, messageStr: string, year: int, monthIndex: int, day: int,
               now: string, files: seq<string>) returns (effects: seq<Effect>)
      requires ValidDate(monthIndex, day)
      ensures effects == TriggerEffects(levelSelector, options.logsDirPath, options.fileNameTemplate,
                                        year, monthIndex, day, now, files, MessageRecord(None, Some(level), messageStr))
      ensures effects[0] == ReadDir(options.logsDirPath)
      ensures |effects| == 2 <==> Rank(level) >= Rank(levelSelector.level)
      ensures |effects| == 2 ==>
                effects[1].WriteFile? && effects[1].payload == MessageRecord(Some(now), Some(level), messageStr)
    {
      var m := new MessageTemplate(messageStr, Some(level), None);
      effects := TriggerLogger(m, year, monthIndex, day, now, files);
    }

    /**
     * Creates a logger from `options`, filling in the caller's object: a
     * missing level becomes INFO and a missing or false `hasColor` becomes
     * false. The logger's gate uses the resulting level.
     */
    static method GetLogger(loggerName: string, options: Options) returns (logger: SimpleLogger)
      modifies options
      ensures options.level == Some(old(options.level).GetOr(INFO))
      ensures options.hasColor == Some(old(options.hasColor) == Some(true))
      ensures options.fileNameTemplate == old(options.fileNameTemplate) && options.logsDirPath == old(options.logsDirPath)
      ensures fresh(logger) && logger.loggerName == loggerName && logger.options == options
      ensures logger.levelSelector == LevelSelector(options.level.value)
    {
      if options.level.None? {
        options.level := Some(INFO);
      }
      if options.hasColor != Some(true) {
        options.hasColor := Some(false);
      }
      var levelSelector := LevelSelector(options.level.value);
      logger := new SimpleLogger(loggerName, options, levelSelector);
    }
  }

  /** Three entries that each include the key are all counted. */
  lemma ThreeMatches(key: string, f1: string, f2: string, f3: string)
    requires Includes(f1, key) && Includes(f2, key) && Includes(f3, key)
    ensures |SameName([f1, f2, f3], key)| == 3
  {
    assert [f1, f2, f3][1..] == [f2, f3] && [f2, f3][1..] == [f3] && [f3][1..] == [];
    assert SameName([f3], key) == [f3] + SameName([], key);
    assert SameName([f2, f3], key) == [f2] + SameName([f3], key);
  }

  /** With files 1, 2 and 3 of a series in the directory, the next name is number 4. */
  lemma FourthOfSeries(fileNameTemplate: Option<string>, dateTime: string)
    ensures var key := NameKey(fileNameTemplate, dateTime);
            BuildFileName(fileNameTemplate, dateTime, [key + "-1.json", key + "-2.json", key + "-3.json"])
            == key + "-4.json"
  {
    var key := NameKey(fileNameTemplate, dateTime);
    var files := [key + "-1.json", key + "-2.json", key + "-3.json"];
    assert Suffix(fileNameTemplate, dateTime, files) == 4 by {
      IncludesInside("", key, "-1.json");
      IncludesInside("", key, "-2.json");
      IncludesInside("", key, "-3.json");
      assert "" + key + "-1.json" == files[0] && "" + key + "-2.json" == files[1] && "" + key + "-3.json" == files[2];
      ThreeMatches(key, files[0], files[1], files[2]);
      assert [files[0], files[1], files[2]] == files;
    }
    assert NatToString(4) == "4";
    assert key + "-" + "4" + ".json" == key + "-4.json";
  }

  /** April 7th, 2019 (getMonth() is 3 for April). */
  lemma AprilSeventh()
    ensures BuildDateTimeString(2019, 3, 7) == "2019-04-07"
  {
    assert NatToString(2019) == "2019" by {
      assert NatToString(2) == "2";
      assert NatToString(20) == "20";
      assert NatToString(201) == "201";
    }
  }

  /**
   * A logger created without a level writes INFO messages but not DEBUG
   * ones; a logger created with level ERROR writes ERROR messages but not
   * WARNING ones.
   */
  method GateScenarios(dir: string, year: int, monthIndex: int, day: int, now: string, files: seq<string>)
    returns (info: seq<Effect>, debug: seq<Effect>, warning: seq<Effect>, error: seq<Effect>)
    requires ValidDate(monthIndex, day)
    ensures |info| == 2 && |debug| == 1
    ensures |warning| == 1 && |error| == 2
    ensures error[1].WriteFile? && error[1].payload == MessageRecord(Some(now), Some(ERROR), "Bonjour!")
  {
    var defaults := new Options(dir, None, Some("basic-test"), None);
    var logger := SimpleLogger.GetLogger("test-logger", defaults);
    assert logger.levelSelector.level == INFO;
    info := logger.Log(INFO, "Hello world!", year, monthIndex, day, now, files);
    debug := logger.Log(DEBUG, "Aloha there!", year, monthIndex, day, now, files);
    var strict := new Options(dir, Some(ERROR), None, None);
    var errorLogger := SimpleLogger.GetLogger("strict", strict);
    assert errorLogger.levelSelector.level == ERROR;
    warning := errorLogger.Log(WARNING, "Careful", year, monthIndex, day, now, files);
    error := errorLogger.Log(ERROR, "Bonjour!", year, monthIndex, day, now, files);
  }

  /** The key of the "basic-test" series for April 7th, 2019. */
  lemma BasicTestKey()
    ensures NameKey(Some("basic-test"), BuildDateTimeString(2019, 3, 7)) == "basic-test-2019-04-07"
  {
    AprilSeventh();
  }

  /**
   * When the gate accepts and files 1 to 3 of the day's series are in the
   * directory, the message is written to file number 4 of the series.
   */
  lemma TriggerWritesFourth(sel: LevelSelector, logsDirPath: string, fileNameTemplate: Option<string>,
                            year: int, monthIndex: int, day: int, now: string, rec: MessageRecord)
    requires ValidDate(monthIndex, day) && sel.CheckLevel(rec.level)
    ensures var key := NameKey(fileNameTemplate, BuildDateTimeString(year, monthIndex, day));
            var files := [key + "-1.json", key + "-2.json", key + "-3.json"];
            TriggerEffects(sel, logsDirPath, fileNameTemplate, year, monthIndex, day, now, files, rec)
            == [ReadDir(logsDirPath), WriteFile(logsDirPath + "/" + key + "-4.json", Built(rec, now))]
  {
    var dateTime := BuildDateTimeString(year, monthIndex, day);
    var key := NameKey(fileNameTemplate, dateTime);
    FourthOfSeries(fileNameTemplate, dateTime);
    assert logsDirPath + "/" + (key + "-4.json") == logsDirPath + "/" + key + "-4.json";
  }

  /** The path of the fourth file of the "basic-test" series for a day. */
  lemma BasicTestPath(dir: string, d: string)
    ensures dir + "/" + NameKey(Some("basic-test"), d) + "-4.json" == dir + "/basic-test-" + d + "-4.json"
  {
    var key := NameKey(Some("basic-test"), d);
    assert Template(Some("basic-test")) == "basic-test";
    assert key == "basic-test" + "-" + d;
    assert "basic-test" + "-" == "basic-test-";
    assert dir + "/" + key + "-4.json" == dir + "/" + "basic-test-" + d + "-4.json";
    assert "/" + "basic-test-" == "/basic-test-";
    assert dir + "/" + "basic-test-" == dir + ("/" + "basic-test-");
  }

  /**
   * A logger created without a level writes an ERROR message; with files 1
   * to 3 of the "basic-test" series for the day already in the directory,
   * it goes to file number 4 (for April 7th, 2019 that is
   * "basic-test-2019-04-07-4.json", see `BasicTestKey`).
   */
  method FourthFileScenario(dir: string, now: string, year: int, monthIndex: int, day: int) returns (error: seq<Effect>)
    requires ValidDate(monthIndex, day)
    ensures error == [ReadDir(dir), WriteFile(dir + "/basic-test-" + BuildDateTimeString(year, monthIndex, day) + "-4.json",
                                               MessageRecord(Some(now), Some(ERROR), "Bonjour!"))]
  {
    var key := NameKey(Some("basic-test"), BuildDateTimeString(year, monthIndex, day));
    var files := [key + "-1.json", key + "-2.json", key + "-3.json"];
    var defaults := new Options(dir, None, Some("basic-test"), None);
    var logger := SimpleLogger.GetLogger("test-logger", defaults);
    assert logger.levelSelector == LevelSelector(INFO);
    error := logger.Log(ERROR, "Bonjour!", year, monthIndex, day, now, files);
    var rec := MessageRecord(None, Some(ERROR), "Bonjour!");
    TriggerWritesFourth(LevelSelector(INFO), dir, Some("basic-test"), year, monthIndex, day, now, rec);
    assert error == [ReadDir(dir), WriteFile(dir + "/" + key + "-4.json", Built(rec, now))];
    BasicTestPath(dir, BuildDateTimeString(year, monthIndex, day));
  }
}
