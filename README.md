# simple-logger, modelled in Dafny

This project models the logic of simple-logger, a small file-based logger. Each log call becomes one JSON file
in the logger's logs directory. A file is written only when the message's severity passes the logger's
threshold. Files are named `<template>-<YYYY-MM-DD>-<n>.json`, where `n` is one more than the number of
directory entries that already contain `<template>-<YYYY-MM-DD>`. A registry keeps loggers and looks
them up by name.

The model has one module per source file:

- `Levels` (`src/enums/log-levels.ts`): the four severities, and `Rank`, their documented order
  (DEBUG, INFO, WARNING, ERROR). `Rank` is a reference definition used in contracts.
- `Selector` (`src/logging-resources/level-selector.ts`): the private `levelOrder` array and
  `Array.prototype.indexOf` over it. `LevelSelector.CheckLevel` is the gate. The selector's threshold is
  set once and never updated, so `LevelSelector` is a datatype. As a value, checking a level cannot change it.
- `Text`: the JavaScript string primitives the core uses. These are template-literal printing of
  non-negative integers (`NatToString`, `IntToString`) and `String.prototype.includes` (`Includes`).
  Each has a parser or a reference definition beside it.
- `Utils` (`src/utils.ts`): `buildDateTimeString`. Its inputs are the values of `getFullYear()`,
  `getMonth()` and `getDate()`.
- `Interfaces` (`src/interfaces/*.ts`): `MessageRecord`, the value a log file holds. `MessageTemplate`
  and `Options` are classes, because the logger fills in their fields in place on the caller's object.
- `Logger` (`src/simple-logger.ts`): file naming and file paths are pure functions. The directory
  listing is a `seq<string>` parameter. `SimpleLogger` is a class whose methods complete the message object
  in place. They return the effects they would perform, in order: `ReadDir(dir)`, then
  `WriteFile(path, payload)` when the gate accepts. The current date and the current ISO-8601 instant are
  parameters.
- `Container` (`src/modules/logger-container.ts`): `LoggerContainer` is a class with a `seq` field.
  `AddLogger` appends to it. `GetLogger` is a linear search loop, so it cannot modify the list (it has no
  `modifies` clause). The source's registry imports a `SimpleLogger` that is not part of this model. It is
  stood in for by a class `RegisteredLogger` that carries only `loggerName`. Object identity keeps duplicate names
  apart.

Behaviour of the code worth noting:

- `buildMessage` always overwrites the timestamp, even when the message already has one.
- The registry accepts duplicate names. A lookup returns the earliest logger added under that name.
- `triggerLogger` lists the directory and computes the file name and path before `writeOutLog` applies the
  gate. So `ReadDir` happens even for messages that are not written.
- An empty `fileNameTemplate` also falls back to `"my_file"`, because the check is for a falsy value.

## Model

| member | source | states |
|---|---|---|
| `Selector.IndexOf` | src/logging-resources/level-selector.ts:40-41 | `indexOf`: first position of the level in the array, or -1 exactly when it does not occur |
| `Selector.OrderPositions` | src/logging-resources/level-selector.ts:20-25 | each level's position in `levelOrder` is its rank in the order DEBUG, INFO, WARNING, ERROR |
| `Selector.LevelSelector.CheckLevel` | src/logging-resources/level-selector.ts:36-44 | accepts iff the rank of the message level (INFO if absent) is at least the rank of the threshold |
| `Selector.AbsentLevelIsInfo` | src/logging-resources/level-selector.ts:37-39 | a missing level is judged exactly like INFO |
| `Selector.AcceptsOwnLevel` | src/logging-resources/level-selector.ts:40-43 | every selector accepts its own threshold level |
| `Selector.DebugAcceptsAll` | src/logging-resources/level-selector.ts:21-25 | a DEBUG threshold accepts every message |
| `Selector.ErrorAcceptsOnlyError` | src/logging-resources/level-selector.ts:24-25 | an ERROR threshold accepts a message iff its level is ERROR |
| `Selector.MonotoneInMessage` | src/logging-resources/level-selector.ts:40-43 | if a level is accepted, every later level is accepted |
| `Selector.AntitoneInThreshold` | src/logging-resources/level-selector.ts:40-43 | lowering the threshold never rejects a message a higher threshold accepted |
| `Text.NatToString` | src/simple-logger.ts:142 | the decimal text of a count is non-empty, all digits, and starts with '0' only for zero |
| `Text.ParseNatToString` | src/simple-logger.ts:142 | reading a number's decimal text back gives the number |
| `Text.ParseIntToString` | src/utils.ts:31 | reading a year's decimal text (with '-' if negative) back gives the year |
| `Text.NatToStringInjective` | src/simple-logger.ts:142 | distinct numbers have distinct decimal texts |
| `Text.NatToStringLength` | src/utils.ts:31 | a number with k digits prints as k characters |
| `Text.IncludesIffOccurs` | src/simple-logger.ts:140 | `includes` holds iff the key occurs at some position of the entry |
| `Text.IncludesInside` | src/simple-logger.ts:140 | an entry that has the key anywhere inside it includes the key |
| `Utils.BuildDateTimeString` | src/utils.ts:17-31 | the result is the year, '-', the month (`getMonth()+1`) as two digits, '-', the day as two digits |
| `Utils.PadsToTwoDigits` | src/utils.ts:23-29 | padding below 10 with one "0", and not padding from 10 on, gives exactly two digits |
| `Utils.DateFieldPadding` | src/utils.ts:23-29 | month and day below 10 appear as "0" plus the number; from 10 on they appear unpadded |
| `Utils.FourDigitYearShape` | src/utils.ts:15-31 | with a four-digit year the text has length 10, '-' at 4 and 7, and digits elsewhere |
| `Utils.ParseBuildDate` | src/utils.ts:21-31 | parsing the text gives back the year, the calendar month and the day |
| `Utils.BuildDateInjective` | src/utils.ts:21-31 | distinct dates give distinct texts |
| `Utils.OctoberExamples` | __tests__/utils.spec.ts:4-16 | October 5th and 15th, 2020 give "2020-10-05" and "2020-10-15" |
| `Logger.Template` | src/simple-logger.ts:131-135 | the template in use is never empty |
| `Logger.TemplateDefault` | src/simple-logger.ts:131-135 | an absent or empty template means "my_file"; any other is used as given |
| `Logger.SameName` | src/simple-logger.ts:140 | an entry is in the filtered listing iff it is in the listing and includes the key; the filtered listing is no longer than the listing |
| `Logger.SameNameMultiplicity` | src/simple-logger.ts:140-142 | each entry that includes the key is kept exactly as many times as the listing has it, and every other entry is dropped, so the count is the number of matching entries |
| `Logger.SameNameConcat` | src/simple-logger.ts:140 | filtering a concatenated listing concatenates the filtered parts |
| `Logger.Suffix` | src/simple-logger.ts:140-142 | the file number is at least 1 and at most the listing's length plus 1 |
| `Logger.BuildFileName` | src/simple-logger.ts:130-144 | the name is exactly the key "<template>-<date>", '-', the decimal text (no leading zero) of one more than the number of matching entries, and ".json"; reading the number back from the name gives that count plus one |
| `Logger.EmptyListingStartsAtOne` | src/simple-logger.ts:140-144 | an empty directory gives number 1 |
| `Logger.InsertEntry` | src/simple-logger.ts:140-142 | one more entry anywhere in the listing adds 1 to the number if it includes the key, and 0 otherwise |
| `Logger.FileNameIncludesKey` | src/simple-logger.ts:137-144 | a built name includes the key it was counted under |
| `Logger.NextNameAfterWrite` | src/simple-logger.ts:140-142 | once the named file is in the directory, the next name for that day has the next number |
| `Logger.ContainmentNotPrefix` | src/simple-logger.ts:140 | an entry with the key anywhere inside it counts, not only one that starts with it |
| `Logger.DefaultFileNameExample` | __tests__/simple-logger.spec.ts:73-81 | no template and an empty directory give "my_file-2020-10-05-1.json" |
| `Logger.SecondFileNameExample` | src/simple-logger.ts:140-144 | one "basic-test-2020-10-05-1.json" in the directory makes the next name "basic-test-2020-10-05-2.json" |
| `Logger.NameCanCollide` | src/simple-logger.ts:140-142 | the counted name can already exist in the directory, e.g. when only file 2 of the day is there |
| `Logger.BuildFilePath` | src/simple-logger.ts:153-155 | the path is the directory, then '/', then the file name, each recoverable from the path |
| `Logger.BuildFilePathInjective` | src/simple-logger.ts:153-155 | distinct names in one directory give distinct paths |
| `Logger.Built` | src/simple-logger.ts:162-172 | a built message has a level (a given one kept, INFO otherwise), the timestamp `now`, and the same text |
| `Logger.BuiltIdempotent` | src/simple-logger.ts:162-172 | building twice with the same instant is building once |
| `Logger.BuiltKeepsGate` | src/simple-logger.ts:198-202 | filling in the level does not change the gate's decision |
| `Logger.WriteDecision` | src/simple-logger.ts:198-209 | a write happens iff the gate accepts the message's level; it goes to the given path, and its payload is exactly the built message (timestamp `now`, the level or INFO, the text) |
| `Logger.WrittenLevelPasses` | src/simple-logger.ts:198-209 | every written message carries a level whose rank is at least the threshold's |
| `Logger.TriggerEffects` | src/simple-logger.ts:179-186 | the directory is always listed first; a second effect, the write, happens iff the gate accepts |
| `Logger.TriggerWritesNamedFile` | src/simple-logger.ts:179-186 | an accepted message is written to "<dir>/" plus the file name for that date and listing, and the name's number is the counted suffix |
| `Logger.SimpleLogger.constructor` | src/simple-logger.ts:49-57 | the logger keeps its name, the caller's options object and its selector |
| `Logger.SimpleLogger.BuildMessage` | src/simple-logger.ts:162-172 | the caller's object is completed in place and returned |
| `Logger.SimpleLogger.WriteOutLog` | src/simple-logger.ts:194-210 | the write effect is the write decision; the message object is completed only when written, and left unchanged otherwise |
| `Logger.SimpleLogger.TriggerLogger` | src/simple-logger.ts:179-186 | the effects are the directory listing, then the gated write to the path built from that day's file name; the caller's message object becomes the built message iff it is written, and is unchanged otherwise |
| `Logger.SimpleLogger.Log` | src/simple-logger.ts:64-121 | a leveled call lists the directory; it writes iff the level's rank is at least the threshold's, and the payload holds `now`, the level and the text |
| `Logger.SimpleLogger.GetLogger` | src/simple-logger.ts:217-230 | missing level becomes INFO and a missing or false `hasColor` becomes false, in the caller's object; the gate uses the resulting level |
| `Logger.GateScenarios` | __tests__/simple-logger.spec.ts:117-128 | for any day and listing, a logger created without a level (INFO) writes INFO but not DEBUG; one created with level ERROR writes ERROR, with payload `now`, ERROR, "Bonjour!", but not WARNING |
| `Logger.ThreeMatches` | src/simple-logger.ts:140 | three entries that all include the key survive the filter: the count is 3 |
| `Logger.FourthOfSeries` | src/simple-logger.ts:140-144 | with files 1, 2 and 3 of a day's series listed, the next name is "<key>-4.json" |
| `Logger.AprilSeventh` | src/utils.ts:17-31 | April 7th, 2019 (month index 3) prints as "2019-04-07" |
| `Logger.BasicTestKey` | src/simple-logger.ts:137-138 | the "basic-test" key for April 7th, 2019 is "basic-test-2019-04-07" |
| `Logger.BasicTestPath` | src/simple-logger.ts:153-155 | the fourth "basic-test" file of a day lies at "<dir>/basic-test-<date>-4.json" |
| `Logger.TriggerWritesFourth` | src/simple-logger.ts:179-186 | an accepted message, with files 1 to 3 of the day's series listed, is written as the built message to "<dir>/<key>-4.json" after listing the directory |
| `Logger.FourthFileScenario` | __tests__/simple-logger.spec.ts:130-147 | a logger created with template "basic-test" and no level, given files 1 to 3 of the day, lists the directory and writes ERROR "Bonjour!" with timestamp `now` to "<dir>/basic-test-<date>-4.json" (for April 7th, 2019: "basic-test-2019-04-07-4.json") |
| `Container.FirstIndex` | src/modules/logger-container.ts:35-36 | the first position whose logger has the name, or none exactly when no logger has it |
| `Container.FirstIndexAppend` | src/modules/logger-container.ts:26-36 | appending keeps every earlier lookup, and makes the appended name found at its earliest occurrence |
| `Container.LoggerContainer.constructor` | src/modules/logger-container.ts:20 | a new registry is empty |
| `Container.LoggerContainer.AddLogger` | src/modules/logger-container.ts:26-28 | the list becomes the old list plus the new logger at the end |
| `Container.LoggerContainer.GetLogger` | src/modules/logger-container.ts:35-44 | returns the first logger with the name, or fails with "Cannot find logger of name " plus the name exactly when none has it |
| `Container.AddThenGet` | src/modules/logger-container.ts:26-36 | after adding a logger its name is found: the earliest logger of that name, the new one if it is the first |
| `Container.RegistryScenario` | __tests__/logger-container.spec.ts:14-86 | an empty registry fails for "foo"; with "foo" and "bar" added, "bar" is found and "baz" fails naming "baz" |

## Left out

- File system I/O: `readdir` (`doReadDir`) and `writeFile` are not performed. The listing is an input, and a write is a returned `WriteFile` effect. A failing directory read or a failing write (a rejected promise) is not modelled.
- The clock and the time zone: `Date.now`, `toISOString` and the local-time getters are not modelled. The model takes the day's `getFullYear()`, `getMonth()` and `getDate()` values and the ISO-8601 text of the instant as parameters. `BuildDateTimeString` requires the month index and the day to lie in the ranges those getters return.
- Console output and the `chalk` colours (`src/logging-resources/log-colors.ts`). `hasColor` is modelled only as an option that gets a default.
- `JSON.stringify` and its key order: the payload of a write is the message record itself.
- Promises, `async`/`await`, and the race in which two concurrent calls count the same entries and pick the same number. The model is sequential.
- The four leveled entry points `debug`, `info`, `warning` and `error` are one method, `Log`, with the level as a parameter. They differ only in that level and in the console call, which is left out.
- Number printing covers integers only. JavaScript's exponent form for very large numbers is not modelled, because counts and dates never reach it.
- `Selector.LevelSelector.CheckLevel`: that checking leaves the selector's `level` unchanged is not a separate lemma. The selector is an immutable value, so this holds by construction.
