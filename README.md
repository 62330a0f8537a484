# LogCollector in Dafny

A model of the core of LogCollector, an Android library. The library runs
`logcat -v time` on a background thread and copies each log line into a
cache file. It can filter lines by tag, and when colours are on it wraps
each kept line in HTML `<font>` markup inside a `<body>` document. When the
host app crashes, a crash hook raises a flag and the reader thread stops
before its next read.

The model has four modules:

- `JavaLang` (`java_lang.dfy`): what the collector takes from `java.lang`.
  - Nullable references as `Option`.
  - `String.contains` as `Contains`, proved equal to "occurs at some offset".
  - How `+` renders a null `String`: as `"null"`.
- `TagUtils` (`tag_utils.dfy`): the tag catalog `TAGS`. Its order is the
  index order of the colour table.
- `LogOutput` (`log_output.dfy`): what the cache file holds, as pure
  functions of the configuration and of the lines logcat delivers.
  - `LineOutput` gives one line's output.
  - `Feed` gives the output of a sequence of lines.
  - `RunResult` gives a whole run: prologue, lines, epilogue, and how the
    thread ends.
  - The lemmas state what these functions promise.
- `LogCollector` (`log_collector.dfy`): the classes, in imperative form.
  - `Writer` is the append-only file text.
  - `LogCollector` holds the fields the setters assign and the colour table
    array that `SetLogcatColors` fills in place. It also holds
    `OutputLogcat` with its write helpers.
  - `LogRunnable` holds the crash flag and the `Run` loop.
  - Each method's `ensures` ties the text it writes to the `LogOutput`
    functions.
- `Scenarios` (`scenarios.dfy`): small runs worked out from the model. They
  use one configured tag, first with variables and then with sample lines.

What the code does, which the model follows:

- The tag loops have no `break`. A line that contains several active tags is
  written once per matching tag. There is no "first match wins".
- With colours on, the colour for a matching tag is
  `mLogcatColors[i]`, where `i` is the tag's position in the active list
  (`mLogType`, or the catalog when no tag list is set). It is not the tag's
  catalog position.
- If a tag list longer than the colour table is configured and a line
  contains a tag past the table's end, the lookup throws
  `ArrayIndexOutOfBoundsException`. Nothing catches it. The thread ends with
  the units written so far and no epilogue (`RunEnd.Aborted`).
- A colour slot that `setLogcatColors` never filled is `null`. String
  concatenation renders it as `"null"`; there is no fallback colour.
- The padding loop in `setLogcatColors` never runs. The colour table always
  has `TAGS.length` slots, and `Valid()` keeps that fact.
- With more colours than catalog tags, `setLogcatColors` fills every slot and
  then throws before it sets `mShowLogColors`.
- The prologue is `<body bgcolor=" ` + colour + ` ">`, with a space on each
  side of the colour.
- Every written unit is followed by `newLine()`, taken to be `"\n"`.
- `setBgColor` assigns nothing, so the background colour stays `#FFFFFFFF`.
- `crashHandler` before `start` dereferences a null runnable and throws
  `NullPointerException`. `CrashHandler` reports this as `npe`.

How a run is modelled. The reader thread gets:

- the sequence of lines logcat delivers;
- `crashAt`, the read before which the crash flag is first seen set;
- `readFails`, which says whether the read after the last line returns null
  or throws `IOException`.

## Model

| member | source | states |
|---|---|---|
| JavaLang.ContainsSpec | logcollector/src/main/java/cn/ljuns/logcollector/LogCollector.java:179 | `str.contains(tag)` holds exactly when `tag` occurs in `str` at some offset. |
| LogOutput.MatchesSpec | logcollector/src/main/java/cn/ljuns/logcollector/LogCollector.java:178-179 | The matching indices are exactly the positions in the tag list whose tag the line contains, listed in strictly increasing order. |
| LogOutput.PlainUnitsSpec | logcollector/src/main/java/cn/ljuns/logcollector/LogCollector.java:185-189 | The colourless filtered loop writes the unchanged line once per matching index. |
| LogOutput.ColoredUnitsSpec | logcollector/src/main/java/cn/ljuns/logcollector/LogCollector.java:177-182 | Unit j is the font unit for the j-th matching index, in that index's colour. The loop aborts exactly when some matching index is past the colour table, and then stops just before the first such index. |
| LogOutput.LineOutputFiltered | logcollector/src/main/java/cn/ljuns/logcollector/LogCollector.java:184-189 | Colours off with a tag list: the line is written once per configured tag it contains, and nothing is written exactly when it contains none. |
| LogOutput.LineOutputColored | logcollector/src/main/java/cn/ljuns/logcollector/LogCollector.java:171-182 | Colours on: one font unit per matching index of the active list, in increasing index order, coloured by the colour table at that index. The output aborts exactly when a matching index is past the table. |
| LogOutput.CatalogColorsNeverAbort | logcollector/src/main/java/cn/ljuns/logcollector/LogCollector.java:171-182 | With no tag list, the catalog is walked. A colour table as long as the catalog then never throws. |
| LogOutput.FeedUnfiltered | logcollector/src/main/java/cn/ljuns/logcollector/LogCollector.java:184-192 | Colours off and no tag list: every line is written exactly once, unchanged and in order. |
| LogOutput.FeedAppend | logcollector/src/main/java/cn/ljuns/logcollector/LogCollector.java:145-148 | Lines are processed in arrival order: the output of `a + b` is `a`'s output followed by `b`'s, unless `a` already aborted, in which case nothing of `b` is written. |
| LogOutput.FileIsConcatenation | logcollector/src/main/java/cn/ljuns/logcollector/LogCollector.java:145-148 | The file text for `a + b` is the text for `a` followed by the text for `b`. |
| LogOutput.JoinAppend | logcollector/src/main/java/cn/ljuns/logcollector/LogCollector.java:220-223 | Each unit is followed by its own line break, so the text of two unit sequences is the concatenation of their texts. |
| LogOutput.CrashBeforeFirstRead | logcollector/src/main/java/cn/ljuns/logcollector/LogCollector.java:142-151 | A crash flag set before the first read leaves prologue and epilogue only (colours on), or an empty file (colours off). |
| LogOutput.RunToEnd | logcollector/src/main/java/cn/ljuns/logcollector/LogCollector.java:142-151 | A run that reads every line and then sees the end of the stream writes prologue, every line's output, and epilogue. |
| LogOutput.PlainRunCopiesInput | logcollector/src/main/java/cn/ljuns/logcollector/LogCollector.java:142-153 | Colours off, no tag list, clean end: the file is every input line followed by a line break, in order. |
| LogOutput.EpilogueOnlyOnCleanEnd | logcollector/src/main/java/cn/ljuns/logcollector/LogCollector.java:142-153 | The prologue is written exactly when colours are on. The epilogue is written only when colours are on and the run ends on the crash flag or at the end of the stream, never after an exception. |
| LogCollector.LogCollector.constructor | logcollector/src/main/java/cn/ljuns/logcollector/LogCollector.java:26-28 | The colour table has one null slot per catalog tag, colours are off, and no tag list or runnable is set. |
| LogCollector.LogCollector.CrashHandler | logcollector/src/main/java/cn/ljuns/logcollector/LogCollector.java:30-33 | Sets the runnable's crash flag and changes nothing else. Before `start` it throws NullPointerException. |
| LogCollector.LogCollector.SetLogcatType | logcollector/src/main/java/cn/ljuns/logcollector/LogCollector.java:65-68 | Sets the tag list and leaves every other field as it was. |
| LogCollector.LogCollector.SetCleanCache | logcollector/src/main/java/cn/ljuns/logcollector/LogCollector.java:76-79 | Sets the clean-cache flag and leaves every other field as it was. |
| LogCollector.LogCollector.SetBgColor | logcollector/src/main/java/cn/ljuns/logcollector/LogCollector.java:86-89 | Changes nothing. |
| LogCollector.LogCollector.SetLogcatColors | logcollector/src/main/java/cn/ljuns/logcollector/LogCollector.java:96-109 | Slot k becomes `parseColor(c[k])` for k below the number of colours, and later slots are unchanged. Colours are switched on exactly when the call does not throw, and it throws exactly when there are more colours than catalog tags. The table keeps its length. |
| LogCollector.LogCollector.Start | logcollector/src/main/java/cn/ljuns/logcollector/LogCollector.java:115-122 | Installs a fresh runnable whose crash flag is clear and keeps the configuration. |
| LogCollector.LogCollector.OutputLogcat | logcollector/src/main/java/cn/ljuns/logcollector/LogCollector.java:168-194 | Appends exactly `LineOutput` of the current configuration for the line, and reports whether a colour lookup threw. |
| LogCollector.LogCollector.WriteColoredMatches | logcollector/src/main/java/cn/ljuns/logcollector/LogCollector.java:177-182 | The coloured loop appends exactly the font units `ColoredUnits` gives, and throws exactly when that output aborts. |
| LogCollector.LogCollector.WriteMatches | logcollector/src/main/java/cn/ljuns/logcollector/LogCollector.java:184-189 | The filtered colourless loop appends the line and a line break once per configured tag the line contains. |
| LogCollector.LogCollector.WriteWithoutColors | logcollector/src/main/java/cn/ljuns/logcollector/LogCollector.java:202-205 | Appends the line followed by a line break. |
| LogCollector.LogCollector.WriteWithColors | logcollector/src/main/java/cn/ljuns/logcollector/LogCollector.java:215-218 | Appends the font unit for the colour and line, followed by a line break. |
| LogCollector.LogCollector.Flush | logcollector/src/main/java/cn/ljuns/logcollector/LogCollector.java:220-223 | Appends a line break. |
| LogCollector.LogRunnable.constructor | logcollector/src/main/java/cn/ljuns/logcollector/LogCollector.java:124-125 | A new runnable starts with its crash flag clear. |
| LogCollector.LogRunnable.Run | logcollector/src/main/java/cn/ljuns/logcollector/LogCollector.java:127-159 | The file and the way the thread ends are exactly `RunResult` for the collector's configuration. A flag already set counts as a crash before the first read. The flag ends up set exactly when the run stopped on it. |
| Scenarios.SingleTagPlainFeed | logcollector/src/main/java/cn/ljuns/logcollector/LogCollector.java:184-189 | Colours off, tag list `[tag]`: of a line without the tag and a line with it, only the second is written. |
| Scenarios.SingleTagPlainRun | logcollector/src/main/java/cn/ljuns/logcollector/LogCollector.java:142-153 | The same two lines as a run to the end of the stream: the file is the second line and a line break. |
| Scenarios.SingleTagColoredFeed | logcollector/src/main/java/cn/ljuns/logcollector/LogCollector.java:177-182 | Colours on, tag list `[tag]` with colour `c`: a line that contains the tag becomes one font unit in `c`. |
| Scenarios.SingleTagColoredRun | logcollector/src/main/java/cn/ljuns/logcollector/LogCollector.java:142-153 | The same line as a run to the end of the stream: prologue, the font unit and its line break, epilogue. |
| Scenarios.InfoLineLacksError | logcollector/src/main/java/cn/ljuns/logcollector/LogCollector.java:186 | `"INFO: ok"` does not contain `"ERROR"`. |
| Scenarios.ErrorLineHasError | logcollector/src/main/java/cn/ljuns/logcollector/LogCollector.java:186 | `"ERROR: boom"` contains `"ERROR"`. |
| Scenarios.WarnLineHasWarn | logcollector/src/main/java/cn/ljuns/logcollector/LogCollector.java:179 | `"WARN: low battery"` contains `"WARN"`. |
| Scenarios.ErrorFilterSample | logcollector/src/main/java/cn/ljuns/logcollector/LogCollector.java:142-153 | Tag list `["ERROR"]`, colours off, lines `"INFO: ok"` and `"ERROR: boom"`: the file is `"ERROR: boom"` and a line break. |
| Scenarios.WarnColorSample | logcollector/src/main/java/cn/ljuns/logcollector/LogCollector.java:142-153 | Tag list `["WARN"]` in `#FF0000`, colours on, line `"WARN: low battery"`: the file is the prologue, one red font unit with its line break, and `</body>`. |

## Left out

- Spawning `logcat -v time`, reading its pipe, and the `logcat -c` run after every line (`LogCollector.java:133-136`, `:146`). These are external process I/O. The lines arrive as an input sequence, and the end of input is the `readFails` flag.
- `FileOutputStream`, UTF-8 encoding, `BufferedWriter` buffering and `CloseUtils.close` (`:137-138`, `:156-157`). These are file I/O and helpers outside this model. The file is the append-only text of `Writer`. Each unit is flushed and the writer is closed on every path, so buffering does not change the content.
- `LogRunnable.Run`: an `IOException` from a write or a flush is not modelled; only a failing read is. Such a write exception would end the run like `ReadFailed`, at a point inside a line's output.
- The thread start, `synchronized start`, and the cross-thread `volatile isCrash` (`:115-125`). Concurrency is not modelled. The crash hook's write becomes visible just before one of the read checks, which is the `crashAt` index.
- `CacheFile.createLogCacheFile`, `CrashHandler.getInstance().init(...).crash(this)` and the Android `Context` (`:116-118`). These are calls into code that is not part of this model. `Start` keeps only the new runnable.
- `ColorUtils.parseColor` (`:98`) is not part of this model. It is the function parameter `parseColor`.
- The private, unused `setCacheFile` overloads (`:49-57`). They only assign the file path, which the model does not use.
- The singleton holder (`:35-41`). It only shares one instance.
- `TagUtils` is not part of this model. The catalog is taken to be `V/ D/ I/ W/ E/ A/`. The proofs use only its length and its order.
- `SetLogcatType`: a `null` element inside the tag array would make `contains` throw. The model's tag list holds only non-null strings.
- `SetLogcatColors`: Java arrays passed as varargs are never null here. The model takes a sequence of colour codes.

Where the written design and the code disagree, the model follows the code:

- The design says the first matching tag wins and a line is written at most once. The code writes a line once per matching tag.
- The design says unfilled colours default to black and the table is padded. The code renders an unfilled slot as `"null"`, and its padding loop never runs.
- The design shows the prologue as `<body bgcolor="COLOR">`. The code puts spaces around the colour and writes a line break after every unit.
- The design says the colour count is checked eagerly. The code fills the first catalog-many slots and then throws `ArrayIndexOutOfBoundsException`.
