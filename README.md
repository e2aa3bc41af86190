# QuartzLib PluginLogger and the BBCommand item converter

This project models two pieces of QuartzLib.

**PluginLogger** is the library's static logging facade.
- Every `log`/`info`/`warning`/`error` call goes to the plugin's logger. From the main thread it goes there directly. From any other thread it goes through a `PluginThreadLogger`.
- A thread logger is created on the first call from a thread and remembered in a map. It prefixes every message with `[<thread name>] `.
- `init()` makes the calling thread the main thread and empties the map.
- The `debug` overloads gate a message by the plugin's configured `DebugLevel`. Only DEVELOPER_LOG covers both USER_LOG and SYSTEM_LOG, so the levels are not ordered. Gated messages go out at INFO.
- `debug(File, ...)` also writes the message to the file the caller passes. `debug(keepLog, ...)` picks that file itself: `log-<LEVEL>-<date>-<N>.log` in the plugin's `logs` directory, with the version N chosen by a do-while loop.

**BBItemParamConverter.fromArgument** (a test fixture of the commands framework) lower-cases its argument and accepts it only if it is `saw` or `stonecutter`.

Modules:
- `DebugLevels` (debug_levels.dfy): the enum, the coverage matrix `Covers` and the switch `Gate`.
- `Sinks` (sinks.dfy): JUL levels, the mutable `LogRecord`, and the plugin's logger as a sequence of published entries.
- `Threads` (threads.dfy): threads as objects compared by identity, and `PluginThreadLogger`.
- `Files` (files.dfy): `java.io.File` paths and a file system made of existing paths and file contents.
- `LogFiles` (log_files.dfy): file names and the version loop.
- `PluginLogging` (plugin_logger.dfy): the static state as a `PluginLogger` object, with a method per overload.
- `BBCommand` (bb_command.dfy): the converter.
- `Scenarios` (scenarios.dfy): client methods that use only the contracts.

The calling thread, which the source gets from `Thread.currentThread()`, is an explicit `caller` parameter. The plugin, which the source gets from `QuartzLib.getPlugin()`, is a `Plugin` value carrying its data folder and configured debug level. Each `debug` call reads that value once.

Two behaviours of the code are kept as written:
- `debug(keepLog, ...)` has no `return` after the `keepLog == false` branch. So with `keepLog == false` the message is gated and published once, and then again by `debug(File, ...)`, and the file is written anyway (`DebugKeepLog`).
- The version loop checks whether the bare file name exists, relative to the working directory, but the file is created under `<dataFolder>/logs`. So an existing log file in `logs/` is not seen and is overwritten (`ExistenceCheckMissesLogsDirectory`, and the client method `Scenarios.KeepLogOverwritesExisting`).

## Model

| member | source | states |
|---|---|---|
| DebugLevels.Gate | src/main/java/fr/zcraft/quartzlib/tools/PluginLogger.java:159-181 | The switch emits exactly when the configured level covers the requested one (USER_LOG under USER_LOG or DEVELOPER_LOG, SYSTEM_LOG under SYSTEM_LOG or DEVELOPER_LOG, DEVELOPER_LOG only under DEVELOPER_LOG). A requested NONE and a configured NONE never emit. |
| DebugLevels.NoRankThreshold | src/main/java/fr/zcraft/quartzlib/tools/PluginLogger.java:213-218 | No ranking of the four levels, including their declaration order, makes the gate a threshold test, because USER_LOG and SYSTEM_LOG do not cover each other. |
| Threads.PluginThreadLogger.constructor | src/main/java/fr/zcraft/quartzlib/tools/PluginLogger.java:223-228 | A thread logger's parent is the plugin's logger, and its tag is `[` + thread name + `] `. |
| Threads.PluginThreadLogger.Log | src/main/java/fr/zcraft/quartzlib/tools/PluginLogger.java:230-234 | The record's message is rewritten in place to tag + the old message, level and payload are kept, and the parent publishes exactly that record. |
| LogFiles.NatToString | src/main/java/fr/zcraft/quartzlib/tools/PluginLogger.java:118 | The decimal form of the version has at least one digit, only digits, and one digit exactly for versions below 10. |
| LogFiles.NatToStringValue | src/main/java/fr/zcraft/quartzlib/tools/PluginLogger.java:118 | The digits written for a version read back as that version, so the name carries the number itself. |
| LogFiles.NatToStringInjective | src/main/java/fr/zcraft/quartzlib/tools/PluginLogger.java:118 | Different version numbers are written differently. |
| LogFiles.LogFileName | src/main/java/fr/zcraft/quartzlib/tools/PluginLogger.java:117-118 | A debug file name starts with `log-` and ends with `.log`. |
| LogFiles.LogFileNameVersion | src/main/java/fr/zcraft/quartzlib/tools/PluginLogger.java:117-118 | Between `log-<LEVEL>-<date>-` and `.log` a file name holds only digits, and they read back as the version. |
| LogFiles.LogFileNameInjective | src/main/java/fr/zcraft/quartzlib/tools/PluginLogger.java:117-118 | For a fixed level and date, two versions give the same file name only if they are equal. |
| LogFiles.NatToStringLength | src/main/java/fr/zcraft/quartzlib/tools/PluginLogger.java:118 | A version of at least 10^m has more than m digits, so its file name is longer. |
| LogFiles.FreeVersionBound | src/main/java/fr/zcraft/quartzlib/tools/PluginLogger.java:114-120 | For any finite set of existing paths there is a version whose name is free, which bounds the loop. |
| LogFiles.SelectVersion | src/main/java/fr/zcraft/quartzlib/tools/PluginLogger.java:114-120 | The do-while loop ends and returns the smallest version N >= 1 whose bare name `log-<LEVEL>-<date>-<N>.log` is not in the existing set, together with that name. |
| LogFiles.ThirdVersionAfterTwo | src/main/java/fr/zcraft/quartzlib/tools/PluginLogger.java:114-120 | With the names of versions 1 and 2 present, version 3 is the first free one, for every level and date. |
| LogFiles.ThirdVersionName | src/main/java/fr/zcraft/quartzlib/tools/PluginLogger.java:117-118 | Version 3 of DEVELOPER_LOG on 2024-01-01 is named `log-DEVELOPER_LOG-2024-01-01-3.log`. |
| LogFiles.ExistenceCheckMissesLogsDirectory | src/main/java/fr/zcraft/quartzlib/tools/PluginLogger.java:120-122 | When the logs directory and `<dataFolder>/logs/<name of version 1>` exist, version 1 is still the first free version, so the file written is the one already in `logs/`. |
| PluginLogging.LookedUpAgain | src/main/java/fr/zcraft/quartzlib/tools/PluginLogger.java:204-211 | A second lookup for the same thread adds nothing to the registry that the first did not. |
| PluginLogging.DebugListEntriesAppend | src/main/java/fr/zcraft/quartzlib/tools/PluginLogger.java:183-187 | The debug records of a concatenated message list are the records of the first part followed by those of the second. |
| PluginLogging.DebugListEntriesNext | src/main/java/fr/zcraft/quartzlib/tools/PluginLogger.java:184-186 | One more loop iteration appends that message's single-message outcome. |
| PluginLogging.DebugListEntriesShape | src/main/java/fr/zcraft/quartzlib/tools/PluginLogger.java:183-187 | A message list yields one INFO record per message, in list order, each with the same args, when the configured level covers dl, and no record otherwise. |
| PluginLogging.PluginLogger.constructor | src/main/java/fr/zcraft/quartzlib/tools/PluginLogger.java:52-55 | The first `init()`: the caller is the main thread and the registry is empty. |
| PluginLogging.PluginLogger.Init | src/main/java/fr/zcraft/quartzlib/tools/PluginLogger.java:52-55 | After `init()` the caller is the main thread and the registry is empty, whatever it held before. |
| PluginLogging.PluginLogger.GetThreadLogger | src/main/java/fr/zcraft/quartzlib/tools/PluginLogger.java:204-211 | The first lookup of a thread registers one fresh logger for it and nothing else. Every later lookup returns that same logger and leaves the map unchanged. The main thread never becomes a key. |
| PluginLogging.PluginLogger.GetLogger | src/main/java/fr/zcraft/quartzlib/tools/PluginLogger.java:196-202 | The main thread gets the plugin's logger without touching the registry. Any other thread gets its own registered logger. |
| PluginLogging.PluginLogger.Emit | src/main/java/fr/zcraft/quartzlib/tools/PluginLogger.java:57-63 | A call publishes exactly one record: unprefixed from the main thread, tagged once with the caller's name otherwise. The tag is put in front of the caller's own message, so nothing is prefixed twice across calls. |
| PluginLogging.PluginLogger.LogThrown | src/main/java/fr/zcraft/quartzlib/tools/PluginLogger.java:57-59 | One record at the given level, carrying the cause. |
| PluginLogging.PluginLogger.Log | src/main/java/fr/zcraft/quartzlib/tools/PluginLogger.java:61-63 | One record at the given level, carrying the args. |
| PluginLogging.PluginLogger.LogThrownWithArgs | src/main/java/fr/zcraft/quartzlib/tools/PluginLogger.java:65-68 | Two records at the same level: first the message with its args, then `Exception : ` with the cause. |
| PluginLogging.PluginLogger.Info | src/main/java/fr/zcraft/quartzlib/tools/PluginLogger.java:70-72 | One INFO record with the args. |
| PluginLogging.PluginLogger.Warning | src/main/java/fr/zcraft/quartzlib/tools/PluginLogger.java:74-76 | One WARNING record with the args. |
| PluginLogging.PluginLogger.WarningThrown | src/main/java/fr/zcraft/quartzlib/tools/PluginLogger.java:78-80 | One WARNING record with the cause. |
| PluginLogging.PluginLogger.WarningThrownWithArgs | src/main/java/fr/zcraft/quartzlib/tools/PluginLogger.java:82-84 | Two WARNING records: the message with its args, then `Exception : ` with the cause. |
| PluginLogging.PluginLogger.Error | src/main/java/fr/zcraft/quartzlib/tools/PluginLogger.java:86-88 | One SEVERE record with no args. |
| PluginLogging.PluginLogger.ErrorThrown | src/main/java/fr/zcraft/quartzlib/tools/PluginLogger.java:90-92 | One SEVERE record with the cause. |
| PluginLogging.PluginLogger.ErrorThrownWithArgs | src/main/java/fr/zcraft/quartzlib/tools/PluginLogger.java:94-96 | Two SEVERE records: the message with its args, then `Exception : ` with the cause. |
| PluginLogging.PluginLogger.ErrorWithArgs | src/main/java/fr/zcraft/quartzlib/tools/PluginLogger.java:98-100 | One SEVERE record with the args. |
| PluginLogging.PluginLogger.Debug | src/main/java/fr/zcraft/quartzlib/tools/PluginLogger.java:159-181 | One INFO record exactly when the configured level covers dl, and nothing otherwise. The registry is looked up only when a record goes out. |
| PluginLogging.PluginLogger.DebugList | src/main/java/fr/zcraft/quartzlib/tools/PluginLogger.java:183-187 | The published records are the single-message outcomes of the messages, concatenated in list order, all with the same args. |
| PluginLogging.PluginLogger.WriteDebugFile | src/main/java/fr/zcraft/quartzlib/tools/PluginLogger.java:129-153 | The file is created, then emptied by opening it, and the raw message is written exactly when the gate of `debug(plugin, ...)` passes. The result says whether an IOException was thrown, and the file system stops at the failing step. |
| PluginLogging.PluginLogger.DebugToFile | src/main/java/fr/zcraft/quartzlib/tools/PluginLogger.java:127-157 | The in-memory debug record comes first. An IOException adds exactly one SEVERE `Can't find file <name>` record and nothing escapes. Without a failure the file holds the message when the gate passes and is empty otherwise. |
| PluginLogging.PluginLogger.DebugKeepLog | src/main/java/fr/zcraft/quartzlib/tools/PluginLogger.java:106-125 | The logs directory is created. The file is `<dataFolder>/logs/<first free bare name>`. With keepLog false the gated record is published twice, and the file is written either way. |
| BBCommand.ToLower | src/test/java/fr/zcraft/zlib/components/commands2/bb/BBCommand.java:61 | Lower-casing keeps the length and maps every character through the ASCII lower-case mapping. |
| BBCommand.FromArgument | src/test/java/fr/zcraft/zlib/components/commands2/bb/BBCommand.java:60-64 | A success carries a whitelisted item type. A failure is `ParameterTypeConverterException("Invalid item name")`. |
| BBCommand.FromArgumentAccepts | src/test/java/fr/zcraft/zlib/components/commands2/bb/BBCommand.java:45-63 | The converter succeeds exactly when the argument is `saw` or `stonecutter` up to case, and the returned item type equals the argument up to case. |
| BBCommand.ToLowerEqualIffIgnoreCase | src/test/java/fr/zcraft/zlib/components/commands2/bb/BBCommand.java:61 | Two strings lower-case to the same string exactly when they differ only in the case of letters. |
| BBCommand.ItemsAreLowerCase | src/test/java/fr/zcraft/zlib/components/commands2/bb/BBCommand.java:45 | The whitelisted names are already lower-case, so lower-casing an argument can match them. |
| BBCommand.FromArgumentIgnoresCase | src/test/java/fr/zcraft/zlib/components/commands2/bb/BBCommand.java:61-63 | Arguments that differ only in case convert to the same result, so `SAW` and `saw` give equal item types. |
| BBCommand.FromArgumentIdempotent | src/test/java/fr/zcraft/zlib/components/commands2/bb/BBCommand.java:61-63 | Converting a converted item's type again succeeds with the same item type. |
| BBCommand.ToLowerIdempotent | src/test/java/fr/zcraft/zlib/components/commands2/bb/BBCommand.java:61 | Lower-casing twice is the same as lower-casing once. |

## Left out

- Concurrency: the registry is an unsynchronised `HashMap` shared by all threads. The model is sequential, so the race between lookups is not captured.
- `java.util.logging` internals: level filtering, handlers, the parent chain beyond one hand-off, `setLevel(Level.ALL)`, the logger name, the host logger's own formatting, and `{0}` interpolation are not modelled. The plugin's logger is a sequence of published (level, message, args or cause) entries. Args are strings, not arbitrary objects.
- `QuartzLib.getPlugin()`, `getDataFolder()` and `getDebugLevel()` are not modelled: the plugin's logger is the `host` field, and the data folder and debug level come in a `Plugin` value read once per call.
- `LocalDate.now()`: the date is a string parameter.
- Real file I/O: the file system is a set of existing paths and a map from file path to written text. Which step throws IOException is an `IoFailure` parameter. A failing `mkdir` is not modelled: its result is ignored by the source. The model treats the text passed to `write()` as the file's content and does not model flushing. The source never flushes or closes its `FileWriter`, so on a real disk a short message may stay in the buffer and never reach the file.
- PluginLogging.PluginLogger.DebugToFile: the source reads the configured level twice, once in `debug(plugin, ...)` and once before the write; the model reads it once, so a level changed between the two reads is not modelled.
- LogFiles.SelectVersion: the version is an unbounded `nat`; the source's `int` would overflow only after 2^31 - 1 existing names, which is not modelled.
- Threads.Thread: a thread's name is fixed; `Thread.setName` after a logger was created is not modelled (the tag is computed once at creation, as in the source).
- BBCommand.ToLower: only ASCII A-Z are lower-cased; Java's full Unicode and locale-dependent `toLowerCase` is not modelled.
- PluginLogging.PluginLogger.constructor: a call before the first `init()` (a null map in the source) is not modelled; the object is created by the first `init()`.
- BBCommand.BBItem: modelled as a value. Java's `BBItem` has no `equals`, so two conversions give distinct objects; what the model's equal results mean is equal item types.
- The commands framework around the converter (`getType()`, `CommandRunnable`, `ParameterTypeConverter`, the `amount` field) is not part of this model.
- The commented-out `debug` overload for `List<Object>` is not part of this model, because it is not compiled.
