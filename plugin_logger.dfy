/**
 * PluginLogger: routes each message to the plugin's logger, directly from the
 * main thread and through a memoized per-thread logger from any other thread;
 * gates debug messages by the plugin's configured debug level; writes debug
 * messages to versioned files.
 *
 * The process-wide static state (the main thread and the thread-to-logger
 * map) is an object of class PluginLogger; the calling thread, which the
 * source takes from Thread.currentThread(), is the parameter caller.
 */
module PluginLogging {
  import opened DebugLevels
  import opened Sinks
  import opened Threads
  import opened Files
  import opened LogFiles

  /** The plugin as PluginLogger reads it: its data folder and its configured
      debug level, read afresh on every call. */
  datatype Plugin = Plugin(dataFolder: string, debugLevel: DebugLevel)

  /** What getLogger() hands back: the plugin's logger or a thread logger. */
  datatype Sink = PluginSink | ThreadSink(logger: PluginThreadLogger)

  /** The registry after looking up caller's logger: unchanged for the main
      thread and for a thread that has a logger, otherwise extended by caller
      alone. */
  ghost predicate LookedUp(before: map<Thread, PluginThreadLogger>, after: map<Thread, PluginThreadLogger>,
                           caller: Thread, main: Thread)
  {
    if caller == main || caller in before then after == before
    else caller in after && after == before[caller := after[caller]]
  }

  /** LookedUp if some lookup happened, otherwise no change at all. */
  ghost predicate LookedUpIf(happened: bool, before: map<Thread, PluginThreadLogger>,
                             after: map<Thread, PluginThreadLogger>, caller: Thread, main: Thread)
  {
    if happened then LookedUp(before, after, caller, main) else after == before
  }

  /** A second lookup for the same thread adds nothing to the first. */
  lemma LookedUpAgain(first: bool, second: bool, a: map<Thread, PluginThreadLogger>,
                      b: map<Thread, PluginThreadLogger>, c: map<Thread, PluginThreadLogger>,
                      caller: Thread, main: Thread)
    requires LookedUpIf(first, a, b, caller, main) && LookedUpIf(second, b, c, caller, main)
    ensures LookedUpIf(first || second, a, c, caller, main)
  {
  }

  /** What debug(plugin, dl, message, args) publishes, given the tag of the
      calling thread: one INFO record if the configured level covers dl. */
  function DebugEntries(tag: string, configured: DebugLevel, dl: DebugLevel,
                        message: string, args: seq<string>): seq<Entry>
  {
    if Gate(dl, configured) then [Entry(Level.Info, tag + message, Params(args))] else []
  }

  /** What debug(plugin, dl, messages, args) publishes: the single-message
      outcomes of the messages, in order, all with the same args. */
  function DebugListEntries(tag: string, configured: DebugLevel, dl: DebugLevel,
                            messages: seq<string>, args: seq<string>): seq<Entry>
  {
    if messages == [] then []
    else DebugEntries(tag, configured, dl, messages[0], args)
         + DebugListEntries(tag, configured, dl, messages[1..], args)
  }

  lemma {:induction false} DebugListEntriesAppend(tag: string, configured: DebugLevel, dl: DebugLevel,
                                                  a: seq<string>, b: seq<string>, args: seq<string>)
    ensures DebugListEntries(tag, configured, dl, a + b, args)
            == DebugListEntries(tag, configured, dl, a, args) + DebugListEntries(tag, configured, dl, b, args)
  {
    if a == [] {
      assert a + b == b;
    } else {
      assert (a + b)[1..] == a[1..] + b;
      DebugListEntriesAppend(tag, configured, dl, a[1..], b, args);
    }
  }

  /** One more message of the list adds its single-message outcome. */
  lemma DebugListEntriesNext(tag: string, configured: DebugLevel, dl: DebugLevel,
                             messages: seq<string>, i: nat, args: seq<string>)
    requires i < |messages|
    ensures DebugListEntries(tag, configured, dl, messages[..i + 1], args)
            == DebugListEntries(tag, configured, dl, messages[..i], args)
               + DebugEntries(tag, configured, dl, messages[i], args)
  {
    DebugListEntriesAppend(tag, configured, dl, messages[..i], [messages[i]], args);
    assert messages[..i + 1] == messages[..i] + [messages[i]];
    assert DebugListEntries(tag, configured, dl, [messages[i]], args)
           == DebugEntries(tag, configured, dl, messages[i], args);
  }

  /** A list of messages yields one INFO record per message, in list order,
      when the configured level covers dl, and nothing otherwise. */
  lemma {:induction false} DebugListEntriesShape(tag: string, configured: DebugLevel, dl: DebugLevel,
                                                 messages: seq<string>, args: seq<string>)
    ensures |DebugListEntries(tag, configured, dl, messages, args)|
            == if Covers(configured, dl) then |messages| else 0
    ensures Covers(configured, dl) ==>
              forall i :: 0 <= i < |messages| ==>
                DebugListEntries(tag, configured, dl, messages, args)[i] == Entry(Level.Info, tag + messages[i], Params(args))
  {
    if messages != [] {
      DebugListEntriesShape(tag, configured, dl, messages[1..], args);
    }
  }

  /** Whether writing a debug file ends in the IOException handler. */
  function WriteFails(failure: IoFailure, writes: bool): bool
  {
    failure == FailsOnCreate || failure == FailsOnOpen || (failure == FailsOnWrite && writes)
  }

  /** The report of a failed debug file write, published from the caller. */
  function FileErrorEntries(tag: string, fileName: string, failure: IoFailure, writes: bool): seq<Entry>
  {
    if WriteFails(failure, writes) then [Entry(Level.Severe, tag + ("Can't find file " + fileName), Params([]))] else []
  }

  /** The file system after debug(File, ...) created path, opened a writer on
      it and, if writes, wrote message to it, up to the step that failed. */
  function AfterDebugWrite(paths: set<string>, contents: map<string, string>, path: string,
                           failure: IoFailure, writes: bool, message: string): (set<string>, map<string, string>)
  {
    match failure
    case FailsOnCreate => (paths, contents)
    case FailsOnOpen => (paths + {path}, if path in paths then contents else contents[path := ""])
    case FailsOnWrite => (paths + {path}, contents[path := ""])
    case NoFailure => (paths + {path}, contents[path := if writes then message else ""])
  }

  class PluginLogger {
    /** QuartzLib.getPlugin().getLogger(). */
    const host: HostLogger
    var mainThread: Thread
    var loggers: map<Thread, PluginThreadLogger>

    /** The main thread has no thread logger; every thread logger hangs off
        the plugin's logger and carries its own thread's tag. */
    ghost predicate Valid()
      reads this
    {
      && mainThread !in loggers
      && forall t | t in loggers :: loggers[t].parent == host && loggers[t].loggerName == ThreadPrefix(t.name)
    }

    /** The tag a message from t gets: none from the main thread. */
    function Label(t: Thread): string
      reads this
    {
      if t == mainThread then "" else ThreadPrefix(t.name)
    }

    /** The main thread is kept and the registry changed only by a lookup of
        caller, if happened. */
    twostate predicate Routed(happened: bool, caller: Thread)
      reads this
    {
      && Valid()
      && mainThread == old(mainThread)
      && LookedUpIf(happened, old(loggers), loggers, caller, mainThread)
    }

    /** The first init(), run by caller. */
    constructor (host: HostLogger, caller: Thread)
      ensures Valid()
      ensures this.host == host && mainThread == caller && loggers == map[]
    {
      this.host := host;
      mainThread := caller;
      loggers := map[];
    }

    /** init(): caller becomes the main thread and the registry is emptied. */
    method Init(caller: Thread)
      modifies this
      ensures Valid()
      ensures mainThread == caller && loggers == map[]
    {
      mainThread := caller;
      loggers := map[];
    }

    /** getLogger(Thread): the thread's logger, created and registered on the
        first lookup and the same object on every later one. */
    method GetThreadLogger(thread: Thread) returns (logger: PluginThreadLogger)
      requires Valid() && thread != mainThread
      modifies this
      ensures Routed(true, thread)
      ensures thread in loggers && logger == loggers[thread]
      ensures thread in old(loggers) ==> logger == old(loggers)[thread]
      ensures thread !in old(loggers) ==> fresh(logger)
    {
      if thread in loggers {
        logger := loggers[thread];
      } else {
        logger := new PluginThreadLogger(thread, host);
        loggers := loggers[thread := logger];
      }
    }

    /** getLogger(): the plugin's logger on the main thread, the thread's own
        logger elsewhere. */
    method GetLogger(caller: Thread) returns (sink: Sink)
      requires Valid()
      modifies this
      ensures Routed(true, caller)
      ensures caller == mainThread ==> sink == PluginSink
      ensures caller != mainThread ==> caller in loggers && sink == ThreadSink(loggers[caller])
    {
      if caller == mainThread {
        sink := PluginSink;
      } else {
        var logger := GetThreadLogger(caller);
        sink := ThreadSink(logger);
      }
    }

    /** getLogger().log(level, message, ...): a fresh record per call, so the
        tag is put once in front of the caller's own message. */
    method Emit(caller: Thread, level: Level, message: string, payload: Payload)
      requires Valid()
      modifies this, host
      ensures Routed(true, caller)
      ensures host.published == old(host.published) + [Entry(level, Label(caller) + message, payload)]
    {
      var sink := GetLogger(caller);
      var record := new LogRecord(level, message, payload);
      match sink
      case PluginSink =>
        assert Label(caller) + message == message;
        host.Log(record);
      case ThreadSink(logger) =>
        logger.Log(record);
    }

    /** log(Level, String, Throwable). */
    method LogThrown(caller: Thread, level: Level, message: string, ex: Throwable)
      requires Valid()
      modifies this, host
      ensures Routed(true, caller)
      ensures host.published == old(host.published) + [Entry(level, Label(caller) + message, Thrown(ex))]
    {
      Emit(caller, level, message, Thrown(ex));
    }

    /** log(Level, String, Object...). */
    method Log(caller: Thread, level: Level, message: string, args: seq<string>)
      requires Valid()
      modifies this, host
      ensures Routed(true, caller)
      ensures host.published == old(host.published) + [Entry(level, Label(caller) + message, Params(args))]
    {
      Emit(caller, level, message, Params(args));
    }

    /** log(Level, String, Throwable, Object...): two records, the message
        with its args and then the cause under a fixed caption. */
    method LogThrownWithArgs(caller: Thread, level: Level, message: string, ex: Throwable, args: seq<string>)
      requires Valid()
      modifies this, host
      ensures Routed(true, caller)
      ensures host.published == old(host.published)
                                + [Entry(level, Label(caller) + message, Params(args)),
                                   Entry(level, Label(caller) + "Exception : ", Thrown(ex))]
    {
      Log(caller, level, message, args);
      LogThrown(caller, level, "Exception : ", ex);
    }

    /** info(String, Object...). */
    method Info(caller: Thread, message: string, args: seq<string>)
      requires Valid()
      modifies this, host
      ensures Routed(true, caller)
      ensures host.published == old(host.published) + [Entry(Level.Info, Label(caller) + message, Params(args))]
    {
      Log(caller, Level.Info, message, args);
    }

    /** warning(String, Object...). */
    method Warning(caller: Thread, message: string, args: seq<string>)
      requires Valid()
      modifies this, host
      ensures Routed(true, caller)
      ensures host.published == old(host.published) + [Entry(Level.Warning, Label(caller) + message, Params(args))]
    {
      Log(caller, Level.Warning, message, args);
    }

    /** warning(String, Throwable). */
    method WarningThrown(caller: Thread, message: string, ex: Throwable)
      requires Valid()
      modifies this, host
      ensures Routed(true, caller)
      ensures host.published == old(host.published) + [Entry(Level.Warning, Label(caller) + message, Thrown(ex))]
    {
      LogThrown(caller, Level.Warning, message, ex);
    }

    /** warning(String, Throwable, Object...). */
    method WarningThrownWithArgs(caller: Thread, message: string, ex: Throwable, args: seq<string>)
      requires Valid()
      modifies this, host
      ensures Routed(true, caller)
      ensures host.published == old(host.published)
                                + [Entry(Level.Warning, Label(caller) + message, Params(args)),
                                   Entry(Level.Warning, Label(caller) + "Exception : ", Thrown(ex))]
    {
      LogThrownWithArgs(caller, Level.Warning, message, ex, args);
    }

    /** error(String): the message alone, with no args. */
    method Error(caller: Thread, message: string)
      requires Valid()
      modifies this, host
      ensures Routed(true, caller)
      ensures host.published == old(host.published) + [Entry(Level.Severe, Label(caller) + message, Params([]))]
    {
      Log(caller, Level.Severe, message, []);
    }

    /** error(String, Throwable). */
    method ErrorThrown(caller: Thread, message: string, ex: Throwable)
      requires Valid()
      modifies this, host
      ensures Routed(true, caller)
      ensures host.published == old(host.published) + [Entry(Level.Severe, Label(caller) + message, Thrown(ex))]
    {
      LogThrown(caller, Level.Severe, message, ex);
    }

    /** error(String, Throwable, Object...). */
    method ErrorThrownWithArgs(caller: Thread, message: string, ex: Throwable, args: seq<string>)
      requires Valid()
      modifies this, host
      ensures Routed(true, caller)
      ensures host.published == old(host.published)
                                + [Entry(Level.Severe, Label(caller) + message, Params(args)),
                                   Entry(Level.Severe, Label(caller) + "Exception : ", Thrown(ex))]
    {
      LogThrownWithArgs(caller, Level.Severe, message, ex, args);
    }

    /** error(String, Object...). */
    method ErrorWithArgs(caller: Thread, message: string, args: seq<string>)
      requires Valid()
      modifies this, host
      ensures Routed(true, caller)
      ensures host.published == old(host.published) + [Entry(Level.Severe, Label(caller) + message, Params(args))]
    {
      Log(caller, Level.Severe, message, args);
    }

    /** debug(plugin, dl, message, args): an INFO record exactly when the
        plugin's configured level covers dl; no lookup otherwise. */
    method Debug(caller: Thread, plugin: Plugin, dl: DebugLevel, message: string, args: seq<string>)
      requires Valid()
      modifies this, host
      ensures Routed(Covers(plugin.debugLevel, dl), caller)
      ensures host.published == old(host.published) + DebugEntries(Label(caller), plugin.debugLevel, dl, message, args)
    {
      var debugLevel := plugin.debugLevel;
      if Gate(dl, debugLevel) {
        Info(caller, message, args);
      }
    }

    /** debug(plugin, dl, messages, args): the single-message debug of every
        message in turn, with the same args. */
    method DebugList(caller: Thread, plugin: Plugin, dl: DebugLevel, messages: seq<string>, args: seq<string>)
      requires Valid()
      modifies this, host
      ensures Routed(Covers(plugin.debugLevel, dl) && messages != [], caller)
      ensures host.published == old(host.published)
                                + DebugListEntries(Label(caller), plugin.debugLevel, dl, messages, args)
    {
      for i := 0 to |messages|
        invariant Routed(Covers(plugin.debugLevel, dl) && i > 0, caller)
        invariant host.published == old(host.published)
                                    + DebugListEntries(Label(caller), plugin.debugLevel, dl, messages[..i], args)
      {
        ghost var before := loggers;
        DebugListEntriesNext(Label(caller), plugin.debugLevel, dl, messages, i, args);
        Debug(caller, plugin, dl, messages[i], args);
        LookedUpAgain(Covers(plugin.debugLevel, dl) && i > 0, Covers(plugin.debugLevel, dl),
                      old(loggers), before, loggers, caller, mainThread);
      }
      assert messages[..|messages|] == messages;
    }

    /** The try block of debug(logFile, ...): create the file, open a writer
        on it (which empties it) and write the raw message when the
        configured level covers dl; ok is false when an IOException was
        thrown. */
    static method WriteDebugFile(path: string, plugin: Plugin, dl: DebugLevel, message: string,
                                 fs: FileSystem, failure: IoFailure) returns (ok: bool)
      requires fs.Valid()
      modifies fs
      ensures fs.Valid()
      ensures ok == !WriteFails(failure, Covers(plugin.debugLevel, dl))
      ensures (fs.paths, fs.contents)
              == AfterDebugWrite(old(fs.paths), old(fs.contents), path, failure, Covers(plugin.debugLevel, dl), message)
    {
      ok := fs.CreateNewFile(path, failure == FailsOnCreate);
      if ok {
        ok := fs.OpenWriter(path, failure == FailsOnOpen);
        assert ok ==> fs.contents == old(fs.contents)[path := ""];
      }
      if ok {
        var debugLevel := plugin.debugLevel;
        if Gate(dl, debugLevel) {
          assert fs.contents[path] + message == message;
          ok := fs.Write(path, message, failure == FailsOnWrite);
          assert ok ==> fs.contents == old(fs.contents)[path := message];
        }
      }
    }

    /** debug(logFile, plugin, dl, message, args): the in-memory debug, then
        the file is created and opened (which empties it) and the raw message
        written to it exactly when the configured level covers dl; an
        IOException is reported as one SEVERE record naming the file. */
    method DebugToFile(caller: Thread, logFile: File, plugin: Plugin, dl: DebugLevel,
                       message: string, args: seq<string>, fs: FileSystem, failure: IoFailure)
      requires Valid() && fs.Valid()
      modifies this, host, fs
      ensures Routed(Covers(plugin.debugLevel, dl) || WriteFails(failure, Covers(plugin.debugLevel, dl)), caller)
      ensures fs.Valid()
      ensures host.published == old(host.published)
                                + DebugEntries(Label(caller), plugin.debugLevel, dl, message, args)
                                + FileErrorEntries(Label(caller), logFile.name, failure, Covers(plugin.debugLevel, dl))
      ensures (fs.paths, fs.contents) == AfterDebugWrite(old(fs.paths), old(fs.contents), logFile.Path(),
                                                         failure, Covers(plugin.debugLevel, dl), message)
      ensures failure == NoFailure ==>
                logFile.Path() in fs.contents
                && fs.contents[logFile.Path()] == if Covers(plugin.debugLevel, dl) then message else ""
    {
      Debug(caller, plugin, dl, message, args);
      ghost var afterDebug := loggers;
      var ok := WriteDebugFile(logFile.Path(), plugin, dl, message, fs, failure);
      if !ok {
        Error(caller, "Can't find file " + logFile.name);
        LookedUpAgain(Covers(plugin.debugLevel, dl), true, old(loggers), afterDebug, loggers, caller, mainThread);
      }
    }

    /** debug(keepLog, plugin, dl, message, args), as written: when keepLog is
        false the in-memory debug runs and control falls through, so the
        message is gated and published a second time and the file is written
        anyway. The logs directory is created, a version is chosen by looking
        for the bare file names, and the file is put in the logs directory.
        The chosen file and version are returned to state the contract. */
    method DebugKeepLog(caller: Thread, keepLog: bool, plugin: Plugin, dl: DebugLevel,
                        message: string, args: seq<string>, date: string, fs: FileSystem, failure: IoFailure)
      returns (logFile: File, version: nat)
      requires Valid() && fs.Valid()
      modifies this, host, fs
      ensures Routed(Covers(plugin.debugLevel, dl) || WriteFails(failure, Covers(plugin.debugLevel, dl)), caller)
      ensures fs.Valid()
      ensures logFile == File(File(plugin.dataFolder, "logs").Path(), LogFileName(plugin.debugLevel, date, version))
      ensures IsFirstFreeVersion(old(fs.paths) + {File(plugin.dataFolder, "logs").Path()}, plugin.debugLevel, date, version)
      ensures host.published == old(host.published)
                                + (if keepLog then [] else DebugEntries(Label(caller), plugin.debugLevel, dl, message, args))
                                + DebugEntries(Label(caller), plugin.debugLevel, dl, message, args)
                                + FileErrorEntries(Label(caller), logFile.name, failure, Covers(plugin.debugLevel, dl))
      ensures (fs.paths, fs.contents)
              == AfterDebugWrite(old(fs.paths) + {File(plugin.dataFolder, "logs").Path()}, old(fs.contents),
                                 logFile.Path(), failure, Covers(plugin.debugLevel, dl), message)
    {
      if !keepLog {
        Debug(caller, plugin, dl, message, args);
      }
      ghost var afterFirst := loggers;
      ghost var publishedFirst := host.published;
      var logsDirectory := File(plugin.dataFolder, "logs");
      fs.Mkdir(logsDirectory.Path());
      var fileName;
      fileName, version := SelectVersion(fs.paths, plugin.debugLevel, date);
      logFile := File(logsDirectory.Path(), fileName);
      DebugToFile(caller, logFile, plugin, dl, message, args, fs, failure);
      LookedUpAgain(!keepLog && Covers(plugin.debugLevel, dl),
                    Covers(plugin.debugLevel, dl) || WriteFails(failure, Covers(plugin.debugLevel, dl)),
                    old(loggers), afterFirst, loggers, caller, mainThread);
    }
  }
}
