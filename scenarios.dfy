/**
 * A client of PluginLogger that uses only the contracts: the main thread's
 * messages arrive unprefixed, a worker thread gets one logger however often
 * it logs, and a debug list is published message by message.
 */
module Scenarios {
  import opened DebugLevels
  import opened Sinks
  import opened Threads
  import opened Files
  import opened LogFiles
  import opened PluginLogging

  method MainThreadUnprefixed()
  {
    var host := new HostLogger();
    var main := new Thread("Server thread");
    var logger := new PluginLogger(host, main);
    logger.Info(main, "started", []);
    assert logger.Label(main) + "started" == "started";
    assert host.published == [Entry(Level.Info, "started", Params([]))];
    assert logger.loggers == map[];
  }

  method WorkerLoggerMemoized(logger: PluginLogger, worker: Thread)
    requires logger.Valid() && worker != logger.mainThread && worker !in logger.loggers
    modifies logger, logger.host
  {
    ghost var registry := logger.loggers;
    ghost var published := logger.host.published;

    logger.Warning(worker, "slow", ["3"]);
    assert logger.host.published == published + [Entry(Level.Warning, ThreadPrefix(worker.name) + "slow", Params(["3"]))];
    assert logger.loggers.Keys == registry.Keys + {worker};
    var registered := logger.loggers[worker];

    logger.ErrorThrownWithArgs(worker, "failed", Throwable("IOException"), []);
    assert logger.loggers == registry[worker := registered];
    assert logger.host.published[|published| + 1] == Entry(Level.Severe, ThreadPrefix(worker.name) + "failed", Params([]));
  }

  method InitResets(logger: PluginLogger, worker: Thread)
    requires logger.Valid()
    modifies logger, logger.host
  {
    logger.Init(worker);
    assert logger.loggers == map[];
    logger.Info(worker, "restarted", []);
    assert logger.Label(worker) + "restarted" == "restarted";
    assert logger.host.published[|logger.host.published| - 1] == Entry(Level.Info, "restarted", Params([]));
    assert logger.loggers == map[];
  }

  method DebugThreeMessages()
  {
    var host := new HostLogger();
    var main := new Thread("Server thread");
    var logger := new PluginLogger(host, main);
    var plugin := Plugin("plugins/Demo", DeveloperLog);

    logger.DebugList(main, plugin, SystemLog, ["a", "b", "c"], []);
    DebugListEntriesShape("", DeveloperLog, SystemLog, ["a", "b", "c"], []);
    assert forall m: string :: "" + m == m;
    assert host.published == [Entry(Level.Info, "a", Params([])),
                              Entry(Level.Info, "b", Params([])),
                              Entry(Level.Info, "c", Params([]))];

    logger.Debug(main, Plugin("plugins/Demo", None), UserLog, "x", []);
    assert |host.published| == 3;
  }

  /** keepLog set, version 1 of the day already in logs/: the existence check
      misses it, version 1 is chosen again and the old text is replaced. */
  method KeepLogOverwritesExisting(logger: PluginLogger, caller: Thread, dataFolder: string, date: string)
    requires logger.Valid()
    modifies logger, logger.host
  {
    var logs := File(dataFolder, "logs").Path();
    var target := File(logs, LogFileName(DeveloperLog, date, 1)).Path();
    var fs := new FileSystem({logs, target}, map[target := "old text"]);
    ExistenceCheckMissesLogsDirectory(dataFolder, DeveloperLog, date);

    var logFile, version := logger.DebugKeepLog(caller, true, Plugin(dataFolder, DeveloperLog), SystemLog,
                                                "fresh", [], date, fs, NoFailure);
    assert version == 1;
    assert logFile.Path() == target;
    assert fs.contents == map[target := "fresh"];
  }
}
