/**
 * Threads and the per-thread logger PluginLogger creates for every thread
 * other than the main one.
 */
module Threads {
  import opened Sinks

  /** A java.lang.Thread: compared by identity, carries a display name. */
  class Thread {
    const name: string

    constructor (name: string)
      ensures this.name == name
    {
      this.name := name;
    }
  }

  /** The label a thread logger puts in front of every message. */
  function ThreadPrefix(threadName: string): string
  {
    "[" + threadName + "] "
  }

  /** PluginLogger.PluginThreadLogger: a logger whose parent is the plugin's
      logger and which prefixes each record with its thread's name. */
  class PluginThreadLogger {
    const loggerName: string
    const parent: HostLogger

    /** The label is computed once, from the thread's name at creation. */
    constructor (thread: Thread, parent: HostLogger)
      ensures loggerName == ThreadPrefix(thread.name)
      ensures this.parent == parent
    {
      loggerName := "[" + thread.name + "] ";
      this.parent := parent;
    }

    /** Rewrites the record's message in place, then hands the record on. */
    method Log(r: LogRecord)
      modifies r, parent
      ensures r.level == old(r.level) && r.payload == old(r.payload)
      ensures r.message == loggerName + old(r.message)
      ensures parent.published == old(parent.published) + [Entry(r.level, loggerName + old(r.message), r.payload)]
    {
      r.message := loggerName + r.message;
      parent.Log(r);
    }
  }
}
