/**
 * The host side of logging: java.util.logging levels, the mutable LogRecord
 * that travels through a logger, and the plugin's own logger, whose output is
 * recorded as the sequence of entries published to it.
 */
module Sinks {

  /** java.util.logging.Level, the standard levels. */
  datatype Level = Severe | Warning | Info | Config | Fine | Finer | Finest

  /** A Throwable passed as the cause of a log call. */
  datatype Throwable = Throwable(description: string)

  /** What travels with the message: interpolation parameters or a cause. */
  datatype Payload = Params(args: seq<string>) | Thrown(cause: Throwable)

  /** One record as the host logger published it. */
  datatype Entry = Entry(level: Level, message: string, payload: Payload)

  /** java.util.logging.LogRecord: created once per log call, mutable. */
  class LogRecord {
    var level: Level
    var message: string
    var payload: Payload

    constructor (level: Level, message: string, payload: Payload)
      ensures this.level == level && this.message == message && this.payload == payload
    {
      this.level := level;
      this.message := message;
      this.payload := payload;
    }
  }

  /** The plugin's logger, the single shared sink every message ends in. */
  class HostLogger {
    var published: seq<Entry>

    constructor ()
      ensures published == []
    {
      published := [];
    }

    /** Publishes the record as it stands when it arrives. */
    method Log(r: LogRecord)
      modifies this
      ensures published == old(published) + [Entry(r.level, r.message, r.payload)]
    {
      published := published + [Entry(r.level, r.message, r.payload)];
    }
  }
}
