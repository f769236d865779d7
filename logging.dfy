/** The log model: the in-memory buffer of src/test-utils/MockLoggingService.ts. */
module Logging {
  import opened Wrappers

  /** The `level` field: "info", "warn" or "error". */
  datatype Level = Info | Warn | Error

  /** The `data` payloads attached at the call sites, one shape each. */
  datatype LogData =
    | NoData                                        // `data` omitted
    | TextData(text: string)                        // `{ text }`
    | IdData(id: string)                            // `{ id }`
    | IdText(id: string, text: string)              // `{ id, text }`
    | IdCompleted(id: string, completed: bool)      // `{ id, completed }`
    | ThemeData(name: string, primaryColor: string) // `{ name, primaryColor }`
    | ErrorData(error: Option<string>)              // an `Error` (its message), or `undefined`

  datatype LogEntry = LogEntry(level: Level, message: string, data: LogData)

  class MockLoggingService {
    var logs: seq<LogEntry>

    /** A fresh logger has an empty buffer. */
    constructor()
      ensures logs == []
    {
      logs := [];
    }

    method Info(message: string, data: LogData)
      modifies this
      ensures logs == old(logs) + [LogEntry(Level.Info, message, data)]
    {
      logs := logs + [LogEntry(Level.Info, message, data)];
    }

    method Warn(message: string, data: LogData)
      modifies this
      ensures logs == old(logs) + [LogEntry(Level.Warn, message, data)]
    {
      logs := logs + [LogEntry(Level.Warn, message, data)];
    }

    /** The error itself is the entry's data. */
    method Error(message: string, error: Option<string>)
      modifies this
      ensures logs == old(logs) + [LogEntry(Level.Error, message, ErrorData(error))]
    {
      logs := logs + [LogEntry(Level.Error, message, ErrorData(error))];
    }

    method Clear()
      modifies this
      ensures logs == []
    {
      logs := [];
    }
  }
}
