/** The engine's log levels, shared by the log capture and the settings. */
module Logging {
  /** Severity of a log message (the engine's `LogLevel`). */
  datatype LogLevel = None | Diagnostic | Inform | Warning | Error
}
