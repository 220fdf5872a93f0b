/**
 * The buffered log entry (LogEntry.cs). A positional C# record with four
 * init-only properties becomes a datatype value: it has exactly these four
 * fields, and no operation can change a field once the value exists.
 */
module LogEntries {

  /** Microsoft.Extensions.Logging.LogLevel, including its `None` member. */
  datatype LogLevel = Trace | Debug | Information | Warning | Error | Critical | None

  /** The six levels a producer logs at; `None` is only ever a query argument. */
  predicate IsProducerLevel(level: LogLevel)
  {
    level != LogLevel.None
  }

  /**
   * An opaque, non-null object: a scope state or one element of `args`.
   * Only its identity matters to the logic here.
   */
  datatype Obj = Obj(id: nat)

  /** `Scopes` lists the states of the scopes active at creation, outermost first. */
  datatype LogEntry = LogEntry(level: LogLevel, message: string, args: seq<Obj>, scopes: seq<Obj>)
}
