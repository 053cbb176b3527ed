/** The values that cross component borders. */
module Domain {

  /** One application log line; the timestamp is an instant on a linear clock. */
  datatype LogEntry = LogEntry(username: string, level: string, message: string, source: string, loggedAt: int)

  /** What a bulk insert did: wrote all and said so, wrote nothing and said so,
      or wrote all while the acknowledgement was lost. */
  datatype Outcome = Written | Refused | LostAck

  type Batch = seq<LogEntry>
}

/** A value that may be missing. */
module Options {
  datatype Option<T> = None | Some(value: T)
}
