/**
 * The logger service: an append-only record of (level, message) emissions.
 * Formatting (timestamps, metadata rendered as JSON) is not modelled.
 */
module Logging {

  datatype Level = Debug | Info | Warn | Error

  datatype Entry = Entry(level: Level, message: string)

  class Logger {
    /** Everything emitted so far, oldest first. */
    ghost var entries: seq<Entry>

    constructor ()
      ensures entries == []
    {
      entries := [];
    }

    /** One emission at the given level; it never fails. */
    method Log(level: Level, message: string)
      modifies this
      ensures entries == old(entries) + [Entry(level, message)]
    {
      entries := entries + [Entry(level, message)];
    }
  }
}
