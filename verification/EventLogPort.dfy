/** The storage port the ingest pipeline is written against. */
module EventLogPort {
  import opened Bytes
  import opened Wrappers
  import opened EventModel

  datatype LogEntry = LogEntry(offset: u64, appendedAtNs: u64, producerId: string, event: OtkEvent)
  {
    function Record(): LogRecord {
      LogRecord(producerId, event)
    }
  }

  /** An entry without what the backend adds: who caused it and what it is. */
  datatype LogRecord = LogRecord(producerId: string, event: OtkEvent)

  function Records(entries: seq<LogEntry>): (rs: seq<LogRecord>)
    ensures |rs| == |entries| && forall i :: 0 <= i < |rs| ==> rs[i] == entries[i].Record()
  {
    seq(|entries|, i requires 0 <= i < |entries| => entries[i].Record())
  }

  datatype StorageError =
    | RetentionExpired(requested: nat, earliestAvailable: Option<nat>)
    | InvalidInput
    | Io
    | Corrupted

  datatype RetentionPolicy =
    | Indefinite
    | TimeBased(maxAgeSecs: nat)
    | SizeBased(maxBytes: nat)
    | Hybrid(maxAgeSecs: nat, maxBytes: nat)

  function SaturatingSub(a: nat, b: nat): nat {
    if a < b then 0 else a - b
  }

  function SaturatingAddU64(a: nat, b: nat): nat {
    if a + b >= U64_LIMIT then U64_LIMIT - 1 else a + b
  }

  function SaturatingMulU64(a: nat, b: nat): nat {
    if a * b >= U64_LIMIT then U64_LIMIT - 1 else a * b
  }

  function Min(a: nat, b: nat): nat {
    if a < b then a else b
  }

  function Max(a: nat, b: nat): nat {
    if a < b then b else a
  }
}
