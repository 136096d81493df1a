/** The operation log: a bounded list of entries under the storage key `logs`. */
module Logger {
  import opened Text
  import Lists

  datatype LogEntry = LogEntry(ts: string, system: string, action: string, ok: bool, error: string)

  const MAX_LOG_ENTRIES: nat := 5000

  /** The default `limit` of `getLogs`. */
  const DEFAULT_LIMIT: int := 200

  /** The entry `addLog` builds; an omitted error text defaults to ''. */
  function MakeEntry(now: string, system: string, action: string, success: bool, errorText: Option<string>): (e: LogEntry)
    ensures e.ok == success && e.system == system && e.action == action && e.ts == now
    ensures errorText.None? ==> e.error == ""
    ensures errorText.Some? ==> e.error == errorText.value
  {
    LogEntry(now, system, action, success, if errorText.Some? then errorText.value else "")
  }

  /** The entries `getLogs(limit)` returns; an omitted limit is 200. */
  function Tail(logs: seq<LogEntry>, limit: Option<int>): (r: seq<LogEntry>)
    ensures limit.None? ==> |r| == (if |logs| < DEFAULT_LIMIT then |logs| else DEFAULT_LIMIT)
    ensures |r| <= |logs| && r == logs[|logs| - |r|..]
  {
    Lists.TailSlice(logs, if limit.Some? then limit.value else DEFAULT_LIMIT)
  }

  class LogStore {
    var logs: seq<LogEntry>

    ghost predicate Valid()
      reads this
    {
      |logs| <= MAX_LOG_ENTRIES
    }

    constructor()
      ensures Valid() && logs == []
    {
      logs := [];
    }

    /** `addLog`: push the entry, then drop the oldest beyond the cap. The
        clock is the parameter `now`. */
    method AddLog(now: string, system: string, action: string, success: bool, errorText: Option<string>)
      returns (entry: LogEntry)
      requires Valid()
      modifies this
      ensures Valid()
      ensures entry == MakeEntry(now, system, action, success, errorText)
      ensures logs == Lists.Capped(old(logs) + [entry], MAX_LOG_ENTRIES)
      ensures logs[|logs| - 1] == entry
      ensures logs[..|logs| - 1] == old(logs)[|old(logs)| + 1 - |logs|..]
    {
      entry := MakeEntry(now, system, action, success, errorText);
      ghost var before := logs;
      logs := logs + [entry];
      if |logs| > MAX_LOG_ENTRIES {
        logs := logs[|logs| - MAX_LOG_ENTRIES..];
      }
      assert logs == Lists.Capped(before + [entry], MAX_LOG_ENTRIES);
      Lists.AppendCapped(before, entry, MAX_LOG_ENTRIES);
    }

    /** `getLogs(limit)`: `logs.slice(-limit)`. */
    method GetLogs(limit: Option<int>) returns (r: seq<LogEntry>)
      ensures r == Tail(logs, limit)
      ensures limit.Some? && limit.value > 0 ==> |r| == (if limit.value < |logs| then limit.value else |logs|)
      ensures limit == Some(0) ==> r == logs
    {
      r := Tail(logs, limit);
    }

    method ClearLogs()
      modifies this
      ensures Valid() && logs == []
    {
      logs := [];
    }
  }
}
