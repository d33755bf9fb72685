/**
 * The in-memory parser log (src/lib/parser-logger.ts): a buffer of the most
 * recent 100 entries. The clock (`new Date().toISOString()`) and
 * `JSON.stringify` are outside the model: the timestamp and the serialised
 * data are arguments. The console echo is left out.
 */
module ParserLog {
  import opened Wrappers

  datatype Level = Info | Success | Error | Warning

  datatype LogEntry = LogEntry(timestamp: string, level: Level, message: string, data: Option<string>)

  /** The capacity of the buffer. */
  const MaxLogs: nat := 100

  /** The last `n` elements of `xs`, or all of them when there are fewer. */
  function Newest<T>(xs: seq<T>, n: nat): (r: seq<T>)
    ensures |r| == if |xs| < n then |xs| else n
  {
    if |xs| <= n then xs else xs[|xs| - n..]
  }

  /** `xs.slice(-n)` for an integer `n`: for `n <= 0` the start index is `-n`, so `slice(-0)` is the whole list. */
  function SliceFromEnd<T>(xs: seq<T>, n: int): seq<T> {
    if n > 0 then Newest(xs, n)
    else if -n >= |xs| then []
    else xs[-n..]
  }

  /** The buffer after one entry is added: the most recent `MaxLogs` entries, oldest first. */
  function Appended(logs: seq<LogEntry>, entry: LogEntry): seq<LogEntry> {
    Newest(logs + [entry], MaxLogs)
  }

  /** Adding an entry keeps at most 100 entries, ends with the new entry, and below capacity only appends. */
  lemma AppendedSpec(logs: seq<LogEntry>, entry: LogEntry)
    ensures var r := Appended(logs, entry);
      && |r| <= MaxLogs && r != [] && r[|r| - 1] == entry
      && (|logs| < MaxLogs ==> r == logs + [entry])
      && (|logs| >= MaxLogs ==> |r| == MaxLogs && r[..MaxLogs - 1] == logs[|logs| - (MaxLogs - 1)..])
  {
    var all := logs + [entry];
    if |logs| >= MaxLogs {
      var r := all[|all| - MaxLogs..];
      assert r[..MaxLogs - 1] == all[|all| - MaxLogs..|all| - 1];
      assert all[..|all| - 1] == logs;
    }
  }

  /** Repeated logging keeps exactly the newest entries of everything ever logged. */
  lemma {:induction false} AppendedKeepsNewest(logs: seq<LogEntry>, entries: seq<LogEntry>)
    requires |logs| <= MaxLogs
    ensures AppendAll(logs, entries) == Newest(logs + entries, MaxLogs)
    decreases |entries|
  {
    if entries != [] {
      var front := entries[..|entries| - 1];
      var last := entries[|entries| - 1];
      AppendedKeepsNewest(logs, front);
      var all := logs + front;
      assert logs + entries == all + [last];
      NewestOfNewest(all, last);
    }
  }

  /** The buffer after logging `entries` in order. */
  function AppendAll(logs: seq<LogEntry>, entries: seq<LogEntry>): seq<LogEntry>
    decreases |entries|
  {
    if entries == [] then logs else Appended(AppendAll(logs, entries[..|entries| - 1]), entries[|entries| - 1])
  }

  lemma NewestOfNewest(all: seq<LogEntry>, last: LogEntry)
    ensures Newest(Newest(all, MaxLogs) + [last], MaxLogs) == Newest(all + [last], MaxLogs)
  {
    var a := all + [last];
    if |all| > MaxLogs {
      var b := all[|all| - MaxLogs..] + [last];
      assert b[|b| - MaxLogs..] == a[|a| - MaxLogs..];
    }
  }

  /** `getLastN(n)`: the last `min(n, length)` entries for positive `n`, everything for 0. */
  lemma SliceFromEndSpec<T>(xs: seq<T>, n: int)
    ensures n >= 1 ==> |SliceFromEnd(xs, n)| == (if n < |xs| then n else |xs|)
                       && SliceFromEnd(xs, n) == xs[|xs| - |SliceFromEnd(xs, n)|..]
    ensures n == 0 ==> SliceFromEnd(xs, n) == xs
  {
  }

  class ParserLogger {
    var logs: seq<LogEntry>
    const maxLogs: nat

    ghost predicate Valid()
      reads this
    {
      maxLogs == MaxLogs && |logs| <= maxLogs
    }

    constructor ()
      ensures Valid() && logs == []
    {
      logs := [];
      maxLogs := MaxLogs;
    }

    /** `log(message, level = 'info', data)`, with the entry's time stamp and serialised data given. */
    method Log(timestamp: string, message: string, level: Level := Info, data: Option<string> := None)
      requires Valid()
      modifies this
      ensures Valid()
      ensures logs == Appended(old(logs), LogEntry(timestamp, level, message, data))
      ensures |old(logs)| < MaxLogs ==> logs == old(logs) + [LogEntry(timestamp, level, message, data)]
    {
      var entry := LogEntry(timestamp, level, message, data);
      logs := logs + [entry];
      if |logs| > maxLogs {
        logs := logs[|logs| - maxLogs..];
      }
      AppendedSpec(old(logs), entry);
    }

    method LogInfo(timestamp: string, message: string, data: Option<string> := None)
      requires Valid()
      modifies this
      ensures Valid() && logs == Appended(old(logs), LogEntry(timestamp, Info, message, data))
    {
      Log(timestamp, message, Info, data);
    }

    method LogSuccess(timestamp: string, message: string, data: Option<string> := None)
      requires Valid()
      modifies this
      ensures Valid() && logs == Appended(old(logs), LogEntry(timestamp, Success, message, data))
    {
      Log(timestamp, message, Success, data);
    }

    method LogError(timestamp: string, message: string, data: Option<string> := None)
      requires Valid()
      modifies this
      ensures Valid() && logs == Appended(old(logs), LogEntry(timestamp, Error, message, data))
    {
      Log(timestamp, message, Error, data);
    }

    method LogWarning(timestamp: string, message: string, data: Option<string> := None)
      requires Valid()
      modifies this
      ensures Valid() && logs == Appended(old(logs), LogEntry(timestamp, Warning, message, data))
    {
      Log(timestamp, message, Warning, data);
    }

    method GetLogs() returns (r: seq<LogEntry>)
      ensures r == logs
    {
      r := logs;
    }

    method ClearLogs()
      requires Valid()
      modifies this
      ensures Valid() && logs == []
    {
      logs := [];
    }

    method GetLastN(n: int) returns (r: seq<LogEntry>)
      ensures r == SliceFromEnd(logs, n)
    {
      if n > 0 {
        r := if |logs| <= n then logs else logs[|logs| - n..];
      } else if -n >= |logs| {
        r := [];
      } else {
        r := logs[-n..];
      }
    }
  }
}
