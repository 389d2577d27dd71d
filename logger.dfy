/**
 * `LogService`: the in-memory activity log, newest entry first, holding at
 * most `MaxLogs` entries. The clock (`Date.now()`) is a parameter.
 */
module Logger {
  import opened Wrappers

  /** `MAX_LOGS`. */
  const MaxLogs := 200

  /** `'info' | 'warn' | 'error'`. */
  datatype Level = Info | Warn | Error

  /** A log entry; the optional details payload is kept as text. */
  datatype LogEntry = LogEntry(timestamp: int, level: Level, message: string, details: Option<string>)

  // ---------------------------------------------------------------------------
  // The buffer, as functions
  // ---------------------------------------------------------------------------

  /** The log after one `addEntry`: `unshift`, then `pop` if over capacity. */
  function WithEntry(logs: seq<LogEntry>, e: LogEntry): (r: seq<LogEntry>)
    ensures |r| > 0 && r[0] == e
    ensures |logs| < MaxLogs ==> |r| == |logs| + 1
    ensures |logs| <= MaxLogs ==> |r| <= MaxLogs
    ensures |r| == |logs| + 1 || (|logs| >= MaxLogs && |r| == |logs|)
    ensures forall k :: 0 <= k < |r| - 1 ==> r[k + 1] == logs[k]
  {
    var grown := [e] + logs;
    if |grown| > MaxLogs then grown[..|grown| - 1] else grown
  }

  /** The first `n` elements of `s`, or all of them if there are fewer. */
  function Take<T>(s: seq<T>, n: nat): (r: seq<T>)
    ensures |r| == if |s| < n then |s| else n
    ensures r == s[..|r|]
  {
    if |s| <= n then s else s[..n]
  }

  function Reversed<T>(s: seq<T>): (r: seq<T>)
    ensures |r| == |s|
  {
    if s == [] then [] else [s[|s| - 1]] + Reversed(s[..|s| - 1])
  }

  /** The log after adding `es` one at a time, in order. */
  function WithEntries(logs: seq<LogEntry>, es: seq<LogEntry>): (r: seq<LogEntry>)
    ensures |logs| <= MaxLogs ==> |r| <= MaxLogs
    ensures es != [] ==> r != [] && r[0] == es[|es| - 1]
  {
    if es == [] then logs else WithEntry(WithEntries(logs, es[..|es| - 1]), es[|es| - 1])
  }

  /** One more entry on the newest `MaxLogs` of `all` keeps the newest `MaxLogs` of `[e] + all`. */
  lemma WithEntryTake(all: seq<LogEntry>, e: LogEntry)
    ensures WithEntry(Take(all, MaxLogs), e) == Take([e] + all, MaxLogs)
  {
    var p := Take(all, MaxLogs);
    if |p| == MaxLogs {
      assert ([e] + p)[..MaxLogs] == ([e] + all)[..MaxLogs];
    } else {
      assert p == all;
    }
  }

  /**
   * From a log within capacity, adding `es` in order gives the newest
   * `MaxLogs` of all entries, newest first: the added ones in reverse, then
   * the old log.
   */
  lemma {:induction false} WithEntriesKeepsNewest(logs: seq<LogEntry>, es: seq<LogEntry>)
    requires |logs| <= MaxLogs
    ensures WithEntries(logs, es) == Take(Reversed(es) + logs, MaxLogs)
  {
    if es == [] {
      assert Take(logs, MaxLogs) == logs;
    } else {
      var front := es[..|es| - 1];
      var e := es[|es| - 1];
      var all := Reversed(front) + logs;
      calc {
        WithEntries(logs, es);
        WithEntry(WithEntries(logs, front), e);
        { WithEntriesKeepsNewest(logs, front); }
        WithEntry(Take(all, MaxLogs), e);
        { WithEntryTake(all, e); }
        Take([e] + all, MaxLogs);
        { assert Reversed(es) + logs == [e] + all; }
        Take(Reversed(es) + logs, MaxLogs);
      }
    }
  }

  // ---------------------------------------------------------------------------
  // The buffer, as the class of the source
  // ---------------------------------------------------------------------------

  class LogService {
    var logs: seq<LogEntry>

    /** The log never grows past `MaxLogs`. */
    predicate Valid()
      reads this
    {
      |logs| <= MaxLogs
    }

    /** `new LogService(plugin)`: an empty log. */
    constructor()
      ensures Valid() && logs == []
    {
      logs := [];
    }

    /** `addEntry`, stamped with `now`. */
    method AddEntry(level: Level, message: string, details: Option<string>, now: int)
      modifies this
      ensures |old(logs)| <= MaxLogs ==> Valid()
      ensures logs == WithEntry(old(logs), LogEntry(now, level, message, details))
    {
      var entry := LogEntry(now, level, message, details);
      logs := [entry] + logs;
      if |logs| > MaxLogs {
        logs := logs[..|logs| - 1];
      }
    }

    /** `info`. */
    method LogInfo(message: string, details: Option<string>, now: int)
      modifies this
      ensures |old(logs)| <= MaxLogs ==> Valid()
      ensures logs == WithEntry(old(logs), LogEntry(now, Info, message, details))
    {
      AddEntry(Info, message, details, now);
    }

    /** `warn`. */
    method LogWarn(message: string, details: Option<string>, now: int)
      modifies this
      ensures |old(logs)| <= MaxLogs ==> Valid()
      ensures logs == WithEntry(old(logs), LogEntry(now, Warn, message, details))
    {
      AddEntry(Warn, message, details, now);
    }

    /** `error`. */
    method LogError(message: string, details: Option<string>, now: int)
      modifies this
      ensures |old(logs)| <= MaxLogs ==> Valid()
      ensures logs == WithEntry(old(logs), LogEntry(now, Error, message, details))
    {
      AddEntry(Error, message, details, now);
    }

    /** `getLogs`. */
    method GetLogs() returns (r: seq<LogEntry>)
      ensures r == logs
    {
      r := logs;
    }

    /** `clear`. */
    method Clear()
      modifies this
      ensures Valid() && logs == []
    {
      logs := [];
    }
  }
}
