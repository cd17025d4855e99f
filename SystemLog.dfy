/** The system log (src/store/useSystemLogStore.ts): a bounded list of
    entries, newest first. The clock text (`toLocaleTimeString()`) and the
    base-36 digits behind each random id are parameters. */
module SystemLog {
  import opened Common

  datatype LogType = SystemType | UserType | NetworkType | ErrorType | StatusType | CriticalType

  datatype LogEntry = LogEntry(id: string, timestamp: string, logType: LogType, message: string)

  const MaxLogs := 50

  /** `[entry, ...logs].slice(0, 50)`. */
  function Pushed(logs: seq<LogEntry>, e: LogEntry): (r: seq<LogEntry>)
    ensures |r| == if |logs| < MaxLogs then |logs| + 1 else MaxLogs
    ensures r[0] == e
    ensures forall k :: 0 <= k < |r| - 1 ==> r[k + 1] == logs[k]
  {
    Take([e] + logs, MaxLogs)
  }

  /** Below the cap nothing is dropped; at the cap the oldest entry goes. */
  lemma PushedKeeps(logs: seq<LogEntry>, e: LogEntry)
    ensures |logs| < MaxLogs ==> Pushed(logs, e) == [e] + logs
    ensures |logs| == MaxLogs ==> Pushed(logs, e) == [e] + logs[..MaxLogs - 1]
  {
    var r := Pushed(logs, e);
    if |logs| < MaxLogs {
      assert forall k :: 0 <= k < |r| ==> r[k] == ([e] + logs)[k];
    } else if |logs| == MaxLogs {
      assert forall k :: 0 <= k < |r| ==> r[k] == ([e] + logs[..MaxLogs - 1])[k];
    }
  }

  function Entry(message: string, logType: Option<LogType>, digits: string, clock: string): (e: LogEntry)
    ensures e.message == ToUpper(message) && e.logType == logType.GetOr(SystemType) && e.timestamp == clock
    ensures |e.id| == (if |digits| < 9 then |digits| else 9) && e.id == digits[..|e.id|]
  {
    LogEntry(Take(digits, 9), clock, logType.GetOr(SystemType), ToUpper(message))
  }

  class SystemLogStore {
    var logs: seq<LogEntry>

    predicate Valid()
      reads this
    {
      |logs| <= MaxLogs
    }

    /** The two start-up entries, stamped with the clock at creation. */
    constructor (clock: string)
      ensures Valid()
      ensures logs == [LogEntry("1", clock, SystemType, "SYSTEM_CORE_INITIALIZED"),
                       LogEntry("2", clock, StatusType, "ALL_NODES_NOMINAL")]
    {
      logs := [LogEntry("1", clock, SystemType, "SYSTEM_CORE_INITIALIZED"),
               LogEntry("2", clock, StatusType, "ALL_NODES_NOMINAL")];
    }

    /** The new entry goes first, uppercased, of type 'system' unless
        another is given; the log stays within its cap. */
    method AddLog(message: string, logType: Option<LogType>, digits: string, clock: string)
      requires Valid()
      modifies this
      ensures Valid()
      ensures logs == Pushed(old(logs), Entry(message, logType, digits, clock))
    {
      logs := Pushed(logs, Entry(message, logType, digits, clock));
    }

    method ClearLogs()
      modifies this
      ensures Valid()
      ensures logs == []
    {
      logs := [];
    }
  }
}
