/** The diagnostics worker (DiagnosticsWorker.swift): log levels and their
    OS log types, the log-string format, the merge of the reserved source
    location keys into an exception's user info, and the forwarding of
    every call to the optional hooks. The hooks and the `logs` stream are
    modelled as the sequences of calls and emissions they receive; the
    system log (`NSLog` in debug builds, `os_log` otherwise) as a sequence
    of lines. */
module Diagnostics {
  import opened Wrappers

  // ---------------------------------------------------------------------
  // Log levels

  datatype LogLevel = Info | Warn | Error | Fatal

  /** The `String` raw values of `LogLevel`: the ℹ️, ⚠️, ❗️ and 🛑 emoji. */
  function RawValue(level: LogLevel): (r: string)
    ensures 1 <= |r| <= 2
  {
    match level
    case Info => "\U{2139}\U{FE0F}"
    case Warn => "\U{26A0}\U{FE0F}"
    case Error => "\U{2757}\U{FE0F}"
    case Fatal => "\U{1F6D1}"
  }

  /** The level a log string starts with, read from its first character;
      the four raw values start with four different characters. */
  function LevelOf(s: string): (r: Option<LogLevel>)
    ensures r.Some? ==> s != "" && s[0] == RawValue(r.value)[0]
  {
    if s == "" then None
    else if s[0] == '\U{2139}' then Some(Info)
    else if s[0] == '\U{26A0}' then Some(Warn)
    else if s[0] == '\U{2757}' then Some(Error)
    else if s[0] == '\U{1F6D1}' then Some(Fatal)
    else None
  }

  /** `OSLogType`, as far as the table uses it. */
  datatype OSLogType = DefaultType | InfoType | ErrorType | FaultType

  /** `LogLevel.osLogType`. */
  function OSLogTypeOf(level: LogLevel): (t: OSLogType)
  {
    match level
    case Info => DefaultType
    case Warn => InfoType
    case Error => ErrorType
    case Fatal => FaultType
  }

  /** The OS log type table, stated case by case, and no two levels share
      an OS log type. */
  lemma OSLogTypeTable(a: LogLevel, b: LogLevel)
    ensures OSLogTypeOf(Info) == DefaultType && OSLogTypeOf(Warn) == InfoType
    ensures OSLogTypeOf(Error) == ErrorType && OSLogTypeOf(Fatal) == FaultType
    ensures OSLogTypeOf(a) == OSLogTypeOf(b) ==> a == b
  {
  }

  // ---------------------------------------------------------------------
  // Messages

  /** The string `log` writes and forwards: `"<raw value>: <message>"`. */
  function LogString(level: LogLevel, message: string): (r: string)
    ensures |r| == |RawValue(level)| + 2 + |message|
    ensures r[..|RawValue(level)|] == RawValue(level) && r[|RawValue(level)| + 2..] == message
    ensures r[|RawValue(level)|..|RawValue(level)| + 2] == ": "
  {
    RawValue(level) + ": " + message
  }

  /** A log string names its level. */
  lemma LevelOfLogString(level: LogLevel, message: string)
    ensures LevelOf(LogString(level, message)) == Some(level)
  {
    assert LogString(level, message)[0] == RawValue(level)[0];
  }

  /** The log string determines both the level and the message. */
  lemma LogStringInjective(l1: LogLevel, m1: string, l2: LogLevel, m2: string)
    requires LogString(l1, m1) == LogString(l2, m2)
    ensures l1 == l2 && m1 == m2
  {
    LevelOfLogString(l1, m1);
    LevelOfLogString(l2, m2);
  }

  /** A value stored in a user-info dictionary or set as a custom value
      (`Any`): only strings and integers are written by the worker itself;
      anything else is opaque. */
  datatype Value = StringValue(s: string) | IntValue(i: int) | OtherValue(id: nat)

  /** The part of `Error` the worker reads. */
  datatype ErrorValue = ErrorValue(localizedDescription: string)

  /** The message tail of `exception`, as the source writes it: the
      description of the merged info in parentheses, followed by one more
      closing parenthesis. */
  function ExceptionMessageAsWritten(error: ErrorValue, info: string): (r: string)
    ensures |r| >= |info| + 4 && r[|r| - |info| - 4..] == " (" + info + "))"
  {
    RawValue(Error) + " " + error.localizedDescription + " (" + info + "))"
  }

  /** The message of `exception` with its parentheses balanced: the
      description of the merged info in one pair of parentheses. */
  function ExceptionMessage(error: ErrorValue, info: string): (r: string)
    ensures |r| >= |info| + 3 && r[|r| - |info| - 3..] == " (" + info + ")"
  {
    RawValue(Error) + " " + error.localizedDescription + " (" + info + ")"
  }

  /** How many more `(` than `)` a string has. */
  function Balance(s: string): int
    decreases |s|
  {
    if s == "" then 0
    else (if s[0] == '(' then 1 else if s[0] == ')' then -1 else 0) + Balance(s[1..])
  }

  lemma {:induction false} BalanceConcat(a: string, b: string)
    ensures Balance(a + b) == Balance(a) + Balance(b)
    decreases |a|
  {
    if a == "" {
      assert a + b == b;
    } else {
      assert (a + b)[1..] == a[1..] + b;
      BalanceConcat(a[1..], b);
    }
  }

  lemma {:induction false} NoParensBalance(s: string)
    requires forall i :: 0 <= i < |s| ==> s[i] != '(' && s[i] != ')'
    ensures Balance(s) == 0
    decreases |s|
  {
    if s != "" {
      NoParensBalance(s[1..]);
    }
  }

  /** The corrected message adds balanced parentheses around the info. */
  lemma ExceptionMessageBalanced(error: ErrorValue, info: string)
    ensures Balance(ExceptionMessage(error, info)) == Balance(error.localizedDescription) + Balance(info)
  {
    var p := RawValue(Error) + " ";
    BalanceConcat(p, error.localizedDescription);
    BalanceConcat(p + error.localizedDescription, " (");
    BalanceConcat(p + error.localizedDescription + " (", info);
    BalanceConcat(p + error.localizedDescription + " (" + info, ")");
    assert Balance(p) == 0 by {
      assert p == "\U{2757}\U{FE0F} ";
      NoParensBalance(p);
    }
    assert Balance(" (") == 1 by {
      assert " ("[1..] == "(";
    }
  }

  /** The message as written closes one parenthesis more than it opens. */
  lemma ExceptionMessageAsWrittenUnbalanced(error: ErrorValue, info: string)
    ensures Balance(ExceptionMessageAsWritten(error, info)) == Balance(error.localizedDescription) + Balance(info) - 1
  {
    var p := RawValue(Error) + " ";
    BalanceConcat(p, error.localizedDescription);
    BalanceConcat(p + error.localizedDescription, " (");
    BalanceConcat(p + error.localizedDescription + " (", info);
    BalanceConcat(p + error.localizedDescription + " (" + info, "))");
    assert Balance(p) == 0 by {
      assert p == "\U{2757}\U{FE0F} ";
      NoParensBalance(p);
    }
    assert Balance(" (") == 1 by {
      assert " ("[1..] == "(";
    }
    assert Balance("))") == -2 by {
      assert "))"[1..] == ")";
    }
  }

  // ---------------------------------------------------------------------
  // User info

  const FileKey: string := "_file_"
  const LineKey: string := "_line_"
  const FunctionKey: string := "_function_"

  /** The reserved keys `exception` starts its merged info with. */
  function ReservedInfo(file: string, line: int, functionName: string): (m: map<string, Value>)
    ensures m.Keys == {FileKey, LineKey, FunctionKey}
  {
    map[FileKey := StringValue(file), LineKey := IntValue(line), FunctionKey := StringValue(functionName)]
  }

  /** `merge(_:uniquingKeysWith: { a, _ in a })`: every key of either map;
      where both have a key, the existing value is kept. */
  function MergeKeepingExisting(existing: map<string, Value>, other: map<string, Value>): (m: map<string, Value>)
    ensures m.Keys == existing.Keys + other.Keys
    ensures forall k :: k in existing ==> m[k] == existing[k]
    ensures forall k :: k in other && k !in existing ==> m[k] == other[k]
  {
    map k | k in existing.Keys + other.Keys :: if k in existing then existing[k] else other[k]
  }

  /** The merged info of `exception`. */
  function MergedInfo(userInfo: Option<map<string, Value>>, file: string, line: int, functionName: string): map<string, Value>
  {
    var reserved := ReservedInfo(file, line, functionName);
    if userInfo.Some? then MergeKeepingExisting(reserved, userInfo.value) else reserved
  }

  /** The reserved keys always carry the given location, whatever the user
      info holds under them; every other user-info key keeps its value; with
      no user info there are exactly the reserved keys. */
  lemma MergedInfoProperties(userInfo: Option<map<string, Value>>, file: string, line: int, functionName: string)
    ensures var m := MergedInfo(userInfo, file, line, functionName);
      && m[FileKey] == StringValue(file) && m[LineKey] == IntValue(line) && m[FunctionKey] == StringValue(functionName)
      && (userInfo.None? ==> m.Keys == {FileKey, LineKey, FunctionKey})
      && (userInfo.Some? ==> m.Keys == {FileKey, LineKey, FunctionKey} + userInfo.value.Keys)
      && (userInfo.Some? ==> forall k :: k in userInfo.value && k !in {FileKey, LineKey, FunctionKey} ==> m[k] == userInfo.value[k])
  {
  }

  // ---------------------------------------------------------------------
  // The worker

  /** `DiagnosticsWorkingHooks`: which of the four optional closures are
      set. */
  datatype Hooks = Hooks(setUserID: bool, setCustomValue: bool, log: bool, record: bool)

  /** A call received by one of the hooks. */
  datatype HookCall =
    | SetUserIDCall(userID: Option<string>)
    | SetCustomValueCall(value: Option<Value>, key: string)
    | LogCall(message: string)
    | RecordCall(error: ErrorValue, userInfo: map<string, Value>)

  /** An emission on `logs`. */
  datatype LogEntry = LogEntry(level: LogLevel, message: string)

  /** A line of the system log: `NSLog` in debug builds, `os_log` with a
      type otherwise. */
  datatype SystemLogLine = NSLogLine(text: string) | OSLogLine(logType: OSLogType, text: string)

  class DiagnosticsWorker {
    /** Whether the build defines `DEBUG`. */
    const isDebug: bool
    var hooks: Option<Hooks>
    var hookCalls: seq<HookCall>
    var logs: seq<LogEntry>
    var systemLog: seq<SystemLogLine>

    constructor(isDebug: bool)
      ensures this.isDebug == isDebug && hooks == None
      ensures hookCalls == [] && logs == [] && systemLog == []
    {
      this.isDebug := isDebug;
      hooks := None;
      hookCalls := [];
      logs := [];
      systemLog := [];
    }

    /** `setHooks` replaces the hooks. */
    method SetHooks(h: Hooks)
      modifies this
      ensures hooks == Some(h)
      ensures hookCalls == old(hookCalls) && logs == old(logs) && systemLog == old(systemLog)
    {
      hooks := Some(h);
    }

    /** `log(level:_:)`: the log string goes to the log hook, if set, and to
      the system log; the unprefixed message is emitted on `logs`. */
    method Log(level: LogLevel, message: string)
      modifies this
      ensures hooks == old(hooks)
      ensures hookCalls == old(hookCalls) +
        (if hooks.Some? && hooks.value.log then [LogCall(LogString(level, message))] else [])
      ensures systemLog == old(systemLog) +
        [if isDebug then NSLogLine(LogString(level, message)) else OSLogLine(OSLogTypeOf(level), LogString(level, message))]
      ensures logs == old(logs) + [LogEntry(level, message)]
    {
      var s := LogString(level, message);
      if hooks.Some? && hooks.value.log {
        hookCalls := hookCalls + [LogCall(s)];
      }
      if isDebug {
        systemLog := systemLog + [NSLogLine(s)];
      } else {
        systemLog := systemLog + [OSLogLine(OSLogTypeOf(level), s)];
      }
      logs := logs + [LogEntry(level, message)];
    }

    /** `exception(_:userInfo:file:line:function:)`: the merged info goes to
      the record hook, if set; one message at level error is emitted on
      `logs`, and written to the system log in debug builds. `describe`
      stands for the dictionary's string interpolation. The message is the
      one the program writes, with its extra closing parenthesis. */
    method Exception(error: ErrorValue, userInfo: Option<map<string, Value>>, file: string, line: int,
                     functionName: string, describe: map<string, Value> -> string)
      modifies this
      ensures hooks == old(hooks)
      ensures var info := MergedInfo(userInfo, file, line, functionName);
        && hookCalls == old(hookCalls) + (if hooks.Some? && hooks.value.record then [RecordCall(error, info)] else [])
        && systemLog == old(systemLog) + (if isDebug then [NSLogLine(ExceptionMessageAsWritten(error, describe(info)))] else [])
        && logs == old(logs) + [LogEntry(Error, ExceptionMessageAsWritten(error, describe(info)))]
    {
      var mergedInfo := ReservedInfo(file, line, functionName);
      if userInfo.Some? {
        mergedInfo := MergeKeepingExisting(mergedInfo, userInfo.value);
      }
      if hooks.Some? && hooks.value.record {
        hookCalls := hookCalls + [RecordCall(error, mergedInfo)];
      }
      var s := ExceptionMessageAsWritten(error, describe(mergedInfo));
      if isDebug {
        systemLog := systemLog + [NSLogLine(s)];
      }
      logs := logs + [LogEntry(Error, s)];
    }

    /** `setUserID`: forwarded to its hook when that is set, otherwise
      nothing happens. */
    method SetUserID(userID: Option<string>)
      modifies this
      ensures hooks == old(hooks) && logs == old(logs) && systemLog == old(systemLog)
      ensures hookCalls == old(hookCalls) +
        (if hooks.Some? && hooks.value.setUserID then [SetUserIDCall(userID)] else [])
    {
      if hooks.Some? && hooks.value.setUserID {
        hookCalls := hookCalls + [SetUserIDCall(userID)];
      }
    }

    /** `setCustomValue(_:forKey:)`: forwarded to its hook when that is set,
      otherwise nothing happens. */
    method SetCustomValue(value: Option<Value>, key: string)
      modifies this
      ensures hooks == old(hooks) && logs == old(logs) && systemLog == old(systemLog)
      ensures hookCalls == old(hookCalls) +
        (if hooks.Some? && hooks.value.setCustomValue then [SetCustomValueCall(value, key)] else [])
    {
      if hooks.Some? && hooks.value.setCustomValue {
        hookCalls := hookCalls + [SetCustomValueCall(value, key)];
      }
    }
  }

  // ---------------------------------------------------------------------
  // Scenarios

  /** With every hook set, `log` reaches the log hook once with the
      prefixed string and emits the unprefixed message once. */
  method LogWithHooks(isDebug: bool, level: LogLevel, message: string)
    returns (calls: seq<HookCall>, entries: seq<LogEntry>)
    ensures calls == [LogCall(LogString(level, message))]
    ensures entries == [LogEntry(level, message)]
  {
    var worker := new DiagnosticsWorker(isDebug);
    worker.SetHooks(Hooks(true, true, true, true));
    worker.Log(level, message);
    calls, entries := worker.hookCalls, worker.logs;
  }

  /** Without hooks nothing is forwarded, but `log` still emits its entry. */
  method CallsWithoutHooks(isDebug: bool, level: LogLevel, message: string, userID: Option<string>)
    returns (calls: seq<HookCall>, entries: seq<LogEntry>)
    ensures calls == []
    ensures entries == [LogEntry(level, message)]
  {
    var worker := new DiagnosticsWorker(isDebug);
    worker.SetUserID(userID);
    worker.SetCustomValue(None, "key");
    worker.Log(level, message);
    calls, entries := worker.hookCalls, worker.logs;
  }

  /** `exception` hands the record hook the merged info, in which the
      reserved keys carry the call site, and emits one entry at level
      error. */
  method ExceptionWithRecordHook(error: ErrorValue, userInfo: Option<map<string, Value>>, file: string,
                                 line: int, functionName: string, describe: map<string, Value> -> string)
    returns (calls: seq<HookCall>, entries: seq<LogEntry>)
    ensures |calls| == 1 && calls[0].RecordCall? && calls[0].error == error
    ensures FileKey in calls[0].userInfo && LineKey in calls[0].userInfo && FunctionKey in calls[0].userInfo
    ensures calls[0].userInfo[FileKey] == StringValue(file) && calls[0].userInfo[LineKey] == IntValue(line)
    ensures calls[0].userInfo[FunctionKey] == StringValue(functionName)
    ensures |entries| == 1 && entries[0].level == Error
  {
    var worker := new DiagnosticsWorker(false);
    worker.SetHooks(Hooks(false, false, false, true));
    worker.Exception(error, userInfo, file, line, functionName, describe);
    MergedInfoProperties(userInfo, file, line, functionName);
    calls, entries := worker.hookCalls, worker.logs;
  }
}
