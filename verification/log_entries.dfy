/**
 * The log entry the `logger.ts` and `logger.js` Loggers build from the
 * arguments of `log(...args)`: the first argument is shifted off as the
 * level; when it does not resolve, the `default` level is used instead and
 * the argument is put back. The date is a parameter (the clock is outside
 * the model) and so is the caller's stack text.
 */
module LogEntries {
  import opened Wrappers
  import opened Values
  import opened Levels
  import opened StackFrames
  import opened Config

  datatype LogEntry = LogEntry(date: string, args: seq<Value>, levelNumber: int, levelName: string, lineInfo: LineInfo)

  /** `args.shift()` seen from its result: the first argument, or `undefined` for none. */
  function Head(args: seq<Value>): Value {
    if args == [] then Undefined else args[0]
  }

  /** What `args.shift()` leaves behind. */
  function Tail(args: seq<Value>): seq<Value> {
    if args == [] then [] else args[1..]
  }

  /**
   * The entry `getLogEntry(args)` returns, or the error it throws: the
   * shifted level resolves, or else the `default` level is looked up and the
   * shifted value goes back to the front of the arguments.
   */
  function EntryOf(t: LevelTable, date: string, lineInfo: LineInfo, args: seq<Value>): Result<LogEntry, LevelError> {
    match GetLevelInfo(t, Head(args))
    case Success(info) => Success(LogEntry(date, Tail(args), info.levelNumber, info.levelName, lineInfo))
    case Failure(_) =>
      match GetLevelInfo(t, Str("default"))
      case Success(info) => Success(LogEntry(date, [Head(args)] + Tail(args), info.levelNumber, info.levelName, lineInfo))
      case Failure(e) => Failure(e)
  }

  /** `getLogEntry(args)` of `logger.ts` (and the same steps inside `log` of `logger.js`). */
  method GetLogEntry(t: LevelTable, date: string, lineInfo: LineInfo, args: seq<Value>)
    returns (r: Result<LogEntry, LevelError>)
    ensures r == EntryOf(t, date, lineInfo, args)
  {
    var rest := args;
    var level := Undefined;
    if |rest| > 0 {
      level := rest[0];
      rest := rest[1..];
    }
    var levelInfo := GetLevelInfo(t, level);
    if levelInfo.Failure? {
      levelInfo := GetLevelInfo(t, Str("default"));
      if levelInfo.Failure? {
        return Failure(levelInfo.error);
      }
      rest := [level] + rest;
    }
    return Success(LogEntry(date, rest, levelInfo.value.levelNumber, levelInfo.value.levelName, lineInfo));
  }

  /**
   * The entry `log` builds in a Logger with configuration `c`: the frame of
   * the caller is read with the configured line offset, the level with the
   * configured levels.
   */
  function EntryFor(c: Config, style: LineStyle, date: string, stack: seq<string>, selfDir: string, args: seq<Value>)
    : Result<LogEntry, LevelError>
  {
    EntryOf(LevelsOf(c), date, LineInfoOf(stack, selfDir, LineOffsetOf(c), style), args)
  }

  /**
   * No argument is lost: a resolved level is the only thing removed, and
   * otherwise the arguments come back whole (an empty list comes back as a
   * single `undefined`, the value `shift` produced).
   */
  lemma ArgumentsKept(t: LevelTable, date: string, lineInfo: LineInfo, args: seq<Value>)
    requires EntryOf(t, date, lineInfo, args).Success?
    ensures var e := EntryOf(t, date, lineInfo, args).value;
      if GetLevelInfo(t, Head(args)).Success? then [Head(args)] + e.args == (if args == [] then [Undefined] else args)
      else e.args == (if args == [] then [Undefined] else args)
  {
    if args != [] {
      assert [args[0]] + args[1..] == args;
    }
  }

  /**
   * A first argument naming a declared level is removed from the arguments;
   * the entry carries that level's number and the first name declared for it.
   */
  lemma ResolvedLevelIsRemoved(t: LevelTable, date: string, lineInfo: LineInfo, args: seq<Value>, n: int)
    requires WellFormed(t)
    requires args != [] && args[0].Str? && (args[0].s, n) in t
    ensures EntryOf(t, date, lineInfo, args).Success?
    ensures var e := EntryOf(t, date, lineInfo, args).value;
      e.args == args[1..] && e.levelNumber == n && IsFirstName(t, e.levelName, n) && e.lineInfo == lineInfo
  {
    LookupIn(t, args[0].s, n);
    LevelInfoSpec(t, args[0]);
  }

  /**
   * A first argument that is not a level leaves the arguments unchanged and
   * the entry takes the `default` level: its number and the first name
   * declared for that number.
   */
  lemma UnresolvedLevelIsKept(t: LevelTable, date: string, lineInfo: LineInfo, args: seq<Value>, d: int)
    requires WellFormed(t) && ("default", d) in t
    requires args != [] && GetLevelInfo(t, args[0]).Failure?
    ensures EntryOf(t, date, lineInfo, args).Success?
    ensures var e := EntryOf(t, date, lineInfo, args).value;
      e.args == args && e.levelNumber == d && IsFirstName(t, e.levelName, d)
  {
    LookupIn(t, "default", d);
    LevelInfoSpec(t, Str("default"));
    assert [args[0]] + args[1..] == args;
  }

  /** Without a `default` level an unresolved first argument makes `getLogEntry` throw the lookup's error. */
  lemma MissingDefaultPropagates(t: LevelTable, date: string, lineInfo: LineInfo, args: seq<Value>)
    requires forall i :: 0 <= i < |t| ==> t[i].0 != "default"
    requires GetLevelInfo(t, Head(args)).Failure?
    ensures EntryOf(t, date, lineInfo, args) == Failure(NoLevelNumber("default"))
  {
    LookupSpec(t, "default");
  }

  /**
   * A value that is neither a string nor a number, or no argument at all,
   * cannot be a level: `getLevelInfo` throws for it, and the entry falls
   * back to the default level.
   */
  lemma OtherTypesFallBack(t: LevelTable, date: string, lineInfo: LineInfo, args: seq<Value>)
    requires !Head(args).Str? && !Head(args).Num?
    requires GetLevelInfo(t, Str("default")).Success?
    ensures EntryOf(t, date, lineInfo, args).Success?
    ensures EntryOf(t, date, lineInfo, args).value.args == (if args == [] then [Undefined] else args)
    ensures EntryOf(t, date, lineInfo, args).value.levelNumber == GetLevelInfo(t, Str("default")).value.levelNumber
  {
    if args != [] {
      assert [args[0]] + args[1..] == args;
    }
  }

  /**
   * With the default levels, `log('note', 'this is working swell')` is a
   * notice with the message alone, and a first argument that is not a level
   * gives an `info` entry (level 6) that keeps it as `args[0]`.
   */
  lemma DefaultLevelsEntries(date: string, lineInfo: LineInfo, rest: seq<Value>, first: Value)
    requires GetLevelInfo(DefaultLevels, first).Failure?
    ensures EntryOf(DefaultLevels, date, lineInfo, [Str("note")] + rest)
      == Success(LogEntry(date, rest, 5, "notice", lineInfo))
    ensures EntryOf(DefaultLevels, date, lineInfo, [first] + rest)
      == Success(LogEntry(date, [first] + rest, 6, "info", lineInfo))
  {
    DefaultAliases();
    assert ([Str("note")] + rest)[1..] == rest;
    assert [first] + ([first] + rest)[1..] == [first] + rest;
  }
}
