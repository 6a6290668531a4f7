/**
 * Level resolution and entry formatting of the CoffeeScript Logger in
 * `index.js`. Unlike the later Loggers its lookups return `null` instead of
 * throwing (`None` here), a `defaulted` flag drives the fallback to the
 * `default` level, and an unknown number is not defaulted at all.
 */
module CoffeeLevels {
  import opened Wrappers
  import opened Values
  import opened Levels
  import opened StackFrames
  import opened Config

  datatype CoffeeLevelInfo = CoffeeLevelInfo(levelNumber: Option<LevelValue>, levelName: Option<string>, defaulted: bool)

  /**
   * `@config.levels[name] ? null`: what is read under the property key of
   * `name` (a declared number, or a member inherited from
   * `Object.prototype`), or `null` when there is nothing under that key.
   */
  function GetLevelNumber(t: LevelTable, name: Value): (r: Option<LevelValue>)
    ensures r.None? <==> PropertyKey(name) !in InheritedNames && forall i :: 0 <= i < |t| ==> t[i].0 != PropertyKey(name)
    ensures r.Some? && r.value.LevelNumber? ==> (PropertyKey(name), r.value.n) in t
    ensures r.Some? && r.value.InheritedMember? ==>
      r.value.name == PropertyKey(name) && PropertyKey(name) in InheritedNames
      && forall i :: 0 <= i < |t| ==> t[i].0 != PropertyKey(name)
  {
    PropertyOfSpec(t, PropertyKey(name));
    PropertyOf(t, PropertyKey(name))
  }

  /**
   * `getLevelName(number)`: the first own key whose value `is` the number;
   * `null` when there is none, and always for `null` or an inherited member,
   * since every declared value is a number.
   */
  function GetLevelName(t: LevelTable, number: Option<LevelValue>): (r: Option<string>)
    ensures !(number.Some? && number.value.LevelNumber?) ==> r.None?
    ensures number.Some? && number.value.LevelNumber? ==>
      (r.None? <==> forall i :: 0 <= i < |t| ==> t[i].1 != number.value.n)
    ensures r.Some? ==> number.Some? && number.value.LevelNumber? && IsFirstName(t, r.value, number.value.n)
  {
    match number
    case None => None
    case Some(InheritedMember(_)) => None
    case Some(LevelNumber(n)) =>
      FirstNameSpec(t, n);
      FirstName(t, n)
  }

  /**
   * `getLevelInfo(level)`: a number is kept and only named; anything else is
   * looked up by its property key, and only when nothing at all is read
   * under that key are the `default` number and its name used and the
   * result marked `defaulted`.
   */
  function GetLevelInfo(t: LevelTable, level: Value): (r: CoffeeLevelInfo)
    ensures r.defaulted <==> !level.Num? && GetLevelNumber(t, level).None?
    ensures level.Num? ==> r.levelNumber == Some(LevelNumber(level.n))
    ensures !level.Num? && !r.defaulted ==> r.levelNumber == GetLevelNumber(t, level)
    ensures r.defaulted ==> r.levelNumber == GetLevelNumber(t, Str("default"))
    ensures r.levelName == GetLevelName(t, r.levelNumber)
  {
    if level.Num? then
      CoffeeLevelInfo(Some(LevelNumber(level.n)), GetLevelName(t, Some(LevelNumber(level.n))), false)
    else
      var levelNumber := GetLevelNumber(t, level);
      if levelNumber.Some? then
        CoffeeLevelInfo(levelNumber, GetLevelName(t, levelNumber), false)
      else
        var fallback := GetLevelNumber(t, Str("default"));
        CoffeeLevelInfo(fallback, GetLevelName(t, fallback), true)
  }

  /** The name found for a number read from the table is never `null`. */
  lemma DeclaredNumberIsNamed(t: LevelTable, name: Value)
    requires GetLevelNumber(t, name).Some? && GetLevelNumber(t, name).value.LevelNumber?
    ensures GetLevelName(t, GetLevelNumber(t, name)).Some?
  {
    var n := GetLevelNumber(t, name).value.n;
    var i :| 0 <= i < |t| && t[i] == (PropertyKey(name), n);
  }

  /**
   * An unknown string level becomes the `default` level, with the first name
   * declared for its number, and is marked defaulted; unless it is the name
   * of an inherited member, which is read as it is, has no name and is not
   * defaulted.
   */
  lemma UnknownNameIsDefaulted(t: LevelTable, name: string, d: int)
    requires WellFormed(t) && ("default", d) in t
    requires forall i :: 0 <= i < |t| ==> t[i].0 != name
    ensures var r := GetLevelInfo(t, Str(name));
      name !in InheritedNames ==>
        r.defaulted && r.levelNumber == Some(LevelNumber(d)) && r.levelName.Some? && IsFirstName(t, r.levelName.value, d)
    ensures name in InheritedNames ==>
      GetLevelInfo(t, Str(name)) == CoffeeLevelInfo(Some(InheritedMember(name)), None, false)
  {
    LookupIn(t, "default", d);
    assert "default" !in InheritedNames;
    DeclaredNumberIsNamed(t, Str("default"));
  }

  /** An unknown number is not defaulted: it is kept as given and its name is `null`. */
  lemma UnknownNumberIsKept(t: LevelTable, n: int)
    requires forall i :: 0 <= i < |t| ==> t[i].1 != n
    ensures GetLevelInfo(t, Num(n)) == CoffeeLevelInfo(Some(LevelNumber(n)), None, false)
  {
  }

  /**
   * Where the throwing lookup of `logger.ts`/`logger.js` succeeds, this one
   * reports the same level and is not defaulted. Where it fails on a string,
   * this one defaults, except for an inherited name, which it keeps with a
   * `null` name; where it fails on a number, this one keeps the number with
   * a `null` name.
   */
  lemma AgreesWithThrowingLookup(t: LevelTable, level: Value)
    requires level.Str? || level.Num?
    ensures Levels.GetLevelInfo(t, level).Success? ==>
      GetLevelInfo(t, level) == CoffeeLevelInfo(Some(LevelNumber(Levels.GetLevelInfo(t, level).value.levelNumber)),
                                                Some(Levels.GetLevelInfo(t, level).value.levelName), false)
    ensures Levels.GetLevelInfo(t, level).Failure? && level.Str? && level.s !in InheritedNames ==>
      GetLevelInfo(t, level).defaulted
    ensures Levels.GetLevelInfo(t, level).Failure? && level.Str? && level.s in InheritedNames ==>
      GetLevelInfo(t, level) == CoffeeLevelInfo(Some(InheritedMember(level.s)), None, false)
    ensures Levels.GetLevelInfo(t, level).Failure? && level.Num? ==>
      GetLevelInfo(t, level) == CoffeeLevelInfo(Some(LevelNumber(level.n)), None, false)
  {
    if level.Str? {
      LookupSpec(t, level.s);
    }
  }

  // ---------------------------------------------------------------------------
  // format and log

  datatype CoffeeEntry = CoffeeEntry(
    date: string, args: seq<Value>, levelNumber: Option<LevelValue>, levelName: Option<string>, lineInfo: LineInfo)

  /**
   * `format(level, args...)` of the Logger: the level is put back in front of
   * the arguments only when it was defaulted and is not the string
   * `default`; `defaulted` itself is dropped from the entry.
   */
  function Format(t: LevelTable, date: string, lineInfo: LineInfo, level: Value, args: seq<Value>): (e: CoffeeEntry)
    ensures e.date == date && e.lineInfo == lineInfo
    ensures e.levelNumber == GetLevelInfo(t, level).levelNumber && e.levelName == GetLevelInfo(t, level).levelName
    ensures e.args == args || e.args == [level] + args
    ensures e.args == [level] + args <==> GetLevelInfo(t, level).defaulted && level != Str("default")
  {
    var info := GetLevelInfo(t, level);
    var rest := if info.defaulted && level != Str("default") then [level] + args else args;
    assert |[level] + args| != |args|;
    CoffeeEntry(date, rest, info.levelNumber, info.levelName, lineInfo)
  }

  /**
   * `log(args...)`: `format(args...)` with the Logger's configuration, the
   * frame read with its line offset and the line kept as text.
   */
  function LogEntry(c: Config, date: string, stack: seq<string>, selfDir: string, args: seq<Value>): (e: CoffeeEntry)
    ensures e.lineInfo == LineInfoOf(stack, selfDir, LineOffsetOf(c), RawLine)
    ensures e.levelNumber == GetLevelInfo(LevelsOf(c), if args == [] then Undefined else args[0]).levelNumber
  {
    var line := LineInfoOf(stack, selfDir, LineOffsetOf(c), RawLine);
    if args == [] then Format(LevelsOf(c), date, line, Undefined, [])
    else Format(LevelsOf(c), date, line, args[0], args[1..])
  }

  /**
   * A `default` level written out as the first argument is consumed even
   * when the table has no `default` key, unlike any other unknown name.
   */
  lemma DefaultNameIsAlwaysConsumed(t: LevelTable, date: string, lineInfo: LineInfo, args: seq<Value>)
    ensures Format(t, date, lineInfo, Str("default"), args).args == args
  {
  }

  /**
   * An undeclared inherited name as the first argument is consumed although
   * it resolves to no level: it is not defaulted, so it is not put back, and
   * the entry has no level name.
   */
  lemma InheritedNameIsDropped(t: LevelTable, date: string, lineInfo: LineInfo, name: string, args: seq<Value>)
    requires name in InheritedNames && forall i :: 0 <= i < |t| ==> t[i].0 != name
    ensures Format(t, date, lineInfo, Str(name), args) == CoffeeEntry(date, args, Some(InheritedMember(name)), None, lineInfo)
  {
  }

  /**
   * With the default levels, an unknown first argument stays in the
   * arguments and the entry is an `info` entry; a known one, or an array
   * holding only a known one, is consumed.
   */
  lemma DefaultLevelsFormat(date: string, lineInfo: LineInfo, args: seq<Value>)
    ensures Format(DefaultLevels, date, lineInfo, Str("this"), args)
      == CoffeeEntry(date, [Str("this")] + args, Some(LevelNumber(6)), Some("info"), lineInfo)
    ensures Format(DefaultLevels, date, lineInfo, Str("warn"), args)
      == CoffeeEntry(date, args, Some(LevelNumber(4)), Some("warning"), lineInfo)
    ensures Format(DefaultLevels, date, lineInfo, Array([Str("warn")]), args)
      == CoffeeEntry(date, args, Some(LevelNumber(4)), Some("warning"), lineInfo)
  {
    DefaultLookups();
    DefaultLevelsLackThis();
    ArrayKey(Str("warn"));
  }
}
