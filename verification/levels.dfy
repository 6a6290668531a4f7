/**
 * Level resolution of the Logger in `logger.ts` and `logger.js`: a forward
 * lookup from name to number, a reverse lookup that picks the first name
 * declared for a number, and the combined lookup used by `log`. All three
 * throw when they come back empty handed; here they return a `Failure`.
 */
module Levels {
  import opened Wrappers
  import opened Values

  /**
   * The `levels` object of a logger's configuration: its own keys, in the
   * order a `for...in` loop visits them, each with its number.
   */
  type LevelTable = seq<(string, int)>

  /** No name is declared twice, as in any JavaScript object. */
  predicate WellFormed(t: LevelTable) {
    forall i, j :: 0 <= i < j < |t| ==> t[i].0 != t[j].0
  }

  /** The levels a `logger.js` Logger starts with, in declaration order. */
  const DefaultLevels: LevelTable := [
    ("emergency", 0), ("alert", 1), ("critical", 2), ("error", 3),
    ("warning", 4), ("notice", 5), ("info", 6), ("debug", 7),
    ("emerg", 0), ("crit", 2), ("err", 3), ("warn", 4), ("note", 5),
    ("default", 6)
  ]

  datatype LevelInfo = LevelInfo(levelNumber: int, levelName: string)

  /**
   * The members every plain object inherits from `Object.prototype`. Reading
   * one of them from a levels object that does not declare it gives a
   * function (for `__proto__`, the prototype), never `null`.
   */
  const InheritedNames: set<string> := {
    "constructor", "hasOwnProperty", "isPrototypeOf", "propertyIsEnumerable",
    "toLocaleString", "toString", "valueOf", "__defineGetter__",
    "__defineSetter__", "__lookupGetter__", "__lookupSetter__", "__proto__"
  }

  /** What `levels[name]` reads when it is not `undefined`: a declared number, or an inherited member. */
  datatype LevelValue = LevelNumber(n: int) | InheritedMember(name: string)

  datatype LevelError =
    | NoLevelNumber(name: string)
    | NoLevelName(number: LevelValue)
    | UnknownLevelType(level: Value)

  /** `levels[name]`, scanning the entries from index `k`. */
  function LookupFrom(t: LevelTable, name: string, k: nat): Option<int>
    decreases |t| - k
  {
    if k >= |t| then None
    else if t[k].0 == name then Some(t[k].1)
    else LookupFrom(t, name, k + 1)
  }

  /** `levels[name]`: the number stored under `name`, if the name is declared. */
  function Lookup(t: LevelTable, name: string): Option<int> {
    LookupFrom(t, name, 0)
  }

  /** The first name, in table order from index `k`, whose number is `n`. */
  function FirstNameFrom(t: LevelTable, n: int, k: nat): Option<string>
    decreases |t| - k
  {
    if k >= |t| then None
    else if t[k].1 == n then Some(t[k].0)
    else FirstNameFrom(t, n, k + 1)
  }

  /** The first name, in table order, whose number is `n`. */
  function FirstName(t: LevelTable, n: int): Option<string> {
    FirstNameFrom(t, n, 0)
  }

  /** `name` is declared in `t`, with number `n`, before any other name with number `n`. */
  predicate IsFirstName(t: LevelTable, name: string, n: int) {
    exists i :: 0 <= i < |t| && t[i] == (name, n) && forall j :: 0 <= j < i ==> t[j].1 != n
  }

  lemma {:induction false} LookupFromSpec(t: LevelTable, name: string, k: nat)
    requires k <= |t|
    ensures LookupFrom(t, name, k).None? <==> forall i :: k <= i < |t| ==> t[i].0 != name
    ensures LookupFrom(t, name, k).Some? ==>
      exists i :: k <= i < |t| && t[i] == (name, LookupFrom(t, name, k).value)
    decreases |t| - k
  {
    if k < |t| && t[k].0 != name {
      LookupFromSpec(t, name, k + 1);
    }
  }

  /**
   * `Lookup` finds a name exactly when some entry declares it, and then
   * reports a number declared with that name.
   */
  lemma LookupSpec(t: LevelTable, name: string)
    ensures Lookup(t, name).None? <==> forall i :: 0 <= i < |t| ==> t[i].0 != name
    ensures Lookup(t, name).Some? ==> exists i :: 0 <= i < |t| && t[i] == (name, Lookup(t, name).value)
  {
    LookupFromSpec(t, name, 0);
  }

  /**
   * `levels[name]`: an own key wins; otherwise an inherited member is still
   * found; anything else is `undefined`.
   */
  function PropertyOf(t: LevelTable, name: string): (r: Option<LevelValue>)
    ensures Lookup(t, name).Some? ==> r == Some(LevelNumber(Lookup(t, name).value))
    ensures r.None? <==> Lookup(t, name).None? && name !in InheritedNames
  {
    match Lookup(t, name)
    case Some(n) => Some(LevelNumber(n))
    case None => if name in InheritedNames then Some(InheritedMember(name)) else None
  }

  /**
   * `levels[name]` is `undefined` exactly when no entry declares the name and
   * it is not inherited; a number it reads is declared with that name, and
   * an inherited member is read only for an undeclared name.
   */
  lemma PropertyOfSpec(t: LevelTable, name: string)
    ensures PropertyOf(t, name).None? <==> name !in InheritedNames && forall i :: 0 <= i < |t| ==> t[i].0 != name
    ensures PropertyOf(t, name) == Some(InheritedMember(name)) <==>
      name in InheritedNames && forall i :: 0 <= i < |t| ==> t[i].0 != name
    ensures forall n :: PropertyOf(t, name) == Some(LevelNumber(n)) ==> (name, n) in t
  {
    LookupSpec(t, name);
    if Lookup(t, name).Some? {
      var i :| 0 <= i < |t| && t[i] == (name, Lookup(t, name).value);
      assert t[i] in t;
    }
  }

  lemma {:induction false} FirstNameFromSpec(t: LevelTable, n: int, k: nat)
    requires k <= |t|
    ensures FirstNameFrom(t, n, k).None? <==> forall i :: k <= i < |t| ==> t[i].1 != n
    ensures FirstNameFrom(t, n, k).Some? ==>
      exists i :: k <= i < |t| && t[i] == (FirstNameFrom(t, n, k).value, n) && forall j :: k <= j < i ==> t[j].1 != n
    decreases |t| - k
  {
    if k < |t| && t[k].1 != n {
      FirstNameFromSpec(t, n, k + 1);
      if FirstNameFrom(t, n, k).Some? {
        var i :| k + 1 <= i < |t| && t[i] == (FirstNameFrom(t, n, k).value, n) && forall j :: k + 1 <= j < i ==> t[j].1 != n;
        assert forall j :: k <= j < i ==> t[j].1 != n;
      }
    }
  }

  /**
   * `FirstName` fails exactly when no entry carries the number, and
   * otherwise reports the earliest entry that does.
   */
  lemma FirstNameSpec(t: LevelTable, n: int)
    ensures FirstName(t, n).None? <==> forall i :: 0 <= i < |t| ==> t[i].1 != n
    ensures FirstName(t, n).Some? ==> IsFirstName(t, FirstName(t, n).value, n)
  {
    FirstNameFromSpec(t, n, 0);
  }

  /**
   * The key loop of `getLevelName`: walks the own keys in order and returns
   * the first whose value is strictly equal to `n`.
   */
  method FindLevelName(t: LevelTable, n: int) returns (r: Option<string>)
    ensures r == FirstName(t, n)
  {
    var k := 0;
    while k < |t|
      invariant 0 <= k <= |t|
      invariant FirstNameFrom(t, n, k) == FirstName(t, n)
    {
      if t[k].1 == n {
        return Some(t[k].0);
      }
      k := k + 1;
    }
    return None;
  }

  /**
   * `getLevelNumber(name)`: whatever `levels[name]` reads unless that is
   * `null` or `undefined`, when it throws. An inherited member therefore
   * comes back as it is.
   */
  function GetLevelNumber(t: LevelTable, name: string): (r: Result<LevelValue, LevelError>)
    ensures r.Failure? <==> Lookup(t, name).None? && name !in InheritedNames
    ensures Lookup(t, name).Some? ==> r == Success(LevelNumber(Lookup(t, name).value))
    ensures Lookup(t, name).None? && name in InheritedNames ==> r == Success(InheritedMember(name))
    ensures r.Failure? ==> r.error == NoLevelNumber(name)
  {
    match PropertyOf(t, name)
    case Some(v) => Success(v)
    case None => Failure(NoLevelNumber(name))
  }

  /**
   * `getLevelName(number)`: the first name whose value is strictly equal to
   * `number`, or a thrown error. Every declared value is a number, so an
   * inherited member never has a name.
   */
  function GetLevelName(t: LevelTable, number: LevelValue): (r: Result<string, LevelError>)
    ensures number.LevelNumber? ==> (r.Success? <==> FirstName(t, number.n).Some?)
    ensures r.Success? ==> number.LevelNumber? && FirstName(t, number.n) == Some(r.value)
    ensures r.Failure? ==> r.error == NoLevelName(number)
  {
    match number
    case InheritedMember(_) => Failure(NoLevelName(number))
    case LevelNumber(n) =>
      match FirstName(t, n)
      case Some(name) => Success(name)
      case None => Failure(NoLevelName(number))
  }

  /**
   * `getLevelInfo(level)`: a string is looked up forward and then back, so
   * an alias reports the first name declared for its number, and the
   * reverse step never fails once the forward one read a number; an
   * undeclared inherited name gets past the forward step and fails the
   * reverse one. A number is kept and only its name looked up; any other
   * value throws.
   */
  function GetLevelInfo(t: LevelTable, level: Value): (r: Result<LevelInfo, LevelError>)
    ensures level.Str? ==>
      (r.Success? <==> Lookup(t, level.s).Some?) &&
      (r.Success? ==> Lookup(t, level.s) == Some(r.value.levelNumber)
                      && FirstName(t, r.value.levelNumber) == Some(r.value.levelName)) &&
      (r.Failure? && level.s !in InheritedNames ==> r.error == NoLevelNumber(level.s)) &&
      (r.Failure? && level.s in InheritedNames ==> r.error == NoLevelName(InheritedMember(level.s)))
    ensures level.Num? ==>
      (r.Success? <==> FirstName(t, level.n).Some?) &&
      (r.Success? ==> r.value == LevelInfo(level.n, FirstName(t, level.n).value)) &&
      (r.Failure? ==> r.error == NoLevelName(LevelNumber(level.n)))
    ensures !level.Str? && !level.Num? ==> r == Failure(UnknownLevelType(level))
  {
    match level
    case Str(name) =>
      DeclaredNameHasFirstName(t, name);
      (match GetLevelNumber(t, name)
       case Failure(e) => Failure(e)
       case Success(v) =>
         match GetLevelName(t, v)
         case Failure(e) => Failure(e)
         case Success(canonical) => Success(LevelInfo(v.n, canonical)))
    case Num(n) =>
      (match GetLevelName(t, LevelNumber(n))
       case Failure(e) => Failure(e)
       case Success(name) => Success(LevelInfo(n, name)))
    case _ => Failure(UnknownLevelType(level))
  }

  /** A number read from an own key always has a name: at least its own key. */
  lemma DeclaredNameHasFirstName(t: LevelTable, name: string)
    ensures Lookup(t, name).Some? ==> FirstName(t, Lookup(t, name).value).Some?
  {
    LookupSpec(t, name);
    if Lookup(t, name).Some? {
      FirstNameSpec(t, Lookup(t, name).value);
    }
  }

  /**
   * What `getLevelInfo` reports, in terms of the table: a string resolves
   * exactly when it is declared, to a number declared with it and to the
   * first name declared with that number; a number resolves exactly when
   * some entry carries it, keeping the number.
   */
  lemma LevelInfoSpec(t: LevelTable, level: Value)
    ensures level.Str? ==>
      (GetLevelInfo(t, level).Success? <==> exists i :: 0 <= i < |t| && t[i].0 == level.s) &&
      (GetLevelInfo(t, level).Success? ==>
        var info := GetLevelInfo(t, level).value;
        (level.s, info.levelNumber) in t && IsFirstName(t, info.levelName, info.levelNumber))
    ensures level.Num? ==>
      (GetLevelInfo(t, level).Success? <==> exists i :: 0 <= i < |t| && t[i].1 == level.n) &&
      (GetLevelInfo(t, level).Success? ==>
        var info := GetLevelInfo(t, level).value;
        info.levelNumber == level.n && IsFirstName(t, info.levelName, level.n))
  {
    if level.Str? {
      LookupSpec(t, level.s);
      if GetLevelInfo(t, level).Success? {
        var info := GetLevelInfo(t, level).value;
        var i :| 0 <= i < |t| && t[i] == (level.s, info.levelNumber);
        assert t[i] in t;
        FirstNameSpec(t, info.levelNumber);
      }
    }
    if level.Num? {
      FirstNameSpec(t, level.n);
    }
  }

  lemma {:induction false} LookupFromShift(t: LevelTable, name: string, k: nat)
    requires 1 <= |t|
    ensures LookupFrom(t, name, k + 1) == LookupFrom(t[1..], name, k)
    decreases |t| - k
  {
    if k + 1 < |t| && t[k + 1].0 != name {
      LookupFromShift(t, name, k + 1);
    }
  }

  /** Looking a name up in a non-empty table checks the first entry, then the rest. */
  lemma LookupCons(t: LevelTable, name: string)
    requires 1 <= |t|
    ensures Lookup(t, name) == if t[0].0 == name then Some(t[0].1) else Lookup(t[1..], name)
  {
    LookupFromShift(t, name, 0);
  }

  /** In a table without repeated names, `Lookup` reports exactly the declared entries. */
  lemma LookupIn(t: LevelTable, name: string, n: int)
    requires WellFormed(t)
    ensures Lookup(t, name) == Some(n) <==> (name, n) in t
  {
    LookupSpec(t, name);
    if (name, n) in t {
      var j :| 0 <= j < |t| && t[j] == (name, n);
      var i :| 0 <= i < |t| && t[i] == (name, Lookup(t, name).value);
    }
  }

  /** In a table without repeated names, the entry at index `i` is what `Lookup` finds. */
  lemma LookupAt(t: LevelTable, i: nat)
    requires WellFormed(t) && i < |t|
    ensures Lookup(t, t[i].0) == Some(t[i].1)
  {
    LookupSpec(t, t[i].0);
    var k :| 0 <= k < |t| && t[k] == (t[i].0, Lookup(t, t[i].0).value);
  }

  /** In a table without repeated names, the first name of a number determines the entry. */
  lemma FirstNameUnique(t: LevelTable, name: string, n: int, m: int)
    requires WellFormed(t) && IsFirstName(t, name, n) && (name, m) in t
    ensures n == m
  {
  }

  /**
   * Resolving is idempotent: feeding the canonical name back in gives the
   * same level info again. So `warn` and `warning` log identically.
   */
  lemma CanonicalNameIsFixedPoint(t: LevelTable, level: Value)
    requires WellFormed(t)
    requires GetLevelInfo(t, level).Success?
    ensures var info := GetLevelInfo(t, level).value;
      GetLevelInfo(t, Str(info.levelName)) == Success(info)
  {
    var info := GetLevelInfo(t, level).value;
    FirstNameSpec(t, info.levelNumber);
    var i :| 0 <= i < |t| && t[i] == (info.levelName, info.levelNumber) && forall j :: 0 <= j < i ==> t[j].1 != info.levelNumber;
    LookupAt(t, i);
  }

  /** The reverse lookup inverts the forward one on canonical names. */
  lemma NameNumberRoundTrip(t: LevelTable, number: int)
    requires WellFormed(t)
    requires GetLevelName(t, LevelNumber(number)).Success?
    ensures GetLevelNumber(t, GetLevelName(t, LevelNumber(number)).value) == Success(LevelNumber(number))
  {
    var name := GetLevelName(t, LevelNumber(number)).value;
    FirstNameSpec(t, number);
    var i :| 0 <= i < |t| && t[i] == (name, number) && forall j :: 0 <= j < i ==> t[j].1 != number;
    LookupAt(t, i);
  }

  /**
   * An inherited name no entry declares gets past `getLevelNumber`, which
   * returns the inherited member, and `getLevelInfo` then throws the "no
   * level name" error for that member rather than the "no level number" one.
   */
  lemma InheritedNameHasNoName(t: LevelTable, name: string)
    requires name in InheritedNames && forall i :: 0 <= i < |t| ==> t[i].0 != name
    ensures GetLevelNumber(t, name) == Success(InheritedMember(name))
    ensures GetLevelInfo(t, Str(name)) == Failure(NoLevelName(InheritedMember(name)))
  {
    LookupSpec(t, name);
  }

  /** The default table declares no name twice. */
  lemma DefaultLevelsWellFormed()
    ensures WellFormed(DefaultLevels)
  {
  }

  /** Where the default table's aliases point, and the first names of the numbers they carry. */
  lemma DefaultLookups()
    ensures Lookup(DefaultLevels, "warn") == Some(4) && FirstName(DefaultLevels, 4) == Some("warning")
    ensures Lookup(DefaultLevels, "note") == Some(5) && FirstName(DefaultLevels, 5) == Some("notice")
    ensures Lookup(DefaultLevels, "default") == Some(6) && FirstName(DefaultLevels, 6) == Some("info")
    ensures Lookup(DefaultLevels, "emerg") == Some(0) && FirstName(DefaultLevels, 0) == Some("emergency")
    ensures Lookup(DefaultLevels, "crit") == Some(2) && FirstName(DefaultLevels, 2) == Some("critical")
    ensures Lookup(DefaultLevels, "err") == Some(3) && FirstName(DefaultLevels, 3) == Some("error")
    ensures FirstName(DefaultLevels, 7) == Some("debug") && FirstName(DefaultLevels, 1) == Some("alert")
  {
  }

  /** `this` is not a level name of the default table. */
  lemma DefaultLevelsLackThis()
    ensures Lookup(DefaultLevels, "this") == None
  {
    LookupSpec(DefaultLevels, "this");
    forall i | 0 <= i < |DefaultLevels|
      ensures DefaultLevels[i].0 != "this"
    {
      assert DefaultLevels[i].0[0] != 't';
    }
  }

  /**
   * The default table's canonical names and aliases: `warn` resolves to
   * warning, `note` to notice, `default` to info, `emerg` to emergency,
   * `crit` to critical and `err` to error; numbers are kept as given.
   */
  lemma DefaultAliases()
    ensures GetLevelInfo(DefaultLevels, Str("warn")) == Success(LevelInfo(4, "warning"))
    ensures GetLevelInfo(DefaultLevels, Str("note")) == Success(LevelInfo(5, "notice"))
    ensures GetLevelInfo(DefaultLevels, Str("default")) == Success(LevelInfo(6, "info"))
    ensures GetLevelInfo(DefaultLevels, Str("emerg")) == Success(LevelInfo(0, "emergency"))
    ensures GetLevelInfo(DefaultLevels, Str("crit")) == Success(LevelInfo(2, "critical"))
    ensures GetLevelInfo(DefaultLevels, Str("err")) == Success(LevelInfo(3, "error"))
    ensures GetLevelInfo(DefaultLevels, Num(7)) == Success(LevelInfo(7, "debug"))
    ensures GetLevelInfo(DefaultLevels, Num(1)) == Success(LevelInfo(1, "alert"))
  {
    DefaultLookups();
  }

  /** With the default table, `constructor` is read from the prototype and then has no name. */
  lemma DefaultLevelsConstructor()
    ensures GetLevelInfo(DefaultLevels, Str("constructor")) == Failure(NoLevelName(InheritedMember("constructor")))
  {
    forall i | 0 <= i < |DefaultLevels|
      ensures DefaultLevels[i].0 != "constructor"
    {
      assert DefaultLevels[i].0[0] != 'c' || DefaultLevels[i].0[1] != 'o';
    }
    InheritedNameHasNoName(DefaultLevels, "constructor");
  }
}
