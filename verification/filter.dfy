/**
 * The Filter transform of `transforms/filter.ts`: it keeps the log entries
 * whose level number is at most its `filterLevel` and turns every other one
 * into `null`, which `Transform.write` then forwards to nobody.
 */
module Filter {
  import opened Wrappers
  import opened LogEntries

  /** `filterLevel` before any option is applied: `6`, the `info` level of the default table. */
  const DefaultFilterLevel: int := 6

  /**
   * The constructor: an option that is given (neither `null` nor
   * `undefined`, both `None` here) replaces the default threshold.
   */
  function Construct(filterLevel: Option<int>): (level: int)
    ensures filterLevel.Some? ==> level == filterLevel.value
    ensures filterLevel.None? ==> level == DefaultFilterLevel
  {
    match filterLevel
    case Some(n) => n
    case None => DefaultFilterLevel
  }

  /** `format(entry)`: the very same entry, or `null` (`None`) when its level is above the threshold. */
  function Format(filterLevel: int, entry: LogEntry): (r: Option<LogEntry>)
    ensures r.Some? <==> entry.levelNumber <= filterLevel
    ensures r.Some? ==> r.value == entry
  {
    if entry.levelNumber <= filterLevel then Some(entry) else None
  }

  /** Raising the threshold never drops an entry that passed before. */
  lemma RaisingKeepsPassing(low: int, high: int, entry: LogEntry)
    requires low <= high && Format(low, entry).Some?
    ensures Format(high, entry) == Some(entry)
  {
  }

  /** Lowering the threshold never lets through an entry that was dropped before. */
  lemma LoweringKeepsDropped(low: int, high: int, entry: LogEntry)
    requires low <= high && Format(high, entry).None?
    ensures Format(low, entry).None?
  {
  }

  /**
   * A Filter built without the option keeps `info` (6) and more severe
   * entries and drops `debug` (7).
   */
  lemma DefaultThreshold(entry: LogEntry)
    ensures Format(Construct(None), entry).Some? <==> entry.levelNumber <= 6
    ensures entry.levelNumber == 7 ==> Format(Construct(None), entry).None?
  {
  }
}
