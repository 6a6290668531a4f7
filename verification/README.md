# caterpillar, modelled in Dafny

This project models the core of caterpillar, a logging library for
JavaScript. A Logger turns `log(level, ...args)` into a log entry and pipes
the entry through transforms: Filter, Human and Browser. The model follows
the repository's three generations of the code and keeps them apart:

- the CoffeeScript `index.js`, whose lookups return `null` and mark a
  fallback as `defaulted`;
- the stream classes of `logger.js`, `logger.ts` and `transform.js`, whose
  lookups throw and which pass configuration from parent to child;
- the stream-free `Transform` of `transform.ts`, with the transforms of
  `transforms/`.

Modules, one per file:

- `Wrappers` and `Values`: Option/Result, and the JavaScript values a
  logger tells apart.
- `JsText`: the string built-ins the code relies on, over `seq<char>`
  (`indexOf`, `split`, `trim`, `Number`, `String`).
- `Levels`: the throwing level lookups of `logger.ts` and `logger.js`.
- `CoffeeLevels`: the `null`-returning lookups and `format` of `index.js`.
- `FramePatterns` and `StackFrames`: `getLineInfo`. It takes the stack
  lines, the logger's own directory and `lineOffset` as inputs.
- `LogEntries`: `getLogEntry`, and the entry assembly inside `log`.
- `Config`: configuration objects and their deep merge.
- `StreamConfig`: configuration propagation in `transform.js`, `logger.js`
  and `logger.ts`. The `Streams` class keeps every stream's configuration
  and `config` listeners.
- `CoffeeTransform`: the same for `index.js`. The `CoffeeStreams` class
  re-emits a stream's whole configuration.
- `Filter`, `Human` and `Browser`: the three transforms.
- `Pipeline`: `transform.ts`.
  - The `Transforms` class holds every transform's pipes and writer chain.
  - A chain is a FIFO queue of pending stages. A chain rejected by an
    exception runs no further stage.
  - Specification functions (`WriteTo`, `DrainSpec`, `Stages`, `Stage`,
    `CloseLog`) say what each method does. The lemmas state ordering,
    filtering, rejection and closing in terms of those functions.

Notes on the code:

- The sentinel line information is `{line: -1, method: 'unknown', file:
  'unknown'}`, with no `char` field. The Human transform therefore prints
  `undefined` where the character position would go.
- `logger.js` and `index.js` keep the line number as the text of the
  second `:`-part. Only `logger.ts` converts it with `Number`.
- A level name no table declares but every object inherits, such as
  `constructor`, is read from `Object.prototype`. `logger.ts` and
  `logger.js` then throw "no level name" for it, and `index.js` consumes
  it without defaulting, so the entry has no level name.
- A `lineOffset` given as text is converted by `--offset`, so `"2"` skips
  two frames while `"0"` never reaches zero.
- The arrow the Human transform prints is the three characters U+00E2
  U+2020 U+2019 (`â†’`), exactly as `human.ts` stores it.

## Model

| member | source | states |
|---|---|---|
| `Values.TypeOf` | source/logger.ts:190-198 | `typeof` gives "string" exactly for strings and "number" exactly for numbers, which is how `getLevelInfo` branches |
| `Values.PropertyKey` | source/index.js:62 | the key `levels[name]` reads is the value's string conversion: a string is its own key, a number its decimal digits, `null` and `undefined` their names, a plain object `[object Object]`, an array its elements joined with commas |
| `Values.ArrayKey` | source/index.js:62 | an array of one element reads the key of that element, so `levels[['warn']]` is `levels.warn`; an empty array, or one holding only `null` or `undefined`, is the empty key |
| `JsText.IndexOf` | source/logger.ts:265 | `indexOf` is -1 exactly when the needle does not occur; otherwise it is the first position where it occurs |
| `JsText.Split` | source/logger.ts:274 | `split(':')` gives at least one piece, no piece contains the separator, and joining the pieces with it gives back the text |
| `JsText.SplitJoin` | source/transforms/human.ts:104 | splitting what `Join` built gives back the pieces, when none contains the separator |
| `JsText.TrimStartAtSpec` | source/transforms/browser.ts:140 | `trim` skips exactly the leading white space |
| `JsText.TrimEndAtSpec` | source/transforms/browser.ts:140 | `trim` skips exactly the trailing white space |
| `JsText.TrimSpec` | source/transforms/browser.ts:140 | `trim` removes only white space, and leaves an infix that neither starts nor ends with white space |
| `JsText.TrimKeepsTrimmed` | source/transforms/browser.ts:140 | text that does not start or end with white space comes back from `trim` unchanged |
| `JsText.IntToString` | source/transforms/human.ts:69 | `String(n)` is the decimal digits of the integer, with a minus sign for a negative one |
| `JsText.ToNumber` | source/logger.ts:285 | `Number(text)`, with white space around it ignored, is an integer exactly when the text is a decimal literal (sign, digits, optional `.` and fraction, optional exponent) whose value is an integer, and then it is that value; the empty string is 0; anything else is kept as text |
| `JsText.DecimalInteger` | source/logger.ts:285 | a decimal literal's value is an integer exactly when the scaled mantissa divides out, and the result is that integer |
| `JsText.UnscaleSpec` | source/logger.ts:285 | dividing out `k` factors of ten succeeds exactly when the number is some integer times ten to the `k` |
| `JsText.NumberOfZeroFraction` | source/logger.ts:285 | `Number("-1.0")` is the integer -1 |
| `JsText.NumberOfFraction` | source/logger.ts:285 | `Number("1.5")` is not an integer |
| `JsText.NumberOfExponentForm` | source/logger.ts:285 | `Number("<n>e<k>")` is `n` times ten to the `k`, for all `n` and `k` |
| `JsText.NumberOfIntString` | source/logger.ts:285 | `Number(String(n)) == n` for every integer |
| `Levels.LookupSpec` | source/logger.ts:161-168 | an own key `name` is found exactly when some entry declares it, and then it holds a number declared with that name |
| `Levels.PropertyOf` | source/logger.ts:142-149 | `levels[name]` reads an own key first; otherwise an inherited `Object.prototype` member such as `constructor`; otherwise `undefined` |
| `Levels.PropertyOfSpec` | source/logger.ts:144 | `levels[name] == null` exactly when the name is neither declared nor inherited; a number read is declared with that name; an inherited member is read only for an undeclared name |
| `Levels.FirstNameSpec` | source/logger.ts:157-172 | the reverse lookup fails exactly when no entry carries the number; otherwise it is the earliest such entry in key order |
| `Levels.FindLevelName` | source/logger.ts:161-168 | the `for...in` loop returns the first own key whose value is strictly equal to the number, or nothing |
| `Levels.GetLevelNumber` | source/logger.ts:142-149 | returns the stored number when the name is declared, the inherited member when the name is inherited and undeclared, and the "no level number" error exactly when neither |
| `Levels.GetLevelName` | source/logger.ts:157-172 | returns the first name declared for the number, and the "no level name" error when there is none; an inherited member never has a name |
| `Levels.GetLevelInfo` | source/logger.ts:189-199 | a string resolves forward and then back to the first-declared name, and fails with "no level number", or with "no level name" for an undeclared inherited name; a number keeps its value and is only named; any other type throws |
| `Levels.DeclaredNameHasFirstName` | source/logger.ts:191-192 | once `getLevelNumber` reads a declared number, `getLevelName` finds a name for it |
| `Levels.LevelInfoSpec` | source/logger.ts:189-199 | `getLevelInfo` succeeds exactly when the name or number is declared; the result carries the declared number and its first name |
| `Levels.LookupIn` | source/logger.js:88-96 | in a table without repeated names, `levels[name]` is `n` exactly when the entry `(name, n)` is declared |
| `Levels.FirstNameUnique` | source/logger.js:98-113 | in a table without repeated names, a name that is the first for a number is declared with exactly that number |
| `Levels.CanonicalNameIsFixedPoint` | source/logger.js:115-128 | resolving the canonical name again gives the same level info, so an alias and its canonical name log alike |
| `Levels.NameNumberRoundTrip` | source/logger.js:115-120 | looking up the canonical name of a number gives the number back |
| `Levels.DefaultLevelsWellFormed` | source/logger.js:22-42 | the default table declares no name twice |
| `Levels.DefaultLookups` | source/logger.js:22-42 | what each name of the default table, aliases included, looks up to |
| `Levels.DefaultLevelsLackThis` | source/logger.js:22-42 | `this` is not a level name of the default table |
| `Levels.InheritedNameHasNoName` | source/logger.ts:189-192 | an undeclared inherited name passes `getLevelNumber`, which returns the member, and `getLevelInfo` then throws "no level name" for it |
| `Levels.DefaultLevelsConstructor` | source/logger.ts:189-192 | with the default table, `getLevelInfo('constructor')` throws "no level name" for the inherited member |
| `Levels.DefaultAliases` | source/logger.js:22-42 | `warn` resolves to warning, `note` to notice, `default` to info (6), `emerg`, `crit` and `err` to their canonical names; numbers are kept |
| `CoffeeLevels.GetLevelNumber` | source/index.js:61-62 | `levels[name] ? null`: the number declared under the name's property key, else the inherited member of that name, else `null` exactly when neither exists |
| `CoffeeLevels.GetLevelName` | source/index.js:64-71 | the first own key whose value `is` the number, or `null`; always `null` for `null` or an inherited member |
| `CoffeeLevels.GetLevelInfo` | source/index.js:73-98 | a number is kept and named; anything else is looked up by key, and only a key under which nothing is read falls back to `default`, marked `defaulted` |
| `CoffeeLevels.DeclaredNumberIsNamed` | source/index.js:85-87 | a number read from the table always has a name |
| `CoffeeLevels.UnknownNameIsDefaulted` | source/index.js:84-91 | an undeclared string level takes the `default` number and its first name, and is marked defaulted; an undeclared inherited name is kept as the member, with a `null` name, and not defaulted |
| `CoffeeLevels.UnknownNumberIsKept` | source/index.js:81-83 | an unknown number is not defaulted: the number stays and its name is `null` |
| `CoffeeLevels.AgreesWithThrowingLookup` | source/index.js:73-98 | where the throwing lookup succeeds this one reports the same level, not defaulted; where it fails, this one defaults a string other than an inherited name, keeps an inherited name with a `null` name, and keeps a number with a `null` name |
| `CoffeeLevels.Format` | source/index.js:161-179 | the level goes back in front of the arguments only when it was defaulted and is not the string `default`; the entry has no `defaulted` field |
| `CoffeeLevels.LogEntry` | source/index.js:181-183 | `log` formats with the logger's levels and reads the frame with its line offset, keeping the line as text |
| `CoffeeLevels.DefaultNameIsAlwaysConsumed` | source/index.js:171 | a first argument `default` is never put back, even when the table has no `default` key |
| `CoffeeLevels.InheritedNameIsDropped` | source/index.js:161-179 | a first argument naming an undeclared inherited member is consumed without being defaulted, and the entry has no level name |
| `CoffeeLevels.DefaultLevelsFormat` | source/index.js:38-56 | with the default levels, an unknown first argument stays in the arguments of an `info` entry; a known one, or an array holding only it, is consumed |
| `FramePatterns.StripThroughAtSpec` | source/logger.ts:278 | `replace(/^.+?\s+at\s+/, '')` removes the shortest prefix that ends in white space, `at` and white space, or nothing |
| `FramePatterns.StripThroughAtFrame` | source/logger.ts:281 | the indentation and `at` of a frame are removed and what follows is kept |
| `FramePatterns.CutParenTailSpec` | source/logger.ts:282 | `replace(/\s+\(.+$/, '')` keeps exactly the text before the leftmost match, or all of it when there is none |
| `FramePatterns.CutParenTailFrame` | source/logger.ts:282 | in `m (f` the cut leaves the method name `m` |
| `FramePatterns.StripThroughParenSpec` | source/logger.ts:283 | `replace(/^.+?\(/, '')` removes through the first eligible `(`, or nothing |
| `FramePatterns.StripThroughParenFrame` | source/logger.ts:283 | in `a(f` the replacement leaves the file `f` |
| `StackFrames.LineField` | source/logger.ts:285 | the line is `Number` of the second part in `logger.ts`, and that part's raw text in `logger.js` and `index.js` |
| `StackFrames.GetLineInfo` | source/logger.ts:217-297 | the loop over the stack lines returns exactly what the reference scan `LineInfoOf` defines |
| `StackFrames.Candidates` | source/logger.ts:265-267 | the lines looked at are exactly those outside the logger's directory that contain ` at `, in stack order |
| `StackFrames.SkipsOffsetCandidates` | source/logger.ts:269-272 | the first `lineOffset` candidate frames are skipped, whether or not they parse, and the first of the rest that parses is the result |
| `StackFrames.NegativeOffsetFindsNothing` | source/logger.ts:269-272 | a negative offset never counts down to zero, so the result is the sentinel |
| `StackFrames.NoFrameGivesUnknown` | source/logger.ts:220-224 | with no candidate of at least two `:`-parts the result is line -1, method and file `unknown` |
| `StackFrames.ParseMethodFrame` | source/logger.ts:279-286 | `ParseFrame` reads a frame `at m (f:l:c)` gives method `m`, file `f` and the line read from `l` |
| `StackFrames.ParseAnonymousFrame` | source/logger.ts:276-278 | `ParseFrame` reads a frame `at f:l:c` gives method `unknown`, file `f` and the line read from `l` |
| `StackFrames.NumberLineReadsBack` | source/logger.ts:285 | a printed line number is read back as that number |
| `StackFrames.ZeroFractionLineIsMinusOne` | source/logger.ts:285 | a line field `-1.0` reads as -1, the value that means "no position" |
| `LogEntries.GetLogEntry` | source/logger.ts:304-319 | the method returns `EntryOf`, whose entry is the shifted level's info with the remaining arguments, or the `default` level's info with the arguments unchanged, or the lookup's error |
| `LogEntries.ArgumentsKept` | source/logger.ts:308-316 | no argument is lost: a resolved level is the only thing removed |
| `LogEntries.ResolvedLevelIsRemoved` | source/logger.ts:308-311 | a first argument naming a declared level is removed, and the entry carries its number and first name |
| `LogEntries.UnresolvedLevelIsKept` | source/logger.ts:312-316 | a first argument that is not a level stays in the arguments, and the entry takes the `default` level |
| `LogEntries.MissingDefaultPropagates` | source/logger.ts:314 | without a `default` level an unresolved first argument makes `getLogEntry` throw |
| `LogEntries.OtherTypesFallBack` | source/logger.js:125-127 | a value that is neither a string nor a number, or no argument at all, falls back to the default level |
| `LogEntries.DefaultLevelsEntries` | source/logger.js:216-225 | with the default levels `log('note', msg)` is a notice carrying only `msg`, and an unknown first argument gives an `info` entry that keeps it |
| `Config.SetLevelSpec` | source/logger.js:60 | assigning `levels[name] = n` sets that name, keeps every other name, and repeats no name |
| `Config.MergeLevelsKeepsOrder` | source/logger.js:60 | the names of the earlier levels object keep their places at the front |
| `Config.MergeLevelsSpec` | source/logger.js:60 | later wins inside `levels`: a name of the later object takes its number, any other keeps the earlier one's |
| `Config.Merge` | source/transform.js:78 | the merge has exactly the keys of both configurations |
| `Config.MergeAllOne` | source/transform.js:78 | `deep(c, p)` with one partial is the two-way merge |
| `Config.MergeIntoEmpty` | source/transform.js:64-67 | merging into `{}` gives back exactly what was merged in |
| `Config.MergeNothing` | source/transform.js:77-81 | `setConfig()` with no partials changes nothing |
| `Config.MergeSettingSpec` | source/transform.js:78 | the merged setting states everything the later one states |
| `Config.MergeLaterWins` | source/transform.js:71-81 | the merge states everything the later configuration states, and keeps every other key of the earlier one |
| `Config.MergeKeepsAgreement` | source/logger.js:65-73 | merging the same configuration into two agreeing ones keeps them agreeing |
| `Config.MergeAllKeepsAgreement` | source/logger.js:65-73 | the same partials merged into two agreeing configurations keep them agreeing |
| `Config.ChildFollowsParent` | source/transform.js:91-94 | a child handed the parent's configuration and then every later partial states everything the parent states |
| `Config.ReceivesPartials` | source/transform.js:77-81 | after `setConfig(...ps)` the configuration states everything `ps` states |
| `Config.AgreesTransitive` | source/logger.js:65-73 | agreement chains through a middle configuration |
| `Config.MergeAllAppend` | source/transform.js:77-81 | `setConfig(...xs, ...ys)` merges like `setConfig(...xs)` followed by `setConfig(...ys)` |
| `Config.TwoPartialsMerge` | source/transform.js:71-73 | `setConfig({a: 1}, {b: 2})` on an empty configuration gives `{a: 1, b: 2}` |
| `Config.LevelsOf` | source/logger.js:89 | `getConfig().levels` is the configured levels object, or one with no names |
| `Config.LineOffsetOf` | source/logger.ts:269-271 | `getConfig().lineOffset` counted down by `--offset`: a number is used as it is; a text that `Number` reads as a positive integer counts like that integer; `"0"`, other texts and other values are never `0` |
| `Config.TextLineOffset` | source/logger.js:184-185 | `lineOffset: "2"` skips two frames like the number 2, while `lineOffset: "0"` never reaches zero |
| `Config.DefaultConfigSpec` | source/logger.js:22-42 | the default configuration has line offset 0 and the default levels |
| `StreamConfig.Deliver` | source/transform.js:77-81 | delivering `setConfig(...ps)` from a stream changes no stream outside the known ones |
| `StreamConfig.DeliverMergesHere` | source/transform.js:78 | the stream itself ends up with the partials merged into what it held |
| `StreamConfig.DeliverToSilent` | source/transform.js:77-81 | a stream nobody listens to is the only one `setConfig` changes |
| `StreamConfig.DeliverUnchanged` | source/transform.js:79 | streams that are not downstream of the one set are left alone |
| `StreamConfig.ClosedChildIsUntouched` | source/transform.js:95 | once a child has closed, configuration set anywhere else no longer reaches it |
| `StreamConfig.DeliverKeepsAgreement` | source/transform.js:79 | a stream that already stated everything the partials state still does afterwards |
| `StreamConfig.DeliverReachesHere` | source/transform.js:78 | after `setConfig(...ps)` the stream states everything `ps` states |
| `StreamConfig.DeliverReachesListeners` | source/transform.js:93-94 | every listener of the stream also states everything `ps` states, so a later `setConfig` reaches a piped child |
| `StreamConfig.Unsubscribe` | source/transform.js:93-95 | every listener the closed child registered (one per `pipe`) leaves the list; every other listener stays as often as before; a list without the child is unchanged |
| `StreamConfig.UnsubscribeAppend` | source/transform.js:95 | removal works entry by entry, so the listeners that stay keep their order |
| `StreamConfig.TransformOutput` | source/transform.js:111-118 | only a truthy `format` result is stringified; a falsy one is passed on as it is |
| `StreamConfig.DefaultsFirst` | source/logger.js:78-86 | `new Logger(config)` merges the default configuration first and the user's second |
| `StreamConfig.Streams.Fresh` | source/transform.js:30-35 | a new stream holds the given configuration and has no listeners |
| `StreamConfig.Streams.SetConfig` | source/transform.js:77-81 | the new configurations are exactly `Deliver`: the stream merges the partials and emits the same partials to its listeners |
| `StreamConfig.Streams.Emit` | source/logger.ts:113 | every listener, in the order it subscribed, runs its own `setConfig` with the partials |
| `StreamConfig.Streams.GetConfig` | source/transform.js:64-67 | returns the stream's configuration, `{}` until one is set |
| `StreamConfig.Streams.NewTransform` | source/transform.js:30-35 | `setConfig` runs only when a configuration is given; otherwise the stream holds `{}` |
| `StreamConfig.Streams.NewJsLogger` | source/logger.js:78-86 | the logger holds the defaults merged with the user's configuration, so user keys win |
| `StreamConfig.Streams.NewTsLogger` | source/logger.ts:48-59 | the logger holds the initial configuration with every argument merged in |
| `StreamConfig.Streams.Pipe` | source/transform.js:89-98 | the child merges the parent's current configuration, is subscribed last, and is returned; afterwards it agrees with its parent |
| `StreamConfig.Streams.Close` | source/transform.js:95 | every stream's listener list becomes `Unsubscribe` of its old list, so the closed child is removed everywhere, the rest keep count and order, and nothing else changes |
| `StreamConfig.Streams.GetLogEntry` | source/logger.ts:304-319 | the entry is built with the logger's own levels and line offset |
| `CoffeeTransform.Broadcast` | source/index.js:19-22 | `setConfig(opts)` changes no stream outside the known ones |
| `CoffeeTransform.BroadcastUnchanged` | source/index.js:21 | streams that are not downstream of the one set are left alone |
| `CoffeeTransform.BroadcastMergesHere` | source/index.js:20 | the stream ends up with `opts` deep-extended into its configuration |
| `CoffeeTransform.BroadcastToSilent` | source/index.js:19-22 | a stream nobody listens to is the only one changed |
| `CoffeeTransform.BroadcastKeepsAgreement` | source/index.js:21 | spreading a configuration never breaks a stream's agreement with it |
| `CoffeeTransform.BroadcastReachesListeners` | source/index.js:16 | after `setConfig` every listener states everything the parent now states: the merged configuration is emitted |
| `CoffeeTransform.CoffeeStreams.Fresh` | source/index.js:10-13 | each instance starts from its own copy of the class configuration |
| `CoffeeTransform.CoffeeStreams.SetConfig` | source/index.js:19-22 | the new configurations are exactly `Broadcast`: the stream merges `opts` and emits its whole configuration |
| `CoffeeTransform.CoffeeStreams.Emit` | source/index.js:21 | every listener, in the order it subscribed, runs `setConfig` with the emitted configuration |
| `CoffeeTransform.CoffeeStreams.GetConfig` | source/index.js:24-25 | returns the stream's configuration |
| `CoffeeTransform.CoffeeStreams.NewLogger` | source/index.js:37-56 | a Logger holds the default configuration with the options merged in |
| `CoffeeTransform.CoffeeStreams.NewTransform` | source/index.js:10-12 | a Transform holds the options, merged into an empty configuration |
| `CoffeeTransform.CoffeeStreams.Pipe` | source/index.js:15-17 | the child merges the parent's configuration and listens to it for good; afterwards it agrees with its parent |
| `Filter.Construct` | source/transforms/filter.ts:31-39 | `filterLevel` is the option when one is given, and 6 otherwise |
| `Filter.Format` | source/transforms/filter.ts:42-44 | the very same entry exactly when its level number is at most `filterLevel`, and `null` otherwise |
| `Filter.RaisingKeepsPassing` | source/transforms/filter.ts:43 | raising `filterLevel` never drops an entry that passed before |
| `Filter.LoweringKeepsDropped` | source/transforms/filter.ts:43 | lowering `filterLevel` never lets through an entry that was dropped before |
| `Filter.DefaultThreshold` | source/transforms/filter.ts:28-31 | without the option, info (6) and more severe entries pass and debug (7) is dropped |
| `Human.Construct` | source/transforms/human.ts:58-64 | `color` and `colors` are replaced only by options that are given |
| `Human.GetColor` | source/transforms/human.ts:67-73 | the colour stored under the level number's key, or `false` for a missing or empty one |
| `Human.DefaultColorsByLevel` | source/transforms/human.ts:46-55 | by default 0 to 3 are red, 4 and 5 yellow, 6 and 7 green, and any other number has no colour |
| `Human.PadLeft` | source/transforms/human.ts:76-90 | the loop prepends the padding once per missing character, giving `PadLeftOf` |
| `Human.PadLeftLongEnough` | source/transforms/human.ts:82 | content at least `size` long comes back unchanged |
| `Human.PadLeftOneChar` | source/transforms/human.ts:82-86 | with a one-character padding, shorter content comes back exactly `size` long, padded in front and ending with the content |
| `Human.ArgumentTexts` | source/transforms/human.ts:94-103 | one text per argument, in order: a string as it is, anything else through `inspect` |
| `Human.FormatArguments` | source/transforms/human.ts:93-105 | no arguments give the empty text |
| `Human.StringArgumentsKept` | source/transforms/human.ts:93-105 | string arguments are kept unchanged and joined with single spaces: splitting on spaces gives them back |
| `Human.Format` | source/transforms/human.ts:127-172 | empty argument text gives the empty text; otherwise the result starts with the level string (`LevelString`) and a space, and ends with a newline; `PlainWithLine` spells out the position line `DebugString` builds |
| `Human.PlainWithoutLine` | source/transforms/human.ts:141-165 | without colour and with line -1 the result is exactly `levelName: text` and a newline |
| `Human.PlainWithLine` | source/transforms/human.ts:153-161 | with a line, an indented line follows: the arrow as stored (`â†’`), the time, `file:line:undefined` and the method |
| `Human.PlainMessageReadsBack` | source/transforms/human.ts:148-164 | the message can be read back from a colourless one-line result |
| `Human.NoArgumentsNoText` | source/transforms/human.ts:166-168 | an entry without arguments formats to the empty text |
| `Browser.Construct` | source/transforms/browser.ts:85-92 | `color`, `output` and `styles` are replaced only by options that are given |
| `Browser.DigitsEndSpec` | source/transforms/browser.ts:106 | `[0-9]+` reads the longest run of digits: everything it takes is a digit and it stops at the end or before a non-digit |
| `Browser.CodeAtText` | source/transforms/browser.ts:106 | an escape code found at a position is the escape, `[`, one or more digits and `m`, and nothing else |
| `Browser.CodeTextAt` | source/transforms/browser.ts:106 | conversely, an escape code written at a position is found there, with exactly its digits |
| `Browser.MatchAtSpec` | source/transforms/browser.ts:105-107 | a match that `MatchAt` finds at a position is an escape code, non-empty content without a line terminator, and the next escape code |
| `Browser.MatchAtShortest` | source/transforms/browser.ts:106 | the lazy `(.+?)` takes the shortest content: no earlier end of it is followed by an escape code |
| `Browser.ContentEndSpec` | source/transforms/browser.ts:106 | the lazy `(.+?)` ends at the first place where an escape code follows |
| `Browser.SegmentFound` | source/transforms/browser.ts:105-107 | text that starts with an escape code, content without escapes or line terminators and another escape code is matched at its start with exactly those parts |
| `Browser.Matches` | source/transforms/browser.ts:105-107 | the match table holds, for every position, the match of the pattern there, and every match ends after its start and within the text |
| `Browser.PiecesCover` | source/transforms/browser.ts:105-137 | the global scan splits the message into matched segments and single characters that, put back together, are the message itself |
| `Browser.PlainTextKept` | source/transforms/browser.ts:105-107 | where no match starts, the scan keeps each character as a piece of its own, in order |
| `Browser.SegmentPieces` | source/transforms/browser.ts:105-107 | a message that is one segment followed by text without escapes is scanned as that segment and then the text character by character |
| `Browser.StyleFromFirst` | source/transforms/browser.ts:115-126 | the style found is the first one, in the declaration order of `styles`, whose `start` and `end` equal the captured codes; none is found exactly when no style fits |
| `Browser.FindStyle` | source/transforms/browser.ts:115-126 | the loop with `break` returns the same style as `StyleFor` |
| `Browser.Replace` | source/transforms/browser.ts:107-136 | with colour off, or with no matching style, the segment becomes its content with no arguments; a matched one becomes `%c%s%c` with the style value, the content and the reset |
| `Browser.ReplaceSegment` | source/transforms/browser.ts:107-136 | the replacement function, calling the style loop, gives `Replace` |
| `Browser.RewriteAppend` | source/transforms/browser.ts:105-137 | rewriting two runs of pieces one after the other gives the two texts joined and the two argument lists joined |
| `Browser.PlainPiecesKept` | source/transforms/browser.ts:105-137 | characters outside any match are copied to the result as they are and push no argument |
| `Browser.RewriteMessage` | source/transforms/browser.ts:104-137 | the rewriting loop gives the text and the arguments of `Rewrite`, left to right |
| `Browser.Format` | source/transforms/browser.ts:98-148 | the parts (`Parts`) are the trimmed rewritten message followed by the collected style arguments |
| `Browser.ArgumentsPerSegment` | source/transforms/browser.ts:132-135 | the arguments come in threes, one per styled segment: a value from `styles`, the content, and the reset |
| `Browser.PartsCount` | source/transforms/browser.ts:140 | the number of parts is 1 plus 3 times the number of styled segments, and the parts after the first come in such threes |
| `Browser.ColorOffNoArguments` | source/transforms/browser.ts:109 | with `color` false no arguments are produced and no segment counts as styled |
| `Browser.StyledSegmentParts` | source/transforms/browser.ts:128-140 | a segment with a matching style, followed by text without escapes, gives `%c%s%c` and that text trimmed, then the style value, the content and the reset |
| `Browser.UnknownCodesGiveContent` | source/transforms/browser.ts:109-129 | with colour off, or when no style matches its codes, a leading segment is replaced by its content and nothing is pushed |
| `Browser.NoEscapesNoArguments` | source/transforms/browser.ts:140 | a message without escape characters gives its trimmed self and nothing else |
| `Browser.OutputDoesNotChangeRewrite` | source/transforms/browser.ts:107-136 | the replacement does not read `output` |
| `Browser.OutputDoesNotChangeParts` | source/transforms/browser.ts:144-147 | the parts do not depend on `output` |
| `Browser.RedLevelName` | source/transforms/browser.ts:132-140 | a red level name as Human colours it becomes `%c%s%c` with `color:red`, the name and the reset |
| `Pipeline.Format` | source/transform.ts:33-35 | the base `format` is the identity; Filter throws only on `null`/`undefined`; Human needs an entry and Browser a string |
| `Pipeline.Serialise` | source/transform.ts:60 | a sink gets a string as it is and anything else as `JSON.stringify` of it |
| `Pipeline.Echo` | source/transforms/browser.ts:144 | console output happens exactly for a Browser with `output` set that is given a string |
| `Pipeline.WriteTo` | source/transform.ts:47-51 | `format` runs at once; an exception changes nothing; the queue gains an entry only for a non-null result |
| `Pipeline.DrainSpec` | source/transform.ts:53-70 | running a chain never un-rejects a chain and never removes an event from the log |
| `Pipeline.Stages` | source/transform.ts:53 | stages only add rejections and events |
| `Pipeline.Stage` | source/transform.ts:55-69 | a stage only adds rejections and events |
| `Pipeline.CloseLog` | source/transform.ts:75-89 | closing only adds events to the log |
| `Pipeline.FilterDropsAbove` | source/transforms/filter.ts:43 | an entry above the threshold queues nothing and changes nothing, so no pipe receives it |
| `Pipeline.FilterQueuesPassing` | source/transforms/filter.ts:42-44 | an entry at or below the threshold is queued as the very same entry |
| `Pipeline.BrowserOutputOnlyEchoes` | source/transforms/browser.ts:144-147 | the console is written only when `output` is set, and the queued parts are the same either way |
| `Pipeline.StageToSinks` | source/transform.ts:55-69 | with sinks only, a stage hands each pipe, in pipe order, the serialised value |
| `Pipeline.StagesToSinks` | source/transform.ts:53-70 | with sinks only, the stages hand over the values one after the other |
| `Pipeline.SinksSeeCallOrder` | source/transform.ts:53-71 | draining hands every pending value, in call order, to every sink in pipe order, and empties the queue |
| `Pipeline.OneSinkInOrder` | source/transform.ts:53-71 | a single sink receives exactly the queued values, in queue order |
| `Pipeline.StagesAppend` | source/transform.ts:53 | the chain is first in, first out: the stages of `q1 + q2` are those of `q1` followed by those of `q2` |
| `Pipeline.RejectedDeliversNothing` | source/transform.ts:53 | a rejected chain runs no stage, so its pending values reach nobody |
| `Pipeline.ThrowingChildStopsChain` | source/transform.ts:56-58 | a child whose `format` throws rejects the parent's chain; neither that value nor any later one is delivered |
| `Pipeline.TransformChildGetsValue` | source/transform.ts:56-58 | a transform child is written the value itself, and its sinks receive the child's own format of it |
| `Pipeline.LatePipeReceives` | source/transform.ts:55 | pipes are read when the stage runs, so a sink piped after `write` still receives the value, after the earlier sinks |
| `Pipeline.DeliveriesAppend` | source/transform.ts:55 | one more sink receives its copy after all the others |
| `Pipeline.CloseSinks` | source/transform.ts:75-89 | closing sinks calls `close` where there is one, otherwise `end`, otherwise nothing, in pipe order; with no pipes nothing happens |
| `Pipeline.Transforms.Create` | source/transform.ts:27 | a new transform has no pipes and an empty writer chain |
| `Pipeline.Transforms.Pipe` | source/transform.ts:38-41 | `to` is appended to the pipes and returned, so `a.pipe(b).pipe(c)` builds a to b to c |
| `Pipeline.Transforms.FormatOf` | source/transforms/browser.ts:98-148 | the formatting step, with the Browser's own loops, gives `Format` |
| `Pipeline.Transforms.Write` | source/transform.ts:47-72 | the new state and the outcome are exactly `WriteTo` |
| `Pipeline.Transforms.Drain` | source/transform.ts:53-71 | emptying the queue and running its stages, unless the chain was rejected, gives `DrainSpec` |
| `Pipeline.Transforms.RunStages` | source/transform.ts:53-70 | the loop over pending stages, stopping at a rejection, gives `Stages` |
| `Pipeline.Transforms.RunStage` | source/transform.ts:55-69 | the loop over the pipes gives `Stage` |
| `Pipeline.Transforms.DeliverTo` | source/transform.ts:56-67 | one pipe's delivery is one step of `Stage`, and stops it exactly when the chain is rejected |
| `Pipeline.Transforms.Close` | source/transform.ts:75-89 | the log gains exactly `CloseLog` and nothing else changes |
| `Pipeline.Transforms.End` | source/transform.ts:92-95 | `close`, followed by the callback when one is given |

## Left out

- The deep merge of `extendr` is not part of this model. The merge is
  "later wins" key by key. The `levels` object is merged name by name.
  Other nested objects are replaced whole, which is an assumption about
  `deep`.
- Objects are named by number, inside one class per family of streams.
  Two names for one stream (aliasing) are not modelled.
- `JSON.stringify`, `JSON.parse`, `TextEncoder` and `util.inspect` are
  abstract. A chunk for a sink is the string, or the value it would
  serialise.
- The `@bevry/ansi` appliers, `formatDate` and the clock are parameters of
  Human (`Renderers`). So is the date of a log entry.
- Capturing a stack is left out: the stack lines are an input.
- `JsText.ToNumber`: numbers are integers. `Number` is evaluated for
  decimal literals (sign, digits, fraction, exponent). A literal whose
  value is not an integer, hexadecimal, octal and binary literals,
  `Infinity`, and any other text are kept as text and not evaluated.
  Double precision, rounding and overflow are not modelled.
- `StackFrames.LineField`: a line field is read by `JsText.ToNumber`, so a
  hexadecimal field such as `0x1` stays text where `Number` would give 1.
  Stack frames print their line numbers in decimal.
- The key order of JavaScript objects puts integer-like keys first. The
  level tables and the Browser `styles` object are kept in declaration
  order instead; the default table has no integer-like names.
- `Browser.StyleFromFirst`: "first" is in declaration order, so a
  `styles` object with an integer-like key such as `"1"` is not visited in
  the order `for...in` uses.
- `Config.LineOffsetOf`: a hexadecimal, octal or binary text such as
  `"0x2"`, which `Number` reads as a positive integer, is treated like
  any other non-integer text and never reaches zero. Decimal texts such
  as `"2.0"` or `"1e1"` are read.
- `Config.LineOffsetOf`: a boolean or `null` setting is not represented,
  so `lineOffset: true`, which `--offset` turns into 1, is not modelled.
- An own level key `__proto__`, which an assignment cannot create, is
  treated as an ordinary key.
- Piping must not close a cycle. Every stream has a rank, and a stream can
  only pipe into one of lower rank. The source has no such guard; a cycle
  there would not terminate.
- Sinks are ids, and what they receive is a log of events. Node stream
  internals such as buffering, back-pressure and `'data'` events are left
  out.
- `Promise.all` in `close`, and the interleaving of separate writer chains
  in the microtask queue, are not modelled.
  - Chains run only when `Drain` is called.
  - A transform child's chain runs to completion before the parent's next
    pipe.
- The base Transform of `index.js` has a `null` configuration. It is
  modelled as `{}`.
- `rfc-log-levels`, the initial table of `logger.ts`, is not part of this
  model. The default table of `logger.js` is used for it.
- `Logger._transform` of `index.js` passes chunks through unchanged, and
  the model has nothing to add to that. `log` writing the entry and
  emitting `'log'` are left out.
- An arbitrary object written to Filter, Human or Browser is not modelled.
  - Filter compares a value other than an entry as `undefined` and drops it.
  - Human and Browser throw on it.
- `Human.PadLeft` and `Human.PadLeftOf`: lengths are counted in characters (Unicode scalar
  values), where JavaScript counts UTF-16 code units. They differ only for
  characters outside the Basic Multilingual Plane; `padLeft` is only
  called on the digits of dates.
- `Human.PadLeftLongEnough`: "at least `size` long" counts characters,
  not UTF-16 code units, as for `Human.PadLeft`.
- `Human.PadLeftOneChar`: a "one-character" padding is one scalar value,
  not one UTF-16 code unit, as for `Human.PadLeft`.
- `Pipeline.Stage`: writing to a sink (`write`) and closing one (`end`)
  never throw or reject. `Pipeline.CloseLog`, `Pipeline.Transforms.DeliverTo`,
  `Pipeline.StageToSinks`, `Pipeline.StagesToSinks`,
  `Pipeline.SinksSeeCallOrder` and `Pipeline.CloseSinks` rely on that; a
  failing sink would reject the chain like a failing transform.
- `Human.Format`: the `char` slot of the position line prints `undefined`,
  because no logger's entry has a `char` field.
- `Human.Format`: a colour name with no applier in `@bevry/ansi` is
  handled by the `paint` parameter.
