/**
 * The Human transform of `transforms/human.ts`: it turns a log entry into one
 * readable line, `level: arguments`, followed by a second line with the
 * time, the position and the method of the call when the entry has one.
 *
 * The time formatting (`formatDate`, which depends on the clock's time zone),
 * `util.inspect` and the colour appliers of `@bevry/ansi` are not part of
 * this model; they are the `Renderers` passed in.
 */
module Human {
  import opened Wrappers
  import opened Values
  import opened JsText
  import opened StackFrames
  import opened LogEntries

  /** Level number, as a property key, to the name of a colour applier. */
  type ColorMap = map<string, string>

  /** The default colours: 0 to 3 red, 4 and 5 yellow, 6 and 7 green. */
  const DefaultColors: ColorMap := map[
    "0" := "red", "1" := "red", "2" := "red", "3" := "red",
    "4" := "yellow", "5" := "yellow", "6" := "green", "7" := "green"]

  datatype Settings = Settings(color: bool, colors: ColorMap)

  /** `HumanOptions`; an absent option (or an absent options object) is `None`. */
  datatype HumanOptions = HumanOptions(color: Option<bool>, colors: Option<ColorMap>)

  /**
   * What the format calls out to: the date formatter, `inspect(value,
   * {colors})`, `String` of a number the model does not evaluate, and the
   * colour applier `ansi[name]` (where `dim` is the one for the position line).
   */
  datatype Renderers = Renderers(
    formatDate: string -> string,
    inspect: (Value, bool) -> string,
    numberText: string -> string,
    paint: (string, string) -> string)

  /** The constructor: each option that is given replaces its default. */
  function Construct(opts: HumanOptions): (s: Settings)
    ensures s.color == (if opts.color.Some? then opts.color.value else true)
    ensures s.colors == (if opts.colors.Some? then opts.colors.value else DefaultColors)
  {
    Settings(
      match opts.color case Some(c) => c case None => true,
      match opts.colors case Some(m) => m case None => DefaultColors)
  }

  /** `getColor(levelNumber)`: the colour stored for the number, or `false` (`None`) for a missing or empty one. */
  function GetColor(colors: ColorMap, levelNumber: int): (r: Option<string>)
    ensures r.Some? <==> IntToString(levelNumber) in colors && colors[IntToString(levelNumber)] != ""
    ensures r.Some? ==> r.value == colors[IntToString(levelNumber)]
  {
    var key := IntToString(levelNumber);
    if key in colors && colors[key] != "" then Some(colors[key]) else None
  }

  /** The default colours of the eight levels, and none for any other number. */
  lemma DefaultColorsByLevel(n: int)
    ensures 0 <= n <= 3 ==> GetColor(DefaultColors, n) == Some("red")
    ensures 4 <= n <= 5 ==> GetColor(DefaultColors, n) == Some("yellow")
    ensures 6 <= n <= 7 ==> GetColor(DefaultColors, n) == Some("green")
    ensures (n < 0 || n > 7) ==> GetColor(DefaultColors, n) == None
  {
    var key := IntToString(n);
    if n < 0 {
      assert key[0] == '-';
      assert key !in DefaultColors by {
        assert forall k :: k in DefaultColors ==> k[0] != '-';
      }
    } else if n >= 10 {
      assert |key| >= 2 by {
        assert key == NatToString(n / 10) + [('0' as int + n % 10) as char];
      }
      assert forall k :: k in DefaultColors ==> |k| == 1;
    } else if n > 7 {
      assert key == [('0' as int + n) as char];
      assert key == "8" || key == "9";
    }
  }

  // ---------------------------------------------------------------------------
  // padLeft

  /** `padding` repeated `n` times. */
  function Repeat(padding: string, n: nat): (r: string)
    ensures |r| == n * |padding|
  {
    if n == 0 then "" else padding + Repeat(padding, n - 1)
  }

  /** What `padLeft` returns: content shorter than `size` gets `size - |content|` paddings in front. */
  function PadLeftOf(padding: string, size: int, content: string): string {
    if |content| < size then Repeat(padding, size - |content|) + content else content
  }

  /** `padLeft(padding, size, content)`, prepending one padding per step. */
  method PadLeft(padding: string, size: int, content: string) returns (r: string)
    ensures r == PadLeftOf(padding, size, content)
  {
    r := content;
    if |content| < size {
      var n := size - |content|;
      var i := 0;
      while i < n
        invariant 0 <= i <= n
        invariant r == Repeat(padding, i) + content
      {
        r := padding + r;
        i := i + 1;
        RepeatSucc(padding, i);
      }
    }
  }

  lemma {:induction false} RepeatSucc(padding: string, n: nat)
    requires n >= 1
    ensures Repeat(padding, n) == padding + Repeat(padding, n - 1)
  {
  }

  /** Every character of a repeated one-character padding is that character. */
  lemma {:induction false} RepeatChar(c: char, n: nat)
    ensures forall i :: 0 <= i < n ==> Repeat([c], n)[i] == c
  {
    if n > 0 {
      RepeatChar(c, n - 1);
      assert Repeat([c], n) == [c] + Repeat([c], n - 1);
    }
  }

  /** Content at least `size` long comes back unchanged. */
  lemma PadLeftLongEnough(padding: string, size: int, content: string)
    requires |content| >= size
    ensures PadLeftOf(padding, size, content) == content
  {
  }

  /**
   * With a one-character padding shorter content is brought to exactly
   * `size`: the padding character fills the front and the content ends it.
   */
  lemma PadLeftOneChar(c: char, size: int, content: string)
    requires |content| < size
    ensures var r := PadLeftOf([c], size, content);
      |r| == size && r[size - |content|..] == content
      && forall i :: 0 <= i < size - |content| ==> r[i] == c
  {
    var n := size - |content|;
    RepeatChar(c, n);
    var r := PadLeftOf([c], size, content);
    assert r == Repeat([c], n) + content;
    assert forall i :: 0 <= i < n ==> r[i] == Repeat([c], n)[i];
  }

  // ---------------------------------------------------------------------------
  // formatArguments

  /** One argument as text: a string as it is, anything else through `inspect`. */
  function ArgumentText(r: Renderers, color: bool, v: Value): string {
    if v.Str? then v.s else r.inspect(v, color)
  }

  function ArgumentTexts(r: Renderers, color: bool, args: seq<Value>): (ts: seq<string>)
    ensures |ts| == |args|
    ensures forall i :: 0 <= i < |args| ==> ts[i] == ArgumentText(r, color, args[i])
  {
    if args == [] then [] else [ArgumentText(r, color, args[0])] + ArgumentTexts(r, color, args[1..])
  }

  /** `formatArguments(args)`: the texts of the arguments joined with single spaces. */
  function FormatArguments(r: Renderers, color: bool, args: seq<Value>): (text: string)
    ensures args == [] ==> text == ""
  {
    if args == [] then "" else Join(ArgumentTexts(r, color, args), ' ')
  }

  /**
   * String arguments pass through unchanged: when none contains a space,
   * splitting the text on spaces gives them back one by one.
   */
  lemma StringArgumentsKept(r: Renderers, color: bool, args: seq<Value>)
    requires args != []
    requires forall i :: 0 <= i < |args| ==> args[i].Str? && ' ' !in args[i].s
    ensures var pieces := Split(FormatArguments(r, color, args), ' ');
      |pieces| == |args| && forall i :: 0 <= i < |args| ==> pieces[i] == args[i].s
  {
    SplitJoin(ArgumentTexts(r, color, args), ' ');
  }

  // ---------------------------------------------------------------------------
  // format

  /** `${entry.line}`: the number as text, or the text kept by `logger.js`. */
  function LineText(r: Renderers, line: Line): string {
    match line
    case Parsed(Int(n)) => IntToString(n)
    case Parsed(NotInteger(t)) => r.numberText(t)
    case Raw(t) => t
  }

  /** `entry.line !== -1`: only the number -1 means "no position"; a text line never does. */
  predicate UsesLine(e: LogEntry) {
    e.lineInfo.line != Parsed(Int(-1))
  }

  /** The first line: the level name and a colon, coloured when there is a colour for the level. */
  function LevelString(s: Settings, r: Renderers, e: LogEntry): string {
    var c := GetColor(s.colors, e.levelNumber);
    if s.color && c.Some? then r.paint(c.value, e.levelName + ":") else e.levelName + ":"
  }

  /**
   * The position line. The entries of the loggers carry no `char` field, so
   * its place holds the text `undefined`.
   */
  function DebugString(s: Settings, r: Renderers, e: LogEntry): string {
    var debug := "\U{E2}\U{2020}\U{2019} [" + r.formatDate(e.date) + "] [" + e.lineInfo.file + ":"
      + LineText(r, e.lineInfo.line) + ":undefined] [" + e.lineInfo.methodName + "]";
    if s.color then r.paint("dim", debug) else debug
  }

  /** `format(entry)`. */
  function Format(s: Settings, r: Renderers, e: LogEntry): (out: string)
    ensures FormatArguments(r, s.color, e.args) == "" ==> out == ""
    ensures FormatArguments(r, s.color, e.args) != "" ==>
      |out| > |LevelString(s, r, e)| + 1 && out[|out| - 1] == '\n'
      && out[..|LevelString(s, r, e)| + 1] == LevelString(s, r, e) + " "
  {
    var text := FormatArguments(r, s.color, e.args);
    if text == "" then text
    else
      var message := LevelString(s, r, e) + " " + text;
      if UsesLine(e) then message + "\n    " + DebugString(s, r, e) + "\n"
      else message + "\n"
  }

  /** Without colour and without a position the result is exactly `levelName: text` and a newline. */
  lemma PlainWithoutLine(s: Settings, r: Renderers, e: LogEntry)
    requires !s.color && !UsesLine(e)
    requires FormatArguments(r, s.color, e.args) != ""
    ensures Format(s, r, e) == e.levelName + ": " + FormatArguments(r, s.color, e.args) + "\n"
  {
  }

  /**
   * Without colour and with a position, the message line is followed by an
   * indented arrow line with the time, `file:line:undefined` and the method.
   */
  lemma PlainWithLine(s: Settings, r: Renderers, e: LogEntry)
    requires !s.color && UsesLine(e)
    requires FormatArguments(r, s.color, e.args) != ""
    ensures Format(s, r, e) == e.levelName + ": " + FormatArguments(r, s.color, e.args)
      + "\n    \U{E2}\U{2020}\U{2019} [" + r.formatDate(e.date) + "] [" + e.lineInfo.file + ":"
      + LineText(r, e.lineInfo.line) + ":undefined] [" + e.lineInfo.methodName + "]\n"
  {
    var text := FormatArguments(r, s.color, e.args);
    assert LevelString(s, r, e) == e.levelName + ":";
    assert Format(s, r, e) == LevelString(s, r, e) + " " + text + "\n    " + DebugString(s, r, e) + "\n";
  }

  /**
   * The message can be read back from a colourless single-line result: it
   * is what lies between `levelName: ` and the final newline.
   */
  lemma PlainMessageReadsBack(s: Settings, r: Renderers, e: LogEntry)
    requires !s.color && !UsesLine(e)
    requires FormatArguments(r, s.color, e.args) != ""
    ensures var out := Format(s, r, e);
      out[|e.levelName| + 2..|out| - 1] == FormatArguments(r, s.color, e.args)
  {
  }

  /** An entry without arguments formats to the empty string, which is not `null` and so is still written on. */
  lemma NoArgumentsNoText(s: Settings, r: Renderers, e: LogEntry)
    requires e.args == []
    ensures Format(s, r, e) == ""
  {
  }
}
