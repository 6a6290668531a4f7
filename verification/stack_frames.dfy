/**
 * `getLineInfo` of the three Loggers (`logger.ts`, `logger.js`, `index.js`):
 * find the stack frame of whoever called the logger and read its method,
 * file and line. The stack text and the logger's own directory (`__dirname`)
 * are parameters, as is the `lineOffset` setting.
 */
module StackFrames {
  import opened Wrappers
  import opened JsText
  import opened FramePatterns

  /**
   * How the line field of a parsed frame is stored: `logger.ts` converts it
   * with `Number`, `logger.js` and `index.js` keep the text.
   */
  datatype LineStyle = NumberLine | RawLine

  datatype Line = Parsed(value: NumberValue) | Raw(text: string)

  datatype LineInfo = LineInfo(line: Line, methodName: string, file: string)

  /** The result when no frame is found: line -1, method and file `unknown`. */
  const Unknown: LineInfo := LineInfo(Parsed(Int(-1)), "unknown", "unknown")

  /** A stack line `getLineInfo` looks at: outside the logger's directory and containing ` at `. */
  predicate IsCandidate(line: string, selfDir: string) {
    !Contains(line, selfDir) && Contains(line, " at ")
  }

  /** The line field of a parsed frame, from the second `:`-part. */
  function LineField(text: string, style: LineStyle): (r: Line)
    ensures style == RawLine ==> r == Raw(text)
    ensures style == NumberLine ==> r.Parsed? && r.value == ToNumber(text)
  {
    match style
    case NumberLine => Parsed(ToNumber(text))
    case RawLine => Raw(text)
  }

  /**
   * Reads one candidate line. A line with fewer than two `:`-parts gives
   * nothing. Otherwise, without a `(` in the first part the method is
   * `unknown` and the file is what follows `at`; with one, the method is
   * what lies between `at` and ` (` and the file what follows the `(`.
   */
  function ParseFrame(line: string, style: LineStyle): Option<LineInfo> {
    var parts := Split(line, ':');
    if |parts| < 2 then None
    else
      var head := parts[0];
      if !Contains(head, "(") then
        Some(LineInfo(LineField(parts[1], style), "unknown", StripThroughAt(head)))
      else
        Some(LineInfo(LineField(parts[1], style), CutParenTail(StripThroughAt(head)), StripThroughParen(head)))
  }

  /**
   * The scan of `getLineInfo` over the remaining lines `ls` with `offset`
   * frames still to skip: non-candidates are passed over, each candidate
   * consumes one unit of a non-zero offset, and at offset zero the first
   * candidate that parses is the answer.
   */
  function Scan(ls: seq<string>, selfDir: string, offset: int, style: LineStyle): LineInfo
    decreases |ls|
  {
    if ls == [] then Unknown
    else if !IsCandidate(ls[0], selfDir) then Scan(ls[1..], selfDir, offset, style)
    else if offset != 0 then Scan(ls[1..], selfDir, offset - 1, style)
    else match ParseFrame(ls[0], style)
      case Some(info) => info
      case None => Scan(ls[1..], selfDir, offset, style)
  }

  /** `getLineInfo()` on the given stack lines. */
  function LineInfoOf(lines: seq<string>, selfDir: string, lineOffset: int, style: LineStyle): LineInfo {
    Scan(lines, selfDir, lineOffset, style)
  }

  /**
   * The loop of `getLineInfo`: `offset` starts at `lineOffset` and the
   * result at `Unknown`; the first candidate reached with offset zero and
   * at least two `:`-parts fills the result and ends the loop.
   */
  method GetLineInfo(lines: seq<string>, selfDir: string, lineOffset: int, style: LineStyle)
    returns (result: LineInfo)
    ensures result == LineInfoOf(lines, selfDir, lineOffset, style)
  {
    var offset := lineOffset;
    result := Unknown;
    var index := 0;
    while index < |lines|
      invariant 0 <= index <= |lines|
      invariant Scan(lines[index..], selfDir, offset, style) == LineInfoOf(lines, selfDir, lineOffset, style)
    {
      var line := lines[index];
      assert lines[index..][1..] == lines[index + 1..];
      if !Contains(line, selfDir) && Contains(line, " at ") {
        if offset != 0 {
          offset := offset - 1;
        } else {
          var parsed := ParseFrame(line, style);
          if parsed.Some? {
            result := parsed.value;
            return;
          }
        }
      }
      index := index + 1;
    }
  }

  // ---------------------------------------------------------------------------
  // An independent description: filter the candidates, drop `offset`, parse.

  /** The candidate lines, in stack order. */
  function Candidates(ls: seq<string>, selfDir: string): (r: seq<string>)
    ensures |r| <= |ls|
    ensures forall i :: 0 <= i < |r| ==> IsCandidate(r[i], selfDir)
    decreases |ls|
  {
    if ls == [] then []
    else if IsCandidate(ls[0], selfDir) then [ls[0]] + Candidates(ls[1..], selfDir)
    else Candidates(ls[1..], selfDir)
  }

  /** The first line of `cs` that parses, or `Unknown`. */
  function FirstParsed(cs: seq<string>, style: LineStyle): LineInfo
    decreases |cs|
  {
    if cs == [] then Unknown
    else match ParseFrame(cs[0], style)
      case Some(info) => info
      case None => FirstParsed(cs[1..], style)
  }

  function Drop(cs: seq<string>, n: nat): seq<string> {
    if n >= |cs| then [] else cs[n..]
  }

  /**
   * `getLineInfo` skips the first `lineOffset` candidate frames, whether or
   * not they would parse, and reports the first of the rest that parses.
   */
  lemma {:induction false} SkipsOffsetCandidates(ls: seq<string>, selfDir: string, offset: nat, style: LineStyle)
    ensures Scan(ls, selfDir, offset, style) == FirstParsed(Drop(Candidates(ls, selfDir), offset), style)
    decreases |ls|
  {
    if ls != [] {
      var rest := Candidates(ls[1..], selfDir);
      SkipsOffsetCandidates(ls[1..], selfDir, offset, style);
      if IsCandidate(ls[0], selfDir) {
        var cs := [ls[0]] + rest;
        if offset != 0 {
          SkipsOffsetCandidates(ls[1..], selfDir, offset - 1, style);
          assert Drop(cs, offset) == Drop(rest, offset - 1) by {
            if offset < |cs| { assert cs[offset..] == rest[offset - 1..]; }
          }
        } else {
          assert cs[0..] == cs && cs[1..] == rest;
        }
      }
    }
  }

  /** With a negative offset the count never reaches zero, so nothing is parsed. */
  lemma {:induction false} NegativeOffsetFindsNothing(ls: seq<string>, selfDir: string, offset: int, style: LineStyle)
    requires offset < 0
    ensures Scan(ls, selfDir, offset, style) == Unknown
    decreases |ls|
  {
    if ls != [] {
      NegativeOffsetFindsNothing(ls[1..], selfDir, offset, style);
      NegativeOffsetFindsNothing(ls[1..], selfDir, offset - 1, style);
    }
  }

  lemma {:induction false} FirstParsedNone(cs: seq<string>, style: LineStyle)
    requires forall i :: 0 <= i < |cs| ==> ParseFrame(cs[i], style).None?
    ensures FirstParsed(cs, style) == Unknown
    decreases |cs|
  {
    if cs != [] {
      FirstParsedNone(cs[1..], style);
    }
  }

  lemma {:induction false} CandidatesIn(ls: seq<string>, selfDir: string)
    ensures forall x :: x in Candidates(ls, selfDir) ==> x in ls
    decreases |ls|
  {
    if ls != [] {
      CandidatesIn(ls[1..], selfDir);
    }
  }

  /**
   * When no line is a candidate with at least two `:`-parts, the result is
   * the sentinel: line -1, method and file `unknown`.
   */
  lemma NoFrameGivesUnknown(lines: seq<string>, selfDir: string, lineOffset: int, style: LineStyle)
    requires forall i :: 0 <= i < |lines| && IsCandidate(lines[i], selfDir) ==> |Split(lines[i], ':')| < 2
    ensures LineInfoOf(lines, selfDir, lineOffset, style) == Unknown
  {
    if lineOffset < 0 {
      NegativeOffsetFindsNothing(lines, selfDir, lineOffset, style);
    } else {
      SkipsOffsetCandidates(lines, selfDir, lineOffset, style);
      var cs := Drop(Candidates(lines, selfDir), lineOffset);
      CandidatesIn(lines, selfDir);
      assert forall i :: 0 <= i < |cs| ==> cs[i] in Candidates(lines, selfDir);
      FirstParsedNone(cs, style);
    }
  }

  // ---------------------------------------------------------------------------
  // Reading V8 frames back

  /** A method name as V8 prints it inside a frame: no `(`, `:` or line break, no outer white space. */
  predicate IsMethodName(m: string) {
    m != [] && '(' !in m && ':' !in m && NoLineTerminator(m) && !IsSpace(m[0]) && !IsSpace(m[|m| - 1])
  }

  /** A file path without `:`, as on POSIX systems. */
  predicate IsFilePath(f: string) {
    f != [] && ':' !in f && NoLineTerminator(f) && !IsSpace(f[0])
  }

  /** Two `:`-separated numbers' text, neither containing `:`. */
  predicate IsPosition(l: string, c: string) {
    ':' !in l && ':' !in c
  }

  lemma SplitFrame(head: string, l: string, c: string)
    requires ':' !in head && IsPosition(l, c)
    ensures Split(head + ":" + l + ":" + c, ':') == [head, l, c]
  {
    var pieces := [head, l, c];
    assert Join(pieces, ':') == head + ":" + l + ":" + c by {
      assert Join(pieces[2..], ':') == c;
      assert pieces[1..][1..] == pieces[2..];
    }
    SplitJoin(pieces, ':');
  }

  /** The three replacements read `m` and `f` back out of `    at m (f`. */
  lemma MethodFrameHead(m: string, f: string)
    requires IsMethodName(m) && IsFilePath(f)
    ensures var head := "    at " + m + " (" + f;
      ':' !in head && Contains(head, "(") &&
      CutParenTail(StripThroughAt(head)) == m && StripThroughParen(head) == f
  {
    var a := "    at " + m + " ";
    var head := "    at " + m + " (" + f;
    assert head == a + "(" + f;
    assert ':' !in head;
    assert Contains(head, "(") by {
      ContainsChar(head, '(');
      assert head[|a|] == '(';
    }
    assert StripThroughAt(head) == m + " (" + f by {
      assert head == "    at " + (m + " (" + f);
      StripThroughAtFrame(m + " (" + f);
    }
    CutParenTailFrame(m, f);
    assert StripThroughParen(head) == f by {
      assert NoLineTerminator(a);
      StripThroughParenFrame(a, f);
    }
  }

  /**
   * A frame `    at m (f:l:c)` parses to method `m`, file `f` and the line
   * field read from `l`.
   */
  lemma ParseMethodFrame(m: string, f: string, l: string, c: string, style: LineStyle)
    requires IsMethodName(m) && IsFilePath(f) && IsPosition(l, c)
    ensures ParseFrame("    at " + m + " (" + f + ":" + l + ":" + c + ")", style)
      == Some(LineInfo(LineField(l, style), m, f))
  {
    var head := "    at " + m + " (" + f;
    assert "    at " + m + " (" + f + ":" + l + ":" + c + ")" == head + ":" + l + ":" + (c + ")");
    MethodFrameHead(m, f);
    SplitFrame(head, l, c + ")");
  }

  /**
   * A frame `    at f:l:c` without a method parses to method `unknown`,
   * file `f` and the line field read from `l`.
   */
  lemma ParseAnonymousFrame(f: string, l: string, c: string, style: LineStyle)
    requires IsFilePath(f) && '(' !in f && IsPosition(l, c)
    ensures ParseFrame("    at " + f + ":" + l + ":" + c, style)
      == Some(LineInfo(LineField(l, style), "unknown", f))
  {
    var head := "    at " + f;
    SplitFrame(head, l, c);
    assert !Contains(head, "(") by {
      ContainsChar(head, '(');
    }
    StripThroughAtFrame(f);
  }

  /** In `logger.ts` a printed line number is read back as that number. */
  lemma NumberLineReadsBack(n: int)
    ensures LineField(IntToString(n), NumberLine) == Parsed(Int(n))
  {
    NumberOfIntString(n);
  }

  /**
   * A line field `-1.0` reads as the number -1, the value that means "no
   * position", because `Number` accepts a zero fraction.
   */
  lemma ZeroFractionLineIsMinusOne()
    ensures LineField("-1.0", NumberLine) == Parsed(Int(-1))
  {
    NumberOfZeroFraction();
  }
}
