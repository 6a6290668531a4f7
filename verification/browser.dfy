/**
 * The Browser transform of `transforms/browser.ts`: it rewrites the text a
 * Human transform produced for browser consoles. Every ANSI-coloured
 * segment `ESC[<start>m<content>ESC[<end>m` whose pair of codes belongs to a
 * known style becomes the placeholder `%c%s%c`, and three console arguments
 * (the style's CSS, the content and a reset) are collected for it.
 */
module Browser {
  import opened Wrappers
  import opened JsText

  datatype Style = Style(start: string, end: string, value: string)

  /** The styles in declaration order, which is the order the lookup tries them in. */
  type Styles = seq<(string, Style)>

  const DefaultStyles: Styles := [
    ("red", Style("31", "39", "color:red")),
    ("yellow", Style("33", "39", "color:orange")),
    ("green", Style("32", "39", "color:green")),
    ("bright", Style("1", "22", "font-weight:bold")),
    ("dim", Style("2", "22", "color:lightGray")),
    ("italic", Style("3", "23", "font-style:italic")),
    ("underline", Style("4", "24", "text-decoration:underline"))]

  /** The third argument pushed for every styled segment. */
  const Reset: string := "color:default; font:default; text-decoration:default"

  const Esc: char := '\U{1B}'

  datatype Settings = Settings(color: bool, output: bool, styles: Styles)

  /** `BrowserOptions`; an absent option (or an absent options object) is `None`. */
  datatype BrowserOptions = BrowserOptions(color: Option<bool>, output: Option<bool>, styles: Option<Styles>)

  /** The constructor: each option that is given replaces its default. */
  function Construct(opts: BrowserOptions): (s: Settings)
    ensures s.color == (if opts.color.Some? then opts.color.value else true)
    ensures s.output == (if opts.output.Some? then opts.output.value else true)
    ensures s.styles == (if opts.styles.Some? then opts.styles.value else DefaultStyles)
  {
    Settings(
      match opts.color case Some(c) => c case None => true,
      match opts.output case Some(o) => o case None => true,
      match opts.styles case Some(t) => t case None => DefaultStyles)
  }

  // ---------------------------------------------------------------------------
  // the pattern /\u001b\[([0-9]+)m(.+?)\u001b\[([0-9]+)m/

  /** The end of the run of decimal digits that starts at `i`. */
  function DigitsEnd(s: string, i: nat): (k: nat)
    requires i <= |s|
    ensures i <= k <= |s|
    decreases |s| - i
  {
    if i < |s| && IsDigit(s[i]) then DigitsEnd(s, i + 1) else i
  }

  /** The run is all digits and is not followed by one. */
  lemma {:induction false} DigitsEndSpec(s: string, i: nat)
    requires i <= |s|
    ensures var k := DigitsEnd(s, i); AllDigits(s[i..k]) && (k == |s| || !IsDigit(s[k]))
    decreases |s| - i
  {
    if i < |s| && IsDigit(s[i]) {
      DigitsEndSpec(s, i + 1);
      var k := DigitsEnd(s, i + 1);
      assert s[i..k] == [s[i]] + s[i + 1..k];
    }
  }

  /** A code `ESC[<digits>m`: its digits and the index just after its `m`. */
  datatype Code = Code(digits: string, next: nat)

  /** The code starting at `i`, if one does: the digit run is taken whole, as the greedy `[0-9]+` does. */
  function CodeAt(s: string, i: nat): (r: Option<Code>)
    requires i <= |s|
    ensures r.Some? ==> i + 4 <= r.value.next <= |s|
  {
    if i + 1 < |s| && s[i] == Esc && s[i + 1] == '[' then
      var k := DigitsEnd(s, i + 2);
      if k > i + 2 && k < |s| && s[k] == 'm' then Some(Code(s[i + 2..k], k + 1)) else None
    else None
  }

  /**
   * The lazy `(.+?)` followed by a code: the first end `e`, trying `e`,
   * `e + 1`, ... in turn, such that no line terminator occurs before it and
   * a code starts at it.
   */
  function ContentEnd(s: string, e: nat): (r: Option<nat>)
    requires 1 <= e
    ensures r.Some? ==> e <= r.value <= |s| && CodeAt(s, r.value).Some?
    decreases |s| + 1 - e
  {
    if e > |s| || IsLineTerminator(s[e - 1]) then None
    else if CodeAt(s, e).Some? then Some(e)
    else ContentEnd(s, e + 1)
  }

  /** A matched segment: both codes, the content between them, and the index after the closing code. */
  datatype Segment = Segment(start: string, content: string, end: string, next: nat)

  /** The match of the pattern at `i`, if any. */
  function MatchAt(s: string, i: nat): (r: Option<Segment>)
    requires i <= |s|
    ensures r.Some? ==> i < r.value.next <= |s|
  {
    match CodeAt(s, i)
    case None => None
    case Some(open) => MatchAfter(s, open)
  }

  /** The rest of a match once its opening code is found: content, then the closing code. */
  function MatchAfter(s: string, open: Code): (r: Option<Segment>)
    requires open.next <= |s|
    ensures r.Some? ==> open.next < r.value.next <= |s|
  {
    if open.next >= |s| then None
    else
      match ContentEnd(s, open.next + 1)
      case None => None
      case Some(e) =>
        var close := CodeAt(s, e).value;
        Some(Segment(open.digits, s[open.next..e], close.digits, close.next))
  }

  /** The text of a code with the given digits. */
  function CodeText(digits: string): string {
    [Esc, '['] + digits + "m"
  }

  /**
   * What a match at `i` covers: the opening code, content of at least one
   * character and no line terminator, and the closing code.
   */
  lemma MatchAtSpec(s: string, i: nat)
    requires i <= |s| && MatchAt(s, i).Some?
    ensures var m := MatchAt(s, i).value;
      s[i..m.next] == CodeText(m.start) + m.content + CodeText(m.end)
      && |m.content| >= 1 && NoLineTerminator(m.content)
      && |m.start| >= 1 && AllDigits(m.start) && |m.end| >= 1 && AllDigits(m.end)
  {
    var open := CodeAt(s, i).value;
    var e := ContentEnd(s, open.next + 1).value;
    var close := CodeAt(s, e).value;
    CodeAtText(s, i);
    CodeAtText(s, e);
    ContentEndSpec(s, open.next + 1, open.next);
    var m := MatchAt(s, i).value;
    assert m == Segment(open.digits, s[open.next..e], close.digits, close.next);
    SliceInThree(s, i, open.next, e, close.next);
  }

  lemma SliceInThree(s: string, i: nat, a: nat, b: nat, c: nat)
    requires i <= a <= b <= c <= |s|
    ensures s[i..c] == s[i..a] + s[a..b] + s[b..c]
  {
    assert s[i..c] == s[i..a] + s[a..c];
    assert s[a..c] == s[a..b] + s[b..c];
  }

  /** The content of a match is the shortest: no earlier end of it is followed by a code. */
  lemma MatchAtShortest(s: string, i: nat)
    requires i <= |s| && MatchAt(s, i).Some?
    ensures var m := MatchAt(s, i).value; var c := i + |CodeText(m.start)|;
      forall e :: c < e < c + |m.content| ==> CodeAt(s, e).None?
  {
    var open := CodeAt(s, i).value;
    var e := ContentEnd(s, open.next + 1).value;
    CodeAtText(s, i);
    ContentEndSpec(s, open.next + 1, open.next);
    var m := MatchAt(s, i).value;
    assert m.start == open.digits && |m.content| == e - open.next;
  }

  /** A code found at `i` is the text `ESC[<digits>m` with at least one digit. */
  lemma CodeAtText(s: string, i: nat)
    requires i <= |s| && CodeAt(s, i).Some?
    ensures var c := CodeAt(s, i).value;
      c.next == i + |CodeText(c.digits)| && s[i..c.next] == CodeText(c.digits)
      && |c.digits| >= 1 && AllDigits(c.digits)
  {
    var c := CodeAt(s, i).value;
    var k := DigitsEnd(s, i + 2);
    DigitsEndSpec(s, i + 2);
    assert c.digits == s[i + 2..k] && c.next == k + 1;
    assert s[i..c.next] == [s[i], s[i + 1]] + s[i + 2..k] + [s[k]];
  }

  /** The converse: the text `ESC[<digits>m` is read as that code. */
  lemma CodeTextAt(s: string, i: nat, d: string)
    requires |d| >= 1 && AllDigits(d)
    requires i + |CodeText(d)| <= |s| && s[i..i + |CodeText(d)|] == CodeText(d)
    ensures CodeAt(s, i) == Some(Code(d, i + |CodeText(d)|))
  {
    var n := |CodeText(d)|;
    assert n == |d| + 3;
    assert s[i] == CodeText(d)[0] && s[i + 1] == CodeText(d)[1];
    assert s[i + n - 1] == CodeText(d)[n - 1] == 'm';
    forall j | 0 <= j < |d|
      ensures s[i + 2 + j] == d[j]
    {
      assert s[i + 2 + j] == s[i..i + n][2 + j] == CodeText(d)[2 + j];
    }
    assert s[i + 2..i + 2 + |d|] == d;
    DigitsRun(s, i + 2, d);
  }

  /** The lazy search from `e` stops at the first code and passes no line terminator. */
  lemma {:induction false} ContentEndSpec(s: string, e: nat, from: nat)
    requires from < e && ContentEnd(s, e).Some?
    requires from + 1 == e || (NoLineTerminator(s[from..e - 1]) && forall k :: from < k < e ==> CodeAt(s, k).None?)
    ensures var r := ContentEnd(s, e).value;
      NoLineTerminator(s[from..r]) && forall k :: from < k < r ==> CodeAt(s, k).None?
    decreases |s| + 1 - e
  {
    assert e <= |s|;
    SliceSnoc(s, from, e);
    if CodeAt(s, e).None? {
      ContentEndSpec(s, e + 1, from);
    }
  }

  lemma SliceSnoc(s: string, a: nat, b: nat)
    requires a < b <= |s|
    ensures s[a..b] == s[a..b - 1] + [s[b - 1]]
  {
  }

  /**
   * The other direction: text that starts with a coloured segment whose
   * content holds neither an escape nor a line terminator is matched whole
   * at its start.
   */
  lemma SegmentFound(s: string, d1: string, content: string, d2: string, a: nat, e: nat)
    requires |d1| >= 1 && AllDigits(d1) && |d2| >= 1 && AllDigits(d2)
    requires |content| >= 1 && Esc !in content && NoLineTerminator(content)
    requires a == |CodeText(d1)| && e == a + |content| && e + |CodeText(d2)| <= |s|
    requires s[0..a] == CodeText(d1) && s[a..e] == content && s[e..e + |CodeText(d2)|] == CodeText(d2)
    ensures MatchAt(s, 0) == Some(Segment(d1, content, d2, e + |CodeText(d2)|))
  {
    CodeTextAt(s, 0, d1);
    CodeTextAt(s, e, d2);
    PlainRun(s, a, e);
    ContentEndFinds(s, a + 1, e, a);
    MatchFromParts(s, 0, d1, a, e, d2, e + |CodeText(d2)|);
  }

  /** The characters of a run without escapes and line terminators, one by one. */
  lemma PlainRun(s: string, a: nat, e: nat)
    requires a <= e <= |s| && Esc !in s[a..e] && NoLineTerminator(s[a..e])
    ensures forall k :: a <= k < e ==> s[k] != Esc && !IsLineTerminator(s[k])
  {
    forall k | a <= k < e
      ensures s[k] != Esc && !IsLineTerminator(s[k])
    {
      assert s[k] == s[a..e][k - a];
    }
  }

  /** A match put together from its opening code, the lazy end and its closing code. */
  lemma MatchFromParts(s: string, i: nat, d1: string, a: nat, e: nat, d2: string, n: nat)
    requires i <= |s| && CodeAt(s, i) == Some(Code(d1, a)) && a < |s|
    requires ContentEnd(s, a + 1) == Some(e) && CodeAt(s, e) == Some(Code(d2, n))
    ensures MatchAt(s, i) == Some(Segment(d1, s[a..e], d2, n))
  {
    assert MatchAt(s, i) == MatchAfter(s, Code(d1, a));
    MatchAfterParts(s, Code(d1, a), e, Code(d2, n));
  }

  lemma MatchAfterParts(s: string, open: Code, e: nat, close: Code)
    requires open.next < |s| && ContentEnd(s, open.next + 1) == Some(e) && CodeAt(s, e) == Some(close)
    ensures MatchAfter(s, open) == Some(Segment(open.digits, s[open.next..e], close.digits, close.next))
  {
  }

  /** Where each of four concatenated strings lies in the whole. */
  lemma FourParts(p: string, q: string, r: string, t: string)
    ensures var s := p + q + r + t; var a := |p|; var b := a + |q|; var c := b + |r|;
      s[0..a] == p && s[a..b] == q && s[b..c] == r && s[c..] == t
  {
  }

  /** A run of digits followed by `m` is read whole. */
  lemma DigitsRun(s: string, i: nat, d: string)
    requires i + |d| < |s| && s[i..i + |d|] == d && AllDigits(d) && s[i + |d|] == 'm'
    ensures DigitsEnd(s, i) == i + |d|
    decreases |d|
  {
    if d != [] {
      assert s[i + 1..i + 1 + |d[1..]|] == d[1..];
      DigitsRun(s, i + 1, d[1..]);
    }
  }

  /** The lazy search reaches the first code when the text before it has no escape and no line terminator. */
  lemma {:induction false} ContentEndFinds(s: string, e: nat, target: nat, from: nat)
    requires from < e <= target <= |s| && CodeAt(s, target).Some?
    requires forall k :: from <= k < target ==> s[k] != Esc && !IsLineTerminator(s[k])
    ensures ContentEnd(s, e) == Some(target)
    decreases target - e
  {
    assert !IsLineTerminator(s[e - 1]);
    if e < target {
      assert s[e] != Esc;
      ContentEndFinds(s, e + 1, target, from);
    }
  }

  // ---------------------------------------------------------------------------
  // the style lookup

  predicate Fits(style: Style, start: string, end: string) {
    style.start == start && style.end == end
  }

  /** The first style, from position `i` on, whose codes are `start` and `end`. */
  function StyleFrom(styles: Styles, start: string, end: string, i: nat): (r: Option<Style>)
    requires i <= |styles|
    ensures r.Some? ==> Fits(r.value, start, end)
    decreases |styles| - i
  {
    if i == |styles| then None
    else if Fits(styles[i].1, start, end) then Some(styles[i].1)
    else StyleFrom(styles, start, end, i + 1)
  }

  /** The style found is the first, from `i` on, whose codes fit; there is none exactly when no style fits. */
  lemma {:induction false} StyleFromFirst(styles: Styles, start: string, end: string, i: nat)
    requires i <= |styles|
    ensures var r := StyleFrom(styles, start, end, i);
      (r.None? <==> forall k :: i <= k < |styles| ==> !Fits(styles[k].1, start, end))
      && (r.Some? ==> exists k :: (i <= k < |styles| && styles[k].1 == r.value
            && forall j :: i <= j < k ==> !Fits(styles[j].1, start, end)))
    decreases |styles| - i
  {
    if i < |styles| && !Fits(styles[i].1, start, end) {
      StyleFromFirst(styles, start, end, i + 1);
      var r := StyleFrom(styles, start, end, i);
      if r.Some? {
        var k :| i + 1 <= k < |styles| && styles[k].1 == r.value
          && forall j :: i + 1 <= j < k ==> !Fits(styles[j].1, start, end);
        assert forall j :: i <= j < k ==> !Fits(styles[j].1, start, end);
      }
    }
  }

  /** The style the replacement uses: the first, in `styles` order, with the captured codes. */
  function StyleFor(styles: Styles, start: string, end: string): Option<Style> {
    StyleFrom(styles, start, end, 0)
  }

  /** The `for (const key in styles)` loop, leaving at the first style that fits. */
  method FindStyle(styles: Styles, start: string, end: string) returns (r: Option<Style>)
    ensures r == StyleFor(styles, start, end)
  {
    var i := 0;
    r := None;
    while i < |styles|
      invariant 0 <= i <= |styles|
      invariant StyleFrom(styles, start, end, i) == StyleFor(styles, start, end)
    {
      if Fits(styles[i].1, start, end) {
        r := Some(styles[i].1);
        break;
      }
      i := i + 1;
    }
  }

  // ---------------------------------------------------------------------------
  // the scan: `replace` meets matched segments and the characters between them

  /** A table of what the pattern matches at each position of `s`; every match ends inside `s`. */
  predicate Table(s: string, ms: seq<Option<Segment>>) {
    |ms| == |s| && forall i :: 0 <= i < |ms| && ms[i].Some? ==> i < ms[i].value.next <= |s|
  }

  /** The match of the pattern at every position of `s`. */
  function Matches(s: string): (ms: seq<Option<Segment>>)
    ensures Table(s, ms) && forall i :: 0 <= i < |s| ==> ms[i] == MatchAt(s, i)
  {
    seq(|s|, i requires 0 <= i < |s| => MatchAt(s, i))
  }

  /** What the scan meets at a position: a matched segment, or one character at which no match starts. */
  datatype Piece = Matched(m: Segment) | Unmatched(c: char)

  /** The pieces met from `i` on, left to right; after a match the scan resumes behind its closing code. */
  function PiecesFrom(s: string, ms: seq<Option<Segment>>, i: nat): seq<Piece>
    requires Table(s, ms) && i <= |s|
    decreases |s| - i
  {
    if i == |s| then []
    else
      match ms[i]
      case Some(m) => [Matched(m)] + PiecesFrom(s, ms, m.next)
      case None => [Unmatched(s[i])] + PiecesFrom(s, ms, i + 1)
  }

  /** The pieces of a whole message. */
  function Pieces(s: string): seq<Piece> {
    PiecesFrom(s, Matches(s), 0)
  }

  /** The text of the message a piece stands for. */
  function Source(p: Piece): string {
    match p
    case Matched(m) => CodeText(m.start) + m.content + CodeText(m.end)
    case Unmatched(c) => [c]
  }

  function Sources(ps: seq<Piece>): string
    decreases |ps|
  {
    if ps == [] then "" else Source(ps[0]) + Sources(ps[1..])
  }

  /** Every match of the table stands for the text it spans. */
  predicate Sound(s: string, ms: seq<Option<Segment>>)
    requires Table(s, ms)
  {
    forall i :: 0 <= i < |ms| && ms[i].Some? ==> s[i..ms[i].value.next] == Source(Matched(ms[i].value))
  }

  lemma MatchesSound(s: string)
    ensures Sound(s, Matches(s))
  {
    var ms := Matches(s);
    forall i | 0 <= i < |ms| && ms[i].Some?
      ensures s[i..ms[i].value.next] == Source(Matched(ms[i].value))
    {
      MatchAtSpec(s, i);
    }
  }

  lemma SourcesCons(p: Piece, ps: seq<Piece>)
    ensures Sources([p] + ps) == Source(p) + Sources(ps)
  {
    assert ([p] + ps)[1..] == ps;
  }

  lemma SliceJoin(s: string, a: nat, b: nat)
    requires a <= b <= |s|
    ensures s[a..] == s[a..b] + s[b..]
  {
  }

  lemma {:induction false} CoverFrom(s: string, ms: seq<Option<Segment>>, i: nat)
    requires Table(s, ms) && Sound(s, ms) && i <= |s|
    ensures Sources(PiecesFrom(s, ms, i)) == s[i..]
    decreases |s| - i
  {
    if i < |s| {
      var p := if ms[i].Some? then Matched(ms[i].value) else Unmatched(s[i]);
      var next := if ms[i].Some? then ms[i].value.next else i + 1;
      assert PiecesFrom(s, ms, i) == [p] + PiecesFrom(s, ms, next);
      assert Source(p) == s[i..next];
      SourcesCons(p, PiecesFrom(s, ms, next));
      CoverFrom(s, ms, next);
      SliceJoin(s, i, next);
    }
  }

  /** The pieces cover the message: put back together they give it. */
  lemma PiecesCover(s: string)
    ensures Sources(Pieces(s)) == s
  {
    MatchesSound(s);
    CoverFrom(s, Matches(s), 0);
    assert s[0..] == s;
  }

  /** One unmatched piece per character. */
  function PlainPieces(t: string): (ps: seq<Piece>)
    ensures |ps| == |t| && forall j :: 0 <= j < |t| ==> ps[j] == Unmatched(t[j])
  {
    seq(|t|, j requires 0 <= j < |t| => Unmatched(t[j]))
  }

  /** Where no match starts, up to `k`, the text is met character by character. */
  lemma {:induction false} PlainTextKept(s: string, ms: seq<Option<Segment>>, i: nat, k: nat)
    requires Table(s, ms) && i <= k <= |s|
    requires forall j :: i <= j < k ==> ms[j].None?
    ensures PiecesFrom(s, ms, i) == PlainPieces(s[i..k]) + PiecesFrom(s, ms, k)
    decreases k - i
  {
    if i < k {
      var t := s[i..k];
      assert s[i] == t[0] && s[i + 1..k] == t[1..];
      PlainTextKept(s, ms, i + 1, k);
      assert PlainPieces(t) == [Unmatched(t[0])] + PlainPieces(t[1..]);
      AppendAssociates([Unmatched(s[i])], PlainPieces(s[i + 1..k]), PiecesFrom(s, ms, k));
    } else {
      assert PlainPieces(s[i..k]) == [];
    }
  }

  lemma AppendAssociates<T>(a: seq<T>, b: seq<T>, c: seq<T>)
    ensures a + (b + c) == (a + b) + c
  {
  }

  /** No match starts at a character other than the escape. */
  lemma NoMatchWithoutEscape(s: string, i: nat)
    requires i < |s| && s[i] != Esc
    ensures MatchAt(s, i).None?
  {
  }

  /** No match starts inside text without escapes. */
  lemma NoMatchesWithoutEscape(s: string, i: nat, k: nat)
    requires i <= k <= |s| && Esc !in s[i..k]
    ensures forall j :: i <= j < k ==> Matches(s)[j].None?
  {
    forall j | i <= j < k
      ensures Matches(s)[j].None?
    {
      assert s[j] == s[i..k][j - i];
      NoMatchWithoutEscape(s, j);
    }
  }

  /**
   * A coloured segment followed by text without escapes is met as one
   * matched piece and then the text character by character.
   */
  lemma SegmentPieces(d1: string, content: string, d2: string, rest: string)
    requires |d1| >= 1 && AllDigits(d1) && |d2| >= 1 && AllDigits(d2)
    requires |content| >= 1 && Esc !in content && NoLineTerminator(content) && Esc !in rest
    ensures var head := CodeText(d1) + content + CodeText(d2);
      Pieces(head + rest) == [Matched(Segment(d1, content, d2, |head|))] + PlainPieces(rest)
  {
    var head := CodeText(d1) + content + CodeText(d2);
    var a := |CodeText(d1)|;
    var e := a + |content|;
    FourParts(CodeText(d1), content, CodeText(d2), rest);
    SegmentPiecesIn(head + rest, d1, content, d2, rest, a, e, |head|);
  }

  /** `SegmentPieces` for any text made of the codes, the content and then `rest`. */
  lemma SegmentPiecesIn(s: string, d1: string, content: string, d2: string, rest: string, a: nat, e: nat, n: nat)
    requires |d1| >= 1 && AllDigits(d1) && |d2| >= 1 && AllDigits(d2)
    requires |content| >= 1 && Esc !in content && NoLineTerminator(content) && Esc !in rest
    requires a == |CodeText(d1)| && e == a + |content| && n == e + |CodeText(d2)| <= |s|
    requires s[0..a] == CodeText(d1) && s[a..e] == content && s[e..n] == CodeText(d2) && s[n..] == rest
    ensures Pieces(s) == [Matched(Segment(d1, content, d2, n))] + PlainPieces(rest)
  {
    var ms := Matches(s);
    SegmentFound(s, d1, content, d2, a, e);
    assert ms[0] == Some(Segment(d1, content, d2, n));
    assert s[n..|s|] == rest;
    NoMatchesWithoutEscape(s, n, |s|);
    PlainTextKept(s, ms, n, |s|);
    assert PiecesFrom(s, ms, |s|) == [];
    assert PlainPieces(rest) + [] == PlainPieces(rest);
  }

  // ---------------------------------------------------------------------------
  // the replacement

  datatype Rewritten = Rewritten(text: string, args: seq<string>)

  /** What the callback returns for one segment, and the arguments it pushes. */
  function Replace(st: Settings, m: Segment): (r: Rewritten)
    ensures r.args == [] || |r.args| == 3
  {
    if !st.color then Rewritten(m.content, [])
    else
      match StyleFor(st.styles, m.start, m.end)
      case None => Rewritten(m.content, [])
      case Some(style) => Rewritten("%c%s%c", [style.value, m.content, Reset])
  }

  /** A matched piece is replaced; a character outside any match is kept. */
  function ReplacePiece(st: Settings, p: Piece): Rewritten {
    match p
    case Matched(m) => Replace(st, m)
    case Unmatched(c) => Rewritten([c], [])
  }

  /** One piece of output followed by another. */
  function Then(a: Rewritten, b: Rewritten): Rewritten {
    Rewritten(a.text + b.text, a.args + b.args)
  }

  lemma ThenAssociates(a: Rewritten, b: Rewritten, c: Rewritten)
    ensures Then(Then(a, b), c) == Then(a, Then(b, c))
  {
    assert (a.text + b.text) + c.text == a.text + (b.text + c.text);
    assert (a.args + b.args) + c.args == a.args + (b.args + c.args);
  }

  /** The replacements of the pieces, in order. */
  function RewritePieces(st: Settings, ps: seq<Piece>): Rewritten
    decreases |ps|
  {
    if ps == [] then Rewritten("", []) else Then(ReplacePiece(st, ps[0]), RewritePieces(st, ps[1..]))
  }

  /** `message.replace(pattern, callback)`, with the arguments the callback pushes. */
  function Rewrite(st: Settings, message: string): Rewritten {
    RewritePieces(st, Pieces(message))
  }

  lemma RewriteCons(st: Settings, p: Piece, ps: seq<Piece>)
    ensures RewritePieces(st, [p] + ps) == Then(ReplacePiece(st, p), RewritePieces(st, ps))
  {
    assert ([p] + ps)[1..] == ps;
  }

  /** Rewriting two runs of pieces one after the other is rewriting their concatenation. */
  lemma {:induction false} RewriteAppend(st: Settings, a: seq<Piece>, b: seq<Piece>)
    ensures RewritePieces(st, a + b) == Then(RewritePieces(st, a), RewritePieces(st, b))
    decreases |a|
  {
    if a == [] {
      assert a + b == b;
      var r := RewritePieces(st, b);
      assert "" + r.text == r.text && [] + r.args == r.args;
    } else {
      assert (a + b)[0] == a[0] && (a + b)[1..] == a[1..] + b;
      RewriteAppend(st, a[1..], b);
      ThenAssociates(ReplacePiece(st, a[0]), RewritePieces(st, a[1..]), RewritePieces(st, b));
    }
  }

  /** Characters outside any match come out unchanged and push nothing. */
  lemma {:induction false} PlainPiecesKept(st: Settings, t: string)
    ensures RewritePieces(st, PlainPieces(t)) == Rewritten(t, [])
    decreases |t|
  {
    if t != [] {
      assert PlainPieces(t)[1..] == PlainPieces(t[1..]);
      PlainPiecesKept(st, t[1..]);
      assert [t[0]] + t[1..] == t;
    }
  }

  /** The callback of the replacement, with its style loop. */
  method ReplaceSegment(st: Settings, m: Segment) returns (r: Rewritten)
    ensures r == Replace(st, m)
  {
    if !st.color {
      return Rewritten(m.content, []);
    }
    var style := FindStyle(st.styles, m.start, m.end);
    if style.None? {
      return Rewritten(m.content, []);
    }
    return Rewritten("%c%s%c", [style.value.value, m.content, Reset]);
  }

  /** The replacement pass: the rewritten text, and the arguments in the order they were pushed. */
  method RewriteMessage(st: Settings, message: string) returns (result: string, args: seq<string>)
    ensures Rewritten(result, args) == Rewrite(st, message)
  {
    result, args := "", [];
    ghost var ms := Matches(message);
    var i := 0;
    while i < |message|
      invariant 0 <= i <= |message|
      invariant Rewrite(st, message) == Then(Rewritten(result, args), RewritePieces(st, PiecesFrom(message, ms, i)))
      decreases |message| - i
    {
      var m := MatchAt(message, i);
      assert m == ms[i];
      ghost var before := i;
      ghost var piece;
      var here;
      if m.Some? {
        here := ReplaceSegment(st, m.value);
        piece := Matched(m.value);
        i := m.value.next;
      } else {
        here := Rewritten([message[i]], []);
        piece := Unmatched(message[i]);
        i := i + 1;
      }
      assert PiecesFrom(message, ms, before) == [piece] + PiecesFrom(message, ms, i);
      RewriteCons(st, piece, PiecesFrom(message, ms, i));
      ThenAssociates(Rewritten(result, args), here, RewritePieces(st, PiecesFrom(message, ms, i)));
      result, args := result + here.text, args + here.args;
    }
    assert result + "" == result && args + [] == args;
  }

  /** `parts`: the trimmed text first, then the collected arguments. */
  function Parts(st: Settings, message: string): seq<string> {
    var r := Rewrite(st, message);
    [Trim(r.text)] + r.args
  }

  lemma PartsOf(st: Settings, message: string, r: Rewritten)
    requires Rewrite(st, message) == r
    ensures Parts(st, message) == [Trim(r.text)] + r.args
  {
  }

  /** `format(message)` without its console output, which the pipeline records. */
  method Format(st: Settings, message: string) returns (parts: seq<string>)
    ensures parts == Parts(st, message)
  {
    var result, args := RewriteMessage(st, message);
    parts := [Trim(result)] + args;
  }

  // ---------------------------------------------------------------------------
  // properties of the result

  /** The number of matched pieces whose codes fit a style, with colour on. */
  function Styled(st: Settings, ps: seq<Piece>): nat
    decreases |ps|
  {
    if ps == [] then 0
    else
      (if ps[0].Matched? && st.color && StyleFor(st.styles, ps[0].m.start, ps[0].m.end).Some? then 1 else 0)
      + Styled(st, ps[1..])
  }

  /**
   * The arguments come in triples: the CSS value of one of the styles, the
   * segment's content and the reset.
   */
  predicate Triples(args: seq<string>, styles: Styles)
    decreases |args|
  {
    args == []
    || (|args| >= 3 && (exists k :: 0 <= k < |styles| && styles[k].1.value == args[0])
        && args[2] == Reset && Triples(args[3..], styles))
  }

  lemma {:induction false} TriplesAppend(a: seq<string>, b: seq<string>, styles: Styles)
    requires Triples(a, styles) && Triples(b, styles)
    ensures Triples(a + b, styles)
    decreases |a|
  {
    if a != [] {
      TriplesAppend(a[3..], b, styles);
      assert (a + b)[3..] == a[3..] + b;
      var k :| 0 <= k < |styles| && styles[k].1.value == a[0];
      assert styles[k].1.value == (a + b)[0];
      assert (a + b)[2] == Reset;
    } else {
      assert a + b == b;
    }
  }

  /** The arguments of one replacement: a triple for a styled segment, none otherwise. */
  lemma ReplaceArguments(st: Settings, m: Segment)
    ensures |Replace(st, m).args| == if st.color && StyleFor(st.styles, m.start, m.end).Some? then 3 else 0
    ensures Triples(Replace(st, m).args, st.styles)
  {
    var args := Replace(st, m).args;
    if st.color && StyleFor(st.styles, m.start, m.end).Some? {
      var style := StyleFor(st.styles, m.start, m.end).value;
      StyleFromFirst(st.styles, m.start, m.end, 0);
      var k :| 0 <= k < |st.styles| && st.styles[k].1 == style;
      assert st.styles[k].1.value == args[0];
      assert args[3..] == [];
    }
  }

  /** Three arguments per styled segment, and each triple has the shape the callback pushes. */
  lemma {:induction false} ArgumentsPerSegment(st: Settings, ps: seq<Piece>)
    ensures |RewritePieces(st, ps).args| == 3 * Styled(st, ps)
    ensures Triples(RewritePieces(st, ps).args, st.styles)
    decreases |ps|
  {
    if ps != [] {
      var here := ReplacePiece(st, ps[0]);
      ArgumentsPerSegment(st, ps[1..]);
      if ps[0].Matched? {
        ReplaceArguments(st, ps[0].m);
      } else {
        assert here.args == [];
      }
      TriplesAppend(here.args, RewritePieces(st, ps[1..]).args, st.styles);
    }
  }

  /** The parts are the message and then exactly three arguments per styled segment. */
  lemma PartsCount(st: Settings, message: string)
    ensures |Parts(st, message)| == 1 + 3 * Styled(st, Pieces(message))
    ensures Triples(Parts(st, message)[1..], st.styles)
  {
    ArgumentsPerSegment(st, Pieces(message));
    assert Parts(st, message)[1..] == Rewrite(st, message).args;
  }

  /** With colour off no arguments are collected; each segment is replaced by its content. */
  lemma {:induction false} ColorOffNoArguments(st: Settings, ps: seq<Piece>)
    requires !st.color
    ensures RewritePieces(st, ps).args == []
    ensures Styled(st, ps) == 0
    decreases |ps|
  {
    if ps != [] {
      ColorOffNoArguments(st, ps[1..]);
    }
  }

  /** A message without escapes comes back trimmed, with no arguments. */
  lemma NoEscapesNoArguments(st: Settings, message: string)
    requires Esc !in message
    ensures Parts(st, message) == [Trim(message)]
  {
    var ms := Matches(message);
    assert message[0..|message|] == message;
    NoMatchesWithoutEscape(message, 0, |message|);
    PlainTextKept(message, ms, 0, |message|);
    assert PiecesFrom(message, ms, |message|) == [];
    assert PlainPieces(message) + [] == PlainPieces(message);
    PlainPiecesKept(st, message);
  }

  lemma {:induction false} OutputDoesNotChangeRewrite(st: Settings, output: bool, ps: seq<Piece>)
    ensures RewritePieces(st.(output := output), ps) == RewritePieces(st, ps)
    decreases |ps|
  {
    if ps != [] {
      OutputDoesNotChangeRewrite(st, output, ps[1..]);
    }
  }

  /** The parts do not depend on `output`, which only decides whether they are logged. */
  lemma OutputDoesNotChangeParts(st: Settings, output: bool, message: string)
    ensures Parts(st.(output := output), message) == Parts(st, message)
  {
    OutputDoesNotChangeRewrite(st, output, Pieces(message));
  }

  /**
   * A segment whose codes fit a style, with colour on, turns into one
   * placeholder and three arguments: the style's CSS, the content and the
   * reset; the text after it is kept.
   */
  lemma StyledSegmentParts(st: Settings, d1: string, content: string, d2: string, rest: string)
    requires |d1| >= 1 && AllDigits(d1) && |d2| >= 1 && AllDigits(d2)
    requires |content| >= 1 && Esc !in content && NoLineTerminator(content) && Esc !in rest
    requires st.color && StyleFor(st.styles, d1, d2).Some?
    ensures Parts(st, CodeText(d1) + content + CodeText(d2) + rest)
      == [Trim("%c%s%c" + rest), StyleFor(st.styles, d1, d2).value.value, content, Reset]
  {
    var head := CodeText(d1) + content + CodeText(d2);
    var m := Segment(d1, content, d2, |head|);
    SegmentPieces(d1, content, d2, rest);
    RewriteCons(st, Matched(m), PlainPieces(rest));
    PlainPiecesKept(st, rest);
    var args := [StyleFor(st.styles, d1, d2).value.value, content, Reset];
    assert Replace(st, m) == Rewritten("%c%s%c", args);
    assert args + [] == args;
    PartsOf(st, head + rest, Rewritten("%c%s%c" + rest, args));
    ConsOfThree(Trim("%c%s%c" + rest), args[0], content, Reset);
  }

  lemma ConsOfThree<T>(x: T, a: T, b: T, c: T)
    ensures [x] + [a, b, c] == [x, a, b, c]
  {
  }

  /**
   * A segment whose codes fit no style, or any segment with colour off,
   * turns into its bare content and pushes nothing.
   */
  lemma UnknownCodesGiveContent(st: Settings, d1: string, content: string, d2: string, rest: string)
    requires |d1| >= 1 && AllDigits(d1) && |d2| >= 1 && AllDigits(d2)
    requires |content| >= 1 && Esc !in content && NoLineTerminator(content) && Esc !in rest
    requires !st.color || StyleFor(st.styles, d1, d2).None?
    ensures Rewrite(st, CodeText(d1) + content + CodeText(d2) + rest) == Rewritten(content + rest, [])
  {
    var head := CodeText(d1) + content + CodeText(d2);
    var m := Segment(d1, content, d2, |head|);
    SegmentPieces(d1, content, d2, rest);
    RewriteCons(st, Matched(m), PlainPieces(rest));
    PlainPiecesKept(st, rest);
    assert Replace(st, m) == Rewritten(content, []);
  }

  /**
   * A red level name as the Human transform colours it, with the default
   * settings, turns into `%c%s%c` and the red CSS, the name and the reset.
   */
  lemma RedLevelName(rest: string)
    requires Esc !in rest
    ensures Parts(Construct(BrowserOptions(None, None, None)), CodeText("31") + "error:" + CodeText("39") + rest)
      == [Trim("%c%s%c" + rest), "color:red", "error:", Reset]
  {
    var st := Construct(BrowserOptions(None, None, None));
    assert StyleFor(st.styles, "31", "39") == Some(Style("31", "39", "color:red"));
    StyledSegmentParts(st, "31", "error:", "39", rest);
  }
}
