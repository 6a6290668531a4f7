/**
 * The JavaScript string operations the logger relies on, stated over `seq<char>`:
 * `indexOf`, `split` on a one-character separator, `trim`, the `\s` and `.`
 * character classes of regular expressions, and `Number(string)` for the
 * decimal literals a stack frame can carry.
 */
module JsText {
  import opened Wrappers

  /** The line terminators of ECMAScript: the characters the regex `.` refuses. */
  predicate IsLineTerminator(c: char) {
    c == '\n' || c == '\r' || c == '\U{2028}' || c == '\U{2029}'
  }

  /** The characters of the regex class `\s`, which are also those `trim` removes. */
  predicate IsSpace(c: char) {
    c == '\t' || c == '\U{B}' || c == '\U{C}' || c == ' ' || c == '\U{A0}' || c == '\U{FEFF}'
    || c == '\U{1680}' || ('\U{2000}' <= c <= '\U{200A}') || c == '\U{202F}' || c == '\U{205F}'
    || c == '\U{3000}' || IsLineTerminator(c)
  }

  predicate IsDigit(c: char) { '0' <= c <= '9' }

  predicate NoLineTerminator(s: string) {
    forall i :: 0 <= i < |s| ==> !IsLineTerminator(s[i])
  }

  predicate AllSpace(s: string) {
    forall i :: 0 <= i < |s| ==> IsSpace(s[i])
  }

  predicate AllDigits(s: string) {
    forall i :: 0 <= i < |s| ==> IsDigit(s[i])
  }

  // ---------------------------------------------------------------------------
  // indexOf

  /** `needle` occurs in `s` starting at index `i`. */
  predicate OccursAt(s: string, needle: string, i: int) {
    0 <= i && i + |needle| <= |s| && s[i..i + |needle|] == needle
  }

  /** `s.indexOf(needle, from)`: the first occurrence at or after `from`, or -1. */
  function IndexFrom(s: string, needle: string, from: nat): (r: int)
    ensures r == -1 || (from <= r && OccursAt(s, needle, r))
    ensures r == -1 ==> forall j :: from <= j ==> !OccursAt(s, needle, j)
    ensures r != -1 ==> forall j :: from <= j < r ==> !OccursAt(s, needle, j)
    decreases |s| - from
  {
    if from + |needle| > |s| then -1
    else if s[from..from + |needle|] == needle then from
    else IndexFrom(s, needle, from + 1)
  }

  /** `s.indexOf(needle)`. */
  function IndexOf(s: string, needle: string): (r: int)
    ensures r == -1 <==> forall j :: !OccursAt(s, needle, j)
    ensures r != -1 ==> OccursAt(s, needle, r) && forall j :: 0 <= j < r ==> !OccursAt(s, needle, j)
  {
    IndexFrom(s, needle, 0)
  }

  /** `s.indexOf(needle) !== -1`. */
  predicate Contains(s: string, needle: string) {
    IndexOf(s, needle) != -1
  }

  lemma ContainsAt(s: string, needle: string, i: int)
    requires OccursAt(s, needle, i)
    ensures Contains(s, needle)
  {
  }

  /** Every string contains itself inside any surrounding text. */
  lemma ContainsInfix(a: string, needle: string, b: string)
    ensures Contains(a + needle + b, needle)
  {
    var s := a + needle + b;
    assert s[|a|..|a| + |needle|] == needle;
    ContainsAt(s, needle, |a|);
  }

  /** A one-character needle occurs exactly where that character is. */
  lemma ContainsChar(s: string, c: char)
    ensures Contains(s, [c]) <==> c in s
  {
    if Contains(s, [c]) {
      var i := IndexOf(s, [c]);
      assert s[i..i + 1] == [c];
      assert s[i] == s[i..i + 1][0];
    }
    if c in s {
      var i :| 0 <= i < |s| && s[i] == c;
      assert s[i..i + 1] == [c];
      ContainsAt(s, [c], i);
    }
  }

  // ---------------------------------------------------------------------------
  // split on a single character

  /** The first index of `c` at or after `from`, if any. */
  function FindChar(s: string, c: char, from: nat): (r: int)
    requires from <= |s|
    ensures r == -1 || (from <= r < |s| && s[r] == c)
    ensures r == -1 ==> c !in s[from..]
    ensures r != -1 ==> c !in s[from..r]
    decreases |s| - from
  {
    if from == |s| then -1
    else if s[from] == c then from
    else
      var r := FindChar(s, c, from + 1);
      assert s[from..] == [s[from]] + s[from + 1..];
      assert r != -1 ==> s[from..r] == [s[from]] + s[from + 1..r];
      r
  }

  /** Joins pieces with a one-character separator; the inverse of `Split`. */
  function Join(pieces: seq<string>, sep: char): (r: string)
    requires |pieces| >= 1
    decreases |pieces|
  {
    if |pieces| == 1 then pieces[0] else pieces[0] + [sep] + Join(pieces[1..], sep)
  }

  /**
   * `s.split(sep)` for a one-character separator: at least one piece, no
   * piece contains the separator, and joining the pieces back gives `s`.
   */
  function Split(s: string, sep: char): (r: seq<string>)
    ensures |r| >= 1
    ensures forall i :: 0 <= i < |r| ==> sep !in r[i]
    ensures Join(r, sep) == s
    decreases |s|
  {
    var i := FindChar(s, sep, 0);
    assert s[0..] == s;
    if i == -1 then [s]
    else
      var rest := Split(s[i + 1..], sep);
      assert s == s[..i] + [sep] + s[i + 1..];
      [s[..i]] + rest
  }

  /** Joining and splitting again gives back the pieces: the other half of the round trip. */
  lemma {:induction false} SplitJoin(pieces: seq<string>, sep: char)
    requires |pieces| >= 1
    requires forall i :: 0 <= i < |pieces| ==> sep !in pieces[i]
    ensures Split(Join(pieces, sep), sep) == pieces
    decreases |pieces|
  {
    var p := pieces[0];
    if |pieces| == 1 {
      assert FindChar(p, sep, 0) == -1 by {
        assert p[0..] == p;
      }
    } else {
      var rest := Join(pieces[1..], sep);
      var s := p + [sep] + rest;
      assert s == Join(pieces, sep);
      var i := FindChar(s, sep, 0);
      assert s[|p|] == sep;
      assert i == |p| by {
        assert s[0..] == s;
        assert s[0..|p|] == p;
      }
      assert s[..i] == p;
      assert s[i + 1..] == rest;
      SplitJoin(pieces[1..], sep);
    }
  }

  // ---------------------------------------------------------------------------
  // trim

  /** Where `trim` starts: the first index at or after `i` that is not white space. */
  function TrimStartAt(s: string, i: nat): (a: nat)
    requires i <= |s|
    ensures i <= a <= |s|
    decreases |s| - i
  {
    if i < |s| && IsSpace(s[i]) then TrimStartAt(s, i + 1) else i
  }

  /** Where `trim` ends: the last index down to `lo` that does not follow white space. */
  function TrimEndAt(s: string, lo: nat, j: nat): (b: nat)
    requires lo <= j <= |s|
    ensures lo <= b <= j
    decreases j
  {
    if j > lo && IsSpace(s[j - 1]) then TrimEndAt(s, lo, j - 1) else j
  }

  /** Everything `TrimStartAt` skips is white space, and it stops at the end or before a non-space. */
  lemma {:induction false} TrimStartAtSpec(s: string, i: nat)
    requires i <= |s|
    ensures var a := TrimStartAt(s, i);
      (forall k :: i <= k < a ==> IsSpace(s[k])) && (a == |s| || !IsSpace(s[a]))
    decreases |s| - i
  {
    if i < |s| && IsSpace(s[i]) {
      TrimStartAtSpec(s, i + 1);
    }
  }

  /** Everything `TrimEndAt` skips is white space, and it stops at `lo` or after a non-space. */
  lemma {:induction false} TrimEndAtSpec(s: string, lo: nat, j: nat)
    requires lo <= j <= |s|
    ensures var b := TrimEndAt(s, lo, j);
      (forall k :: b <= k < j ==> IsSpace(s[k])) && (b == lo || !IsSpace(s[b - 1]))
    decreases j
  {
    if j > lo && IsSpace(s[j - 1]) {
      TrimEndAtSpec(s, lo, j - 1);
    }
  }

  /** `trim()`: white space and line terminators removed from both ends. */
  function Trim(s: string): string {
    var a := TrimStartAt(s, 0);
    s[a..TrimEndAt(s, a, |s|)]
  }

  /** `r` is the infix of `s` at `i`, and only white space lies before and after it. */
  predicate SpaceAround(s: string, r: string, i: int) {
    0 <= i <= |s| - |r| && r == s[i..i + |r|]
    && (forall k :: 0 <= k < i ==> IsSpace(s[k])) && (forall k :: i + |r| <= k < |s| ==> IsSpace(s[k]))
  }

  /** `trim` removes only white space, and what it keeps neither starts nor ends with any. */
  lemma TrimSpec(s: string)
    ensures exists i :: SpaceAround(s, Trim(s), i)
    ensures var r := Trim(s); r == [] || (!IsSpace(r[0]) && !IsSpace(r[|r| - 1]))
  {
    var a := TrimStartAt(s, 0);
    var b := TrimEndAt(s, a, |s|);
    TrimStartAtSpec(s, 0);
    TrimEndAtSpec(s, a, |s|);
    var r := s[a..b];
    assert Trim(s) == r;
    assert r == s[a..a + |r|];
    assert SpaceAround(s, r, a);
    assert r != [] ==> r[0] == s[a] && r[|r| - 1] == s[b - 1];
  }

  /** Text that neither starts nor ends with white space is left alone by `trim`. */
  lemma TrimKeepsTrimmed(s: string)
    requires s == [] || (!IsSpace(s[0]) && !IsSpace(s[|s| - 1]))
    ensures Trim(s) == s
  {
    assert TrimStartAt(s, 0) == 0;
    if s != [] {
      assert TrimEndAt(s, 0, |s|) == |s|;
    }
    assert s[0..|s|] == s;
  }

  // ---------------------------------------------------------------------------
  // Number(string), for integer literals

  /** The value of a run of decimal digits. */
  function DigitsValue(s: string): (n: nat)
    requires AllDigits(s)
    decreases |s|
  {
    if s == [] then 0 else 10 * DigitsValue(s[..|s| - 1]) + (s[|s| - 1] as int - '0' as int)
  }

  /** The decimal digits of a natural number, without leading zeros. */
  function NatToString(n: nat): (s: string)
    ensures |s| >= 1 && AllDigits(s)
    ensures s[0] == '0' ==> n == 0
    decreases n
  {
    if n < 10 then [('0' as int + n) as char]
    else NatToString(n / 10) + [('0' as int + n % 10) as char]
  }

  /** `String(n)` for an integer. */
  function IntToString(n: int): (s: string)
    ensures |s| >= 1
    ensures n >= 0 ==> AllDigits(s)
    ensures n < 0 ==> s[0] == '-' && AllDigits(s[1..])
  {
    if n >= 0 then NatToString(n) else "-" + NatToString(-n)
  }

  /** Reading the printed digits gives the number back. */
  lemma {:induction false} DigitsOfNat(n: nat)
    ensures DigitsValue(NatToString(n)) == n
    decreases n
  {
    var s := NatToString(n);
    if n >= 10 {
      DigitsOfNat(n / 10);
      assert s[..|s| - 1] == NatToString(n / 10);
    }
  }

  /**
   * The result of `Number(text)`: an integer, or a string the model does not
   * evaluate (`NaN`, a value with a fractional part, or a hexadecimal, octal,
   * binary or `Infinity` literal).
   */
  datatype NumberValue = Int(value: int) | NotInteger(text: string)

  /** `v` times ten to the power `k`, one factor of ten at a time. */
  function Scale(v: int, k: nat): (r: int)
    ensures v >= 0 ==> r >= 0
  {
    if k == 0 then v else 10 * Scale(v, k - 1)
  }

  /** Scaling commutes with negation. */
  lemma {:induction false} ScaleNegate(v: int, k: nat)
    ensures Scale(-v, k) == -Scale(v, k)
  {
    if k > 0 {
      ScaleNegate(v, k - 1);
    }
  }

  /** `m` divided by ten to the power `k`, when that leaves no remainder. */
  function Unscale(m: nat, k: nat): Option<nat> {
    if k == 0 then Some(m)
    else if m % 10 == 0 then Unscale(m / 10, k - 1)
    else None
  }

  /** `Unscale` finds the quotient exactly when there is one. */
  lemma {:induction false} UnscaleSpec(m: nat, k: nat)
    ensures Unscale(m, k).Some? ==> Scale(Unscale(m, k).value, k) == m
    ensures Unscale(m, k).None? ==> forall w :: Scale(w, k) != m
  {
    if k > 0 {
      UnscaleSpec(m / 10, k - 1);
    }
  }

  /** The end of the run of digits that starts at `i`. */
  function DigitsEnd(t: string, i: nat): (j: nat)
    requires i <= |t|
    ensures i <= j <= |t| && AllDigits(t[i..j])
    ensures j < |t| ==> !IsDigit(t[j])
    decreases |t| - i
  {
    if i < |t| && IsDigit(t[i]) then
      var j := DigitsEnd(t, i + 1);
      assert forall k :: 0 <= k < j - i ==> t[i..j][k] == t[i + k];
      j
    else i
  }

  /**
   * A decimal literal: its sign, its digits read as one number (the integer
   * digits followed by the fraction digits), and the power of ten that
   * number is multiplied by.
   */
  datatype Decimal = Decimal(negative: bool, mantissa: nat, scale: int)

  /** The integer digits `t[a..b]` followed by the fraction digits `t[c..d]`, read as one number. */
  function Mantissa(t: string, a: nat, b: nat, c: nat, d: nat): nat
    requires a <= b <= c <= d <= |t| && AllDigits(t[a..b]) && AllDigits(t[c..d])
  {
    Scale(DigitsValue(t[a..b]), d - c) + DigitsValue(t[c..d])
  }

  /** The exponent that follows an `e` at `e - 1`: an optional sign, then digits up to the end. */
  function ParseExponent(t: string, e: nat): Option<int>
    requires e <= |t|
  {
    var g := if e < |t| && (t[e] == '-' || t[e] == '+') then e + 1 else e;
    var f := DigitsEnd(t, g);
    if f == g || f < |t| then None
    else if g == e + 1 && t[e] == '-' then Some(-(DigitsValue(t[g..f]) as int))
    else Some(DigitsValue(t[g..f]) as int)
  }

  /**
   * The decimal literal `Number` accepts after trimming: an optional sign,
   * integer digits, an optional `.` with fraction digits, at least one digit
   * in all, and an optional exponent `e`/`E` with an optional sign and at
   * least one digit. Anything else is not a decimal literal.
   */
  function ParseDecimal(t: string): Option<Decimal> {
    var a := if |t| > 0 && (t[0] == '-' || t[0] == '+') then 1 else 0;
    var b := DigitsEnd(t, a);
    var c := if b < |t| && t[b] == '.' then b + 1 else b;
    DecimalFrom(t, a, b, c, DigitsEnd(t, c))
  }

  /**
   * The rest of `ParseDecimal` once the sign `t[..a]`, the integer digits
   * `t[a..b]` and the fraction digits `t[c..d]` are known.
   */
  function DecimalFrom(t: string, a: nat, b: nat, c: nat, d: nat): Option<Decimal>
    requires a <= b <= c <= d <= |t| && AllDigits(t[a..b]) && AllDigits(t[c..d])
  {
    if a == b && c == d then None
    else
      var x := Decimal(a == 1 && t[0] == '-', Mantissa(t, a, b, c, d), -(d - c));
      if d == |t| then Some(x)
      else if t[d] != 'e' && t[d] != 'E' then None
      else match ParseExponent(t, d + 1)
        case None => None
        case Some(k) => Some(x.(scale := x.scale + k))
  }

  /** The literal `x` stands for the integer `v`: its signed mantissa times ten to its scale is `v`. */
  predicate Denotes(x: Decimal, v: int) {
    var m := if x.negative then -(x.mantissa as int) else x.mantissa as int;
    if x.scale >= 0 then Scale(m, x.scale) == v else m == Scale(v, -x.scale)
  }

  /** The integer a decimal literal stands for, if its value has no fractional part. */
  function DecimalInteger(x: Decimal): (r: Option<int>)
    ensures r.Some? ==> Denotes(x, r.value)
    ensures r.None? ==> forall v :: !Denotes(x, v)
  {
    var m := if x.negative then -(x.mantissa as int) else x.mantissa as int;
    if x.scale >= 0 then Some(Scale(m, x.scale))
    else
      UnscaleSpec(x.mantissa, -x.scale);
      match Unscale(x.mantissa, -x.scale)
      case None =>
        forall v: int ensures !Denotes(x, v) {
          ScaleNegate(v, -x.scale);
        }
        None
      case Some(u) =>
        ScaleNegate(u, -x.scale);
        Some(if x.negative then -(u as int) else u as int)
  }

  /**
   * `Number(s)`: surrounding white space is ignored, the empty string is 0,
   * and a decimal literal is its value when that value is an integer.
   */
  function ToNumber(s: string): (r: NumberValue)
    ensures Trim(s) == [] ==> r == Int(0)
    ensures Trim(s) != [] ==>
      (r.Int? <==> ParseDecimal(Trim(s)).Some? && exists v :: Denotes(ParseDecimal(Trim(s)).value, v))
    ensures Trim(s) != [] && r.Int? ==> Denotes(ParseDecimal(Trim(s)).value, r.value)
    ensures r.NotInteger? ==> r.text == s
  {
    var t := Trim(s);
    if t == [] then Int(0)
    else match ParseDecimal(t)
      case None => NotInteger(s)
      case Some(x) =>
        match DecimalInteger(x)
        case None => NotInteger(s)
        case Some(v) => Int(v)
  }

  /** `Number("-1.0")` is the integer -1: a fraction of zeros does not make a value fractional. */
  lemma NumberOfZeroFraction()
    ensures ToNumber("-1.0") == Int(-1)
  {
    var t := "-1.0";
    TrimKeepsTrimmed(t);
    assert DigitsEnd(t, 1) == 2 && DigitsEnd(t, 3) == 4;
    assert t[1..2] == "1" && t[3..4] == "0";
    assert ParseDecimal(t) == Some(Decimal(true, 10, -1));
  }

  /** A run of digits from `i` to `j` that nothing else extends ends at `j`. */
  lemma {:induction false} DigitsEndAt(t: string, i: nat, j: nat)
    requires i <= j <= |t| && AllDigits(t[i..j]) && (j < |t| ==> !IsDigit(t[j]))
    ensures DigitsEnd(t, i) == j
    decreases j - i
  {
    if i < j {
      assert IsDigit(t[i..j][0]);
      assert t[i + 1..j] == t[i..j][1..];
      DigitsEndAt(t, i + 1, j);
    }
  }

  /** Text that starts and ends with a digit is left alone by `trim`. */
  lemma DigitEndsAreTrimmed(t: string)
    requires |t| >= 1 && IsDigit(t[0]) && IsDigit(t[|t| - 1])
    ensures Trim(t) == t
  {
    TrimKeepsTrimmed(t);
  }

  /** Digits up to the end after an `e` are read as a positive exponent. */
  lemma ParseExponentDigits(t: string, e: nat)
    requires e < |t| && AllDigits(t[e..])
    ensures ParseExponent(t, e) == Some(DigitsValue(t[e..]) as int)
  {
    assert t[e..] == t[e..|t|];
    assert IsDigit(t[e..][0]);
    DigitsEndAt(t, e, |t|);
  }

  /** Digits, an `e` and digits again form a decimal literal with that mantissa and exponent. */
  lemma DecimalWithExponent(t: string, b: nat)
    requires 1 <= b && b + 1 < |t| && AllDigits(t[..b]) && t[b] == 'e' && AllDigits(t[b + 1..])
    ensures ParseDecimal(t) == Some(Decimal(false, DigitsValue(t[..b]), DigitsValue(t[b + 1..])))
  {
    assert t[0..b] == t[..b] && t[b..b] == [];
    assert IsDigit(t[..b][0]);
    DigitsEndAt(t, 0, b);
    DigitsEndAt(t, b, b);
    ParseExponentDigits(t, b + 1);
    assert ParseDecimal(t) == DecimalFrom(t, 0, b, b, b);
  }

  /** `Number("<n>e<k>")` is `n` times ten to the power `k`. */
  lemma NumberOfExponentForm(n: nat, k: nat)
    ensures ToNumber(NatToString(n) + "e" + NatToString(k)) == Int(Scale(n, k))
  {
    var s := NatToString(n);
    var e := NatToString(k);
    var t := s + "e" + e;
    var b := |s|;
    assert t[0] == s[0] && t[|t| - 1] == e[|e| - 1];
    DigitEndsAreTrimmed(t);
    assert t[..b] == s && t[b] == 'e' && t[b + 1..] == e;
    DecimalWithExponent(t, b);
    DigitsOfNat(n);
    DigitsOfNat(k);
    assert DecimalInteger(Decimal(false, n, k)) == Some(Scale(n, k));
  }

  /** `Number("1.5")` has a fractional part, so it is not an integer. */
  lemma NumberOfFraction()
    ensures ToNumber("1.5").NotInteger?
  {
    var t := "1.5";
    TrimKeepsTrimmed(t);
    assert DigitsEnd(t, 0) == 1 && DigitsEnd(t, 2) == 3;
    assert t[0..1] == "1" && t[2..3] == "5";
    assert ParseDecimal(t) == Some(Decimal(false, 15, -1));
  }

  /** A run of digits, with a minus sign in front or not, is a decimal literal with no scale. */
  lemma SignedDigits(t: string, a: nat)
    requires a <= 1 && a < |t| && (a == 1 <==> t[0] == '-') && AllDigits(t[a..])
    ensures ParseDecimal(t) == Some(Decimal(a == 1, DigitsValue(t[a..]), 0))
  {
    assert t[a..] == t[a..|t|] && t[|t|..|t|] == [];
    assert IsDigit(t[a..][0]);
    DigitsEndAt(t, a, |t|);
    assert ParseDecimal(t) == DecimalFrom(t, a, |t|, |t|, |t|);
  }

  /** `Number(String(n))` is `n` for every natural number. */
  lemma NumberOfNatString(n: nat)
    ensures ToNumber(NatToString(n)) == Int(n)
  {
    var s := NatToString(n);
    DigitEndsAreTrimmed(s);
    assert s[0..] == s;
    SignedDigits(s, 0);
    DigitsOfNat(n);
  }

  /** `Number(String(n))` is `n` for every integer. */
  lemma NumberOfIntString(n: int)
    ensures ToNumber(IntToString(n)) == Int(n)
  {
    if n >= 0 {
      NumberOfNatString(n);
    } else {
      var d := NatToString(-n);
      var s := "-" + d;
      assert IntToString(n) == s;
      assert s[1..] == d;
      assert Trim(s) == s by {
        assert s[|s| - 1] == d[|d| - 1] && IsDigit(d[|d| - 1]);
        TrimKeepsTrimmed(s);
      }
      DigitsOfNat(-n);
      SignedDigits(s, 1);
      assert DecimalInteger(Decimal(true, -n, 0)) == Some(n);
    }
  }
}
