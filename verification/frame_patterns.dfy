/**
 * The three regular-expression replacements `getLineInfo` applies to the
 * first `:`-separated part of a stack frame, each written out as the match
 * a backtracking JavaScript regex engine finds:
 *
 *  - `StripThroughAt`    replaces `/^.+?\s+at\s+/` with the empty string,
 *  - `CutParenTail`      replaces `/\s+\(.+$/` with the empty string,
 *  - `StripThroughParen` replaces `/^.+?\(/` with the empty string.
 *
 * `.` is any character but a line terminator and `\s` is `JsText.IsSpace`.
 */
module FramePatterns {
  import opened Wrappers
  import opened JsText

  /** The end of the run of white space starting at `i` (greedy `\s*`). */
  function SpaceRunEnd(s: string, i: nat): (r: nat)
    requires i <= |s|
    ensures i <= r <= |s|
    ensures AllSpace(s[i..r])
    ensures r == |s| || !IsSpace(s[r])
    decreases |s| - i
  {
    if i < |s| && IsSpace(s[i]) then
      var r := SpaceRunEnd(s, i + 1);
      assert s[i..r] == [s[i]] + s[i + 1..r];
      r
    else i
  }

  // ---------------------------------------------------------------------------
  // /^.+?\s+at\s+/

  /**
   * The lazy `^.+?` can stop after `k` characters and `\s+at\s+` matches from
   * there. Once `\s+` has taken a whole run of white space the next character
   * must be `a`, so no shorter run can succeed.
   */
  predicate AtMarkerAt(s: string, k: nat) {
    1 <= k < |s| && NoLineTerminator(s[..k]) && IsSpace(s[k]) &&
    var j := SpaceRunEnd(s, k);
    j + 2 < |s| && s[j] == 'a' && s[j + 1] == 't' && IsSpace(s[j + 2])
  }

  /** Where the match that starts its `\s+at\s+` at `k` ends. */
  function AtMarkerEnd(s: string, k: nat): (e: nat)
    requires AtMarkerAt(s, k)
    ensures k < e <= |s|
  {
    SpaceRunEnd(s, SpaceRunEnd(s, k) + 2)
  }

  /** The least `k` from `from` on where the lazy prefix can stop. */
  function FindAtMarker(s: string, from: nat): Option<nat>
    decreases |s| - from
  {
    if from >= |s| then None
    else if AtMarkerAt(s, from) then Some(from)
    else FindAtMarker(s, from + 1)
  }

  lemma {:induction false} FindAtMarkerSpec(s: string, from: nat)
    ensures FindAtMarker(s, from).Some? ==>
      var k := FindAtMarker(s, from).value;
      from <= k && AtMarkerAt(s, k) && forall j :: from <= j < k ==> !AtMarkerAt(s, j)
    ensures FindAtMarker(s, from).None? ==> forall j :: from <= j ==> !AtMarkerAt(s, j)
    decreases |s| - from
  {
    if from < |s| && !AtMarkerAt(s, from) {
      FindAtMarkerSpec(s, from + 1);
    }
  }

  /** `s.replace(/^.+?\s+at\s+/, '')`. */
  function StripThroughAt(s: string): (r: string)
    ensures |r| <= |s|
  {
    match FindAtMarker(s, 1)
    case None => s
    case Some(k) =>
      FindAtMarkerSpec(s, 1);
      s[AtMarkerEnd(s, k)..]
  }

  /**
   * The replacement removes the shortest prefix that ends in white space,
   * `at` and white space, and leaves text without such a prefix unchanged.
   */
  lemma StripThroughAtSpec(s: string)
    ensures (forall k :: !AtMarkerAt(s, k)) ==> StripThroughAt(s) == s
    ensures forall k: nat :: AtMarkerAt(s, k) && (forall j :: 1 <= j < k ==> !AtMarkerAt(s, j)) ==>
      StripThroughAt(s) == s[AtMarkerEnd(s, k)..]
  {
    FindAtMarkerSpec(s, 1);
  }

  /** The indentation and `at` of a V8 stack frame are removed, leaving what follows. */
  lemma StripThroughAtFrame(x: string)
    requires x == [] || !IsSpace(x[0])
    ensures StripThroughAt("    at " + x) == x
  {
    var s := "    at " + x;
    assert SpaceRunEnd(s, 6) == 7 by {
      assert SpaceRunEnd(s, 7) == 7;
    }
    assert SpaceRunEnd(s, 1) == 4 by {
      assert SpaceRunEnd(s, 4) == 4;
    }
    assert s[..1] == " ";
    assert AtMarkerAt(s, 1);
    assert FindAtMarker(s, 1) == Some(1);
    assert s[7..] == x;
  }

  // ---------------------------------------------------------------------------
  // /\s+\(.+$/

  /**
   * A match of `\s+\(.+$` starts at `p`: white space running up to a `(`,
   * followed by at least one character and no line terminator up to the end.
   */
  predicate ParenTailAt(s: string, p: nat) {
    p < |s| && IsSpace(s[p]) &&
    var e := SpaceRunEnd(s, p);
    e + 1 < |s| && s[e] == '(' && NoLineTerminator(s[e + 1..])
  }

  /** The leftmost start, from `from` on, of a match of `\s+\(.+$`. */
  function FindParenTail(s: string, from: nat): Option<nat>
    decreases |s| - from
  {
    if from >= |s| then None
    else if ParenTailAt(s, from) then Some(from)
    else FindParenTail(s, from + 1)
  }

  lemma {:induction false} FindParenTailSpec(s: string, from: nat)
    ensures FindParenTail(s, from).Some? ==>
      var p := FindParenTail(s, from).value;
      from <= p < |s| && ParenTailAt(s, p) && forall j :: from <= j < p ==> !ParenTailAt(s, j)
    ensures FindParenTail(s, from).None? ==> forall j :: from <= j ==> !ParenTailAt(s, j)
    decreases |s| - from
  {
    if from < |s| && !ParenTailAt(s, from) {
      FindParenTailSpec(s, from + 1);
    }
  }

  /** `s.replace(/\s+\(.+$/, '')`: everything from the leftmost match on is cut off. */
  function CutParenTail(s: string): (r: string)
    ensures |r| <= |s| && r == s[..|r|]
  {
    match FindParenTail(s, 0)
    case None => s
    case Some(p) =>
      FindParenTailSpec(s, 0);
      s[..p]
  }

  /** The cut keeps exactly the text before the leftmost match, or all of it when none. */
  lemma CutParenTailSpec(s: string)
    ensures (forall p :: !ParenTailAt(s, p)) ==> CutParenTail(s) == s
    ensures forall p: nat :: ParenTailAt(s, p) && (forall j :: 0 <= j < p ==> !ParenTailAt(s, j)) ==>
      CutParenTail(s) == s[..p]
  {
    FindParenTailSpec(s, 0);
  }

  /**
   * In `m (f`, where the method name `m` has no `(` and does not end in
   * white space, the leftmost match is the ` (` after `m`.
   */
  lemma CutParenTailFrame(m: string, f: string)
    requires '(' !in m && (m == [] || !IsSpace(m[|m| - 1]))
    requires f != [] && NoLineTerminator(f)
    ensures CutParenTail(m + " (" + f) == m
  {
    var s := m + " (" + f;
    forall p | 0 <= p < |m|
      ensures !ParenTailAt(s, p)
    {
      if IsSpace(s[p]) {
        var e := SpaceRunEnd(s, p);
        assert forall i :: p <= i < e ==> IsSpace(s[i]) by {
          assert forall i :: p <= i < e ==> s[i] == s[p..e][i - p];
        }
        assert s[|m| - 1] == m[|m| - 1];
        assert e < |m|;
        assert s[e] == m[e];
        assert m[e] in m;
      }
    }
    assert SpaceRunEnd(s, |m| + 1) == |m| + 1;
    assert s[|m| + 2..] == f;
    assert ParenTailAt(s, |m|);
    CutParenTailSpec(s);
    assert s[..|m|] == m;
  }

  // ---------------------------------------------------------------------------
  // /^.+?\(/

  /** The lazy `^.+?` can stop after `k` characters, right before a `(`. */
  predicate OpenParenAt(s: string, k: nat) {
    1 <= k < |s| && s[k] == '(' && NoLineTerminator(s[..k])
  }

  function FindOpenParen(s: string, from: nat): Option<nat>
    decreases |s| - from
  {
    if from >= |s| then None
    else if OpenParenAt(s, from) then Some(from)
    else FindOpenParen(s, from + 1)
  }

  lemma {:induction false} FindOpenParenSpec(s: string, from: nat)
    ensures FindOpenParen(s, from).Some? ==>
      var k := FindOpenParen(s, from).value;
      from <= k < |s| && OpenParenAt(s, k) && forall j :: from <= j < k ==> !OpenParenAt(s, j)
    ensures FindOpenParen(s, from).None? ==> forall j :: from <= j ==> !OpenParenAt(s, j)
    decreases |s| - from
  {
    if from < |s| && !OpenParenAt(s, from) {
      FindOpenParenSpec(s, from + 1);
    }
  }

  /** `s.replace(/^.+?\(/, '')`: everything through the first `(` after the first character goes. */
  function StripThroughParen(s: string): (r: string)
    ensures |r| <= |s| && r == s[|s| - |r|..]
  {
    match FindOpenParen(s, 1)
    case None => s
    case Some(k) =>
      FindOpenParenSpec(s, 1);
      s[k + 1..]
  }

  /** The replacement removes through the first eligible `(`, or nothing when there is none. */
  lemma StripThroughParenSpec(s: string)
    ensures (forall k :: !OpenParenAt(s, k)) ==> StripThroughParen(s) == s
    ensures forall k: nat :: OpenParenAt(s, k) && (forall j :: 1 <= j < k ==> !OpenParenAt(s, j)) ==>
      StripThroughParen(s) == s[k + 1..]
  {
    FindOpenParenSpec(s, 1);
  }

  /** With no `(` and no line terminator in the non-empty prefix `a`, what follows `a(` is kept. */
  lemma StripThroughParenFrame(a: string, f: string)
    requires a != [] && '(' !in a && NoLineTerminator(a)
    ensures StripThroughParen(a + "(" + f) == f
  {
    var s := a + "(" + f;
    assert s[..|a|] == a;
    assert OpenParenAt(s, |a|);
    forall j | 1 <= j < |a|
      ensures !OpenParenAt(s, j)
    {
      assert s[j] == a[j];
      assert a[j] in a;
    }
    StripThroughParenSpec(s);
    assert s[|a| + 1..] == f;
  }
}
