/**
 * Configuration objects of the Logger and Transform classes and the deep
 * merge `setConfig` applies to them (`deep` in `transform.js`, `logger.js`
 * and `logger.ts`, `deepExtend` in `index.js`). A configuration maps keys to
 * settings; the merge is "later wins" key by key, and the `levels` object is
 * merged key by key too, the way an assignment `levels[name] = n` behaves.
 */
module Config {
  import opened Wrappers
  import opened Levels
  import JsText

  /** A `levels` object: as in any JavaScript object, no name occurs twice. */
  type LevelsObject = t: LevelTable | WellFormed(t) witness []

  /**
   * A configuration value: a number such as `lineOffset`, a `levels`
   * object, or a string. Booleans, `null` and other objects are not
   * represented.
   */
  datatype Setting = Number(n: int) | Table(levels: LevelsObject) | Text(s: string)

  /** A configuration object: its keys and the setting under each. */
  datatype Config = ConfigObject(entries: map<string, Setting>)

  /** `{}`. */
  const EmptyConfig: Config := ConfigObject(map[])

  /** The configuration of a Logger before any user configuration: line offset 0 and the default levels. */
  const DefaultConfig: Config :=
    (DefaultLevelsWellFormed(); ConfigObject(map["lineOffset" := Number(0), "levels" := Table(DefaultLevels)]))

  // ---------------------------------------------------------------------------
  // Assigning into a levels object

  /** The index of `name` in `t` from `k` on, or `|t|` when it is not declared there. */
  function NameIndex(t: LevelTable, name: string, k: nat): (r: nat)
    requires k <= |t|
    ensures k <= r <= |t|
    ensures r < |t| ==> t[r].0 == name
    ensures forall j :: k <= j < r ==> t[j].0 != name
    decreases |t| - k
  {
    if k == |t| || t[k].0 == name then k else NameIndex(t, name, k + 1)
  }

  /**
   * `levels[name] = n`: a declared name keeps its place and takes the new
   * number; a new name is added after all the others.
   */
  function SetLevel(t: LevelTable, name: string, n: int): (r: LevelTable)
    ensures |r| >= |t| && forall i :: 0 <= i < |t| ==> r[i].0 == t[i].0
    ensures (name, n) in r
  {
    var i := NameIndex(t, name, 0);
    if i < |t| then t[i := (name, n)] else t + [(name, n)]
  }

  /** After the assignment `name` holds `n`, every other name what it held, and no name is repeated. */
  lemma SetLevelSpec(t: LevelTable, name: string, n: int)
    requires WellFormed(t)
    ensures WellFormed(SetLevel(t, name, n))
    ensures forall m :: Lookup(SetLevel(t, name, n), m) == if m == name then Some(n) else Lookup(t, m)
  {
    var r := SetLevel(t, name, n);
    var i := NameIndex(t, name, 0);
    assert WellFormed(r);
    forall m
      ensures Lookup(r, m) == if m == name then Some(n) else Lookup(t, m)
    {
      if m == name {
        LookupIn(r, name, n);
      } else {
        LookupSpec(t, m);
        match Lookup(t, m)
        case Some(v) =>
          var j :| 0 <= j < |t| && t[j] == (m, v);
          assert r[j] == (m, v);
          LookupIn(r, m, v);
        case None =>
          LookupSpec(r, m);
      }
    }
  }

  /** `deep` applied to two levels objects: the entries of `b` assigned, in order, into `a`. */
  function MergeLevels(a: LevelTable, b: LevelTable): (r: LevelTable)
    decreases |b|
  {
    if b == [] then a else MergeLevels(SetLevel(a, b[0].0, b[0].1), b[1..])
  }

  /** The names of `a` keep their places at the front of the merged object. */
  lemma {:induction false} MergeLevelsKeepsOrder(a: LevelTable, b: LevelTable)
    ensures |MergeLevels(a, b)| >= |a|
    ensures forall i :: 0 <= i < |a| ==> MergeLevels(a, b)[i].0 == a[i].0
    decreases |b|
  {
    if b != [] {
      MergeLevelsKeepsOrder(SetLevel(a, b[0].0, b[0].1), b[1..]);
    }
  }

  /** Later wins inside the levels object: a name of `b` takes `b`'s number, any other keeps `a`'s. */
  lemma {:induction false} MergeLevelsSpec(a: LevelTable, b: LevelTable)
    requires WellFormed(a) && WellFormed(b)
    ensures WellFormed(MergeLevels(a, b))
    ensures forall m :: Lookup(MergeLevels(a, b), m) == if Lookup(b, m).Some? then Lookup(b, m) else Lookup(a, m)
    decreases |b|
  {
    if b != [] {
      var a' := SetLevel(a, b[0].0, b[0].1);
      SetLevelSpec(a, b[0].0, b[0].1);
      MergeLevelsSpec(a', b[1..]);
      forall m
        ensures Lookup(MergeLevels(a, b), m) == if Lookup(b, m).Some? then Lookup(b, m) else Lookup(a, m)
      {
        LookupCons(b, m);
        if m == b[0].0 {
          LookupSpec(b[1..], m);
        }
      }
    }
  }

  // ---------------------------------------------------------------------------
  // Merging whole configurations

  /** One key of `deep(a, b)` present in both: two levels objects merge, otherwise `b`'s value wins. */
  function MergeSetting(x: Setting, y: Setting): Setting {
    if x.Table? && y.Table? then
      MergeLevelsSpec(x.levels, y.levels);
      Table(MergeLevels(x.levels, y.levels))
    else y
  }

  /** `deep(a, b)`: every key of either, later wins, levels objects merged key by key. */
  function Merge(a: Config, b: Config): (r: Config)
    ensures r.entries.Keys == a.entries.Keys + b.entries.Keys
  {
    var x, y := a.entries, b.entries;
    ConfigObject(map k | k in x.Keys + y.Keys ::
      if k in x && k in y then MergeSetting(x[k], y[k]) else if k in y then y[k] else x[k])
  }

  /** `deep(c, ...ps)`: the configurations merged in, first to last. */
  function MergeAll(c: Config, ps: seq<Config>): Config
    decreases |ps|
  {
    if ps == [] then c else MergeAll(Merge(c, ps[0]), ps[1..])
  }

  /** One partial configuration merges like `deep(c, p)`. */
  lemma MergeAllOne(c: Config, p: Config)
    ensures MergeAll(c, [p]) == Merge(c, p)
  {
    assert [p][1..] == [];
  }

  /** Merging into an empty configuration gives back exactly what was merged in. */
  lemma MergeIntoEmpty(c: Config)
    ensures Merge(EmptyConfig, c) == c
    ensures MergeAll(EmptyConfig, [c]) == c
  {
    assert Merge(EmptyConfig, c).entries == c.entries;
    MergeAllOne(EmptyConfig, c);
  }

  /** Merging in an empty configuration changes nothing. */
  lemma MergeNothing(c: Config)
    ensures Merge(c, EmptyConfig) == c
  {
    assert Merge(c, EmptyConfig).entries == c.entries;
  }

  /** Setting `x` carries everything `y` states: the same value, or for levels the same number for each name of `y`. */
  ghost predicate Follows(x: Setting, y: Setting) {
    if y.Table? then x.Table? && forall m :: Lookup(y.levels, m).Some? ==> Lookup(x.levels, m) == Lookup(y.levels, m)
    else x == y
  }

  /** Configuration `c` carries every key of `p` with what `p` states for it. */
  ghost predicate Agrees(c: Config, p: Config) {
    forall k :: k in p.entries ==> k in c.entries && Follows(c.entries[k], p.entries[k])
  }

  /** The merged setting states everything the later one states. */
  lemma MergeSettingSpec(x: Setting, y: Setting)
    ensures Follows(MergeSetting(x, y), y)
  {
    if x.Table? && y.Table? {
      MergeLevelsSpec(x.levels, y.levels);
    }
  }

  /**
   * Later wins: the merge states everything the later configuration states
   * and keeps every other key of the earlier one as it was.
   */
  lemma MergeLaterWins(a: Config, b: Config)
    ensures Agrees(Merge(a, b), b)
    ensures forall k :: k in a.entries && k !in b.entries ==> Merge(a, b).entries[k] == a.entries[k]
  {
    var r := Merge(a, b).entries;
    forall k | k in b.entries
      ensures Follows(r[k], b.entries[k])
    {
      if k in a.entries {
        MergeSettingSpec(a.entries[k], b.entries[k]);
      }
    }
  }

  /** Merging the same configuration into two agreeing ones leaves them agreeing. */
  lemma MergeKeepsAgreement(c: Config, p: Config, q: Config)
    requires Agrees(c, p)
    ensures Agrees(Merge(c, q), Merge(p, q))
  {
    var c', p' := Merge(c, q).entries, Merge(p, q).entries;
    forall k | k in p'
      ensures k in c' && Follows(c'[k], p'[k])
    {
      if k in q.entries {
        if k in c.entries && c.entries[k].Table? && q.entries[k].Table? {
          MergeLevelsSpec(c.entries[k].levels, q.entries[k].levels);
          if k in p.entries && p.entries[k].Table? {
            MergeLevelsSpec(p.entries[k].levels, q.entries[k].levels);
          }
        }
      }
    }
  }

  /** The same partial configurations merged into two agreeing ones leave them agreeing. */
  lemma {:induction false} MergeAllKeepsAgreement(c: Config, p: Config, ps: seq<Config>)
    requires Agrees(c, p)
    ensures Agrees(MergeAll(c, ps), MergeAll(p, ps))
    decreases |ps|
  {
    if ps != [] {
      MergeKeepsAgreement(c, p, ps[0]);
      MergeLaterWins(c, ps[0]);
      MergeLaterWins(p, ps[0]);
      MergeAllKeepsAgreement(Merge(c, ps[0]), Merge(p, ps[0]), ps[1..]);
    }
  }

  /**
   * A child handed its parent's configuration `p` and then every partial
   * configuration `ps` the parent is given afterwards states everything the
   * parent states: the child's configuration is kept consistent with its
   * parent's.
   */
  lemma ChildFollowsParent(c: Config, p: Config, ps: seq<Config>)
    ensures Agrees(MergeAll(Merge(c, p), ps), MergeAll(p, ps))
  {
    MergeLaterWins(c, p);
    MergeAllKeepsAgreement(Merge(c, p), p, ps);
  }

  /** Whatever a configuration held, merging `ps` into it makes it state everything `ps` states. */
  lemma ReceivesPartials(c: Config, ps: seq<Config>)
    ensures Agrees(MergeAll(c, ps), MergeAll(EmptyConfig, ps))
  {
    MergeAllKeepsAgreement(c, EmptyConfig, ps);
  }

  /** Every configuration states what it states. */
  lemma AgreesItself(c: Config)
    ensures Agrees(c, c)
  {
    forall k | k in c.entries
      ensures Follows(c.entries[k], c.entries[k])
    {
    }
  }

  /** Agreement chains: what states everything `b` states also states everything `b` took from `c`. */
  lemma AgreesTransitive(a: Config, b: Config, c: Config)
    requires Agrees(a, b) && Agrees(b, c)
    ensures Agrees(a, c)
  {
    forall k | k in c.entries
      ensures k in a.entries && Follows(a.entries[k], c.entries[k])
    {
      var x, y, z := a.entries[k], b.entries[k], c.entries[k];
      if z.Table? {
        assert y.Table? && x.Table?;
        forall m | Lookup(z.levels, m).Some?
          ensures Lookup(x.levels, m) == Lookup(z.levels, m)
        {
          assert Lookup(y.levels, m) == Lookup(z.levels, m);
        }
      }
    }
  }

  /** `setConfig(...xs, ...ys)` merges like `setConfig(...xs)` followed by `setConfig(...ys)`. */
  lemma {:induction false} MergeAllAppend(c: Config, xs: seq<Config>, ys: seq<Config>)
    ensures MergeAll(c, xs + ys) == MergeAll(MergeAll(c, xs), ys)
    decreases |xs|
  {
    if xs != [] {
      assert (xs + ys)[1..] == xs[1..] + ys;
      MergeAllAppend(Merge(c, xs[0]), xs[1..], ys);
    } else {
      assert xs + ys == ys;
    }
  }

  /** `setConfig({a: 1}, {b: 2})` on an empty configuration gives `{a: 1, b: 2}`. */
  lemma TwoPartialsMerge()
    ensures MergeAll(EmptyConfig, [ConfigObject(map["a" := Number(1)]), ConfigObject(map["b" := Number(2)])])
      == ConfigObject(map["a" := Number(1), "b" := Number(2)])
  {
    var one := ConfigObject(map["a" := Number(1)]);
    var two := ConfigObject(map["b" := Number(2)]);
    MergeIntoEmpty(one);
    assert Merge(one, two).entries == map["a" := Number(1), "b" := Number(2)];
    assert [one, two][1..] == [two];
  }

  // ---------------------------------------------------------------------------
  // Reading the settings the logger uses

  /** `getConfig().levels`: the levels object, or an object with no names when there is none. */
  function LevelsOf(c: Config): (t: LevelTable)
    ensures "levels" in c.entries && c.entries["levels"].Table? ==> t == c.entries["levels"].levels
    ensures !("levels" in c.entries && c.entries["levels"].Table?) ==> t == []
  {
    if "levels" in c.entries && c.entries["levels"].Table? then c.entries["levels"].levels else []
  }

  /**
   * `getConfig().lineOffset` as the frame loop counts it down with `--offset`
   * until it is `0`: a number is used as it is; a text is first converted by
   * `Number`, so a positive integer text counts down like that number, while
   * `"0"`, a negative or non-integer text and any other value are never `0`
   * when first compared and never reach it, which `-1` stands for.
   */
  function LineOffsetOf(c: Config): (n: int)
    ensures "lineOffset" in c.entries && c.entries["lineOffset"].Number? ==> n == c.entries["lineOffset"].n
    ensures "lineOffset" in c.entries && c.entries["lineOffset"].Text? ==>
      var v := JsText.ToNumber(c.entries["lineOffset"].s);
      if v.Int? && v.value >= 1 then n == v.value else n < 0
    ensures !("lineOffset" in c.entries && (c.entries["lineOffset"].Number? || c.entries["lineOffset"].Text?)) ==> n < 0
  {
    if "lineOffset" !in c.entries then -1
    else match c.entries["lineOffset"]
      case Number(k) => k
      case Text(t) => (var v := JsText.ToNumber(t); if v.Int? && v.value >= 1 then v.value else -1)
      case Table(_) => -1
  }

  /** A text line offset such as `"2"` skips as many frames as the number it spells. */
  lemma TextLineOffset(k: nat)
    requires k >= 1
    ensures LineOffsetOf(ConfigObject(map["lineOffset" := Text(JsText.NatToString(k))])) == k
    ensures LineOffsetOf(ConfigObject(map["lineOffset" := Text("0")])) < 0
  {
    JsText.NumberOfNatString(k);
  }

  /** The default configuration has line offset 0 and the default levels. */
  lemma DefaultConfigSpec()
    ensures LineOffsetOf(DefaultConfig) == 0 && LevelsOf(DefaultConfig) == DefaultLevels
  {
  }
}
