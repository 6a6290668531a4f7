/**
 * Configuration propagation between the stream classes of `transform.js`,
 * `logger.js` and `logger.ts`. Each stream has a configuration and a list of
 * `config` listeners: `pipe` hands the child the parent's configuration and
 * subscribes it, `setConfig` merges the partial configurations it is given
 * and emits those same partials to every listener (which merge and emit them
 * in turn), and a child that emits `close` is unsubscribed from every parent.
 *
 * Streams are named by ids inside one `Streams` object. Every stream has a
 * rank fixed when it is created, and a stream can only be piped into a
 * stream of lower rank, so that the listeners form no cycle.
 */
module StreamConfig {
  import opened Wrappers
  import opened Values
  import opened Config
  import opened LogEntries
  import opened StackFrames

  type Id = nat

  /** Every listener is a known stream of lower rank than the stream it listens to. */
  ghost predicate Ranked(subs: map<Id, seq<Id>>, rank: map<Id, nat>) {
    subs.Keys <= rank.Keys &&
    forall n, i :: n in subs && 0 <= i < |subs[n]| ==> subs[n][i] in subs && rank[subs[n][i]] < rank[n]
  }

  /** No stream has `k` among its listeners. */
  ghost predicate Unlistened(subs: map<Id, seq<Id>>, k: Id) {
    forall m :: m in subs ==> k !in subs[m]
  }

  /**
   * `n.setConfig(...ps)`: `n` merges the partials into what it holds, then
   * emits them, so each listener, in the order they subscribed, does the
   * same, depth first. The order of delivery does not depend on how a stream
   * merges, so the merge is a parameter (`MergeAll` for every stream here).
   */
  function Deliver<C>(subs: map<Id, seq<Id>>, rank: map<Id, nat>, cfgs: map<Id, C>, n: Id, ps: seq<C>, merge: (C, seq<C>) -> C)
    : (r: map<Id, C>)
    requires Ranked(subs, rank) && n in subs && subs.Keys == cfgs.Keys
    ensures r.Keys == cfgs.Keys
    decreases rank[n], 1
  {
    DeliverKids(subs, rank, cfgs[n := merge(cfgs[n], ps)], n, |subs[n]|, ps, merge)
  }

  /** `emit('config', ...ps)` on `n`, as far as its first `i` listeners. */
  function DeliverKids<C>(subs: map<Id, seq<Id>>, rank: map<Id, nat>, cfgs: map<Id, C>, n: Id, i: nat, ps: seq<C>, merge: (C, seq<C>) -> C)
    : (r: map<Id, C>)
    requires Ranked(subs, rank) && n in subs && subs.Keys == cfgs.Keys && i <= |subs[n]|
    ensures r.Keys == cfgs.Keys
    decreases rank[n], 0, i
  {
    if i == 0 then cfgs
    else Deliver(subs, rank, DeliverKids(subs, rank, cfgs, n, i - 1, ps, merge), subs[n][i - 1], ps, merge)
  }

  /** Delivery merges the partials into `n`. */
  lemma DeliverMergesHere<C>(subs: map<Id, seq<Id>>, rank: map<Id, nat>, cfgs: map<Id, C>, n: Id, ps: seq<C>, merge: (C, seq<C>) -> C)
    requires Ranked(subs, rank) && n in subs && subs.Keys == cfgs.Keys
    ensures Deliver(subs, rank, cfgs, n, ps, merge)[n] == merge(cfgs[n], ps)
  {
    DeliverKidsUnchanged(subs, rank, cfgs[n := merge(cfgs[n], ps)], n, |subs[n]|, ps, merge, n);
  }

  /** A stream nobody listens to is the only one delivery to it changes. */
  lemma DeliverToSilent<C>(subs: map<Id, seq<Id>>, rank: map<Id, nat>, cfgs: map<Id, C>, n: Id, ps: seq<C>, merge: (C, seq<C>) -> C)
    requires Ranked(subs, rank) && n in subs && subs.Keys == cfgs.Keys && subs[n] == []
    ensures Deliver(subs, rank, cfgs, n, ps, merge) == cfgs[n := merge(cfgs[n], ps)]
  {
  }

  /**
   * Delivery from `n` touches no other stream of the same or higher rank and
   * no other stream that listens to nothing.
   */
  lemma {:induction false} DeliverUnchanged<C>(subs: map<Id, seq<Id>>, rank: map<Id, nat>, cfgs: map<Id, C>, n: Id, ps: seq<C>, merge: (C, seq<C>) -> C, k: Id)
    requires Ranked(subs, rank) && n in subs && subs.Keys == cfgs.Keys
    requires k in cfgs && k != n && (rank[k] >= rank[n] || Unlistened(subs, k))
    ensures Deliver(subs, rank, cfgs, n, ps, merge)[k] == cfgs[k]
    decreases rank[n], 1
  {
    DeliverKidsUnchanged(subs, rank, cfgs[n := merge(cfgs[n], ps)], n, |subs[n]|, ps, merge, k);
  }

  lemma {:induction false} DeliverKidsUnchanged<C>(subs: map<Id, seq<Id>>, rank: map<Id, nat>, cfgs: map<Id, C>, n: Id, i: nat, ps: seq<C>, merge: (C, seq<C>) -> C, k: Id)
    requires Ranked(subs, rank) && n in subs && subs.Keys == cfgs.Keys && i <= |subs[n]|
    requires k in cfgs && (rank[k] >= rank[n] || Unlistened(subs, k))
    ensures DeliverKids(subs, rank, cfgs, n, i, ps, merge)[k] == cfgs[k]
    decreases rank[n], 0, i
  {
    if i > 0 {
      var kid := subs[n][i - 1];
      assert rank[kid] < rank[n];
      assert kid in subs[n];
      DeliverKidsUnchanged(subs, rank, cfgs, n, i - 1, ps, merge, k);
      DeliverUnchanged(subs, rank, DeliverKids(subs, rank, cfgs, n, i - 1, ps, merge), kid, ps, merge, k);
    }
  }

  /** After a child closes, configuration set anywhere else never reaches it. */
  lemma ClosedChildIsUntouched(subs: map<Id, seq<Id>>, rank: map<Id, nat>, cfgs: map<Id, Config>, n: Id, child: Id, ps: seq<Config>)
    requires Ranked(subs, rank) && n in subs && subs.Keys == cfgs.Keys
    requires child in cfgs && child != n && Unlistened(subs, child)
    ensures Deliver(subs, rank, cfgs, n, ps, MergeAll)[child] == cfgs[child]
  {
    DeliverUnchanged(subs, rank, cfgs, n, ps, MergeAll, child);
  }

  /** A stream that already stated everything the partials state still does after delivery. */
  lemma {:induction false} DeliverKeepsAgreement(subs: map<Id, seq<Id>>, rank: map<Id, nat>, cfgs: map<Id, Config>, n: Id, ps: seq<Config>, k: Id)
    requires Ranked(subs, rank) && n in subs && subs.Keys == cfgs.Keys
    requires k in cfgs && Agrees(cfgs[k], MergeAll(EmptyConfig, ps))
    ensures Agrees(Deliver(subs, rank, cfgs, n, ps, MergeAll)[k], MergeAll(EmptyConfig, ps))
    decreases rank[n], 1
  {
    ReceivesPartials(cfgs[n], ps);
    DeliverKidsKeepsAgreement(subs, rank, cfgs[n := MergeAll(cfgs[n], ps)], n, |subs[n]|, ps, k);
  }

  lemma {:induction false} DeliverKidsKeepsAgreement(subs: map<Id, seq<Id>>, rank: map<Id, nat>, cfgs: map<Id, Config>, n: Id, i: nat, ps: seq<Config>, k: Id)
    requires Ranked(subs, rank) && n in subs && subs.Keys == cfgs.Keys && i <= |subs[n]|
    requires k in cfgs && Agrees(cfgs[k], MergeAll(EmptyConfig, ps))
    ensures Agrees(DeliverKids(subs, rank, cfgs, n, i, ps, MergeAll)[k], MergeAll(EmptyConfig, ps))
    decreases rank[n], 0, i
  {
    if i > 0 {
      DeliverKidsKeepsAgreement(subs, rank, cfgs, n, i - 1, ps, k);
      DeliverKeepsAgreement(subs, rank, DeliverKids(subs, rank, cfgs, n, i - 1, ps, MergeAll), subs[n][i - 1], ps, k);
    }
  }

  /** After delivery `n` states everything the partials state. */
  lemma DeliverReachesHere(subs: map<Id, seq<Id>>, rank: map<Id, nat>, cfgs: map<Id, Config>, n: Id, ps: seq<Config>)
    requires Ranked(subs, rank) && n in subs && subs.Keys == cfgs.Keys
    ensures Agrees(Deliver(subs, rank, cfgs, n, ps, MergeAll)[n], MergeAll(EmptyConfig, ps))
  {
    DeliverMergesHere(subs, rank, cfgs, n, ps, MergeAll);
    ReceivesPartials(cfgs[n], ps);
  }

  /**
   * After delivery every listener of `n` states everything the partials
   * state: listeners are kept consistent with the stream they listen to.
   */
  lemma DeliverReachesListeners(subs: map<Id, seq<Id>>, rank: map<Id, nat>, cfgs: map<Id, Config>, n: Id, ps: seq<Config>, j: nat)
    requires Ranked(subs, rank) && n in subs && subs.Keys == cfgs.Keys
    requires j < |subs[n]|
    ensures Agrees(Deliver(subs, rank, cfgs, n, ps, MergeAll)[subs[n][j]], MergeAll(EmptyConfig, ps))
  {
    DeliverKidsReach(subs, rank, cfgs[n := MergeAll(cfgs[n], ps)], n, |subs[n]|, ps, j);
  }

  lemma {:induction false} DeliverKidsReach(subs: map<Id, seq<Id>>, rank: map<Id, nat>, cfgs: map<Id, Config>, n: Id, i: nat, ps: seq<Config>, j: nat)
    requires Ranked(subs, rank) && n in subs && subs.Keys == cfgs.Keys && i <= |subs[n]|
    requires j < i
    ensures Agrees(DeliverKids(subs, rank, cfgs, n, i, ps, MergeAll)[subs[n][j]], MergeAll(EmptyConfig, ps))
    decreases i
  {
    var before := DeliverKids(subs, rank, cfgs, n, i - 1, ps, MergeAll);
    var kid := subs[n][i - 1];
    if j < i - 1 {
      DeliverKidsReach(subs, rank, cfgs, n, i - 1, ps, j);
      DeliverKeepsAgreement(subs, rank, before, kid, ps, subs[n][j]);
    } else {
      DeliverReachesHere(subs, rank, before, kid, ps);
    }
  }

  /**
   * `removeListener` for every listener a closed child registered: each
   * `pipe` binds a listener of its own, so every entry of the child leaves
   * the list, and every other entry stays, as often as before and in its
   * order (see `UnsubscribeAppend`).
   */
  function Unsubscribe(s: seq<Id>, child: Id): (r: seq<Id>)
    ensures child !in r
    ensures forall x :: x != child ==> (x in r <==> x in s)
    ensures forall x :: x != child ==> multiset(r)[x] == multiset(s)[x]
    ensures |r| == |s| - multiset(s)[child]
    ensures child !in s ==> r == s
  {
    if s == [] then []
    else
      assert s == [s[0]] + s[1..];
      if s[0] == child then Unsubscribe(s[1..], child)
      else [s[0]] + Unsubscribe(s[1..], child)
  }

  /** Unsubscribing works entry by entry, so the listeners that stay keep their order. */
  lemma {:induction false} UnsubscribeAppend(a: seq<Id>, b: seq<Id>, child: Id)
    ensures Unsubscribe(a + b, child) == Unsubscribe(a, child) + Unsubscribe(b, child)
  {
    if a != [] {
      assert (a + b)[1..] == a[1..] + b;
      UnsubscribeAppend(a[1..], b, child);
    } else {
      assert a + b == b;
    }
  }

  /** Removing a child from every list keeps every listener ranked below its stream. */
  lemma UnsubscribeKeepsRanked(subs: map<Id, seq<Id>>, rank: map<Id, nat>, child: Id)
    requires Ranked(subs, rank)
    ensures Ranked(map p | p in subs :: Unsubscribe(subs[p], child), rank)
  {
    var closed := map p | p in subs :: Unsubscribe(subs[p], child);
    forall p, i | p in closed && 0 <= i < |closed[p]|
      ensures closed[p][i] in closed && rank[closed[p][i]] < rank[p]
    {
      var x := closed[p][i];
      assert x in subs[p];
      var j :| 0 <= j < |subs[p]| && subs[p][j] == x;
    }
  }

  /**
   * What `_transform` passes on: the formatted message serialised with
   * `JSON.stringify` when it is truthy, and the falsy value itself otherwise.
   */
  datatype Output = Serialised(message: Value) | Passed(message: Value)

  /** The truthiness of a JavaScript value (numbers are integers here, so no `NaN`). */
  predicate Truthy(v: Value) {
    match v
    case Undefined => false
    case Null => false
    case Bool(b) => b
    case Num(n) => n != 0
    case Str(s) => s != ""
    case Array(_) => true
    case Object(_) => true
  }

  /** `_transform` after `format`: only a truthy message is stringified. */
  function TransformOutput(message: Value): (r: Output)
    ensures r.message == message
    ensures r.Serialised? <==> Truthy(message)
    ensures message in {Undefined, Null, Bool(false), Num(0), Str("")} ==> r == Passed(message)
  {
    if Truthy(message) then Serialised(message) else Passed(message)
  }

  /** The partials `new Logger(config)` of `logger.js` merges into its empty configuration. */
  lemma DefaultsFirst(c: Option<Config>)
    ensures MergeAll(EmptyConfig, if c.Some? then [DefaultConfig, c.value] else [DefaultConfig])
      == if c.Some? then Merge(DefaultConfig, c.value) else DefaultConfig
  {
    MergeIntoEmpty(DefaultConfig);
    if c.Some? {
      var ps := [DefaultConfig, c.value];
      assert ps[1..] == [c.value];
      MergeAllOne(DefaultConfig, c.value);
    }
  }

  /** The streams of one program, their configurations and their `config` listeners. */
  class Streams {
    /** `_config` of each stream; an empty object until one is set. */
    var config: map<Id, Config>
    /** The `config` listeners of each stream, in the order `pipe` added them. */
    var subs: map<Id, seq<Id>>
    /** How many streams exist; their ids are `0 .. count - 1`. */
    var count: nat
    ghost var rank: map<Id, nat>

    ghost predicate Valid()
      reads this
    {
      Ranked(subs, rank) && subs.Keys == config.Keys &&
      forall n :: n in config ==> n < count
    }

    constructor ()
      ensures Valid() && config == map[] && subs == map[] && count == 0
    {
      config, subs, count, rank := map[], map[], 0, map[];
    }

    /** A stream with the given configuration and no listeners. */
    method Fresh(initial: Config, ghost level: nat) returns (id: Id)
      requires Valid()
      modifies this
      ensures Valid() && id !in old(config) && count == old(count) + 1
      ensures config == old(config)[id := initial] && subs == old(subs)[id := []]
      ensures rank == old(rank)[id := level]
    {
      id := count;
      config := config[id := initial];
      subs := subs[id := []];
      rank := rank[id := level];
      count := count + 1;
    }

    /** `setConfig(...ps)` on stream `n`: the stream merges the partials, then emits them. */
    method SetConfig(n: Id, ps: seq<Config>)
      requires Valid() && n in subs
      modifies this
      ensures Valid() && subs == old(subs) && rank == old(rank) && count == old(count)
      ensures config == Deliver(subs, rank, old(config), n, ps, MergeAll)
      decreases rank[n], 1
    {
      config := config[n := MergeAll(config[n], ps)];
      Emit(n, ps);
    }

    /** `emit('config', ...ps)`: every listener of `n`, in the order they subscribed, runs its `setConfig`. */
    method Emit(n: Id, ps: seq<Config>)
      requires Valid() && n in subs
      modifies this
      ensures Valid() && subs == old(subs) && rank == old(rank) && count == old(count)
      ensures config == DeliverKids(subs, rank, old(config), n, |subs[n]|, ps, MergeAll)
      decreases rank[n], 0
    {
      var i := 0;
      while i < |subs[n]|
        invariant Valid() && subs == old(subs) && rank == old(rank) && count == old(count)
        invariant 0 <= i <= |subs[n]|
        invariant config == DeliverKids(subs, rank, old(config), n, i, ps, MergeAll)
      {
        SetConfig(subs[n][i], ps);
        i := i + 1;
      }
    }

    /** `getConfig()`: the stream's configuration, `{}` until one is set. */
    method GetConfig(n: Id) returns (c: Config)
      requires n in config
      ensures c == config[n]
    {
      c := config[n];
    }

    /**
     * `new Transform(config)` of `transform.js`: `setConfig` runs only when a
     * configuration is given, and then the stream holds exactly that
     * configuration.
     */
    method NewTransform(c: Option<Config>, ghost level: nat) returns (id: Id)
      requires Valid()
      modifies this
      ensures Valid() && id !in old(config) && subs == old(subs)[id := []] && rank == old(rank)[id := level]
      ensures config == old(config)[id := if c.Some? then c.value else EmptyConfig]
    {
      id := Fresh(EmptyConfig, level);
      if c.Some? {
        DeliverToSilent(subs, rank, config, id, [c.value], MergeAll);
        MergeIntoEmpty(c.value);
        SetConfig(id, [c.value]);
      }
    }

    /**
     * `new Logger(config)` of `logger.js`: the default configuration is merged
     * first and the user's second, so user keys win.
     */
    method NewJsLogger(c: Option<Config>, ghost level: nat) returns (id: Id)
      requires Valid()
      modifies this
      ensures Valid() && id !in old(config) && subs == old(subs)[id := []] && rank == old(rank)[id := level]
      ensures config == old(config)[id := if c.Some? then Merge(DefaultConfig, c.value) else DefaultConfig]
    {
      id := Fresh(EmptyConfig, level);
      var ps := if c.Some? then [DefaultConfig, c.value] else [DefaultConfig];
      DeliverToSilent(subs, rank, config, id, ps, MergeAll);
      DefaultsFirst(c);
      SetConfig(id, ps);
    }

    /** `new Logger(...args)` of `logger.ts`: the initial configuration, then `setConfig(...args)`. */
    method NewTsLogger(args: seq<Config>, ghost level: nat) returns (id: Id)
      requires Valid()
      modifies this
      ensures Valid() && id !in old(config) && subs == old(subs)[id := []] && rank == old(rank)[id := level]
      ensures config == old(config)[id := MergeAll(DefaultConfig, args)]
    {
      id := Fresh(DefaultConfig, level);
      DeliverToSilent(subs, rank, config, id, args, MergeAll);
      SetConfig(id, args);
    }

    /**
     * `parent.pipe(child)`: the child is handed the parent's current
     * configuration through its own `setConfig`, then subscribed. Returns
     * the child, so pipes chain.
     */
    method Pipe(parent: Id, child: Id) returns (r: Id)
      requires Valid() && parent in subs && child in subs && rank[child] < rank[parent]
      modifies this
      ensures Valid() && rank == old(rank) && count == old(count) && r == child
      ensures subs == old(subs)[parent := old(subs)[parent] + [child]]
      ensures config == Deliver(old(subs), rank, old(config), child, [old(config)[parent]], MergeAll)
      ensures config[child] == Merge(old(config)[child], old(config)[parent])
      ensures config[parent] == old(config)[parent]
      ensures Agrees(config[child], config[parent])
    {
      var current := config[parent];
      DeliverMergesHere(subs, rank, config, child, [current], MergeAll);
      DeliverUnchanged(subs, rank, config, child, [current], MergeAll, parent);
      MergeAllOne(config[child], current);
      MergeLaterWins(config[child], current);
      SetConfig(child, [current]);
      subs := subs[parent := subs[parent] + [child]];
      r := child;
    }

    /** `child` emits `close`: every listener it registered with a parent is removed. */
    method Close(child: Id)
      requires Valid()
      modifies this
      ensures Valid() && config == old(config) && rank == old(rank) && count == old(count)
      ensures subs.Keys == old(subs).Keys && Unlistened(subs, child)
      ensures forall p, x :: p in subs && x != child ==> (x in subs[p] <==> x in old(subs)[p])
      ensures forall p :: p in subs ==> subs[p] == Unsubscribe(old(subs)[p], child)
    {
      var closed := map p | p in subs :: Unsubscribe(subs[p], child);
      UnsubscribeKeepsRanked(subs, rank, child);
      subs := closed;
    }

    /**
     * `getLogEntry(args)` of a Logger: the entry built with the Logger's
     * configuration, the caller's stack text and the date.
     */
    method GetLogEntry(logger: Id, style: LineStyle, date: string, stack: seq<string>, selfDir: string, args: seq<Value>)
      returns (r: Result<LogEntry, Levels.LevelError>)
      requires logger in config
      ensures r == EntryFor(config[logger], style, date, stack, selfDir, args)
    {
      var c := config[logger];
      var lineInfo := GetLineInfo(stack, selfDir, LineOffsetOf(c), style);
      r := LogEntries.GetLogEntry(LevelsOf(c), date, lineInfo, args);
    }
  }

}
