/**
 * Configuration propagation in the CoffeeScript `Transform` and `Logger` of
 * `index.js`. Unlike the later classes, `setConfig(opts)` merges one object
 * and then emits the stream's WHOLE configuration, so each listener merges
 * its parent's full configuration; `pipe` subscribes the child for good
 * (nothing is removed when it closes).
 */
module CoffeeTransform {
  import opened Wrappers
  import opened Config
  import opened StreamConfig

  /**
   * `n.setConfig(q)`: `n` merges `q`, then emits its new configuration, which
   * each listener, in the order they subscribed, merges and re-emits.
   */
  function Broadcast<C>(subs: map<Id, seq<Id>>, rank: map<Id, nat>, cfgs: map<Id, C>, n: Id, q: C, merge: (C, C) -> C)
    : (r: map<Id, C>)
    requires Ranked(subs, rank) && n in subs && subs.Keys == cfgs.Keys
    ensures r.Keys == cfgs.Keys
    decreases rank[n], 1
  {
    var mine := merge(cfgs[n], q);
    BroadcastKids(subs, rank, cfgs[n := mine], n, |subs[n]|, mine, merge)
  }

  /** `emit('config', c)` on `n`, as far as its first `i` listeners. */
  function BroadcastKids<C>(subs: map<Id, seq<Id>>, rank: map<Id, nat>, cfgs: map<Id, C>, n: Id, i: nat, c: C, merge: (C, C) -> C)
    : (r: map<Id, C>)
    requires Ranked(subs, rank) && n in subs && subs.Keys == cfgs.Keys && i <= |subs[n]|
    ensures r.Keys == cfgs.Keys
    decreases rank[n], 0, i
  {
    if i == 0 then cfgs
    else Broadcast(subs, rank, BroadcastKids(subs, rank, cfgs, n, i - 1, c, merge), subs[n][i - 1], c, merge)
  }

  /** Delivery from `n` touches no other stream of the same or higher rank. */
  lemma {:induction false} BroadcastUnchanged<C>(subs: map<Id, seq<Id>>, rank: map<Id, nat>, cfgs: map<Id, C>, n: Id, q: C, merge: (C, C) -> C, k: Id)
    requires Ranked(subs, rank) && n in subs && subs.Keys == cfgs.Keys
    requires k in cfgs && k != n && rank[k] >= rank[n]
    ensures Broadcast(subs, rank, cfgs, n, q, merge)[k] == cfgs[k]
    decreases rank[n], 1
  {
    var mine := merge(cfgs[n], q);
    BroadcastKidsUnchanged(subs, rank, cfgs[n := mine], n, |subs[n]|, mine, merge, k);
  }

  lemma {:induction false} BroadcastKidsUnchanged<C>(subs: map<Id, seq<Id>>, rank: map<Id, nat>, cfgs: map<Id, C>, n: Id, i: nat, c: C, merge: (C, C) -> C, k: Id)
    requires Ranked(subs, rank) && n in subs && subs.Keys == cfgs.Keys && i <= |subs[n]|
    requires k in cfgs && rank[k] >= rank[n]
    ensures BroadcastKids(subs, rank, cfgs, n, i, c, merge)[k] == cfgs[k]
    decreases rank[n], 0, i
  {
    if i > 0 {
      var kid := subs[n][i - 1];
      assert rank[kid] < rank[n];
      BroadcastKidsUnchanged(subs, rank, cfgs, n, i - 1, c, merge, k);
      BroadcastUnchanged(subs, rank, BroadcastKids(subs, rank, cfgs, n, i - 1, c, merge), kid, c, merge, k);
    }
  }

  /** `n` ends up with `q` merged into what it held. */
  lemma BroadcastMergesHere<C>(subs: map<Id, seq<Id>>, rank: map<Id, nat>, cfgs: map<Id, C>, n: Id, q: C, merge: (C, C) -> C)
    requires Ranked(subs, rank) && n in subs && subs.Keys == cfgs.Keys
    ensures Broadcast(subs, rank, cfgs, n, q, merge)[n] == merge(cfgs[n], q)
  {
    var mine := merge(cfgs[n], q);
    BroadcastKidsUnchanged(subs, rank, cfgs[n := mine], n, |subs[n]|, mine, merge, n);
  }

  /** A stream nobody listens to is the only one delivery to it changes. */
  lemma BroadcastToSilent<C>(subs: map<Id, seq<Id>>, rank: map<Id, nat>, cfgs: map<Id, C>, n: Id, q: C, merge: (C, C) -> C)
    requires Ranked(subs, rank) && n in subs && subs.Keys == cfgs.Keys && subs[n] == []
    ensures Broadcast(subs, rank, cfgs, n, q, merge) == cfgs[n := merge(cfgs[n], q)]
  {
  }

  /**
   * Configuration agreeing with `p` spreads without breaking agreement: a
   * stream that stated everything `p` states still does after delivery.
   */
  lemma {:induction false} BroadcastKeepsAgreement(subs: map<Id, seq<Id>>, rank: map<Id, nat>, cfgs: map<Id, Config>, n: Id, q: Config, p: Config, k: Id)
    requires Ranked(subs, rank) && n in subs && subs.Keys == cfgs.Keys
    requires Agrees(q, p) && k in cfgs && Agrees(cfgs[k], p)
    ensures Agrees(Broadcast(subs, rank, cfgs, n, q, Merge)[k], p)
    decreases rank[n], 1
  {
    var mine := Merge(cfgs[n], q);
    MergeLaterWins(cfgs[n], q);
    AgreesTransitive(mine, q, p);
    BroadcastKidsKeepsAgreement(subs, rank, cfgs[n := mine], n, |subs[n]|, mine, p, k);
  }

  lemma {:induction false} BroadcastKidsKeepsAgreement(subs: map<Id, seq<Id>>, rank: map<Id, nat>, cfgs: map<Id, Config>, n: Id, i: nat, c: Config, p: Config, k: Id)
    requires Ranked(subs, rank) && n in subs && subs.Keys == cfgs.Keys && i <= |subs[n]|
    requires Agrees(c, p) && k in cfgs && Agrees(cfgs[k], p)
    ensures Agrees(BroadcastKids(subs, rank, cfgs, n, i, c, Merge)[k], p)
    decreases rank[n], 0, i
  {
    if i > 0 {
      BroadcastKidsKeepsAgreement(subs, rank, cfgs, n, i - 1, c, p, k);
      BroadcastKeepsAgreement(subs, rank, BroadcastKids(subs, rank, cfgs, n, i - 1, c, Merge), subs[n][i - 1], c, p, k);
    }
  }

  /**
   * After `n.setConfig(q)` every listener of `n` states everything `n` now
   * states: a child is kept consistent with its parent's whole configuration.
   */
  lemma BroadcastReachesListeners(subs: map<Id, seq<Id>>, rank: map<Id, nat>, cfgs: map<Id, Config>, n: Id, q: Config, j: nat)
    requires Ranked(subs, rank) && n in subs && subs.Keys == cfgs.Keys && j < |subs[n]|
    ensures var r := Broadcast(subs, rank, cfgs, n, q, Merge);
      Agrees(r[subs[n][j]], r[n])
  {
    var mine := Merge(cfgs[n], q);
    BroadcastMergesHere(subs, rank, cfgs, n, q, Merge);
    BroadcastKidsReach(subs, rank, cfgs[n := mine], n, |subs[n]|, mine, j);
  }

  lemma {:induction false} BroadcastKidsReach(subs: map<Id, seq<Id>>, rank: map<Id, nat>, cfgs: map<Id, Config>, n: Id, i: nat, c: Config, j: nat)
    requires Ranked(subs, rank) && n in subs && subs.Keys == cfgs.Keys && j < i <= |subs[n]|
    ensures Agrees(BroadcastKids(subs, rank, cfgs, n, i, c, Merge)[subs[n][j]], c)
    decreases i
  {
    var before := BroadcastKids(subs, rank, cfgs, n, i - 1, c, Merge);
    var kid := subs[n][i - 1];
    AgreesItself(c);
    if j < i - 1 {
      BroadcastKidsReach(subs, rank, cfgs, n, i - 1, c, j);
      BroadcastKeepsAgreement(subs, rank, before, kid, c, c, subs[n][j]);
    } else {
      BroadcastMergesHere(subs, rank, before, kid, c, Merge);
      MergeLaterWins(before[kid], c);
    }
  }

  /** The streams of one CoffeeScript program. */
  class CoffeeStreams {
    /** `@config` of each stream. */
    var config: map<Id, Config>
    /** The `config` listeners of each stream, in the order `pipe` added them. */
    var subs: map<Id, seq<Id>>
    /** How many streams exist; their ids are `0 .. count - 1`. */
    var count: nat
    ghost var rank: map<Id, nat>

    ghost predicate Valid()
      reads this
    {
      Ranked(subs, rank) && subs.Keys == config.Keys &&
      forall n :: n in config ==> n < count
    }

    constructor ()
      ensures Valid() && config == map[] && subs == map[] && count == 0
    {
      config, subs, count, rank := map[], map[], 0, map[];
    }

    /** A stream holding a copy of its class's configuration and no listeners. */
    method Fresh(initial: Config, ghost level: nat) returns (id: Id)
      requires Valid()
      modifies this
      ensures Valid() && id !in old(config) && count == old(count) + 1
      ensures config == old(config)[id := initial] && subs == old(subs)[id := []]
      ensures rank == old(rank)[id := level]
    {
      id := count;
      config := config[id := initial];
      subs := subs[id := []];
      rank := rank[id := level];
      count := count + 1;
    }

    /** `setConfig(opts)`: `deepExtend(@config, opts)`, then `emit('config', @config)`. */
    method SetConfig(n: Id, opts: Config)
      requires Valid() && n in subs
      modifies this
      ensures Valid() && subs == old(subs) && rank == old(rank) && count == old(count)
      ensures config == Broadcast(subs, rank, old(config), n, opts, Merge)
      decreases rank[n], 1
    {
      config := config[n := Merge(config[n], opts)];
      Emit(n, config[n]);
    }

    /** `emit('config', c)`: every listener of `n`, in the order they subscribed, runs `setConfig(c)`. */
    method Emit(n: Id, c: Config)
      requires Valid() && n in subs
      modifies this
      ensures Valid() && subs == old(subs) && rank == old(rank) && count == old(count)
      ensures config == BroadcastKids(subs, rank, old(config), n, |subs[n]|, c, Merge)
      decreases rank[n], 0
    {
      var i := 0;
      while i < |subs[n]|
        invariant Valid() && subs == old(subs) && rank == old(rank) && count == old(count)
        invariant 0 <= i <= |subs[n]|
        invariant config == BroadcastKids(subs, rank, old(config), n, i, c, Merge)
      {
        SetConfig(subs[n][i], c);
        i := i + 1;
      }
    }

    /** `getConfig()`. */
    method GetConfig(n: Id) returns (c: Config)
      requires n in config
      ensures c == config[n]
    {
      c := config[n];
    }

    /**
     * `new Logger(opts)`: a copy of the class's default configuration with
     * `opts` merged in; no `opts` leaves the defaults as they are.
     */
    method NewLogger(opts: Option<Config>, ghost level: nat) returns (id: Id)
      requires Valid()
      modifies this
      ensures Valid() && id !in old(config) && subs == old(subs)[id := []] && rank == old(rank)[id := level]
      ensures config == old(config)[id := if opts.Some? then Merge(DefaultConfig, opts.value) else DefaultConfig]
    {
      id := Fresh(DefaultConfig, level);
      var o := if opts.Some? then opts.value else EmptyConfig;
      BroadcastToSilent(subs, rank, config, id, o, Merge);
      MergeNothing(DefaultConfig);
      SetConfig(id, o);
    }

    /**
     * `new Transform(opts)`: the class's configuration, here an empty one,
     * with `opts` merged in.
     */
    method NewTransform(opts: Option<Config>, ghost level: nat) returns (id: Id)
      requires Valid()
      modifies this
      ensures Valid() && id !in old(config) && subs == old(subs)[id := []] && rank == old(rank)[id := level]
      ensures config == old(config)[id := if opts.Some? then opts.value else EmptyConfig]
    {
      id := Fresh(EmptyConfig, level);
      var o := if opts.Some? then opts.value else EmptyConfig;
      BroadcastToSilent(subs, rank, config, id, o, Merge);
      MergeIntoEmpty(o);
      SetConfig(id, o);
    }

    /**
     * `parent.pipe(child)`: the child merges the parent's whole
     * configuration, and then listens to the parent for good.
     */
    method Pipe(parent: Id, child: Id) returns (r: Id)
      requires Valid() && parent in subs && child in subs && rank[child] < rank[parent]
      modifies this
      ensures Valid() && rank == old(rank) && count == old(count) && r == child
      ensures subs == old(subs)[parent := old(subs)[parent] + [child]]
      ensures config == Broadcast(old(subs), rank, old(config), child, old(config)[parent], Merge)
      ensures config[child] == Merge(old(config)[child], old(config)[parent])
      ensures config[parent] == old(config)[parent]
      ensures Agrees(config[child], config[parent])
    {
      var current := config[parent];
      BroadcastMergesHere(subs, rank, config, child, current, Merge);
      BroadcastUnchanged(subs, rank, config, child, current, Merge, parent);
      MergeLaterWins(config[child], current);
      SetConfig(child, current);
      subs := subs[parent := subs[parent] + [child]];
      r := child;
    }
  }
}
