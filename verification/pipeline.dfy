/**
 * The `Transform` of `transform.ts` and the delivery discipline it gives
 * every transform: `pipe` appends to an ordered list of pipes, `write`
 * formats at once and queues a stage on the transform's writer chain, and a
 * stage, when it runs, hands the value to every pipe in the list as it is
 * then. Child transforms get the value itself, and the stage waits for their
 * own chain; any other sink gets text. `close` calls `close` or `end` on each
 * pipe, and `end` calls `close` and then its callback.
 *
 * All transforms live in one `Transforms` object and are known by number.
 * The writer promise of a transform is its queue of pending stages, plus a
 * flag for a chain that was rejected by an exception. Sinks are outside the
 * model: what they are given is recorded as a log of events.
 */
module Pipeline {
  import opened Wrappers
  import opened Values
  import opened LogEntries
  import Filter
  import Human
  import Browser

  type Id = nat
  type SinkId = nat

  /** A value written into a transform: a plain value, a log entry, or the parts a Browser returns. */
  datatype Data = Plain(v: Value) | Entry(entry: LogEntry) | Parts(parts: seq<string>)

  /** `data == null`: true for `null` and for `undefined`. */
  predicate IsNullish(d: Data) {
    d == Plain(Null) || d == Plain(Undefined)
  }

  /** The `format` of each kind of transform in the model. */
  datatype Kind =
    | Base
    | FilterNode(filterLevel: int)
    | HumanNode(human: Human.Settings, renderers: Human.Renderers)
    | BrowserNode(browser: Browser.Settings)

  /** The result of `format`, or the exception it throws. */
  datatype Formatted = Result(data: Data) | Throws

  /**
   * `format(chunk)` of each kind. The base `format` is the identity. A
   * Filter reads `levelNumber`, which only an entry has, so anything else
   * compares as `undefined` and is dropped, and `null` throws. A Human needs
   * an entry and a Browser a string; given anything else they throw.
   */
  function Format(k: Kind, d: Data): (r: Formatted)
    ensures k.Base? ==> r == Result(d)
    ensures k.FilterNode? ==> (r.Throws? <==> IsNullish(d))
    ensures k.HumanNode? ==> (r.Result? <==> d.Entry?)
    ensures k.BrowserNode? ==> (r.Result? <==> d.Plain? && d.v.Str?)
  {
    match k
    case Base => Result(d)
    case FilterNode(level) =>
      if IsNullish(d) then Throws
      else if d.Entry? && Filter.Format(level, d.entry).Some? then Result(d)
      else Result(Plain(Null))
    case HumanNode(h, r) =>
      if d.Entry? then Result(Plain(Str(Human.Format(h, r, d.entry)))) else Throws
    case BrowserNode(b) =>
      if d.Plain? && d.v.Str? then Result(Parts(Browser.Parts(b, d.v.s))) else Throws
  }

  /** What a sink is handed: the string itself, or `JSON.stringify` of anything else (not evaluated here). */
  datatype Chunk = Text(s: string) | Json(data: Data)

  /** The chunk for a pipe that is not a transform. */
  function Serialise(d: Data): (c: Chunk)
    ensures c.Text? <==> d.Plain? && d.v.Str?
    ensures c.Text? ==> c.s == d.v.s
    ensures c.Json? ==> c.data == d
  {
    if d.Plain? && d.v.Str? then Text(d.v.s) else Json(d)
  }

  /** A pipe, by what it can do: a transform, or a sink with `close`, with only `end`, or with neither. */
  datatype Pipe =
    | TransformNode(id: Id)
    | ClosableSink(sink: SinkId)
    | EndableSink(sink: SinkId)
    | WriteOnlySink(sink: SinkId)

  /** What the world outside sees. */
  datatype Event =
    | Wrote(sink: SinkId, chunk: Chunk)
    | Closed(sink: SinkId)
    | Ended(sink: SinkId)
    | Callback(node: Id)
    | ConsoleLog(node: Id, args: seq<string>)

  /** The console output a Browser's `format` makes when `output` is set. */
  function Echo(k: Kind, n: Id, d: Data): (es: seq<Event>)
    ensures es != [] <==> k.BrowserNode? && k.browser.output && d.Plain? && d.v.Str?
  {
    if k.BrowserNode? && k.browser.output && d.Plain? && d.v.Str? then
      [ConsoleLog(n, Browser.Parts(k.browser, d.v.s))]
    else []
  }

  /** The writer chains: pending stages per transform, the rejected chains, and what the sinks saw. */
  datatype State = State(queues: map<Id, seq<Data>>, rejected: set<Id>, log: seq<Event>)

  /** Every pipe that is a transform is a known transform of lower rank: piping never closes a cycle. */
  ghost predicate Ranked(pipes: map<Id, seq<Pipe>>, rank: map<Id, nat>) {
    pipes.Keys <= rank.Keys
    && forall n, j :: n in pipes && 0 <= j < |pipes[n]| && pipes[n][j].TransformNode? ==>
         pipes[n][j].id in pipes && rank[pipes[n][j].id] < rank[n]
  }

  predicate Shaped(pipes: map<Id, seq<Pipe>>, kinds: map<Id, Kind>, st: State) {
    kinds.Keys == pipes.Keys && st.queues.Keys == pipes.Keys
  }

  // ---------------------------------------------------------------------------
  // write

  datatype Outcome = Queued | Dropped | Threw

  datatype Written = Written(state: State, outcome: Outcome)

  /**
   * `write(chunk)` on transform `m`: `format` runs now; an exception leaves
   * everything as it was, a `null` result queues nothing, and any other
   * result is queued as a stage of `m`'s writer chain.
   */
  function WriteTo(kinds: map<Id, Kind>, st: State, m: Id, d: Data): (w: Written)
    requires m in kinds && m in st.queues
    ensures w.state.queues.Keys == st.queues.Keys && w.state.rejected == st.rejected
    ensures w.outcome == Threw <==> Format(kinds[m], d).Throws?
    ensures w.outcome == Threw ==> w.state == st
  {
    match Format(kinds[m], d)
    case Throws => Written(st, Threw)
    case Result(out) =>
      var echoed := st.(log := st.log + Echo(kinds[m], m, d));
      if IsNullish(out) then Written(echoed, Dropped)
      else Written(echoed.(queues := echoed.queues[m := echoed.queues[m] + [out]]), Queued)
  }

  // ---------------------------------------------------------------------------
  // the writer chains

  /**
   * The pending stages of `n` run in the order they were queued. A rejected
   * chain runs none of them.
   */
  function DrainSpec(pipes: map<Id, seq<Pipe>>, kinds: map<Id, Kind>, rank: map<Id, nat>, st: State, n: Id): (r: State)
    requires Ranked(pipes, rank) && Shaped(pipes, kinds, st) && n in pipes
    ensures r.queues.Keys == st.queues.Keys
    ensures st.rejected <= r.rejected && st.log <= r.log
    decreases rank[n], 2
  {
    var emptied := st.(queues := st.queues[n := []]);
    if n in st.rejected then emptied else Stages(pipes, kinds, rank, emptied, n, st.queues[n])
  }

  /** The stages `q` of `n`, one after the other, until the chain is rejected. */
  function Stages(pipes: map<Id, seq<Pipe>>, kinds: map<Id, Kind>, rank: map<Id, nat>, st: State, n: Id, q: seq<Data>)
    : (r: State)
    requires Ranked(pipes, rank) && Shaped(pipes, kinds, st) && n in pipes
    ensures r.queues.Keys == st.queues.Keys
    ensures st.rejected <= r.rejected && st.log <= r.log
    decreases rank[n], 1, |q|
  {
    if q == [] || n in st.rejected then st
    else Stages(pipes, kinds, rank, Stage(pipes, kinds, rank, st, n, q[0], 0), n, q[1..])
  }

  /**
   * One stage of `n` delivering `d`, from pipe `j` on. A transform child is
   * written to and its chain is waited for; if its `format` throws or its
   * chain is rejected, so is `n`'s, and the stage stops there. Any other
   * pipe is handed the serialised value.
   */
  function Stage(pipes: map<Id, seq<Pipe>>, kinds: map<Id, Kind>, rank: map<Id, nat>, st: State, n: Id, d: Data, j: nat)
    : (r: State)
    requires Ranked(pipes, rank) && Shaped(pipes, kinds, st) && n in pipes && j <= |pipes[n]|
    ensures r.queues.Keys == st.queues.Keys
    ensures st.rejected <= r.rejected && st.log <= r.log
    decreases rank[n], 0, |pipes[n]| - j
  {
    if j == |pipes[n]| then st
    else
      match pipes[n][j]
      case TransformNode(m) =>
        var w := WriteTo(kinds, st, m, d);
        if w.outcome == Threw then w.state.(rejected := w.state.rejected + {n})
        else
          var after := DrainSpec(pipes, kinds, rank, w.state, m);
          if m in after.rejected then after.(rejected := after.rejected + {n})
          else Stage(pipes, kinds, rank, after, n, d, j + 1)
      case _ =>
        Stage(pipes, kinds, rank, st.(log := st.log + [Wrote(pipes[n][j].sink, Serialise(d))]), n, d, j + 1)
  }

  // ---------------------------------------------------------------------------
  // close

  /** What `close` of `n` does from pipe `j` on: children are closed, sinks closed or ended. */
  function CloseLog(pipes: map<Id, seq<Pipe>>, rank: map<Id, nat>, log: seq<Event>, n: Id, j: nat): (r: seq<Event>)
    requires Ranked(pipes, rank) && n in pipes && j <= |pipes[n]|
    ensures log <= r
    decreases rank[n], |pipes[n]| - j
  {
    if j == |pipes[n]| then log
    else
      match pipes[n][j]
      case TransformNode(m) => CloseLog(pipes, rank, CloseLog(pipes, rank, log, m, 0), n, j + 1)
      case ClosableSink(s) => CloseLog(pipes, rank, log + [Closed(s)], n, j + 1)
      case EndableSink(s) => CloseLog(pipes, rank, log + [Ended(s)], n, j + 1)
      case WriteOnlySink(_) => CloseLog(pipes, rank, log, n, j + 1)
  }

  // ---------------------------------------------------------------------------
  // what write promises

  /**
   * A Filter drops an entry above its threshold: nothing is queued, so no
   * pipe will ever receive it, and nothing else changes.
   */
  lemma FilterDropsAbove(kinds: map<Id, Kind>, st: State, m: Id, e: LogEntry)
    requires m in kinds && m in st.queues && kinds[m].FilterNode?
    requires e.levelNumber > kinds[m].filterLevel
    ensures WriteTo(kinds, st, m, Entry(e)) == Written(st, Dropped)
  {
  }

  /** A Filter queues the very same entry when its level is at most the threshold. */
  lemma FilterQueuesPassing(kinds: map<Id, Kind>, st: State, m: Id, e: LogEntry)
    requires m in kinds && m in st.queues && kinds[m].FilterNode?
    requires e.levelNumber <= kinds[m].filterLevel
    ensures WriteTo(kinds, st, m, Entry(e)) == Written(st.(queues := st.queues[m := st.queues[m] + [Entry(e)]]), Queued)
  {
  }

  /**
   * A Browser writes its parts to the console only when `output` is set;
   * what it queues is the same either way.
   */
  lemma BrowserOutputOnlyEchoes(kinds: map<Id, Kind>, st: State, m: Id, s: string, output: bool)
    requires m in kinds && m in st.queues && kinds[m].BrowserNode?
    ensures var k := kinds[m];
      var other := kinds[m := BrowserNode(k.browser.(output := output))];
      var w := WriteTo(kinds, st, m, Plain(Str(s)));
      var v := WriteTo(other, st, m, Plain(Str(s)));
      w.outcome == v.outcome == Queued && w.state.queues == v.state.queues
      && (w.state.log == st.log <==> !k.browser.output)
      && (w.state.log != st.log ==> w.state.log == st.log + [ConsoleLog(m, Browser.Parts(k.browser, s))])
  {
    var k := kinds[m];
    var b := k.browser;
    var other := kinds[m := BrowserNode(b.(output := output))];
    var d := Plain(Str(s));
    Browser.OutputDoesNotChangeParts(b, output, s);
    var parts := Browser.Parts(b, s);
    assert Format(k, d) == Result(Parts(parts));
    assert Format(other[m], d) == Result(Parts(parts));
    if b.output {
      assert Echo(k, m, d) == [ConsoleLog(m, parts)];
      assert |st.log + Echo(k, m, d)| > |st.log|;
    } else {
      assert Echo(k, m, d) == [];
      assert st.log + [] == st.log;
    }
  }

  // ---------------------------------------------------------------------------
  // what the chains promise

  /** Pipes that are all sinks, none a transform. */
  predicate SinksOnly(ps: seq<Pipe>) {
    forall j :: 0 <= j < |ps| ==> !ps[j].TransformNode?
  }

  /** What sinks `ps` are handed for one value: each, in order, gets it serialised. */
  function Deliveries(ps: seq<Pipe>, d: Data): seq<Event>
    requires SinksOnly(ps)
  {
    if ps == [] then [] else [Wrote(ps[0].sink, Serialise(d))] + Deliveries(ps[1..], d)
  }

  /** What sinks `ps` are handed for the values `q`: all of the first value, then all of the next, and so on. */
  function SinkDeliveries(ps: seq<Pipe>, q: seq<Data>): seq<Event>
    requires SinksOnly(ps)
  {
    if q == [] then [] else Deliveries(ps, q[0]) + SinkDeliveries(ps, q[1..])
  }

  /** A stage of a transform whose pipes are all sinks hands the value to each of them in pipe order. */
  lemma {:induction false} StageToSinks(pipes: map<Id, seq<Pipe>>, kinds: map<Id, Kind>, rank: map<Id, nat>, st: State,
                                         n: Id, d: Data, j: nat)
    requires Ranked(pipes, rank) && Shaped(pipes, kinds, st) && n in pipes && j <= |pipes[n]|
    requires SinksOnly(pipes[n])
    ensures Stage(pipes, kinds, rank, st, n, d, j) == st.(log := st.log + Deliveries(pipes[n][j..], d))
    decreases |pipes[n]| - j
  {
    if j < |pipes[n]| {
      var next := st.(log := st.log + [Wrote(pipes[n][j].sink, Serialise(d))]);
      StageToSinks(pipes, kinds, rank, next, n, d, j + 1);
      assert pipes[n][j..][1..] == pipes[n][j + 1..];
      assert Deliveries(pipes[n][j..], d) == [Wrote(pipes[n][j].sink, Serialise(d))] + Deliveries(pipes[n][j + 1..], d);
    }
  }

  /** The stages of such a transform hand over the values one after the other. */
  lemma {:induction false} StagesToSinks(pipes: map<Id, seq<Pipe>>, kinds: map<Id, Kind>, rank: map<Id, nat>, st: State,
                                         n: Id, q: seq<Data>)
    requires Ranked(pipes, rank) && Shaped(pipes, kinds, st) && n in pipes && n !in st.rejected
    requires SinksOnly(pipes[n])
    ensures Stages(pipes, kinds, rank, st, n, q) == st.(log := st.log + SinkDeliveries(pipes[n], q))
    decreases |q|
  {
    if q != [] {
      StageToSinks(pipes, kinds, rank, st, n, q[0], 0);
      assert pipes[n][0..] == pipes[n];
      var next := st.(log := st.log + Deliveries(pipes[n], q[0]));
      StagesToSinks(pipes, kinds, rank, next, n, q[1..]);
    }
  }

  /**
   * Draining a transform whose pipes are all sinks hands every pending value,
   * in the order the writes were made, to every sink, in pipe order.
   */
  lemma SinksSeeCallOrder(pipes: map<Id, seq<Pipe>>, kinds: map<Id, Kind>, rank: map<Id, nat>, st: State, n: Id)
    requires Ranked(pipes, rank) && Shaped(pipes, kinds, st) && n in pipes && n !in st.rejected
    requires SinksOnly(pipes[n])
    ensures DrainSpec(pipes, kinds, rank, st, n)
      == st.(queues := st.queues[n := []], log := st.log + SinkDeliveries(pipes[n], st.queues[n]))
  {
    StagesToSinks(pipes, kinds, rank, st.(queues := st.queues[n := []]), n, st.queues[n]);
  }

  /** One sink sees the values exactly in queue order. */
  lemma {:induction false} OneSinkInOrder(p: Pipe, q: seq<Data>)
    requires !p.TransformNode?
    ensures |SinkDeliveries([p], q)| == |q|
    ensures forall i :: 0 <= i < |q| ==> SinkDeliveries([p], q)[i] == Wrote(p.sink, Serialise(q[i]))
  {
    if q != [] {
      OneSinkInOrder(p, q[1..]);
      assert Deliveries([p], q[0]) == [Wrote(p.sink, Serialise(q[0]))] by {
        assert [p][1..] == [];
      }
    }
  }

  /**
   * The chain is first in, first out: running the stages of `q1 + q2` is
   * running those of `q1` and then those of `q2`.
   */
  lemma {:induction false} StagesAppend(pipes: map<Id, seq<Pipe>>, kinds: map<Id, Kind>, rank: map<Id, nat>, st: State,
                                        n: Id, q1: seq<Data>, q2: seq<Data>)
    requires Ranked(pipes, rank) && Shaped(pipes, kinds, st) && n in pipes
    ensures Stages(pipes, kinds, rank, st, n, q1 + q2)
      == Stages(pipes, kinds, rank, Stages(pipes, kinds, rank, st, n, q1), n, q2)
    decreases |q1|
  {
    if q1 == [] {
      assert q1 + q2 == q2;
    } else if n !in st.rejected {
      assert (q1 + q2)[0] == q1[0] && (q1 + q2)[1..] == q1[1..] + q2;
      StagesAppend(pipes, kinds, rank, Stage(pipes, kinds, rank, st, n, q1[0], 0), n, q1[1..], q2);
    }
  }

  /** A rejected chain runs no stage: its pending values are discarded and nobody receives them. */
  lemma RejectedDeliversNothing(pipes: map<Id, seq<Pipe>>, kinds: map<Id, Kind>, rank: map<Id, nat>, st: State, n: Id, q: seq<Data>)
    requires Ranked(pipes, rank) && Shaped(pipes, kinds, st) && n in pipes && n in st.rejected
    ensures Stages(pipes, kinds, rank, st, n, q) == st
    ensures DrainSpec(pipes, kinds, rank, st, n) == st.(queues := st.queues[n := []])
  {
  }

  /**
   * When the first pipe is a child whose `format` throws on the first
   * pending value, the chain is rejected there: no pipe receives that value
   * or any later one.
   */
  lemma ThrowingChildStopsChain(pipes: map<Id, seq<Pipe>>, kinds: map<Id, Kind>, rank: map<Id, nat>, st: State, n: Id, m: Id)
    requires Ranked(pipes, rank) && Shaped(pipes, kinds, st) && n in pipes && n !in st.rejected
    requires |pipes[n]| > 0 && pipes[n][0] == TransformNode(m)
    requires |st.queues[n]| > 0 && Format(kinds[m], st.queues[n][0]).Throws?
    ensures DrainSpec(pipes, kinds, rank, st, n)
      == st.(queues := st.queues[n := []], rejected := st.rejected + {n})
  {
    var q := st.queues[n];
    var emptied := st.(queues := st.queues[n := []]);
    var stopped := emptied.(rejected := emptied.rejected + {n});
    assert Stage(pipes, kinds, rank, emptied, n, q[0], 0) == stopped;
    assert Stages(pipes, kinds, rank, stopped, n, q[1..]) == stopped;
  }

  /**
   * A transform child is handed the value itself, not its serialisation:
   * with a child `m` whose pipes are sinks, a stage of `n` writes `d` to `m`
   * and `m`'s sinks receive `m`'s own format of `d`.
   */
  lemma TransformChildGetsValue(pipes: map<Id, seq<Pipe>>, kinds: map<Id, Kind>, rank: map<Id, nat>, st: State,
                                n: Id, m: Id, d: Data)
    requires Ranked(pipes, rank) && Shaped(pipes, kinds, st) && n in pipes
    requires pipes[n] == [TransformNode(m)] && m in pipes && SinksOnly(pipes[m])
    requires m !in st.rejected && st.queues[m] == [] && !kinds[m].BrowserNode?
    requires Format(kinds[m], d).Result? && !IsNullish(Format(kinds[m], d).data)
    ensures Stage(pipes, kinds, rank, st, n, d, 0)
      == st.(log := st.log + Deliveries(pipes[m], Format(kinds[m], d).data))
  {
    var out := Format(kinds[m], d).data;
    var queued := st.(queues := st.queues[m := [out]]);
    assert WriteTo(kinds, st, m, d) == Written(queued, Queued) by {
      assert Echo(kinds[m], m, d) == [];
      var echoed := st.(log := st.log + Echo(kinds[m], m, d));
      assert echoed == st;
      assert echoed.queues[m] + [out] == [out];
    }
    SinksSeeCallOrder(pipes, kinds, rank, queued, m);
    assert queued.queues[m := []] == st.queues;
    assert SinkDeliveries(pipes[m], [out]) == Deliveries(pipes[m], out) by {
      assert [out][1..] == [];
    }
    var after := st.(log := st.log + Deliveries(pipes[m], out));
    assert DrainSpec(pipes, kinds, rank, queued, m) == after;
    assert Stage(pipes, kinds, rank, after, n, d, 1) == after;
  }

  /**
   * The pipes are read when a stage runs, not when `write` is called: a sink
   * piped after the write but before the chain gets to it still receives the
   * value, after the sinks that were there before.
   */
  lemma LatePipeReceives(pipes: map<Id, seq<Pipe>>, kinds: map<Id, Kind>, rank: map<Id, nat>, st: State,
                         n: Id, d: Data, late: Pipe)
    requires Ranked(pipes, rank) && Shaped(pipes, kinds, st) && n in pipes && n !in st.rejected
    requires SinksOnly(pipes[n]) && !late.TransformNode? && st.queues[n] == [d]
    ensures var later := pipes[n := pipes[n] + [late]];
      Ranked(later, rank) && Shaped(later, kinds, st)
      && DrainSpec(later, kinds, rank, st, n).log == st.log + Deliveries(pipes[n], d) + [Wrote(late.sink, Serialise(d))]
  {
    var later := pipes[n := pipes[n] + [late]];
    assert Ranked(later, rank);
    SinksSeeCallOrder(later, kinds, rank, st, n);
    DeliveriesAppend(pipes[n], late, d);
  }

  lemma {:induction false} DeliveriesAppend(ps: seq<Pipe>, late: Pipe, d: Data)
    requires SinksOnly(ps) && !late.TransformNode?
    ensures SinksOnly(ps + [late])
    ensures Deliveries(ps + [late], d) == Deliveries(ps, d) + [Wrote(late.sink, Serialise(d))]
  {
    if ps != [] {
      assert (ps + [late])[1..] == ps[1..] + [late];
      DeliveriesAppend(ps[1..], late, d);
    }
  }

  // ---------------------------------------------------------------------------
  // what close promises

  /** The close events of sinks `ps`: `Closed` for one with `close`, `Ended` for one with only `end`. */
  function CloseEvents(ps: seq<Pipe>): seq<Event>
    requires SinksOnly(ps)
  {
    if ps == [] then []
    else
      (match ps[0]
       case ClosableSink(s) => [Closed(s)]
       case EndableSink(s) => [Ended(s)]
       case _ => [])
      + CloseEvents(ps[1..])
  }

  /**
   * Closing a transform whose pipes are sinks closes or ends each of them in
   * order and leaves the write-only ones alone; with no pipes nothing happens.
   */
  lemma {:induction false} CloseSinks(pipes: map<Id, seq<Pipe>>, rank: map<Id, nat>, log: seq<Event>, n: Id, j: nat)
    requires Ranked(pipes, rank) && n in pipes && j <= |pipes[n]| && SinksOnly(pipes[n])
    ensures CloseLog(pipes, rank, log, n, j) == log + CloseEvents(pipes[n][j..])
    ensures pipes[n] == [] ==> CloseLog(pipes, rank, log, n, j) == log
    decreases |pipes[n]| - j
  {
    if j < |pipes[n]| {
      assert pipes[n][j..][1..] == pipes[n][j + 1..];
      match pipes[n][j]
      case ClosableSink(s) => CloseSinks(pipes, rank, log + [Closed(s)], n, j + 1);
      case EndableSink(s) => CloseSinks(pipes, rank, log + [Ended(s)], n, j + 1);
      case WriteOnlySink(_) => CloseSinks(pipes, rank, log, n, j + 1);
    }
  }

  // ---------------------------------------------------------------------------
  // the transforms

  class Transforms {
    var pipes: map<Id, seq<Pipe>>
    var kinds: map<Id, Kind>
    var state: State
    var count: nat
    ghost var rank: map<Id, nat>

    ghost predicate Valid()
      reads this
    {
      Ranked(pipes, rank) && Shaped(pipes, kinds, state) && forall n :: n in pipes ==> n < count
    }

    constructor()
      ensures Valid() && pipes == map[] && state.log == []
    {
      pipes, kinds, count, rank := map[], map[], 0, map[];
      state := State(map[], {}, []);
    }

    /**
     * `new Transform()`, `new Filter(...)`, `new Human(...)` or `new
     * Browser(...)`: a transform with no pipes and an empty writer chain.
     * `level` is its rank; it may only pipe into transforms of lower rank.
     */
    method Create(kind: Kind, ghost level: nat) returns (id: Id)
      requires Valid()
      modifies this
      ensures Valid() && id !in old(pipes)
      ensures pipes == old(pipes)[id := []] && kinds == old(kinds)[id := kind] && rank == old(rank)[id := level]
      ensures state == State(old(state.queues)[id := []], old(state.rejected) - {id}, old(state.log))
    {
      id := count;
      pipes, kinds, rank := pipes[id := []], kinds[id := kind], rank[id := level];
      state := State(state.queues[id := []], state.rejected - {id}, state.log);
      count := count + 1;
    }

    /** `pipe(to)`: `to` goes at the end of the pipes, and is returned so that pipes can be chained. */
    method Pipe(n: Id, to: Pipe) returns (r: Pipe)
      requires Valid() && n in pipes
      requires to.TransformNode? ==> to.id in pipes && rank[to.id] < rank[n]
      modifies this
      ensures Valid() && r == to
      ensures pipes == old(pipes)[n := old(pipes)[n] + [to]]
      ensures kinds == old(kinds) && state == old(state) && rank == old(rank)
    {
      pipes := pipes[n := pipes[n] + [to]];
      r := to;
    }

    /** `format` of transform `n`'s kind, calling the Browser's own loops. */
    method FormatOf(k: Kind, d: Data) returns (r: Formatted)
      ensures r == Format(k, d)
    {
      match k
      case BrowserNode(b) =>
        if d.Plain? && d.v.Str? {
          var parts := Browser.Format(b, d.v.s);
          r := Result(Parts(parts));
        } else {
          r := Throws;
        }
      case _ =>
        r := Format(k, d);
    }

    /** `write(chunk)` on transform `n`. */
    method Write(n: Id, chunk: Data) returns (outcome: Outcome)
      requires Valid() && n in pipes
      modifies this
      ensures Valid() && pipes == old(pipes) && kinds == old(kinds) && rank == old(rank) && count == old(count)
      ensures Written(state, outcome) == WriteTo(kinds, old(state), n, chunk)
    {
      var data := FormatOf(kinds[n], chunk);
      if data.Throws? {
        return Threw;
      }
      state := state.(log := state.log + Echo(kinds[n], n, chunk));
      if IsNullish(data.data) {
        return Dropped;
      }
      state := state.(queues := state.queues[n := state.queues[n] + [data.data]]);
      return Queued;
    }

    /** The pending stages of `n`'s writer chain run, in order. */
    method Drain(n: Id)
      requires Valid() && n in pipes
      modifies this
      ensures Valid() && pipes == old(pipes) && kinds == old(kinds) && rank == old(rank) && count == old(count)
      ensures state == DrainSpec(pipes, kinds, rank, old(state), n)
      decreases rank[n], 3
    {
      var q := state.queues[n];
      var wasRejected := n in state.rejected;
      state := state.(queues := state.queues[n := []]);
      if !wasRejected {
        RunStages(n, q);
      }
    }

    /** The stages `q` of `n`, one after the other, until the chain is rejected. */
    method RunStages(n: Id, q: seq<Data>)
      requires Valid() && n in pipes
      modifies this
      ensures Valid() && pipes == old(pipes) && kinds == old(kinds) && rank == old(rank) && count == old(count)
      ensures state == Stages(pipes, kinds, rank, old(state), n, q)
      decreases rank[n], 2
    {
      ghost var goal := Stages(pipes, kinds, rank, state, n, q);
      var i := 0;
      while i < |q| && n !in state.rejected
        invariant 0 <= i <= |q|
        invariant Valid() && pipes == old(pipes) && kinds == old(kinds) && rank == old(rank) && count == old(count)
        invariant Stages(pipes, kinds, rank, state, n, q[i..]) == goal
        decreases |q| - i
      {
        assert q[i..][0] == q[i] && q[i..][1..] == q[i + 1..];
        RunStage(n, q[i]);
        i := i + 1;
      }
    }

    /** One stage of `n`: `d` goes to every pipe in order, as the pipes are now. */
    method RunStage(n: Id, d: Data)
      requires Valid() && n in pipes
      modifies this
      ensures Valid() && pipes == old(pipes) && kinds == old(kinds) && rank == old(rank) && count == old(count)
      ensures state == Stage(pipes, kinds, rank, old(state), n, d, 0)
      decreases rank[n], 1, |pipes[n]| + 1
    {
      ghost var goal := Stage(pipes, kinds, rank, state, n, d, 0);
      var j := 0;
      while j < |pipes[n]|
        invariant Valid() && pipes == old(pipes) && kinds == old(kinds) && rank == old(rank) && count == old(count)
        invariant 0 <= j <= |pipes[n]|
        invariant Stage(pipes, kinds, rank, state, n, d, j) == goal
        decreases |pipes[n]| - j
      {
        var stop := DeliverTo(n, d, j);
        if stop {
          return;
        }
        j := j + 1;
      }
    }

    /**
     * Pipe `j` of a stage of `n` receives `d`. `stop` tells that `n`'s chain
     * was rejected here, which ends the stage.
     */
    method DeliverTo(n: Id, d: Data, j: nat) returns (stop: bool)
      requires Valid() && n in pipes && j < |pipes[n]|
      modifies this
      ensures Valid() && pipes == old(pipes) && kinds == old(kinds) && rank == old(rank) && count == old(count)
      ensures stop ==> state == Stage(pipes, kinds, rank, old(state), n, d, j)
      ensures !stop ==> Stage(pipes, kinds, rank, state, n, d, j + 1) == Stage(pipes, kinds, rank, old(state), n, d, j)
      decreases rank[n], 1, |pipes[n]| - j
    {
      stop := false;
      match pipes[n][j] {
        case TransformNode(m) =>
          var outcome := Write(m, d);
          if outcome == Threw {
            state := state.(rejected := state.rejected + {n});
            return true;
          }
          Drain(m);
          if m in state.rejected {
            state := state.(rejected := state.rejected + {n});
            return true;
          }
        case _ =>
          state := state.(log := state.log + [Wrote(pipes[n][j].sink, Serialise(d))]);
      }
    }

    /** `close()` of `n`: each pipe in order is closed, or else ended, or else left alone. */
    method Close(n: Id)
      requires Valid() && n in pipes
      modifies this
      ensures Valid() && pipes == old(pipes) && kinds == old(kinds) && rank == old(rank) && count == old(count)
      ensures state == old(state).(log := CloseLog(pipes, rank, old(state.log), n, 0))
      decreases rank[n]
    {
      ghost var goal := CloseLog(pipes, rank, state.log, n, 0);
      var j := 0;
      while j < |pipes[n]|
        invariant Valid() && pipes == old(pipes) && kinds == old(kinds) && rank == old(rank) && count == old(count)
        invariant 0 <= j <= |pipes[n]|
        invariant state == old(state).(log := state.log)
        invariant CloseLog(pipes, rank, state.log, n, j) == goal
        decreases |pipes[n]| - j
      {
        match pipes[n][j] {
          case TransformNode(m) => Close(m);
          case ClosableSink(s) => state := state.(log := state.log + [Closed(s)]);
          case EndableSink(s) => state := state.(log := state.log + [Ended(s)]);
          case WriteOnlySink(_) =>
        }
        j := j + 1;
      }
    }

    /** `end(cb)`: `close`, and the callback once it has settled. */
    method End(n: Id, callback: bool)
      requires Valid() && n in pipes
      modifies this
      ensures Valid() && pipes == old(pipes) && kinds == old(kinds) && rank == old(rank) && count == old(count)
      ensures state == old(state).(log := CloseLog(pipes, rank, old(state.log), n, 0) + (if callback then [Callback(n)] else []))
    {
      Close(n);
      if callback {
        state := state.(log := state.log + [Callback(n)]);
      }
    }
  }
}
