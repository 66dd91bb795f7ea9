/** One process' Run: tick after tick, each claiming only when the last has joined its workers. */
module SweepRun {
  import opened SqlOrder
  import Pool

  /** A tick: the rows it claimed, and its pool. */
  datatype Tick<V(==)> = Tick(ids: seq<int>, pool: Pool.State<V>)

  datatype Event<V(==)> = Claim(ids: seq<int>) | Move(e: Pool.Event<V>)

  datatype Config = Config(workers: nat, burst: nat)

  function Begin<V>(c: Config, ids: seq<int>): Tick<V> {
    Tick(ids, Pool.Start<V>(|ids|, c.workers, c.burst))
  }

  /** Store.Claim returns each row once (FetchQueue.Selects); whether the lease of a row has lapsed does not matter
      here. */
  ghost predicate Enabled<V>(ticks: seq<Tick<V>>, e: Event<V>) {
    match e
    case Claim(ids) => Distinct(ids) && (ticks != [] ==> Pool.Joined(ticks[|ticks| - 1].pool))
    case Move(m) => ticks != [] && Pool.Enabled(ticks[|ticks| - 1].pool, m)
  }

  ghost function Step<V>(c: Config, ticks: seq<Tick<V>>, e: Event<V>): seq<Tick<V>>
    requires Enabled(ticks, e)
  {
    match e
    case Claim(ids) => ticks + [Begin<V>(c, ids)]
    case Move(m) =>
      var last := ticks[|ticks| - 1];
      ticks[|ticks| - 1 := last.(pool := Pool.Step(last.pool, true, m))]
  }

  ghost predicate Run<V>(c: Config, ticks: seq<Tick<V>>, es: seq<Event<V>>, ticks': seq<Tick<V>>)
    decreases |es|
  {
    if es == [] then ticks' == ticks
    else Enabled(ticks, es[0]) && Run(c, Step(c, ticks, es[0]), es[1..], ticks')
  }

  /** Worker w of tick i is at work on a row. */
  predicate Works<V>(ticks: seq<Tick<V>>, i: int, w: int) {
    && 0 <= i < |ticks| && 0 <= w < |ticks[i].pool.workers|
    && !ticks[i].pool.workers[w].Idle? && !Pool.Exited(ticks[i].pool.workers[w])
    && ticks[i].pool.workers[w].item < |ticks[i].ids|
  }

  function RowOf<V>(ticks: seq<Tick<V>>, i: int, w: int): int
    requires Works(ticks, i, w)
  {
    ticks[i].ids[ticks[i].pool.workers[w].item]
  }

  ghost predicate Good<V(!new)>(ticks: seq<Tick<V>>) {
    && (forall i | 0 <= i < |ticks| - 1 :: Pool.Joined(ticks[i].pool))
    && (forall i | 0 <= i < |ticks| ::
          Distinct(ticks[i].ids) && Pool.Good(ticks[i].pool, true) && ticks[i].pool.items == |ticks[i].ids|)
  }

  lemma StepKeepsGood<V(!new)>(c: Config, ticks: seq<Tick<V>>, e: Event<V>)
    requires Good(ticks) && Enabled(ticks, e)
    ensures Good(Step(c, ticks, e))
  {
    match e
    case Claim(ids) => Pool.StartIsGood<V>(|ids|, c.workers, c.burst, true);
    case Move(m) => {
      var last := ticks[|ticks| - 1].pool;
      Pool.StepKeepsGood(last, true, m);
      assert Pool.Step(last, true, m).items == last.items;
    }
  }

  lemma {:induction false} RunKeepsGood<V(!new)>(c: Config, ticks: seq<Tick<V>>, es: seq<Event<V>>,
                                                 ticks': seq<Tick<V>>)
    requires Good(ticks) && Run(c, ticks, es, ticks')
    ensures Good(ticks')
    decreases |es|
  {
    if es == [] {
    } else {
      StepKeepsGood(c, ticks, es[0]);
      RunKeepsGood(c, Step(c, ticks, es[0]), es[1..], ticks');
    }
  }

  lemma WorkersDiffer<V(!new)>(t: Tick<V>, v: nat, w: nat)
    requires Distinct(t.ids) && Pool.Good(t.pool, true) && v != w
    requires Works([t], 0, v) && Works([t], 0, w)
    ensures RowOf([t], 0, v) != RowOf([t], 0, w)
  {
    assert Pool.Holds(t.pool, v, t.pool.workers[v].item) && Pool.Holds(t.pool, w, t.pool.workers[w].item);
  }

  /** Of all the workers that a process has ever started, no two are at work on the same row at the same time, be the
      lease as short as it may. */
  lemma NoOverlapWithin<V(!new)>(c: Config, es: seq<Event<V>>, ticks: seq<Tick<V>>, i: nat, v: nat, j: nat, w: nat)
    requires Run(c, [], es, ticks) && Works(ticks, i, v) && Works(ticks, j, w) && (i != j || v != w)
    ensures RowOf(ticks, i, v) != RowOf(ticks, j, w)
  {
    RunKeepsGood(c, [], es, ticks);
    assert i == j;
    WorkersDiffer(ticks[i], v, w);
    assert RowOf(ticks, i, v) == RowOf([ticks[i]], 0, v) && RowOf(ticks, j, w) == RowOf([ticks[i]], 0, w);
  }
}
