/** The worker pool under internal/sweep/runner.go's Tick and internal/discord/worker.go's drain: a producer and W
    workers on an unbuffered channel, a shared context, atomic tallies, and a join.

    `guarded` is the runner's check of the context after a fetch, which drain does not make.  Items are named by
    their place in the claimed batch; `V` is the verdict that picks the tally. */
module Pool {
  import opened Base
  import SqlOrder

  datatype Phase<V> =
    | Idle                                        // ranging over the channel
    | Waiting(item: nat)                          // in Limiter.Wait
    | Busy(item: nat)                             // in Fetch or Send
    | Answered(item: nat, verdict: V, cut: bool)  // cut: the context ended before the answer came
    | Recording(item: nat, verdict: V, cut: bool) // tallied, in Complete
    | Gone                                        // channel closed and drained
    | Dropped(item: nat)                          // returned early with an item in hand

  datatype Record<V> = Record(item: nat, verdict: V, cut: bool)

  /** `burst` is the limiter's; nothing in config stops it from being zero. */
  datatype State<V(==)> = State(items: nat, burst: nat, next: nat, closed: bool, cancelled: bool,
                                workers: seq<Phase<V>>, tally: multiset<V>, records: seq<Record<V>>)

  datatype Event<V> =
    | Cancel
    | Hand(w: nat)
    | Abort                                       // the producer sees the context end
    | Close
    | Leave(w: nat)
    | Admit(w: nat)
    | Refuse(w: nat)                              // Wait fails: on cancellation, or for want of any burst
    | Answer(w: nat, verdict: V, cut: bool)
    | Check(w: nat)
    | Finish(w: nat)

  function Start<V>(items: nat, workers: nat, burst: nat): State<V> {
    State(items, burst, 0, false, false, seq(workers, _ => Idle), multiset{}, [])
  }

  predicate Enabled<V>(s: State<V>, e: Event<V>) {
    match e
    case Cancel => !s.cancelled
    case Hand(w) => !s.closed && s.next < s.items && w < |s.workers| && s.workers[w].Idle?
    case Abort => !s.closed && s.next < s.items && s.cancelled
    case Close => !s.closed && s.next == s.items
    case Leave(w) => s.closed && w < |s.workers| && s.workers[w].Idle?
    case Admit(w) => s.burst > 0 && w < |s.workers| && s.workers[w].Waiting?
    case Refuse(w) => (s.cancelled || s.burst == 0) && w < |s.workers| && s.workers[w].Waiting?
    case Answer(w, _, cut) => (cut ==> s.cancelled) && w < |s.workers| && s.workers[w].Busy?
    case Check(w) => w < |s.workers| && s.workers[w].Answered?
    case Finish(w) => w < |s.workers| && s.workers[w].Recording?
  }

  function Step<V>(s: State<V>, guarded: bool, e: Event<V>): State<V>
    requires Enabled(s, e)
  {
    match e
    case Cancel => s.(cancelled := true)
    case Hand(w) => s.(next := s.next + 1, workers := s.workers[w := Waiting(s.next)])
    case Abort => s.(closed := true)
    case Close => s.(closed := true)
    case Leave(w) => s.(workers := s.workers[w := Gone])
    case Admit(w) => s.(workers := s.workers[w := Busy(s.workers[w].item)])
    case Refuse(w) => s.(workers := s.workers[w := Dropped(s.workers[w].item)])
    case Answer(w, verdict, cut) => s.(workers := s.workers[w := Answered(s.workers[w].item, verdict, cut)])
    case Check(w) =>
      var p := s.workers[w];
      if guarded && s.cancelled then s.(workers := s.workers[w := Dropped(p.item)])
      else s.(workers := s.workers[w := Recording(p.item, p.verdict, p.cut)], tally := s.tally + multiset{p.verdict})
    case Finish(w) =>
      var p := s.workers[w];
      s.(workers := s.workers[w := Idle], records := s.records + [Record(p.item, p.verdict, p.cut)])
  }

  predicate Exited<V>(p: Phase<V>) {
    p.Gone? || p.Dropped?
  }

  /** Tick's return: the producer is through and wg.Wait has seen every worker off. */
  predicate Joined<V>(s: State<V>) {
    s.closed && forall w | 0 <= w < |s.workers| :: Exited(s.workers[w])
  }

  // ---- Where every item is ----

  function InHand<V>(p: Phase<V>): Option<int> {
    match p
    case Idle => None
    case Gone => None
    case _ => Some(p.item)
  }

  predicate Holds<V>(s: State<V>, w: int, item: int) {
    0 <= w < |s.workers| && InHand(s.workers[w]) == Some(item)
  }

  predicate Recorded<V>(s: State<V>, item: int) {
    exists r | 0 <= r < |s.records| :: s.records[r].item == item
  }

  ghost predicate Placed<V>(s: State<V>) {
    && s.next <= s.items
    && (forall w, item | Holds(s, w, item) :: item < s.next && !Recorded(s, item))
    && (forall v, w, item | Holds(s, v, item) && Holds(s, w, item) :: v == w)
    && (forall item | 0 <= item < s.next && !Recorded(s, item) :: exists w :: Holds(s, w, item))
    && (forall r | 0 <= r < |s.records| :: s.records[r].item < s.next)
    && (forall q, r | 0 <= q < r < |s.records| :: s.records[q].item != s.records[r].item)
  }

  ghost predicate Excused<V>(s: State<V>, guarded: bool) {
    && (s.closed && s.next < s.items ==> s.cancelled)
    && (forall w | 0 <= w < |s.workers| ::
          && (s.workers[w].Dropped? ==> s.cancelled || s.burst == 0)
          && (s.burst == 0 ==> s.workers[w].Idle? || s.workers[w].Waiting? || Exited(s.workers[w]))
          && (s.workers[w].Gone? ==> s.closed)
          && (s.workers[w].Answered? && s.workers[w].cut ==> s.cancelled)
          && (s.workers[w].Recording? && s.workers[w].cut ==> !guarded))
    && (forall r | 0 <= r < |s.records| :: s.records[r].cut ==> !guarded)
    && (s.burst == 0 ==> s.records == [])
  }

  lemma HandKeepsPlaced<V>(s: State<V>, s': State<V>, w: nat)
    requires Placed(s) && Enabled(s, Hand(w)) && s' == Step(s, false, Hand(w))
    ensures Placed(s')
  {
    assert s'.records == s.records;
    assert forall i :: Recorded(s', i) <==> Recorded(s, i);
    assert Holds(s', w, s.next);
    assert forall v, i | v != w :: Holds(s', v, i) <==> Holds(s, v, i);
    assert forall i :: Holds(s', w, i) ==> i == s.next;
    assert forall i :: !Holds(s, w, i);
    forall i | 0 <= i < s'.next && !Recorded(s', i) ensures exists v :: Holds(s', v, i) {
      if i < s.next {
        var v :| Holds(s, v, i);
        assert Holds(s', v, i);
      }
    }
  }

  lemma FinishKeepsPlaced<V>(s: State<V>, s': State<V>, w: nat)
    requires Placed(s) && Enabled(s, Finish(w)) && s' == Step(s, false, Finish(w))
    ensures Placed(s')
  {
    var item := s.workers[w].item;
    assert Holds(s, w, item);
    assert s'.records[|s.records|].item == item;
    forall i ensures Recorded(s', i) <==> i == item || Recorded(s, i) {
      if Recorded(s, i) {
        var r :| 0 <= r < |s.records| && s.records[r].item == i;
        assert s'.records[r].item == i;
      }
    }
    assert forall v, i :: Holds(s', v, i) <==> Holds(s, v, i) && v != w;
    forall r | 0 <= r < |s.records| ensures s.records[r].item != item {
      assert Recorded(s, s.records[r].item);
    }
    forall i | 0 <= i < s.next && !Recorded(s', i) ensures exists v :: Holds(s', v, i) {
      var v :| Holds(s, v, i);
      assert v != w && Holds(s', v, i);
    }
  }

  lemma KeepsPlaced<V>(s: State<V>, s': State<V>)
    requires Placed(s) && s'.records == s.records && s'.next == s.next && s'.items == s.items
    requires forall v, i :: Holds(s', v, i) <==> Holds(s, v, i)
    ensures Placed(s')
  {
    assert forall i :: Recorded(s', i) <==> Recorded(s, i);
    forall i | 0 <= i < s.next && !Recorded(s', i) ensures exists v :: Holds(s', v, i) {
      var v :| Holds(s, v, i);
      assert Holds(s', v, i);
    }
  }

  lemma StepKeepsPlaced<V>(s: State<V>, guarded: bool, e: Event<V>)
    requires Placed(s) && Enabled(s, e)
    ensures Placed(Step(s, guarded, e))
  {
    match e
    case Hand(w) => HandKeepsPlaced(s, Step(s, guarded, e), w);
    case Finish(w) => FinishKeepsPlaced(s, Step(s, guarded, e), w);
    case _ => KeepsPlaced(s, Step(s, guarded, e));
  }

  lemma StepKeepsExcused<V>(s: State<V>, guarded: bool, e: Event<V>)
    requires Excused(s, guarded) && Enabled(s, e)
    ensures Excused(Step(s, guarded, e), guarded)
  {
  }

  // ---- The tallies ----

  /** How many records carry a verdict. */
  function Count<V(==)>(records: seq<Record<V>>, verdict: V): nat {
    if records == [] then 0
    else Count(records[..|records| - 1], verdict) + (if records[|records| - 1].verdict == verdict then 1 else 0)
  }

  function One<V(==)>(p: Phase<V>, verdict: V): nat {
    if p.Recording? && p.verdict == verdict then 1 else 0
  }

  /** How many workers have tallied a verdict and not finished recording it. */
  function Pending<V(==)>(workers: seq<Phase<V>>, verdict: V): nat {
    if workers == [] then 0
    else Pending(workers[..|workers| - 1], verdict) + One(workers[|workers| - 1], verdict)
  }

  ghost predicate Tallied<V(!new)>(s: State<V>) {
    forall v {:trigger s.tally[v]} :: s.tally[v] == Tallies(s, v)
  }

  lemma {:induction false} PendingUpdate<V>(workers: seq<Phase<V>>, w: nat, p: Phase<V>, v: V)
    requires w < |workers|
    ensures Pending(workers[w := p], v) + One(workers[w], v) == Pending(workers, v) + One(p, v)
  {
    var n := |workers| - 1;
    if w == n {
      assert workers[w := p][..n] == workers[..n];
    } else {
      PendingUpdate(workers[..n], w, p, v);
      assert workers[w := p][..n] == workers[..n][w := p];
    }
  }

  function Tallies<V(==)>(s: State<V>, v: V): nat {
    Count(s.records, v) + Pending(s.workers, v)
  }

  lemma CheckTallies<V>(s: State<V>, guarded: bool, w: nat, v: V)
    requires Enabled(s, Check(w))
    ensures var s' := Step(s, guarded, Check(w)); Tallies(s', v) + s.tally[v] == Tallies(s, v) + s'.tally[v]
  {
    PendingUpdate(s.workers, w, Step(s, guarded, Check(w)).workers[w], v);
  }

  lemma FinishTallies<V>(s: State<V>, guarded: bool, w: nat, v: V)
    requires Enabled(s, Finish(w))
    ensures Tallies(Step(s, guarded, Finish(w)), v) == Tallies(s, v)
  {
    var s' := Step(s, guarded, Finish(w));
    PendingUpdate(s.workers, w, s'.workers[w], v);
    assert s'.records[..|s.records|] == s.records;
  }

  lemma OtherTallies<V>(s: State<V>, guarded: bool, e: Event<V>, v: V)
    requires Enabled(s, e) && !e.Check? && !e.Finish?
    ensures Tallies(Step(s, guarded, e), v) == Tallies(s, v)
  {
    if !e.Cancel? && !e.Abort? && !e.Close? {
      PendingUpdate(s.workers, e.w, Step(s, guarded, e).workers[e.w], v);
    }
  }

  lemma StepKeepsTallied<V(!new)>(s: State<V>, guarded: bool, e: Event<V>)
    requires Tallied(s) && Enabled(s, e)
    ensures Tallied(Step(s, guarded, e))
  {
    forall v ensures Step(s, guarded, e).tally[v] == Tallies(Step(s, guarded, e), v) {
      match e
      case Check(w) => CheckTallies(s, guarded, w, v);
      case Finish(w) => FinishTallies(s, guarded, w, v);
      case _ => OtherTallies(s, guarded, e, v);
    }
  }

  lemma {:induction false} NothingPending<V>(workers: seq<Phase<V>>, v: V)
    requires forall w | 0 <= w < |workers| :: !workers[w].Recording?
    ensures Pending(workers, v) == 0
  {
    if workers == [] {
    } else {
      NothingPending(workers[..|workers| - 1], v);
    }
  }

  ghost predicate Good<V(!new)>(s: State<V>, guarded: bool) {
    Placed(s) && Excused(s, guarded) && Tallied(s)
  }

  lemma StartIsGood<V(!new)>(items: nat, workers: nat, burst: nat, guarded: bool)
    ensures Good(Start<V>(items, workers, burst), guarded)
  {
    var s := Start<V>(items, workers, burst);
    assert forall w, item :: !Holds(s, w, item);
    forall v ensures s.tally[v] == Pending(s.workers, v) {
      NothingPending(s.workers, v);
    }
  }

  lemma StepKeepsGood<V(!new)>(s: State<V>, guarded: bool, e: Event<V>)
    requires Good(s, guarded) && Enabled(s, e)
    ensures Good(Step(s, guarded, e), guarded)
  {
    StepKeepsPlaced(s, guarded, e);
    StepKeepsExcused(s, guarded, e);
    StepKeepsTallied(s, guarded, e);
  }

  // ---- It always ends, and never gets stuck ----

  function Weight<V>(p: Phase<V>): nat {
    match p
    case Waiting(_) => 5
    case Busy(_) => 4
    case Answered(_, _, _) => 3
    case Recording(_, _, _) => 2
    case Idle => 1
    case _ => 0
  }

  function Weights<V>(workers: seq<Phase<V>>): nat {
    if workers == [] then 0 else Weights(workers[..|workers| - 1]) + Weight(workers[|workers| - 1])
  }

  /** How many steps are left at most. */
  function Measure<V>(s: State<V>): nat
    requires s.next <= s.items
  {
    (if s.cancelled then 0 else 1) + (if s.closed then 0 else 1) + 5 * (s.items - s.next) + Weights(s.workers)
  }

  lemma {:induction false} WeightUpdate<V>(workers: seq<Phase<V>>, w: nat, p: Phase<V>)
    requires w < |workers|
    ensures Weights(workers[w := p]) + Weight(workers[w]) == Weights(workers) + Weight(p)
  {
    var n := |workers| - 1;
    if w == n {
      assert workers[w := p][..n] == workers[..n];
    } else {
      WeightUpdate(workers[..n], w, p);
      assert workers[w := p][..n] == workers[..n][w := p];
    }
  }

  lemma StepDecreases<V>(s: State<V>, guarded: bool, e: Event<V>)
    requires s.next <= s.items && Enabled(s, e)
    ensures Step(s, guarded, e).next <= s.items && Step(s, guarded, e).items == s.items
    ensures Measure(Step(s, guarded, e)) < Measure(s)
  {
    if !e.Cancel? && !e.Abort? && !e.Close? {
      WeightUpdate(s.workers, e.w, Step(s, guarded, e).workers[e.w]);
    }
  }

  /** The producer offers an item and every worker has left. */
  predicate Starved<V>(s: State<V>) {
    && !s.closed && s.next < s.items && !s.cancelled
    && forall w | 0 <= w < |s.workers| :: Exited(s.workers[w])
  }

  /** Somebody other than the canceller can move, unless all have joined or the producer is starved. */
  lemma NeverStuck<V(!new)>(s: State<V>, guarded: bool, verdict: V) returns (e: Event<V>)
    requires Good(s, guarded) && |s.workers| > 0 && !Joined(s) && !Starved(s)
    ensures Enabled(s, e) && e != Cancel
  {
    if !s.closed && s.next == s.items {
      return Close;
    }
    if !s.closed && s.cancelled {
      return Abort;
    }
    var w: nat :| w < |s.workers| && !Exited(s.workers[w]);
    match s.workers[w] {
      case Idle => e := if s.closed then Leave(w) else Hand(w);
      case Waiting(_) => e := if s.burst > 0 then Admit(w) else Refuse(w);
      case Busy(_) => e := Answer(w, verdict, false);
      case Answered(_, _, _) => e := Check(w);
      case Recording(_, _, _) => e := Finish(w);
    }
  }

  ghost predicate Run<V>(s: State<V>, guarded: bool, es: seq<Event<V>>, s': State<V>)
    decreases |es|
  {
    if es == [] then s' == s
    else Enabled(s, es[0]) && Run(Step(s, guarded, es[0]), guarded, es[1..], s')
  }

  lemma {:induction false} RunKeepsGood<V(!new)>(s: State<V>, guarded: bool, es: seq<Event<V>>, s': State<V>)
    requires Good(s, guarded) && Run(s, guarded, es, s')
    ensures Good(s', guarded) && s'.items == s.items && s'.burst == s.burst && |s'.workers| == |s.workers|
    decreases |es|
  {
    if es == [] {
    } else {
      StepKeepsGood(s, guarded, es[0]);
      RunKeepsGood(Step(s, guarded, es[0]), guarded, es[1..], s');
    }
  }

  lemma {:induction false} RunDecreases<V>(s: State<V>, guarded: bool, es: seq<Event<V>>, s': State<V>)
    requires s.next <= s.items && Run(s, guarded, es, s')
    ensures s'.next <= s'.items && |es| + Measure(s') <= Measure(s)
    decreases |es|
  {
    if es == [] {
    } else {
      StepDecreases(s, guarded, es[0]);
      RunDecreases(Step(s, guarded, es[0]), guarded, es[1..], s');
    }
  }

  lemma {:induction false} IdleWeights<V>(workers: seq<Phase<V>>)
    requires forall w | 0 <= w < |workers| :: workers[w].Idle?
    ensures Weights(workers) == |workers|
  {
    if workers == [] {
    } else {
      IdleWeights(workers[..|workers| - 1]);
    }
  }

  /** Workers that a limiter without burst has turned away have each taken a different item. */
  lemma TurnedAwayCount<V>(s: State<V>)
    requires Placed(s) && forall w | 0 <= w < |s.workers| :: s.workers[w].Dropped?
    ensures |s.workers| <= s.next
  {
    var taken := seq(|s.workers|, w requires 0 <= w < |s.workers| => s.workers[w].item as int);
    assert forall w | 0 <= w < |taken| :: Holds(s, w, taken[w]);
    SqlOrder.DistinctCount(taken);
    assert SqlOrder.Elems(taken) <= SqlOrder.Range(s.next);
    SqlOrder.SubsetCount(SqlOrder.Elems(taken), SqlOrder.Range(s.next));
  }

  lemma NeverStarved<V(!new)>(s: State<V>, guarded: bool)
    requires Good(s, guarded) && |s.workers| > 0 && (s.burst > 0 || s.items <= |s.workers|)
    ensures !Starved(s)
  {
    if Starved(s) {
      assert Exited(s.workers[0]);
      assert forall w | 0 <= w < |s.workers| :: s.workers[w].Dropped?;
      TurnedAwayCount(s);
    }
  }

  /** Without burst: the first k workers have come and gone. */
  function TurnedAway<V>(items: nat, workers: nat, k: nat): State<V> {
    var phases := seq(workers, w requires 0 <= w < workers => if w < k then Dropped(w) else Idle);
    State(items, 0, k, false, false, phases, multiset{}, [])
  }

  lemma TurnsAwayOne<V>(items: nat, workers: nat, guarded: bool, k: nat, es: seq<Event<V>>, s: State<V>)
    requires k < workers && k < items && Run(TurnedAway<V>(items, workers, k + 1), guarded, es, s)
    ensures Run(TurnedAway<V>(items, workers, k), guarded, [Hand(k), Refuse(k)] + es, s)
  {
    var s0 := TurnedAway<V>(items, workers, k);
    var s1 := Step(s0, guarded, Hand(k));
    var all := [Hand(k), Refuse(k)] + es;
    assert Step(s1, guarded, Refuse(k)).workers == TurnedAway<V>(items, workers, k + 1).workers;
    assert all[1..] == [Refuse(k)] + es && all[1..][1..] == es;
  }

  lemma {:induction false} TurnsAllAway<V>(items: nat, workers: nat, guarded: bool, k: nat) returns (es: seq<Event<V>>)
    requires k <= workers < items
    ensures Run(TurnedAway<V>(items, workers, k), guarded, es, TurnedAway<V>(items, workers, workers))
    decreases workers - k
  {
    if k == workers {
      es := [];
    } else {
      es := TurnsAllAway<V>(items, workers, guarded, k + 1);
      TurnsAwayOne(items, workers, guarded, k, es, TurnedAway<V>(items, workers, workers));
      es := [Hand(k), Refuse(k)] + es;
    }
  }

  /** Not joined, and nobody but a canceller can move. */
  ghost predicate Deadlocked<V(!new)>(s: State<V>) {
    !Joined(s) && forall e: Event<V> :: Enabled(s, e) ==> e == Cancel
  }

  lemma DeadlockIsStarvation<V(!new, 0)>(s: State<V>, guarded: bool)
    requires Good(s, guarded) && |s.workers| > 0
    ensures Deadlocked(s) <==> Starved(s)
  {
    if Starved(s) {
      forall e: Event<V> | Enabled(s, e) ensures e == Cancel {
      }
    } else if !Joined(s) {
      var verdict: V := *;
      var e := NeverStuck(s, guarded, verdict);
    }
  }

  ghost predicate DeadlockFree<V(!new)>(items: nat, workers: nat, burst: nat, guarded: bool) {
    forall es, s | Run(Start<V>(items, workers, burst), guarded, es, s) :: !Deadlocked(s)
  }

  /** No interleaving deadlocks, exactly if the limiter has a burst of at least one, or the batch no more items than
      there are workers for it to turn away. */
  lemma DeadlockFreeExactly<V(!new, 0)>(items: nat, workers: nat, burst: nat, guarded: bool)
    requires workers > 0
    ensures DeadlockFree<V>(items, workers, burst, guarded) <==> burst > 0 || items <= workers
  {
    StartIsGood<V>(items, workers, burst, guarded);
    if burst > 0 || items <= workers {
      forall es, s | Run(Start<V>(items, workers, burst), guarded, es, s) ensures !Deadlocked(s) {
        RunKeepsGood(Start<V>(items, workers, burst), guarded, es, s);
        NeverStarved(s, guarded);
        DeadlockIsStarvation(s, guarded);
      }
    } else {
      var es := TurnsAllAway<V>(items, workers, guarded, 0);
      var s := TurnedAway<V>(items, workers, workers);
      assert Start<V>(items, workers, 0).workers == TurnedAway<V>(items, workers, 0).workers;
      RunKeepsGood(Start<V>(items, workers, burst), guarded, es, s);
      DeadlockIsStarvation(s, guarded);
    }
  }

  /** Every interleaving ends within 5 N + W + 2 steps, and with any burst at all one that has not joined can go on. */
  lemma EveryRunEnds<V(!new)>(items: nat, workers: nat, burst: nat, guarded: bool, es: seq<Event<V>>, s: State<V>,
                              verdict: V)
    returns (e: Event<V>)
    requires workers > 0 && Run(Start<V>(items, workers, burst), guarded, es, s)
    ensures |es| <= 5 * items + workers + 2
    ensures !Joined(s) && (burst > 0 || items <= workers) ==> Enabled(s, e) && e != Cancel
  {
    var s0 := Start<V>(items, workers, burst);
    StartIsGood<V>(items, workers, burst, guarded);
    RunKeepsGood(s0, guarded, es, s);
    RunDecreases(s0, guarded, es, s);
    IdleWeights<V>(s0.workers);
    e := Cancel;
    if !Joined(s) && (burst > 0 || items <= workers) {
      NeverStarved(s, guarded);
      e := NeverStuck(s, guarded, verdict);
    }
  }

  // ---- What a joined pool has done ----

  predicate HeldByDropped<V>(s: State<V>, w: int, item: int) {
    0 <= w < |s.workers| && s.workers[w].Dropped? && s.workers[w].item == item
  }

  function ItemsOf<V>(records: seq<Record<V>>): seq<int> {
    seq(|records|, r requires 0 <= r < |records| => records[r].item as int)
  }

  /** No item is recorded twice, each tally is the number of records with its verdict, an item handed out and not
      recorded is in the hands of exactly one worker that returned early, on cancellation or for want of burst, and
      with the guard no record is of an answer cut short. */
  lemma JoinedAccount<V(!new)>(s: State<V>, guarded: bool, verdict: V)
    requires Good(s, guarded) && Joined(s)
    ensures SqlOrder.Distinct(ItemsOf(s.records))
    ensures s.tally[verdict] == Count(s.records, verdict)
    ensures forall item | 0 <= item < s.next && !Recorded(s, item) :: exists w :: HeldByDropped(s, w, item)
    ensures forall v, w, item | HeldByDropped(s, v, item) && HeldByDropped(s, w, item) :: v == w
    ensures forall w, item | HeldByDropped(s, w, item) :: (s.cancelled || s.burst == 0) && !Recorded(s, item)
    ensures guarded ==> forall r | 0 <= r < |s.records| :: !s.records[r].cut
  {
    NothingPending(s.workers, verdict);
    forall v, item ensures HeldByDropped(s, v, item) <==> Holds(s, v, item) {
      assert 0 <= v < |s.workers| ==> Exited(s.workers[v]);
    }
    forall item | 0 <= item < s.next && !Recorded(s, item) ensures exists w :: HeldByDropped(s, w, item) {
      var w :| Holds(s, w, item);
      assert HeldByDropped(s, w, item);
    }
  }

  /** Without cancellation, and with any burst at all, every item is recorded exactly once. */
  lemma UncancelledIsComplete<V(!new)>(s: State<V>, guarded: bool)
    requires Good(s, guarded) && Joined(s) && !s.cancelled && s.burst > 0
    ensures s.next == s.items && |s.records| == s.items
    ensures forall item | 0 <= item < s.items :: Recorded(s, item)
  {
    assert forall w :: 0 <= w < |s.workers| ==> Exited(s.workers[w]);
    assert forall item | 0 <= item < s.items :: Recorded(s, item);
    var items := ItemsOf(s.records);
    forall item ensures item in SqlOrder.Elems(items) <==> item in SqlOrder.Range(s.items) {
      if item in SqlOrder.Range(s.items) {
        assert Recorded(s, item);
        var r :| 0 <= r < |s.records| && s.records[r].item == item;
        assert items[r] == item;
      }
    }
    assert SqlOrder.Elems(items) == SqlOrder.Range(s.items);
    SqlOrder.DistinctCount(items);
  }

  // ---- What cancellation lets through ----

  predicate At<V>(s: State<V>, w: int, p: Phase<V>) {
    0 <= w < |s.workers| && s.workers[w] == p
  }

  ghost predicate SomeRecording<V>(s: State<V>, r: Record<V>) {
    exists w :: At(s, w, Recording(r.item, r.verdict, r.cut))
  }

  /** With the guard, nothing is tallied once the context has ended, and nothing recorded but what some worker had
      tallied by then and was recording. */
  lemma {:induction false} CancelledRecordsNothing<V(!new)>(mid: State<V>, future: seq<Event<V>>, s: State<V>)
    requires mid.cancelled && Run(mid, true, future, s)
    ensures s.cancelled && s.tally == mid.tally
    ensures |mid.records| <= |s.records| && s.records[..|mid.records|] == mid.records
    ensures forall w, item, verdict, cut | At(s, w, Recording(item, verdict, cut)) ::
              At(mid, w, Recording(item, verdict, cut))
    ensures forall r | |mid.records| <= r < |s.records| :: SomeRecording(mid, s.records[r])
    decreases |future|
  {
    if future == [] {
    } else {
      var e := future[0];
      var next := Step(mid, true, e);
      CancelledRecordsNothing(next, future[1..], s);
      forall w, item, verdict, cut | At(next, w, Recording(item, verdict, cut))
        ensures At(mid, w, Recording(item, verdict, cut))
      {
      }
      forall r | |mid.records| <= r < |s.records| ensures SomeRecording(mid, s.records[r]) {
        if r < |next.records| {
          assert s.records[..|next.records|][r] == next.records[r];
          assert e.Finish? && At(mid, e.w, mid.workers[e.w]);
        } else {
          var w :| At(next, w, Recording(s.records[r].item, s.records[r].verdict, s.records[r].cut));
          assert At(mid, w, Recording(s.records[r].item, s.records[r].verdict, s.records[r].cut));
        }
      }
      assert s.records[..|mid.records|] == s.records[..|next.records|][..|mid.records|];
    }
  }

  /** So a row still waited for, fetched or just answered when the context ends is not recorded: its lease hands it
      back, however good the answer was. */
  lemma CancelledIsNotRecorded<V(!new)>(items: nat, workers: nat, burst: nat, past: seq<Event<V>>, mid: State<V>,
                                        future: seq<Event<V>>, s: State<V>, w: nat)
    requires Run(Start<V>(items, workers, burst), true, past, mid) && mid.cancelled && Run(mid, true, future, s)
    requires w < |mid.workers|
    requires mid.workers[w].Waiting? || mid.workers[w].Busy? || mid.workers[w].Answered?
    ensures !Recorded(s, mid.workers[w].item)
  {
    var item := mid.workers[w].item;
    StartIsGood<V>(items, workers, burst, true);
    RunKeepsGood(Start<V>(items, workers, burst), true, past, mid);
    CancelledRecordsNothing(mid, future, s);
    assert Holds(mid, w, item) && !Recorded(mid, item);
    forall r | 0 <= r < |s.records| ensures s.records[r].item != item {
      if r < |mid.records| {
        assert s.records[r] == s.records[..|mid.records|][r] == mid.records[r];
      } else {
        var rec := s.records[r];
        assert SomeRecording(mid, rec);
        var v :| At(mid, v, Recording(rec.item, rec.verdict, rec.cut));
        assert Holds(mid, v, rec.item);
      }
    }
  }

  /** Busy with an item, or past that. */
  predicate Underway<V>(s: State<V>, item: int) {
    Recorded(s, item)
    || exists w :: 0 <= w < |s.workers| && (s.workers[w].Busy? || s.workers[w].Answered? || s.workers[w].Recording?)
                   && s.workers[w].item == item
  }

  lemma StepKeepsUnderway<V>(s: State<V>, e: Event<V>, item: int)
    requires Enabled(s, e) && Underway(s, item)
    ensures Underway(Step(s, false, e), item)
  {
    var s' := Step(s, false, e);
    if Recorded(s, item) {
      var r :| 0 <= r < |s.records| && s.records[r].item == item;
      assert s'.records[r].item == item;
    } else {
      var w :| 0 <= w < |s.workers| && (s.workers[w].Busy? || s.workers[w].Answered? || s.workers[w].Recording?)
               && s.workers[w].item == item;
      if e == Finish(w) {
        assert s'.records[|s.records|].item == item;
      } else {
        assert s'.workers[w].Busy? || s'.workers[w].Answered? || s'.workers[w].Recording?;
        assert s'.workers[w].item == item;
      }
    }
  }

  /** Without the guard, as the Discord worker is, cancellation stops nothing that was under way: a joined pool has
      recorded it. */
  lemma {:induction false} UnguardedFinishes<V>(mid: State<V>, future: seq<Event<V>>, s: State<V>, item: int)
    requires Run(mid, false, future, s) && Joined(s) && Underway(mid, item)
    ensures Recorded(s, item)
    decreases |future|
  {
    if future == [] {
      assert forall w | 0 <= w < |s.workers| :: Exited(s.workers[w]);
    } else {
      StepKeepsUnderway(mid, future[0], item);
      UnguardedFinishes(Step(mid, false, future[0]), future[1..], s, item);
    }
  }

  predicate AnsweredIn<V(==)>(es: seq<Event<V>>, verdict: V, cut: bool) {
    exists i :: 0 <= i < |es| && es[i].Answer? && es[i].verdict == verdict && es[i].cut == cut
  }

  ghost predicate HasAnswer<V>(s: State<V>, r: Record<V>) {
    exists w :: At(s, w, Answered(r.item, r.verdict, r.cut)) || At(s, w, Recording(r.item, r.verdict, r.cut))
  }

  lemma AnswerStep<V>(s: State<V>, guarded: bool, e: Event<V>, r: Record<V>)
    requires Enabled(s, e) && HasAnswer(Step(s, guarded, e), r)
    ensures HasAnswer(s, r) || (e.Answer? && e.verdict == r.verdict && e.cut == r.cut)
  {
    var next := Step(s, guarded, e);
    var w :| At(next, w, Answered(r.item, r.verdict, r.cut)) || At(next, w, Recording(r.item, r.verdict, r.cut));
    if !(e.Answer? && e.w == w) {
      assert At(s, w, Answered(r.item, r.verdict, r.cut)) || At(s, w, Recording(r.item, r.verdict, r.cut));
    }
  }

  /** What is recorded is what was answered: every new record's verdict is that of an answer since, or of one that a
      worker already had. */
  lemma {:induction false} RecordsAreAnswers<V(!new)>(s: State<V>, guarded: bool, es: seq<Event<V>>, s': State<V>,
                                                      r: nat)
    requires Run(s, guarded, es, s') && |s.records| <= r < |s'.records|
    ensures HasAnswer(s, s'.records[r]) || AnsweredIn(es, s'.records[r].verdict, s'.records[r].cut)
    decreases |es|
  {
    if es == [] {
    } else {
      var e, rec := es[0], s'.records[r];
      var next := Step(s, guarded, e);
      if r < |next.records| {
        RecordsStay(next, guarded, es[1..], s');
        assert s'.records[..|next.records|][r] == next.records[r];
        assert e.Finish? && At(s, e.w, Recording(rec.item, rec.verdict, rec.cut));
      } else {
        RecordsAreAnswers(next, guarded, es[1..], s', r);
        if HasAnswer(next, rec) {
          AnswerStep(s, guarded, e, rec);
        } else {
          var i :| 0 <= i < |es[1..]| && es[1..][i].Answer? && es[1..][i].verdict == rec.verdict
                   && es[1..][i].cut == rec.cut;
          assert es[i + 1] == es[1..][i];
        }
      }
    }
  }

  lemma {:induction false} RecordsStay<V>(s: State<V>, guarded: bool, es: seq<Event<V>>, s': State<V>)
    requires Run(s, guarded, es, s')
    ensures |s.records| <= |s'.records| && s'.records[..|s.records|] == s.records
    decreases |es|
  {
    if es == [] {
    } else {
      var next := Step(s, guarded, es[0]);
      RecordsStay(next, guarded, es[1..], s');
      assert s'.records[..|s.records|] == s'.records[..|next.records|][..|s.records|];
    }
  }

  // ---- The loop itself ----

  lemma {:induction false} RunMore<V>(s: State<V>, guarded: bool, es: seq<Event<V>>, s': State<V>, e: Event<V>)
    requires Run(s, guarded, es, s') && Enabled(s', e)
    ensures Run(s, guarded, es + [e], Step(s', guarded, e))
    decreases |es|
  {
    if es == [] {
      assert (es + [e])[1..] == [];
    } else {
      RunMore(Step(s, guarded, es[0]), guarded, es[1..], s', e);
      assert (es + [e])[1..] == es[1..] + [e];
    }
  }

  /** Tick under an arbitrary scheduler that picks among the moves that are possible: it ends in a state of some run. */
  method Tick<V(!new, ==)>(items: nat, workers: nat, burst: nat, guarded: bool, pick: (nat, State<V>) -> Event<V>)
    returns (s: State<V>, ghost es: seq<Event<V>>)
    requires workers > 0
    requires forall n, t :: Good(t, guarded) && !Joined(t) && !Starved(t) ==> Enabled(t, pick(n, t))
    ensures Run(Start<V>(items, workers, burst), guarded, es, s)
    ensures Joined(s) || Starved(s)
    ensures burst > 0 || items <= workers ==> Joined(s)
    ensures burst > 0 && !s.cancelled ==> |s.records| == items && forall item | 0 <= item < items :: Recorded(s, item)
  {
    ghost var s0 := Start<V>(items, workers, burst);
    StartIsGood<V>(items, workers, burst, guarded);
    s, es := Start<V>(items, workers, burst), [];
    var n := 0;
    while !Joined(s) && !Starved(s)
      invariant s.next <= s.items && Run(s0, guarded, es, s)
      decreases Measure(s)
    {
      RunKeepsGood(s0, guarded, es, s);
      var e := pick(n, s);
      StepDecreases(s, guarded, e);
      RunMore(s0, guarded, es, s, e);
      es := es + [e];
      s := Step(s, guarded, e);
      n := n + 1;
    }
    RunKeepsGood(s0, guarded, es, s);
    if burst > 0 || items <= workers {
      NeverStarved(s, guarded);
    }
    if burst > 0 && !s.cancelled {
      UncancelledIsComplete(s, guarded);
    }
  }
}
