/** How long a batch can take, exactly: the plan of a tick in which every fetch takes all of its time. */
module LeaseExact {
  import opened Base
  import opened TokenBucket
  import opened Lease
  import SqlOrder
  import FetchQueue
  import FetchRuns

  // ---- The plan ----

  /** When item k is handed over; `full` is when the bucket is full at the start. */
  function Handed(p: Params, full: int, k: nat): int
    requires p.Valid()
    decreases k, 0
  {
    if k < p.workers then p.began else SlotOf(p, full, k - p.workers) + p.fetch
  }

  /** When the bucket is full once the first k items have taken their tokens. */
  function FullAfter(p: Params, full: int, k: nat): int
    requires p.Valid()
    decreases k, 1
  {
    if k == 0 then full else Max(FullAfter(p, full, k - 1), Handed(p, full, k - 1)) + p.rate.interval
  }

  /** When item k's fetch begins. */
  function SlotOf(p: Params, full: int, k: nat): int
    requires p.Valid()
    decreases k, 2
  {
    var at := Handed(p, full, k);
    Max(at, Max(FullAfter(p, full, k), at) + p.rate.interval - p.rate.Cap())
  }

  /** When the last fetch is over. */
  function End(p: Params, full: int): int
    requires p.Valid() && p.items > 0
  {
    SlotOf(p, full, p.items - 1) + p.fetch
  }

  lemma {:induction false} PlanMonotone(p: Params, full: int, k: nat)
    requires p.Valid()
    ensures p.began <= Handed(p, full, k) <= Handed(p, full, k + 1) && SlotOf(p, full, k) <= SlotOf(p, full, k + 1)
  {
    if k < p.workers {
      if k + 1 == p.workers {
        assert Handed(p, full, 0) == p.began <= SlotOf(p, full, 0);
      }
    } else {
      PlanMonotone(p, full, k - p.workers);
    }
  }

  lemma {:induction false} SlotsMonotone(p: Params, full: int, j: nat, k: nat)
    requires p.Valid() && j <= k
    ensures SlotOf(p, full, j) <= SlotOf(p, full, k)
    decreases k
  {
    if j == k {
    } else {
      SlotsMonotone(p, full, j, k - 1);
      PlanMonotone(p, full, k - 1);
    }
  }

  // ---- No run is later than the plan ----

  ghost predicate Planned(p: Params, full: int, s: State)
    requires p.Valid()
  {
    && |s.jobs| == p.workers && |s.starts| <= p.items && s.level.last <= s.now
    && FullAt(p.rate, s.level) <= FullAfter(p, full, |s.starts|)
    && (|s.starts| < p.items ==> s.now <= Handed(p, full, |s.starts|))
    && (forall w | 0 <= w < |s.jobs| && s.jobs[w].Job? ::
          && s.jobs[w].item < |s.starts| && s.jobs[w].slot <= SlotOf(p, full, s.jobs[w].item)
          && s.now <= s.jobs[w].slot + p.fetch)
    && (forall v, w | 0 <= v < w < |s.jobs| && s.jobs[v].Job? && s.jobs[w].Job? :: s.jobs[v].item != s.jobs[w].item)
  }

  lemma StepKeepsPlanned(p: Params, full: int, s: State, e: Event)
    requires p.Valid() && Planned(p, full, s) && Enabled(p, s, e)
    ensures Planned(p, full, Step(p, s, e))
  {
    var n := |s.starts|;
    match e
    case Hand(w) => {
      TakeMovesFullAt(p.rate, s.level, s.now);
      PlanMonotone(p, full, n);
    }
    case Finish(_) =>
    case Advance(to) => {
      if n < p.items {
        var w := OldestJob(s.jobs, n);
        SlotsMonotone(p, full, s.jobs[w].item, n - p.workers);
      }
    }
  }

  lemma {:induction false} RunKeepsPlanned(p: Params, full: int, s: State, es: seq<Event>, s': State)
    requires p.Valid() && Planned(p, full, s) && Run(p, s, es, s')
    ensures Planned(p, full, s')
    decreases |es|
  {
    if es == [] {
    } else {
      StepKeepsPlanned(p, full, s, es[0]);
      RunKeepsPlanned(p, full, Step(p, s, es[0]), es[1..], s');
    }
  }

  lemma InFlightBeforeEnd(p: Params, s: State, es: seq<Event>, s': State)
    requires Begins(p, s) && p.items > 0 && Run(p, s, es, s') && InFlight(p, s')
    ensures s'.now <= End(p, FullAt(p.rate, s.level))
  {
    var full := FullAt(p.rate, s.level);
    RunKeepsPlanned(p, full, s, es, s');
    if |s'.starts| < p.items {
      SlotsMonotone(p, full, |s'.starts|, p.items - 1);
    } else {
      var w :| 0 <= w < |s'.jobs| && s'.jobs[w].Job?;
      SlotsMonotone(p, full, s'.jobs[w].item, p.items - 1);
    }
  }

  // ---- The items in hand ----

  function Items(jobs: seq<Job>): set<int> {
    if jobs == [] then {}
    else Items(jobs[..|jobs| - 1]) + if jobs[|jobs| - 1].Job? then {jobs[|jobs| - 1].item as int} else {}
  }

  function Busy(jobs: seq<Job>): nat {
    if jobs == [] then 0 else Busy(jobs[..|jobs| - 1]) + if jobs[|jobs| - 1].Job? then 1 else 0
  }

  predicate InHand(jobs: seq<Job>, item: int) {
    exists w | 0 <= w < |jobs| :: jobs[w].Job? && jobs[w].item == item
  }

  lemma {:induction false} ItemsInHand(jobs: seq<Job>, item: int)
    ensures item in Items(jobs) <==> InHand(jobs, item)
  {
    if jobs == [] {
    } else {
      var front := jobs[..|jobs| - 1];
      ItemsInHand(front, item);
      if InHand(front, item) {
        var w :| 0 <= w < |front| && front[w].Job? && front[w].item == item;
        assert jobs[w] == front[w];
      }
    }
  }

  lemma {:induction false} FewItems(jobs: seq<Job>)
    ensures |Items(jobs)| <= Busy(jobs) <= |jobs|
  {
    if jobs == [] {
    } else {
      FewItems(jobs[..|jobs| - 1]);
    }
  }

  lemma {:induction false} BusyUpdate(jobs: seq<Job>, w: nat, j: Job)
    requires w < |jobs|
    ensures Busy(jobs[w := j]) + (if jobs[w].Job? then 1 else 0) == Busy(jobs) + if j.Job? then 1 else 0
  {
    var n := |jobs| - 1;
    if w == n {
      assert jobs[w := j][..n] == jobs[..n];
    } else {
      BusyUpdate(jobs[..n], w, j);
      assert jobs[w := j][..n] == jobs[..n][w := j];
    }
  }

  /** With a worker free, one of the last W items is out of hand. */
  lemma OneIsDone(jobs: seq<Job>, w: nat, next: nat) returns (item: nat)
    requires w < |jobs| && jobs[w].Free? && |jobs| <= next
    ensures next - |jobs| <= item < next && !InHand(jobs, item)
  {
    var n := |jobs|;
    if done :| next - n <= done < next && !InHand(jobs, done) {
      item := done;
    } else {
      var recent := seq(n, i requires 0 <= i < n => next - n + i);
      SqlOrder.DistinctCount(recent);
      forall i | 0 <= i < n ensures recent[i] in Items(jobs) {
        assert InHand(jobs, recent[i]);
        ItemsInHand(jobs, recent[i]);
      }
      SqlOrder.SubsetCount(SqlOrder.Elems(recent), Items(jobs));
      BusyUpdate(jobs, w, Job(0, 0));
      FewItems(jobs);
      FewItems(jobs[w := Job(0, 0)]);
      assert false;
    }
  }

  // ---- And one run is as late ----

  lemma OthersStayInHand(jobs: seq<Job>, w: nat, job: Job, item: int)
    requires w < |jobs| && InHand(jobs, item) && (jobs[w].Job? ==> jobs[w].item != item)
    ensures InHand(jobs[w := job], item)
  {
    var v :| 0 <= v < |jobs| && jobs[v].Job? && jobs[v].item == item;
    assert jobs[w := job][v] == jobs[v];
  }

  /** The first n items have been handed over as planned, and all but the first d are still in hand. */
  ghost predicate Lined(p: Params, full: int, s: State, d: nat, n: nat)
    requires p.Valid()
  {
    && |s.jobs| == p.workers && |s.starts| == n <= p.items && s.level.last <= s.now
    && FullAt(p.rate, s.level) == FullAfter(p, full, n)
    && (forall w | 0 <= w < |s.jobs| && s.jobs[w].Job? ::
          d <= s.jobs[w].item < n && s.jobs[w].slot == SlotOf(p, full, s.jobs[w].item))
    && (forall v, w | 0 <= v < w < |s.jobs| && s.jobs[v].Job? && s.jobs[w].Job? :: s.jobs[v].item != s.jobs[w].item)
    && (forall item | d <= item < n :: InHand(s.jobs, item))
  }

  /** While fewer than W items are in hand, some worker is free. */
  lemma SomebodyFree(p: Params, full: int, s: State, d: nat, n: nat) returns (w: nat)
    requires p.Valid() && Lined(p, full, s, d, n) && n < d + p.workers
    ensures w < |s.jobs| && s.jobs[w].Free?
  {
    if free :| 0 <= free < |s.jobs| && s.jobs[free].Free? {
      w := free;
    } else {
      w := OldestJob(s.jobs, n);
      assert false;
    }
  }

  lemma HandLined(p: Params, full: int, s: State, d: nat, n: nat, w: nat)
    requires p.Valid() && Lined(p, full, s, d, n) && Enabled(p, s, Hand(w)) && s.now == Handed(p, full, n)
    ensures d <= n ==> Lined(p, full, Step(p, s, Hand(w)), d, n + 1)
  {
    var s' := Step(p, s, Hand(w));
    TakeMovesFullAt(p.rate, s.level, s.now);
    assert InHand(s'.jobs, n) by { assert s'.jobs[w].item == n; }
    forall item | d <= item < n ensures InHand(s'.jobs, item) {
      OthersStayInHand(s.jobs, w, s'.jobs[w], item);
    }
  }

  lemma FinishLined(p: Params, full: int, s: State, d: nat, n: nat, w: nat)
    requires p.Valid() && Lined(p, full, s, d, n) && Enabled(p, s, Finish(w)) && s.jobs[w].item == d
    ensures Lined(p, full, Step(p, s, Finish(w)), d + 1, n)
  {
    var jobs := s.jobs[w := Free];
    forall item | d + 1 <= item < n ensures InHand(jobs, item) {
      OthersStayInHand(s.jobs, w, Free, item);
    }
  }

  /** With W items in hand, or all that are left, the next thing to happen is that the first of them ends. */
  lemma WaitForFirst(p: Params, full: int, s: State, d: nat, n: nat)
    requires p.Valid() && Lined(p, full, s, d, n) && d < n && n == SqlOrder.Min(d + p.workers, p.items)
    requires s.now <= SlotOf(p, full, d) + p.fetch
    ensures Enabled(p, s, Advance(SlotOf(p, full, d) + p.fetch))
  {
    if n < p.items {
      forall w | 0 <= w < |s.jobs| ensures s.jobs[w].Job? {
        if s.jobs[w].Free? {
          var item := OneIsDone(s.jobs, w, n);
        }
      }
    }
    forall w | 0 <= w < |s.jobs| && s.jobs[w].Job? ensures SlotOf(p, full, d) <= s.jobs[w].slot {
      SlotsMonotone(p, full, d, s.jobs[w].item);
    }
  }

  lemma RunBefore(p: Params, s: State, e: Event, es: seq<Event>, s': State) returns (all: seq<Event>)
    requires Enabled(p, s, e) && Run(p, Step(p, s, e), es, s')
    ensures Run(p, s, all, s')
  {
    all := [e] + es;
    assert all[1..] == es;
  }

  /** The last item is in hand, at the very end. */
  ghost predicate AtTheEnd(p: Params, full: int, s: State) {
    p.Valid() && p.items > 0 && InHand(s.jobs, p.items - 1) && s.now == End(p, full)
  }

  /** From then on, item after item. */
  lemma {:induction false} SlowRun(p: Params, full: int, s: State, d: nat) returns (es: seq<Event>, s': State)
    requires p.Valid() && d < p.items && Lined(p, full, s, d, SqlOrder.Min(d + p.workers, p.items))
    requires s.now <= SlotOf(p, full, d) + p.fetch
    ensures Run(p, s, es, s') && AtTheEnd(p, full, s')
    decreases p.items - d, 1
  {
    var n := SqlOrder.Min(d + p.workers, p.items);
    var end := SlotOf(p, full, d) + p.fetch;
    var mid := s.(now := end);
    WaitForFirst(p, full, s, d, n);
    assert InHand(s.jobs, d);
    if d == p.items - 1 {
      es, s' := [], mid;
    } else {
      var w: nat :| w < |s.jobs| && s.jobs[w].Job? && s.jobs[w].item == d;
      es, s' := SlowTurn(p, full, mid, d, w);
    }
    es := RunBefore(p, s, Advance(end), es, s');
  }

  /** The first in hand ends, and its worker takes up the next. */
  lemma {:induction false} SlowTurn(p: Params, full: int, s: State, d: nat, w: nat)
    returns (es: seq<Event>, s': State)
    requires p.Valid() && d < p.items - 1 && Lined(p, full, s, d, SqlOrder.Min(d + p.workers, p.items))
    requires s.now == SlotOf(p, full, d) + p.fetch && w < |s.jobs| && s.jobs[w].Job? && s.jobs[w].item == d
    ensures Run(p, s, es, s') && AtTheEnd(p, full, s')
    decreases p.items - d, 0
  {
    var n := SqlOrder.Min(d + p.workers, p.items);
    var s1 := Step(p, s, Finish(w));
    FinishLined(p, full, s, d, n, w);
    PlanMonotone(p, full, d);
    if n < p.items {
      var s2 := Step(p, s1, Hand(w));
      HandLined(p, full, s1, d + 1, n, w);
      es, s' := SlowRun(p, full, s2, d + 1);
      es := RunBefore(p, s1, Hand(w), es, s');
    } else {
      es, s' := SlowRun(p, full, s1, d + 1);
    }
    es := RunBefore(p, s, Finish(w), es, s');
  }

  /** At the start every worker takes up an item. */
  lemma {:induction false} SlowStart(p: Params, full: int, s: State, n: nat) returns (es: seq<Event>, s': State)
    requires p.Valid() && p.items > 0 && n <= SqlOrder.Min(p.workers, p.items) && Lined(p, full, s, 0, n)
    requires s.now == p.began
    ensures Run(p, s, es, s') && AtTheEnd(p, full, s')
    decreases p.workers - n
  {
    if n == SqlOrder.Min(p.workers, p.items) {
      PlanMonotone(p, full, 0);
      es, s' := SlowRun(p, full, s, 0);
    } else {
      var w := SomebodyFree(p, full, s, 0, n);
      HandLined(p, full, s, 0, n, w);
      es, s' := SlowStart(p, full, Step(p, s, Hand(w)), n + 1);
      es := RunBefore(p, s, Hand(w), es, s');
    }
  }

  lemma SlowestRun(p: Params, s: State) returns (es: seq<Event>, s': State)
    requires Begins(p, s) && p.items > 0
    ensures Run(p, s, es, s') && InFlight(p, s') && s'.now == End(p, FullAt(p.rate, s.level))
  {
    assert forall w | 0 <= w < |s.jobs| :: s.jobs[w].Free?;
    es, s' := SlowStart(p, FullAt(p.rate, s.level), s, 0);
  }

  // ---- The lease ----

  /** No claim finds the row eligible while its batch is in flight. */
  ghost predicate LeaseCovers(p: Params, s: State, row: FetchQueue.Row, lease: int) {
    forall es, s' | Run(p, s, es, s') && InFlight(p, s') :: !FetchQueue.Eligible(row, s'.now, lease)
  }

  /** The lease protects a batch from other processes in every interleaving exactly if it lasts to the end of the
      plan. */
  lemma LeaseCoversExactly(p: Params, s: State, row: FetchQueue.Row, claimedAt: int, lease: int)
    requires Begins(p, s) && p.items > 0 && row.claimedAt == Some(claimedAt) && row.fetchedAt.None?
    ensures LeaseCovers(p, s, row, lease) <==> End(p, FullAt(p.rate, s.level)) <= claimedAt + lease
  {
    if End(p, FullAt(p.rate, s.level)) <= claimedAt + lease {
      forall es, s' | Run(p, s, es, s') && InFlight(p, s') ensures !FetchQueue.Eligible(row, s'.now, lease) {
        InFlightBeforeEnd(p, s, es, s');
      }
    } else {
      var es, s' := SlowestRun(p, s);
    }
  }

  /** And then no run of the queue, of any number of processes, claims a row of the batch a second time while it is in
      flight. */
  lemma NoSecondClaim(p: Params, s: State, es: seq<Event>, s': State, lease: int,
                      past: seq<FetchRuns.Event>, w: FetchRuns.World, i: nat,
                      future: seq<FetchRuns.Event>, w': FetchRuns.World, j: nat)
    requires Begins(p, s) && p.items > 0 && Run(p, s, es, s') && InFlight(p, s')
    requires lease >= 0 && FetchRuns.Run(FetchRuns.START, lease, past, w) && i < |w.history|
    requires End(p, FullAt(p.rate, s.level)) <= w.history[i].at + lease
    requires FetchRuns.Run(w, lease, future, w') && w'.now <= s'.now && i < j < |w'.history|
    ensures w'.history[j].id != w.history[i].id
  {
    InFlightBeforeEnd(p, s, es, s');
    FetchRuns.RunKeepsGood(FetchRuns.START, lease, past, w);
    if w'.history[j].id == w.history[i].id {
      FetchRuns.LeaseProtects(w, lease, future, w', i, j);
    }
  }

  /** With a shorter lease two processes are on one row at once: the batch is in flight when the row, claimed for it,
      is claimed for the second time. */
  lemma ShortLeaseClaimsTwice(p: Params, s: State, claimedAt: nat, lease: int)
    returns (es: seq<Event>, s': State, fs: seq<FetchRuns.Event>, w: FetchRuns.World)
    requires Begins(p, s) && p.items > 0 && lease >= 0 && claimedAt + lease < End(p, FullAt(p.rate, s.level))
    ensures Run(p, s, es, s') && InFlight(p, s') && w.now == s'.now && FetchRuns.Run(FetchRuns.START, lease, fs, w)
    ensures w.history == [FetchRuns.Claimed(0, claimedAt, 1), FetchRuns.Claimed(0, s'.now, 2)]
  {
    es, s' := SlowestRun(p, s);
    fs, w := FetchRuns.ClaimedTwice(lease, claimedAt, s'.now);
  }

  // ---- Bounds that do not look at the tokens ----

  /** A turn of F for every W items before item k. */
  function Early(p: Params, k: nat): nat
    requires p.workers > 0
  {
    p.began + p.fetch * (k / p.workers)
  }

  lemma EarlyMonotone(p: Params, j: nat, k: nat)
    requires p.workers > 0 && j <= k
    ensures Early(p, j) <= Early(p, k)
    ensures k == j + p.workers ==> Early(p, k) == Early(p, j) + p.fetch
  {
    var q, r := j / p.workers, k / p.workers;
    DivMonotone(j, k, p.workers);
    if q < r {
      MulStep(p.fetch, q, r);
    }
    if k == j + p.workers {
      DivStep(j, p.workers);
    }
  }

  lemma {:induction false} NotBeforeEarly(p: Params, full: int, k: nat)
    requires p.Valid()
    ensures Early(p, k) <= Handed(p, full, k) <= SlotOf(p, full, k)
  {
    if k < p.workers {
      Quotient(k, p.workers, 0);
    } else {
      NotBeforeEarly(p, full, k - p.workers);
      EarlyMonotone(p, k - p.workers, k);
    }
  }

  /** Whatever tokens are at hand, the end is between ceil(N / W) * F and ceil(N / W) * (W / rate + F) after the
      start. */
  lemma EndBounds(p: Params, s: State)
    requires Begins(p, s) && p.items > 0
    ensures var turns := (p.items + p.workers - 1) / p.workers;
            p.began + p.fetch * turns <= End(p, FullAt(p.rate, s.level)) <= p.began + p.Turn() * turns
  {
    NotBeforeEarly(p, FullAt(p.rate, s.level), p.items - 1);
    EarlyMonotone(p, p.items - 1, p.items - 1 + p.workers);
    var es, s' := SlowestRun(p, s);
    BatchMakespan(p, s, es, s');
  }

  // ---- The shipped defaults ----

  /** Four workers and a burst of two, with fetches of five intervals or more: `debt` is how long the bucket takes to
      fill at the start. */
  predicate Shipped(p: Params, full: int, debt: int) {
    && p.Valid() && p.rate.burst == 2 && p.workers == 4 && p.fetch >= 5 * p.rate.interval
    && debt == Max(full - p.began, 0) && debt <= 2 * p.rate.interval
  }

  lemma ShippedItem(p: Params, full: int, k: nat, at: int, busy: int)
    requires p.Valid() && p.rate.burst == 2 && p.workers == 4
    requires Handed(p, full, k) == at && Max(FullAfter(p, full, k), at) == busy
    ensures SlotOf(p, full, k) == Max(at, busy - p.rate.interval)
    ensures FullAfter(p, full, k + 1) == busy + p.rate.interval
    ensures Handed(p, full, k + 4) == Max(at, busy - p.rate.interval) + p.fetch
  {
    assert p.rate.Cap() == 2 * p.rate.interval;
  }

  /** Four items are handed over as the tokens allowed the last four, and the bucket has recovered. */
  ghost predicate Ready(p: Params, full: int, k: nat, at: int, debt: int)
    requires p.Valid()
  {
    var second := p.rate.interval;
    && Handed(p, full, k) == at + Max(0, debt - second) && Handed(p, full, k + 1) == at + debt
    && Handed(p, full, k + 2) == at + debt + second && Handed(p, full, k + 3) == at + debt + 2 * second
    && FullAfter(p, full, k) <= at + Max(0, debt - second)
  }

  lemma ReadyFirst(p: Params, full: int, debt: int)
    requires Shipped(p, full, debt)
    ensures Ready(p, full, 4, p.began + p.fetch, debt)
  {
    var second := p.rate.interval;
    ShippedItem(p, full, 0, p.began, p.began + debt);
    ShippedItem(p, full, 1, p.began, p.began + debt + second);
    ShippedItem(p, full, 2, p.began, p.began + debt + 2 * second);
    ShippedItem(p, full, 3, p.began, p.began + debt + 3 * second);
  }

  lemma ReadyNext(p: Params, full: int, k: nat, at: int, debt: int)
    requires Shipped(p, full, debt) && Ready(p, full, k, at, debt)
    ensures Ready(p, full, k + 4, at + p.fetch, debt)
  {
    var second := p.rate.interval;
    var busy := at + Max(second, debt);
    ShippedItem(p, full, k, at + Max(0, debt - second), at + Max(0, debt - second));
    ShippedItem(p, full, k + 1, at + debt, busy);
    ShippedItem(p, full, k + 2, at + debt + second, busy + second);
    ShippedItem(p, full, k + 3, at + debt + 2 * second, busy + 2 * second);
  }

  lemma ShippedEnd(p: Params, full: int, debt: int)
    requires Shipped(p, full, debt) && p.items == 20
    ensures End(p, full) == p.began + 5 * p.fetch + debt + 2 * p.rate.interval
  {
    var at := p.began + p.fetch;
    ReadyFirst(p, full, debt);
    ReadyNext(p, full, 4, at, debt);
    ReadyNext(p, full, 8, at + p.fetch, debt);
    ReadyNext(p, full, 12, at + 2 * p.fetch, debt);
    ReadyNext(p, full, 16, at + 3 * p.fetch, debt);
    assert Handed(p, full, 23) == SlotOf(p, full, 19) + p.fetch;
  }

  lemma ShippedEnds(p: Params, s: State)
    requires Begins(p, s) && p.rate.burst == 2 && p.items == 20 && p.workers == 4
    ensures var full := FullAt(p.rate, s.level);
            && 0 <= Max(full - p.began, 0) <= 2 * p.rate.interval
            && (End(p, full) <= p.began + 300 * p.rate.interval <==>
                5 * p.fetch + Max(full - p.began, 0) <= 298 * p.rate.interval)
  {
    var full := FullAt(p.rate, s.level);
    assert Asleep(s.log, p.began) == 0 && p.rate.Cap() == 2 * p.rate.interval;
    if p.fetch < 5 * p.rate.interval {
      EndBounds(p, s);
    } else {
      ShippedEnd(p, full, Max(full - p.began, 0));
    }
  }

  /** 20 rows on 4 workers at one request a second in bursts of two, claimed when the tick begins: safe under the
      five-minute lease exactly when five fetches and the time that the bucket takes to fill come to at most 298
      seconds, so whatever tokens are at hand for fetches of up to 59.2 seconds.  Two attempts of 8 seconds and the
      pause between come to 18. */
  lemma DefaultsFit(p: Params, s: State, row: FetchQueue.Row)
    requires Begins(p, s) && p.rate.burst == 2 && p.items == 20 && p.workers == 4
    requires row.claimedAt == Some(p.began) && row.fetchedAt.None?
    ensures var second, debt := p.rate.interval, Max(FullAt(p.rate, s.level) - p.began, 0);
            && (LeaseCovers(p, s, row, 300 * second) <==> 5 * p.fetch + debt <= 298 * second)
            && (5 * p.fetch <= 296 * second ==> LeaseCovers(p, s, row, 300 * second))
  {
    LeaseCoversExactly(p, s, row, p.began, 300 * p.rate.interval);
    ShippedEnds(p, s);
  }
}
