/** Tick against the clock: how long a claimed batch takes, and what the lease must cover. */
module Lease {
  import opened Base
  import opened TokenBucket
  import SqlOrder
  import FetchQueue

  /** A batch of `items` rows claimed at instant `began`; `fetch` bounds one Fetch and its Complete. */
  datatype Params = Params(rate: Rate, items: nat, workers: nat, fetch: nat, began: nat) {
    predicate Valid() {
      rate.Valid() && workers > 0
    }

    /** Longest from taking a row to having recorded it: a token per worker, and one fetch. */
    function Turn(): nat {
      Span(rate, workers) + fetch
    }
  }

  datatype Job = Free | Job(item: nat, slot: nat)

  /** `starts[i]` is when item i was handed over; `log` is every slot the limiter has given out. */
  datatype State = State(now: nat, level: Level, log: seq<nat>, jobs: seq<Job>, starts: seq<nat>)

  datatype Event = Hand(w: nat) | Finish(w: nat) | Advance(to: nat)

  predicate Enabled(p: Params, s: State, e: Event) {
    match e
    case Hand(w) => w < |s.jobs| && s.jobs[w].Free? && |s.starts| < p.items
    case Finish(w) => w < |s.jobs| && s.jobs[w].Job? && s.jobs[w].slot <= s.now
    case Advance(to) =>
      // time does not pass while a row could be handed over, nor beyond the end of a fetch
      && s.now <= to
      && (|s.starts| < p.items ==> forall w | 0 <= w < |s.jobs| :: s.jobs[w].Job?)
      && (forall w | 0 <= w < |s.jobs| && s.jobs[w].Job? :: to <= s.jobs[w].slot + p.fetch)
  }

  function Step(p: Params, s: State, e: Event): State
    requires Enabled(p, s, e)
  {
    match e
    case Hand(w) =>
      var t := Take(p.rate, s.level, s.now);
      State(s.now, t.level, s.log + [t.slot], s.jobs[w := Job(|s.starts|, t.slot)], s.starts + [s.now])
    case Finish(w) => s.(jobs := s.jobs[w := Free])
    case Advance(to) => s.(now := to)
  }

  // ---- Sleepers are busy workers ----

  function Blocked(jobs: seq<Job>, t: nat): nat {
    if jobs == [] then 0
    else Blocked(jobs[..|jobs| - 1], t) + One(jobs[|jobs| - 1], t)
  }

  function One(j: Job, t: nat): nat {
    if j.Job? && j.slot > t then 1 else 0
  }

  lemma {:induction false} BlockedUpdate(jobs: seq<Job>, w: nat, j: Job, t: nat)
    requires w < |jobs|
    ensures Blocked(jobs[w := j], t) + One(jobs[w], t) == Blocked(jobs, t) + One(j, t)
  {
    var n := |jobs| - 1;
    if w == n {
      assert jobs[w := j][..n] == jobs[..n];
    } else {
      BlockedUpdate(jobs[..n], w, j, t);
      assert jobs[w := j][..n] == jobs[..n][w := j];
    }
  }

  lemma {:induction false} BlockedAtMost(jobs: seq<Job>, t: nat)
    ensures Blocked(jobs, t) <= |jobs|
  {
    if jobs == [] {
    } else {
      BlockedAtMost(jobs[..|jobs| - 1], t);
    }
  }

  ghost predicate SleepersWork(s: State) {
    forall t: nat {:trigger Asleep(s.log, t)} :: s.now <= t ==> Asleep(s.log, t) <= Blocked(s.jobs, t)
  }

  lemma HandKeepsSleepers(p: Params, s: State, w: nat)
    requires p.Valid() && Ledger(p.rate, s.level, s.log, s.now) && SleepersWork(s) && Enabled(p, s, Hand(w))
    ensures SleepersWork(Step(p, s, Hand(w)))
  {
    var s' := Step(p, s, Hand(w));
    var slot := Take(p.rate, s.level, s.now).slot;
    forall t: nat | s.now <= t ensures Asleep(s'.log, t) <= Blocked(s'.jobs, t) {
      CountAppend(s.log, slot, t + 1, 0);
      BlockedUpdate(s.jobs, w, Job(|s.starts|, slot), t);
      assert Asleep(s.log, t) <= Blocked(s.jobs, t);
    }
  }

  lemma FinishKeepsSleepers(p: Params, s: State, w: nat)
    requires SleepersWork(s) && Enabled(p, s, Finish(w))
    ensures SleepersWork(Step(p, s, Finish(w)))
  {
    forall t: nat | s.now <= t ensures Asleep(s.log, t) <= Blocked(s.jobs[w := Free], t) {
      BlockedUpdate(s.jobs, w, Free, t);
      assert Asleep(s.log, t) <= Blocked(s.jobs, t);
    }
  }

  lemma StepKeepsSleepers(p: Params, s: State, e: Event)
    requires p.Valid() && Ledger(p.rate, s.level, s.log, s.now) && SleepersWork(s) && Enabled(p, s, e)
    ensures var s' := Step(p, s, e); Ledger(p.rate, s'.level, s'.log, s'.now) && SleepersWork(s')
  {
    match e
    case Hand(w) => {
      TakeKeepsLedger(p.rate, s.level, s.log, s.now);
      HandKeepsSleepers(p, s, w);
    }
    case Finish(w) => FinishKeepsSleepers(p, s, w);
    case Advance(to) => LedgerWaits(p.rate, s.level, s.log, s.now, to);
  }

  /** With W workers nobody waits longer than W refills. */
  lemma HandWaits(p: Params, s: State, w: nat)
    requires p.Valid() && Ledger(p.rate, s.level, s.log, s.now) && SleepersWork(s)
    requires |s.jobs| == p.workers && Enabled(p, s, Hand(w))
    ensures s.now <= Take(p.rate, s.level, s.now).slot <= s.now + Span(p.rate, p.workers)
  {
    var full := s.jobs[w := Job(0, s.now + 1)];
    BlockedUpdate(s.jobs, w, Job(0, s.now + 1), s.now);
    BlockedAtMost(full, s.now);
    TakeWaitsBehindSleepers(p.rate, s.level, s.log, s.now);
    SpanMonotone(p.rate, Asleep(s.log, s.now) + 1, p.workers);
  }

  // ---- Nobody starts late ----

  /** The latest instant at which item k may be handed over. */
  function Deadline(p: Params, k: nat): nat
    requires p.workers > 0
  {
    p.began + p.Turn() * (k / p.workers)
  }

  lemma DeadlineMonotone(p: Params, j: nat, k: nat)
    requires p.workers > 0 && j <= k
    ensures Deadline(p, j) <= Deadline(p, k)
    ensures j + p.workers <= k ==> Deadline(p, j) + p.Turn() <= Deadline(p, k)
  {
    var t := p.Turn();
    var q, r := j / p.workers, k / p.workers;
    DivMonotone(j, k, p.workers);
    if j + p.workers <= k {
      DivStep(j, p.workers);
      DivMonotone(j + p.workers, k, p.workers);
    }
    if q < r {
      MulStep(t, q, r);
    }
  }

  ghost predicate OnTime(p: Params, s: State)
    requires p.workers > 0
  {
    && |s.jobs| == p.workers && |s.starts| <= p.items && p.began <= s.now
    && (forall k | 0 <= k < |s.starts| :: s.starts[k] <= Deadline(p, k))
    && (|s.starts| < p.items ==> s.now <= Deadline(p, |s.starts|))
    && (forall w | 0 <= w < |s.jobs| && s.jobs[w].Job? ::
          && s.jobs[w].item < |s.starts|
          && s.jobs[w].slot <= s.starts[s.jobs[w].item] + Span(p.rate, p.workers)
          && s.now <= s.jobs[w].slot + p.fetch)
    && (forall v, w | 0 <= v < w < |s.jobs| && s.jobs[v].Job? && s.jobs[w].Job? :: s.jobs[v].item != s.jobs[w].item)
  }

  /** With all W workers on different items, one of the items was handed over W or more ago. */
  lemma OldestJob(jobs: seq<Job>, next: nat) returns (w: nat)
    requires |jobs| > 0 && forall w | 0 <= w < |jobs| :: jobs[w].Job? && jobs[w].item < next
    requires forall v, w | 0 <= v < w < |jobs| :: jobs[v].item != jobs[w].item
    ensures w < |jobs| && jobs[w].item + |jobs| <= next
  {
    if w' :| 0 <= w' < |jobs| && jobs[w'].item + |jobs| <= next {
      w := w';
    } else {
      var n := |jobs|;
      var recent := seq(n, w requires 0 <= w < n => jobs[w].item + n - next - 1);
      assert forall w | 0 <= w < n :: 0 <= recent[w] < n - 1;
      SqlOrder.DistinctCount(recent);
      assert SqlOrder.Elems(recent) <= SqlOrder.Range(n - 1);
      SqlOrder.SubsetCount(SqlOrder.Elems(recent), SqlOrder.Range(n - 1));
      assert false;
    }
  }

  lemma StepKeepsOnTime(p: Params, s: State, e: Event)
    requires p.Valid() && Ledger(p.rate, s.level, s.log, s.now) && SleepersWork(s)
    requires OnTime(p, s) && Enabled(p, s, e)
    ensures OnTime(p, Step(p, s, e))
  {
    match e
    case Hand(w) => {
      HandWaits(p, s, w);
      DeadlineMonotone(p, |s.starts|, |s.starts| + 1);
    }
    case Finish(_) =>
    case Advance(to) => {
      if |s.starts| < p.items {
        var w := OldestJob(s.jobs, |s.starts|);
        DeadlineMonotone(p, s.jobs[w].item, |s.starts|);
      }
    }
  }

  ghost predicate Run(p: Params, s: State, es: seq<Event>, s': State)
    decreases |es|
  {
    if es == [] then s' == s else Enabled(p, s, es[0]) && Run(p, Step(p, s, es[0]), es[1..], s')
  }

  /** A tick begins with nobody asleep on the limiter: the previous one joined its workers. */
  ghost predicate Begins(p: Params, s: State) {
    && p.Valid()
    && s.now == p.began && s.starts == [] && s.jobs == seq(p.workers, _ => Free)
    && Ledger(p.rate, s.level, s.log, s.now) && forall t: nat :: s.now <= t ==> Asleep(s.log, t) == 0
  }

  lemma {:induction false} RunKeepsOnTime(p: Params, s: State, es: seq<Event>, s': State)
    requires p.Valid() && Ledger(p.rate, s.level, s.log, s.now) && SleepersWork(s) && OnTime(p, s)
    requires Run(p, s, es, s')
    ensures OnTime(p, s')
    decreases |es|
  {
    if es == [] {
    } else {
      StepKeepsSleepers(p, s, es[0]);
      StepKeepsOnTime(p, s, es[0]);
      RunKeepsOnTime(p, Step(p, s, es[0]), es[1..], s');
    }
  }

  predicate InFlight(p: Params, s: State) {
    |s.starts| < p.items || exists w | 0 <= w < |s.jobs| :: s.jobs[w].Job?
  }

  /** ceil(N / W) turns. */
  function Makespan(p: Params): nat
    requires p.workers > 0
  {
    p.Turn() * ((p.items + p.workers - 1) / p.workers)
  }

  /** Every interleaving has recorded the whole batch within ceil(N / W) * (W / rate + F). */
  lemma BatchMakespan(p: Params, s: State, es: seq<Event>, s': State)
    requires Begins(p, s) && Run(p, s, es, s') && InFlight(p, s')
    ensures s'.now <= p.began + Makespan(p)
  {
    RunKeepsOnTime(p, s, es, s');
    DeadlineMonotone(p, |s'.starts|, p.items + p.workers - 1);
    if |s'.starts| == p.items {
      var w :| 0 <= w < |s'.jobs| && s'.jobs[w].Job?;
      DeadlineMonotone(p, s'.jobs[w].item, p.items + p.workers - 1);
    }
  }

  /** When the lease covers the makespan, and the time the claim itself took, no claim of any process can find a row
      of the batch eligible while the batch is in flight. */
  lemma NoFetchOutlivesLease(p: Params, s: State, es: seq<Event>, s': State, row: FetchQueue.Row, claimedAt: int,
                             lease: int)
    requires Begins(p, s) && Run(p, s, es, s') && InFlight(p, s')
    requires row.claimedAt == Some(claimedAt) && p.began + Makespan(p) <= claimedAt + lease
    ensures forall now: int | now <= s'.now :: !FetchQueue.Eligible(row, now, lease)
  {
    BatchMakespan(p, s, es, s');
  }

  lemma {:induction false} NobodyBlocked(jobs: seq<Job>, t: nat)
    requires forall w | 0 <= w < |jobs| :: jobs[w].Free?
    ensures Blocked(jobs, t) == 0
  {
    if jobs == [] {
    } else {
      NobodyBlocked(jobs[..|jobs| - 1], t);
    }
  }

  lemma {:induction false} RunKeepsSleepers(p: Params, s: State, es: seq<Event>, s': State)
    requires p.Valid() && Ledger(p.rate, s.level, s.log, s.now) && SleepersWork(s) && Run(p, s, es, s')
    ensures Ledger(p.rate, s'.level, s'.log, s'.now) && SleepersWork(s')
    decreases |es|
  {
    if es == [] {
    } else {
      StepKeepsSleepers(p, s, es[0]);
      RunKeepsSleepers(p, Step(p, s, es[0]), es[1..], s');
    }
  }

  /** A tick that has joined its workers leaves the limiter as the next tick needs it, so the bound holds batch after
      batch, whatever the next batch is. */
  lemma NextTickBegins(p: Params, s: State, es: seq<Event>, s': State, next: Params, later: nat)
    requires Begins(p, s) && Run(p, s, es, s') && !InFlight(p, s') && s'.now <= later
    requires next.rate == p.rate && next.began == later && next.workers > 0
    ensures Begins(next, State(later, s'.level, s'.log, seq(next.workers, _ => Free), []))
  {
    RunKeepsSleepers(p, s, es, s');
    LedgerWaits(p.rate, s'.level, s'.log, s'.now, later);
    forall t: nat | later <= t ensures Asleep(s'.log, t) == 0 {
      NobodyBlocked(s'.jobs, t);
    }
  }
}
