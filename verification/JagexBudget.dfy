/** How many requests reach Jagex: the global limiter, the workers and the client's own retries together, over all
    runs of ticks.  One Limiter.Wait pays for a whole Fetch. */
module JagexBudget {
  import opened TokenBucket

  /** `tries` is the client's max(1, Retries). */
  datatype Params = Params(rate: Rate, workers: nat, tries: nat)

  /** A worker with a slot waits for it and then fetches; `left` are the attempts its slot still pays for. */
  datatype Worker = Free | Holding(slot: nat, left: nat)

  datatype State = State(now: nat, level: Level, slots: seq<nat>, workers: seq<Worker>, requests: seq<nat>)

  datatype Event =
    | Reserve(w: nat)          // Limiter.Wait begins
    | Request(w: nat)          // one HTTP attempt, at the slot or any time later
    | Finish(w: nat)           // the Fetch is over, with or without using all its attempts, or was cancelled
    | Advance(to: nat)

  predicate Enabled(s: State, e: Event) {
    match e
    case Reserve(w) => w < |s.workers| && s.workers[w].Free?
    case Request(w) =>
      w < |s.workers| && s.workers[w].Holding? && s.workers[w].slot <= s.now && s.workers[w].left > 0
    case Finish(w) => w < |s.workers|
    case Advance(to) => s.now <= to
  }

  function Step(p: Params, s: State, e: Event): State
    requires Enabled(s, e)
  {
    match e
    case Reserve(w) =>
      var t := Take(p.rate, s.level, s.now);
      s.(level := t.level, slots := s.slots + [t.slot], workers := s.workers[w := Holding(t.slot, p.tries)])
    case Request(w) =>
      var h := s.workers[w];
      s.(requests := s.requests + [s.now], workers := s.workers[w := h.(left := h.left - 1)])
    case Finish(w) => s.(workers := s.workers[w := Free])
    case Advance(to) => s.(now := to)
  }

  function Start(p: Params): State {
    State(0, Fresh(p.rate), [], seq(p.workers, _ => Free), [])
  }

  ghost predicate Run(p: Params, s: State, es: seq<Event>, s': State)
    decreases |es|
  {
    if es == [] then s' == s else Enabled(s, es[0]) && Run(p, Step(p, s, es[0]), es[1..], s')
  }

  // ---- Attempts still to come ----

  function Due(w: Worker, b: int): nat {
    if w.Holding? && w.slot <= b then w.left else 0
  }

  /** Attempts the workers may still make on slots up to `b`. */
  function Owed(workers: seq<Worker>, b: int): nat {
    if workers == [] then 0 else Owed(workers[..|workers| - 1], b) + Due(workers[|workers| - 1], b)
  }

  lemma {:induction false} OwedUpdate(workers: seq<Worker>, i: nat, w: Worker, b: int)
    requires i < |workers|
    ensures Owed(workers[i := w], b) + Due(workers[i], b) == Owed(workers, b) + Due(w, b)
  {
    var n := |workers| - 1;
    if i == n {
      assert workers[i := w][..n] == workers[..n];
    } else {
      OwedUpdate(workers[..n], i, w, b);
      assert workers[i := w][..n] == workers[..n][i := w];
    }
  }

  /** `n` fetches' worth of attempts. */
  function Attempts(p: Params, n: nat): nat {
    p.tries * n
  }

  lemma AttemptsStep(p: Params, n: nat)
    ensures Attempts(p, n + 1) == Attempts(p, n) + p.tries
  {
  }

  lemma AttemptsMonotone(p: Params, m: nat, n: nat)
    requires m <= n
    ensures Attempts(p, m) <= Attempts(p, n)
  {
  }

  ghost predicate Capped(p: Params, workers: seq<Worker>) {
    forall i | 0 <= i < |workers| && workers[i].Holding? :: workers[i].left <= p.tries
  }

  lemma {:induction false} OwedAtMost(p: Params, workers: seq<Worker>, b: int)
    requires Capped(p, workers)
    ensures Owed(workers, b) <= Attempts(p, |workers|)
  {
    if workers == [] {
    } else {
      OwedAtMost(p, workers[..|workers| - 1], b);
      AttemptsStep(p, |workers| - 1);
    }
  }

  lemma {:induction false} NoneAfter(times: seq<nat>, now: nat, a: int, b: int)
    requires (forall i | 0 <= i < |times| :: times[i] <= now) && now < a
    ensures CountIn(times, a, b) == 0
  {
    if times == [] {
    } else {
      NoneAfter(times[..|times| - 1], now, a, b);
    }
  }

  // ---- The invariant ----

  /** In a window, the requests made and those still owed on its slots are paid for by its slots and by one fetch that
      each worker may have carried into it. */
  ghost predicate PaidIn(p: Params, requests: seq<nat>, workers: seq<Worker>, slots: seq<nat>, a: int, b: int) {
    CountIn(requests, a, b) + Owed(workers, b) <= Attempts(p, CountIn(slots, a, b) + p.workers)
  }

  ghost predicate Paid(p: Params, requests: seq<nat>, workers: seq<Worker>, slots: seq<nat>) {
    forall a: int, b: int :: a <= b ==> PaidIn(p, requests, workers, slots, a, b)
  }

  ghost predicate Good(p: Params, s: State) {
    && |s.workers| == p.workers
    && Ledger(p.rate, s.level, s.slots, s.now)
    && (forall i | 0 <= i < |s.requests| :: s.requests[i] <= s.now)
    && Capped(p, s.workers)
    && Paid(p, s.requests, s.workers, s.slots)
  }

  lemma ReservePays(p: Params, s: State, w: nat, slot: nat, a: int, b: int)
    requires Good(p, s) && Enabled(s, Reserve(w)) && s.now <= slot && a <= b
    ensures PaidIn(p, s.requests, s.workers[w := Holding(slot, p.tries)], s.slots + [slot], a, b)
  {
    var n := CountIn(s.slots, a, b) + p.workers;
    assert PaidIn(p, s.requests, s.workers, s.slots, a, b);
    CountAppend(s.slots, slot, a, b);
    if slot < a {
      NoneAfter(s.requests, s.now, a, b);
      OwedAtMost(p, s.workers[w := Holding(slot, p.tries)], b);
      AttemptsMonotone(p, p.workers, n);
    } else {
      OwedUpdate(s.workers, w, Holding(slot, p.tries), b);
      AttemptsStep(p, n);
    }
  }

  lemma RequestPays(p: Params, s: State, w: nat, a: int, b: int)
    requires Good(p, s) && Enabled(s, Request(w)) && a <= b
    ensures var s' := Step(p, s, Request(w)); PaidIn(p, s'.requests, s'.workers, s'.slots, a, b)
  {
    assert PaidIn(p, s.requests, s.workers, s.slots, a, b);
    CountAppend(s.requests, s.now, a, b);
    OwedUpdate(s.workers, w, Step(p, s, Request(w)).workers[w], b);
  }

  lemma FinishPays(p: Params, s: State, w: nat, a: int, b: int)
    requires Good(p, s) && Enabled(s, Finish(w)) && a <= b
    ensures PaidIn(p, s.requests, s.workers[w := Free], s.slots, a, b)
  {
    assert PaidIn(p, s.requests, s.workers, s.slots, a, b);
    OwedUpdate(s.workers, w, Free, b);
  }

  lemma StepKeepsPaid(p: Params, s: State, e: Event)
    requires p.rate.Valid() && Good(p, s) && Enabled(s, e)
    ensures var s' := Step(p, s, e); Paid(p, s'.requests, s'.workers, s'.slots)
  {
    var s' := Step(p, s, e);
    forall a: int, b: int | a <= b ensures PaidIn(p, s'.requests, s'.workers, s'.slots, a, b) {
      match e
      case Reserve(w) => ReservePays(p, s, w, Take(p.rate, s.level, s.now).slot, a, b);
      case Request(w) => RequestPays(p, s, w, a, b);
      case Finish(w) => FinishPays(p, s, w, a, b);
      case Advance(_) => assert PaidIn(p, s.requests, s.workers, s.slots, a, b);
    }
  }

  lemma StepKeepsGood(p: Params, s: State, e: Event)
    requires p.rate.Valid() && Good(p, s) && Enabled(s, e)
    ensures Good(p, Step(p, s, e))
  {
    StepKeepsPaid(p, s, e);
    match e
    case Reserve(w) => TakeKeepsLedger(p.rate, s.level, s.slots, s.now);
    case Advance(to) => LedgerWaits(p.rate, s.level, s.slots, s.now, to);
    case _ =>
  }

  lemma {:induction false} RunKeepsGood(p: Params, s: State, es: seq<Event>, s': State)
    requires p.rate.Valid() && Good(p, s) && Run(p, s, es, s')
    ensures Good(p, s')
    decreases |es|
  {
    if es == [] {
    } else {
      StepKeepsGood(p, s, es[0]);
      RunKeepsGood(p, Step(p, s, es[0]), es[1..], s');
    }
  }

  lemma StartIsGood(p: Params)
    requires p.rate.Valid()
    ensures Good(p, Start(p))
  {
    FreshLedger(p.rate, 0);
    forall a: int, b: int | a <= b ensures PaidIn(p, [], Start(p).workers, [], a, b) {
      OwedAtMost(p, Start(p).workers, b);
    }
  }

  lemma GoodBounds(p: Params, s: State, a: int, b: int)
    requires p.rate.Valid() && Good(p, s) && a <= b
    ensures p.rate.interval * CountIn(s.requests, a, b) <=
            p.tries * (p.rate.Cap() + (b - a) + p.rate.interval * p.workers)
  {
    assert PaidIn(p, s.requests, s.workers, s.slots, a, b);
    assert Span(p.rate, CountIn(s.slots, a, b)) <= p.rate.Cap() + (b - a);
    Combine(p.rate.interval, CountIn(s.requests, a, b), p.tries, CountIn(s.slots, a, b), p.workers,
            p.rate.Cap() + (b - a));
  }

  /** In any window of length b - a at most tries * (burst + rate * (b - a) + workers) requests reach Jagex. */
  lemma RequestsBounded(p: Params, es: seq<Event>, s: State, a: int, b: int)
    requires p.rate.Valid() && Run(p, Start(p), es, s) && a <= b
    ensures p.rate.interval * CountIn(s.requests, a, b) <=
            p.tries * (p.rate.Cap() + (b - a) + p.rate.interval * p.workers)
  {
    StartIsGood(p);
    RunKeepsGood(p, Start(p), es, s);
    GoodBounds(p, s, a, b);
  }

  /** A worker has its first slot, at once, and has made k requests on it. */
  function Asking(p: Params, k: nat): State
    requires p.workers > 0 && k <= p.tries
  {
    var t := Take(p.rate, Fresh(p.rate), 0);
    State(0, t.level, [t.slot], seq(p.workers, _ => Free)[0 := Holding(t.slot, p.tries - k)], seq(k, _ => 0))
  }

  lemma {:induction false} AskAgain(p: Params, k: nat) returns (es: seq<Event>)
    requires p.rate.Valid() && p.workers > 0 && k <= p.tries
    ensures Run(p, Asking(p, k), es, Asking(p, p.tries))
    decreases p.tries - k
  {
    if k == p.tries {
      es := [];
    } else {
      var later := AskAgain(p, k + 1);
      es := [Request(0)] + later;
      assert es[1..] == later;
      var was, next := Asking(p, k), Asking(p, k + 1);
      SpanMonotone(p.rate, 1, p.rate.burst);
      assert Step(p, was, Request(0)).requests == next.requests && Step(p, was, Request(0)).workers == next.workers;
    }
  }

  /** One slot really pays for as many requests as the client has attempts: the factor cannot be dropped. */
  lemma OneSlotManyRequests(p: Params) returns (es: seq<Event>, s: State)
    requires p.rate.Valid() && p.workers > 0
    ensures Run(p, Start(p), es, s) && |s.slots| == 1 && |s.requests| == p.tries && s.now == 0
  {
    var later := AskAgain(p, 0);
    es, s := [Reserve(0)] + later, Asking(p, p.tries);
    assert es[1..] == later;
    assert Step(p, Start(p), Reserve(0)) == Asking(p, 0);
  }

  lemma Combine(i: nat, n: nat, t: nat, m: nat, w: nat, c: int)
    requires n <= t * (m + w) && i * m <= c
    ensures i * n <= t * (c + i * w)
  {
    assert i * n <= i * (t * (m + w)) == t * (i * m + i * w);
    assert t * (c - i * m) >= 0;
  }
}
