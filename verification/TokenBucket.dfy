/** The token bucket behind golang.org/x/time/rate, in exact arithmetic.

    Time is counted in ticks since Go's zero time, with a tick so fine that one token takes a whole number
    of ticks (`interval`) to refill.  Tokens are counted in the ticks they take to refill, so that a full
    bucket holds `Cap()` of credit and credit grows by one per tick. */
module TokenBucket {

  datatype Rate = Rate(interval: nat, burst: nat) {
    predicate Valid() {
      interval > 0 && burst > 0
    }

    function Cap(): nat {
      interval * burst
    }
  }

  datatype Level = Level(credit: int, last: nat)

  datatype Taken = Taken(level: Level, slot: nat)

  function Max(a: int, b: int): int {
    if a < b then b else a
  }

  /** rate.NewLimiter: a full bucket whose last event is the zero time. */
  function Fresh(r: Rate): Level {
    Level(r.Cap(), 0)
  }

  /** Refill up to the burst. */
  function Advance(r: Rate, l: Level, now: nat): Level {
    var elapsed := if now < l.last then 0 else now - l.last;
    Level(if l.credit + elapsed > r.Cap() then r.Cap() else l.credit + elapsed, now)
  }

  /** Refill, take one token, and answer the instant at which the debt is paid off. */
  function Take(r: Rate, l: Level, now: nat): Taken {
    var credit := Advance(r, l, now).credit - r.interval;
    Taken(Level(credit, now), now + (if credit < 0 then -credit else 0))
  }

  class Limiter {
    const rate: Rate
    var level: Level

    constructor (rate: Rate)
      ensures this.rate == rate && level == Fresh(rate)
    {
      this.rate := rate;
      level := Level(rate.interval * rate.burst, 0);
    }

    method Reserve(now: nat) returns (slot: nat)
      modifies this
      ensures Taken(level, slot) == Take(rate, old(level), now)
    {
      var credit := level.credit;
      if level.last < now {
        credit := credit + (now - level.last);
      }
      if credit > rate.Cap() {
        credit := rate.Cap();
      }
      credit := credit - rate.interval;
      level := Level(credit, now);
      slot := if credit < 0 then now - credit else now;
    }
  }

  /** The instant at which the bucket is full again if nobody else takes from it. */
  function FullAt(r: Rate, l: Level): int {
    l.last + r.Cap() - l.credit
  }

  lemma TakeMovesFullAt(r: Rate, l: Level, now: nat)
    requires r.Valid() && l.last <= now
    ensures var t := Take(r, l, now);
            && FullAt(r, t.level) == Max(FullAt(r, l), now) + r.interval
            && t.slot == Max(now, FullAt(r, t.level) - r.Cap())
  {
  }

  // ---- Counting slots ----

  function CountFrom(slots: seq<nat>, a: int): nat {
    if slots == [] then 0
    else CountFrom(slots[..|slots| - 1], a) + (if a <= slots[|slots| - 1] then 1 else 0)
  }

  function CountIn(slots: seq<nat>, a: int, b: int): nat {
    if slots == [] then 0
    else CountIn(slots[..|slots| - 1], a, b) + (if a <= slots[|slots| - 1] <= b then 1 else 0)
  }

  /** How many slots are still to come after `now`: the waiters asleep on the bucket. */
  function Asleep(slots: seq<nat>, now: nat): nat {
    CountFrom(slots, now + 1)
  }

  lemma CountAppend(slots: seq<nat>, x: nat, a: int, b: int)
    ensures CountFrom(slots + [x], a) == CountFrom(slots, a) + (if a <= x then 1 else 0)
    ensures CountIn(slots + [x], a, b) == CountIn(slots, a, b) + (if a <= x <= b then 1 else 0)
  {
    assert (slots + [x])[..|slots|] == slots;
  }

  lemma {:induction false} CountInAtMostFrom(slots: seq<nat>, a: int, b: int)
    ensures CountIn(slots, a, b) <= CountFrom(slots, a)
  {
    if slots == [] {
    } else {
      CountInAtMostFrom(slots[..|slots| - 1], a, b);
    }
  }

  // ---- What a bucket and the slots it has handed out know about each other ----

  /** `n` tokens, in ticks. */
  function Span(r: Rate, n: nat): nat {
    r.interval * n
  }

  lemma SpanStep(r: Rate, n: nat)
    ensures Span(r, n + 1) == Span(r, n) + r.interval
  {
  }

  lemma SpanMonotone(r: Rate, m: nat, n: nat)
    requires m <= n
    ensures Span(r, m) <= Span(r, n)
  {
  }

  /** No debt without sleepers: whatever the bucket still owes at a later instant t beyond one burst is owed
      to slots after t. */
  ghost predicate DebtHasSleepers(r: Rate, l: Level, slots: seq<nat>, now: nat) {
    forall t: nat {:trigger Asleep(slots, t)} :: now <= t ==>
      FullAt(r, l) <= t + r.Cap() + Span(r, Asleep(slots, t))
  }

  /** No slot without debt: the slots at or after an instant have each pushed back the refill. */
  ghost predicate SlotsHaveDebt(r: Rate, l: Level, slots: seq<nat>) {
    forall a: int {:trigger CountFrom(slots, a)} :: CountFrom(slots, a) > 0 ==>
      a + Span(r, CountFrom(slots, a)) <= FullAt(r, l)
  }

  /** The rate limit itself: a window of length b - a holds at most burst + rate * (b - a) slots. */
  ghost predicate WithinRate(r: Rate, slots: seq<nat>) {
    forall a: int, b: int {:trigger CountIn(slots, a, b)} :: a <= b ==>
      Span(r, CountIn(slots, a, b)) <= r.Cap() + (b - a)
  }

  ghost predicate Ledger(r: Rate, l: Level, slots: seq<nat>, now: nat) {
    && l.last <= now
    && DebtHasSleepers(r, l, slots, now)
    && SlotsHaveDebt(r, l, slots)
    && WithinRate(r, slots)
  }

  lemma FreshLedger(r: Rate, now: nat)
    requires r.Valid()
    ensures Ledger(r, Fresh(r), [], now)
  {
  }

  lemma LedgerWaits(r: Rate, l: Level, slots: seq<nat>, now: nat, later: nat)
    requires Ledger(r, l, slots, now) && now <= later
    ensures Ledger(r, l, slots, later)
  {
  }

  lemma TakeHasSleepers(r: Rate, l: Level, slots: seq<nat>, now: nat)
    requires r.Valid() && l.last <= now && DebtHasSleepers(r, l, slots, now)
    ensures var t := Take(r, l, now); DebtHasSleepers(r, t.level, slots + [t.slot], now)
  {
    var t := Take(r, l, now);
    TakeMovesFullAt(r, l, now);
    assert r.interval <= r.Cap();
    forall u: nat | now <= u
      ensures FullAt(r, t.level) <= u + r.Cap() + Span(r, Asleep(slots + [t.slot], u))
    {
      CountAppend(slots, t.slot, u + 1, 0);
      SpanStep(r, Asleep(slots, u));
    }
  }

  lemma TakeHasDebt(r: Rate, l: Level, slots: seq<nat>, now: nat)
    requires r.Valid() && l.last <= now && SlotsHaveDebt(r, l, slots)
    ensures var t := Take(r, l, now); SlotsHaveDebt(r, t.level, slots + [t.slot])
  {
    var t := Take(r, l, now);
    TakeMovesFullAt(r, l, now);
    assert r.interval <= r.Cap();
    forall a: int | CountFrom(slots + [t.slot], a) > 0
      ensures a + Span(r, CountFrom(slots + [t.slot], a)) <= FullAt(r, t.level)
    {
      CountAppend(slots, t.slot, a, 0);
      SpanStep(r, CountFrom(slots, a));
    }
  }

  lemma TakeWithinRate(r: Rate, l: Level, slots: seq<nat>, now: nat)
    requires r.Valid() && l.last <= now && SlotsHaveDebt(r, l, slots) && WithinRate(r, slots)
    ensures WithinRate(r, slots + [Take(r, l, now).slot])
  {
    var t := Take(r, l, now);
    TakeMovesFullAt(r, l, now);
    TakeHasDebt(r, l, slots, now);
    forall a: int, b: int | a <= b
      ensures Span(r, CountIn(slots + [t.slot], a, b)) <= r.Cap() + (b - a)
    {
      CountAppend(slots, t.slot, a, b);
      if a <= t.slot <= b {
        CountInAtMostFrom(slots + [t.slot], a, b);
        SpanMonotone(r, CountIn(slots + [t.slot], a, b), CountFrom(slots + [t.slot], a));
      }
    }
  }

  lemma TakeKeepsLedger(r: Rate, l: Level, slots: seq<nat>, now: nat)
    requires r.Valid() && Ledger(r, l, slots, now)
    ensures var t := Take(r, l, now); Ledger(r, t.level, slots + [t.slot], now)
  {
    TakeHasSleepers(r, l, slots, now);
    TakeHasDebt(r, l, slots, now);
    TakeWithinRate(r, l, slots, now);
  }

  /** How long a newcomer waits: one refill for itself and one for each sleeper ahead of it. */
  lemma TakeWaitsBehindSleepers(r: Rate, l: Level, slots: seq<nat>, now: nat)
    requires r.Valid() && Ledger(r, l, slots, now)
    ensures now <= Take(r, l, now).slot <= now + Span(r, Asleep(slots, now) + 1)
  {
    TakeMovesFullAt(r, l, now);
    SpanStep(r, Asleep(slots, now));
    assert r.interval <= r.Cap();
    assert FullAt(r, l) <= now + r.Cap() + Span(r, Asleep(slots, now));
  }
}
