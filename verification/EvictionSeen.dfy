/** The side condition of KeyedRuns is exact: short of it, some orderly run shows the eviction. */
module EvictionSeen {
  import opened TokenBucket
  import opened KeyedLimiter
  import opened KeyedRuns

  /** A run so far, with what it comes to in the limiter and in the reference. */
  datatype Point = Point(es: seq<Event>, w: World, s: Solo)

  ghost predicate Reached(p: Params, k: string, x: Point) {
    OrderlyRun(p, k, x.es) && x.w == Run(p, START, x.es) && x.s == SoloRun(p, k, x.es)
  }

  lemma Then(p: Params, k: string, x: Point, e: Event) returns (y: Point)
    requires Reached(p, k, x) && Orderly(p, k, x.s, e)
    ensures y == Point(x.es + [e], Step(p, x.w, e), SoloStep(p, k, x.s, e)) && Reached(p, k, y)
  {
    y := Point(x.es + [e], Step(p, x.w, e), SoloStep(p, k, x.s, e));
    RunAppend(p, x.es, e);
    SoloRunAppend(p, k, x.es, e);
    OrderlyAppend(p, k, x.es, e);
  }

  lemma Begin(p: Params, k: string) returns (x: Point)
    ensures x == Point([], START, SoloStart(p)) && Reached(p, k, x)
  {
    x := Point([], START, SoloStart(p));
  }

  ghost predicate Fills(p: Params, w: World, b: BucketState<Id>, full: int) {
    && b.limiter in w.keyed.levels
    && w.keyed.levels[b.limiter].last <= w.now && FullAt(p.rate, w.keyed.levels[b.limiter]) == full
  }

  ghost predicate AtRest(p: Params, w: World, b: BucketState<Id>, full: int) {
    Fills(p, w, b, full) && b.notBefore <= w.now && b.lastUsed <= w.now
  }

  /** Nobody waits for `k` and no hold is on; its bucket, if there is one, fills up at `full`. */
  ghost predicate Free(p: Params, k: string, w: World, full: int) {
    && (forall who :: Waiter(k, who) !in w.paused)
    && (if k in w.keyed.buckets then AtRest(p, w, w.keyed.buckets[k], full)
        else full == 0)
  }

  ghost predicate FreeSolo(p: Params, s: Solo, full: int) {
    s.paused == map[] && s.hold <= s.now && FullAt(p.rate, s.level) == full && s.level.last <= s.now
  }

  ghost predicate Both(p: Params, k: string, x: Point, f: int, g: int) {
    Reached(p, k, x) && Free(p, k, x.w, f) && FreeSolo(p, x.s, g) && x.s.now == x.w.now
  }

  ghost predicate UsedFirst(k: string, w: World) {
    k in w.keyed.buckets ==> w.keyed.buckets[k].lastUsed == 0
  }

  function Slot(p: Params, full: int, now: nat): int {
    Max(now, Max(full, now) + p.rate.interval - p.rate.Cap())
  }

  lemma PassLimiter(p: Params, k: string, w: World, full: int)
    requires p.rate.Valid() && Free(p, k, w, full)
    ensures var w' := DoFire(p, DoGet(p, w, k, 0), k, 0);
            && w'.now == w.now
            && Free(p, k, w', Max(full, w.now) + p.rate.interval)
            && LogOf(w', k).slots == LogOf(w, k).slots + [Slot(p, full, w.now)]
  {
    var mid := DoGet(p, w, k, 0);
    var l := mid.keyed.levels[mid.keyed.buckets[k].limiter];
    assert FullAt(p.rate, l) == full;
    TakeMovesFullAt(p.rate, l, w.now);
  }

  lemma PassReference(p: Params, s: Solo, full: int)
    requires p.rate.Valid() && FreeSolo(p, s, full)
    ensures var s' := SoloFire(p, SoloGet(s, 0), 0);
            && s'.now == s.now && FreeSolo(p, s', Max(full, s.now) + p.rate.interval)
            && s'.log.slots == s.log.slots + [Slot(p, full, s.now)]
  {
    TakeMovesFullAt(p.rate, s.level, s.now);
  }

  /** One unhurried Wait. */
  lemma Pass(p: Params, k: string, x: Point, f: int, g: int) returns (y: Point)
    requires p.rate.Valid() && Both(p, k, x, f, g)
    requires Asleep(x.s.log.slots, x.s.now) + 1 <= p.waiters
    ensures Both(p, k, y, Max(f, x.w.now) + p.rate.interval, Max(g, x.w.now) + p.rate.interval)
    ensures y.w.now == x.w.now
    ensures y.s.log.slots == x.s.log.slots + [Slot(p, g, x.w.now)]
    ensures LogOf(y.w, k).slots == LogOf(x.w, k).slots + [Slot(p, f, x.w.now)]
  {
    y := Then(p, k, x, Get(k, 0));
    y := Then(p, k, y, Fire(k, 0));
    PassLimiter(p, k, x.w, f);
    PassReference(p, x.s, g);
  }

  // ---- Many at one instant, in numbers ----

  function Filled(p: Params, full: int, now: nat, n: nat): int {
    if n == 0 then full else Max(Filled(p, full, now, n - 1), now) + p.rate.interval
  }

  function Served(p: Params, slots: seq<nat>, full: int, now: nat, n: nat): seq<nat> {
    if n == 0 then slots else Served(p, slots, full, now, n - 1) + [Slot(p, Filled(p, full, now, n - 1), now)]
  }

  /** After i Waits there is room for one more waiter. */
  predicate RoomAfter(p: Params, slots: seq<nat>, full: int, now: nat, i: nat) {
    Asleep(Served(p, slots, full, now, i), now) + 1 <= p.waiters
  }

  ghost predicate Room(p: Params, slots: seq<nat>, full: int, now: nat, n: nat) {
    forall i: nat | i < n :: RoomAfter(p, slots, full, now, i)
  }

  /** From x to y, n Waits have passed at one instant. */
  ghost predicate Passed(p: Params, k: string, x: Point, y: Point, f: int, g: int, n: nat) {
    && Both(p, k, y, Filled(p, f, x.w.now, n), Filled(p, g, x.w.now, n)) && y.w.now == x.w.now
    && y.s.log.slots == Served(p, x.s.log.slots, g, x.w.now, n)
    && LogOf(y.w, k).slots == Served(p, LogOf(x.w, k).slots, f, x.w.now, n)
  }

  lemma PassOn(p: Params, k: string, x: Point, y: Point, f: int, g: int, n: nat) returns (z: Point)
    requires n > 0 && p.rate.Valid() && Passed(p, k, x, y, f, g, n - 1)
    requires RoomAfter(p, x.s.log.slots, g, x.w.now, n - 1)
    ensures Passed(p, k, x, z, f, g, n)
  {
    z := Pass(p, k, y, Filled(p, f, x.w.now, n - 1), Filled(p, g, x.w.now, n - 1));
  }

  lemma {:induction false} Passes(p: Params, k: string, x: Point, f: int, g: int, n: nat) returns (y: Point)
    requires p.rate.Valid() && Both(p, k, x, f, g) && Room(p, x.s.log.slots, g, x.w.now, n)
    ensures Passed(p, k, x, y, f, g, n)
    decreases n
  {
    y := x;
    if n == 0 {
    } else {
      var z := Passes(p, k, x, f, g, n - 1);
      y := PassOn(p, k, x, z, f, g, n);
    }
  }

  ghost predicate Low(slots: seq<nat>, t: int) {
    forall i | 0 <= i < |slots| :: slots[i] <= t
  }

  lemma {:induction false} LowSleepsNot(slots: seq<nat>, now: nat)
    requires Low(slots, now)
    ensures Asleep(slots, now) == 0
  {
    if slots == [] {
    } else {
      LowSleepsNot(slots[..|slots| - 1], now);
    }
  }

  lemma {:induction false} FilledFirst(p: Params, n: nat)
    requires p.rate.Valid()
    ensures Filled(p, 0, 0, n) == Span(p.rate, n)
  {
    if n == 0 {
    } else {
      FilledFirst(p, n - 1);
      SpanStep(p.rate, n - 1);
    }
  }

  /** The n-th slot at the start. */
  lemma SlotFirst(p: Params, n: nat)
    requires p.rate.Valid() && n > 0
    ensures Slot(p, Span(p.rate, n - 1), 0) == Max(0, Span(p.rate, n) - p.rate.Cap())
    ensures n <= p.rate.burst ==> Slot(p, Span(p.rate, n - 1), 0) == 0
    ensures Span(p.rate, n - 1) <= Span(p.rate, n)
  {
    SpanStep(p.rate, n - 1);
    if n <= p.rate.burst {
      SpanMonotone(p.rate, n, p.rate.burst);
    }
  }

  lemma {:induction false} AsleepFirst(p: Params, n: nat)
    requires p.rate.Valid()
    ensures Asleep(Served(p, [], 0, 0, n), 0) <= Max(0, n - p.rate.burst)
  {
    if n == 0 {
    } else {
      AsleepFirst(p, n - 1);
      FilledFirst(p, n - 1);
      SlotFirst(p, n);
      CountAppend(Served(p, [], 0, 0, n - 1), Slot(p, Span(p.rate, n - 1), 0), 1, 0);
    }
  }

  /** Within one burst a bucket a little in debt serves at once. */
  lemma {:induction false} ServedLow(p: Params, slots: seq<nat>, full: int, now: nat, n: nat)
    requires p.rate.Valid() && now < full <= now + p.rate.interval && Low(slots, now) && n < p.rate.burst
    ensures Filled(p, full, now, n) == full + Span(p.rate, n)
    ensures Low(Served(p, slots, full, now, n), now)
  {
    if n == 0 {
    } else {
      ServedLow(p, slots, full, now, n - 1);
      SpanStep(p.rate, n - 1);
      SpanStep(p.rate, n);
      SpanMonotone(p.rate, n + 1, p.rate.burst);
    }
  }

  lemma {:induction false} FilledLow(p: Params, full: int, now: nat, n: nat)
    requires p.rate.Valid() && full <= now
    ensures Filled(p, full, now, n) <= now + Span(p.rate, n)
  {
    if n == 0 {
    } else {
      FilledLow(p, full, now, n - 1);
      SpanStep(p.rate, n - 1);
    }
  }

  // ---- A forgotten debt shows ----

  lemma BurstHasRoom(p: Params, slots: seq<nat>, full: int, now: nat)
    requires p.rate.Valid() && now < full <= now + p.rate.interval && Low(slots, now) && p.waiters > 0
    ensures Room(p, slots, full, now, p.rate.burst)
  {
    forall i: nat | i < p.rate.burst ensures RoomAfter(p, slots, full, now, i) {
      ServedLow(p, slots, full, now, i);
      LowSleepsNot(Served(p, slots, full, now, i), now);
    }
  }

  /** A bucket that is full serves a burst at once. */
  lemma {:induction false} BurstAtOnce(p: Params, slots: seq<nat>, full: int, now: nat, n: nat, a: int)
    requires p.rate.Valid() && full <= now && a <= now && n <= p.rate.burst
    ensures CountIn(Served(p, slots, full, now, n), a, now) == CountIn(slots, a, now) + n
  {
    if n == 0 {
    } else {
      BurstAtOnce(p, slots, full, now, n - 1, a);
      FilledLow(p, full, now, n - 1);
      SpanStep(p.rate, n - 1);
      SpanMonotone(p.rate, n, p.rate.burst);
      CountAppend(Served(p, slots, full, now, n - 1), Slot(p, Filled(p, full, now, n - 1), now), a, now);
    }
  }

  lemma BurstTooMuch(p: Params, slots: seq<nat>, full: int, now: nat, a: int)
    requires p.rate.Valid() && full <= now && a <= now && Span(p.rate, CountIn(slots, a, now)) > now - a
    ensures Span(p.rate, CountIn(Served(p, slots, full, now, p.rate.burst), a, now)) > p.rate.Cap() + (now - a)
  {
    BurstAtOnce(p, slots, full, now, p.rate.burst, a);
    SpanAdd(p.rate, CountIn(slots, a, now), p.rate.burst);
  }

  /** More slots between `a` and `b` than a burst and the rate allow. */
  ghost predicate Exceeds(p: Params, k: string, es: seq<Event>, a: int, b: int) {
    a <= b && p.rate.interval * CountIn(LogOf(Run(p, START, es), k).slots, a, b) > p.rate.Cap() + (b - a)
  }

  /** The limiter has forgotten a debt that the reference still has, and handed out since `a` all that the rate
      allows; one burst more exceeds it. */
  lemma DebtExceeds(p: Params, k: string, x: Point, f: int, g: int, a: int) returns (es: seq<Event>)
    requires p.rate.Valid() && Both(p, k, x, f, g) && Low(x.s.log.slots, x.w.now)
    requires f <= x.w.now < g <= x.w.now + p.rate.interval && p.waiters > 0 && a <= x.w.now
    requires Span(p.rate, CountIn(LogOf(x.w, k).slots, a, x.w.now)) > x.w.now - a
    ensures OrderlyRun(p, k, es) && Exceeds(p, k, es, a, x.w.now)
  {
    BurstHasRoom(p, x.s.log.slots, g, x.w.now);
    var y := Passes(p, k, x, f, g, p.rate.burst);
    BurstTooMuch(p, LogOf(x.w, k).slots, f, x.w.now, a);
    es := y.es;
  }

  lemma {:induction false} ReferenceKeepsLedger(p: Params, k: string, es: seq<Event>)
    requires p.rate.Valid()
    ensures var s := SoloRun(p, k, es); Ledger(p.rate, s.level, s.log.slots, s.now)
  {
    if es == [] {
      FreshLedger(p.rate, 0);
    } else {
      ReferenceKeepsLedger(p, k, es[..|es| - 1]);
      StepKeepsLedger(p, k, SoloRun(p, k, es[..|es| - 1]), es[|es| - 1]);
    }
  }

  /** A limiter that never evicts keeps to the rate in every run, so one that exceeds it has evicted. */
  lemma ExcessShows(p: Params, k: string, es: seq<Event>, a: int, b: int)
    requires p.rate.Valid() && Exceeds(p, k, es, a, b)
    ensures LogOf(Run(p, START, es), k) != SoloRun(p, k, es).log
  {
    ReferenceKeepsLedger(p, k, es);
    var slots := SoloRun(p, k, es).log.slots;
    assert Span(p.rate, CountIn(slots, a, b)) <= p.rate.Cap() + (b - a);
  }

  lemma ForgetLimiter(p: Params, k: string, w: World, full: int, to: nat)
    requires Free(p, k, w, full) && UsedFirst(k, w) && w.now <= to && p.ttl < to
    ensures var w' := Step(p, Step(p, w, Tick(to)), Sweep(to));
            Free(p, k, w', 0) && w'.now == to && LogOf(w', k) == LogOf(w, k)
  {
    var t := Step(p, w, Tick(to));
  }

  /** A sweep that drops a bucket last used at the start. */
  lemma Forget(p: Params, k: string, x: Point, f: int, g: int, to: nat) returns (y: Point)
    requires Both(p, k, x, f, g) && UsedFirst(k, x.w) && x.w.now <= to && p.ttl < to
    ensures Both(p, k, y, 0, g) && y.w.now == to && y.s.log == x.s.log && LogOf(y.w, k) == LogOf(x.w, k)
  {
    y := Then(p, k, x, Tick(to));
    y := Then(p, k, y, Sweep(to));
    ForgetLimiter(p, k, x.w, f, to);
  }

  ghost predicate Within(slots: seq<nat>, a: int, b: int) {
    forall i | 0 <= i < |slots| :: a <= slots[i] <= b
  }

  lemma {:induction false} CountWithin(slots: seq<nat>, a: int, b: int)
    requires Within(slots, a, b)
    ensures CountIn(slots, a, b) == |slots|
  {
    if slots == [] {
    } else {
      CountWithin(slots[..|slots| - 1], a, b);
    }
  }

  lemma {:induction false} ServedFromNow(p: Params, now: nat, n: nat)
    ensures |Served(p, [], 0, now, n)| == n && forall i | 0 <= i < n :: now <= Served(p, [], 0, now, n)[i]
  {
    if n == 0 {
    } else {
      ServedFromNow(p, now, n - 1);
    }
  }

  lemma {:induction false} ServedTogether(p: Params, now: nat, n: nat)
    requires p.rate.Valid()
    ensures n > 0 ==> Filled(p, 0, now, n) == now + Span(p.rate, n)
    ensures Low(Served(p, [], 0, now, n), Max(now, now + Span(p.rate, n) - p.rate.Cap()))
  {
    if n == 0 {
    } else {
      ServedTogether(p, now, n - 1);
      SpanStep(p.rate, n - 1);
    }
  }

  /** n tokens taken at once at `now`, and the bucket dropped while their debt is still on. */
  lemma ForgottenExceeds(p: Params, k: string, x: Point, now: nat, n: nat, to: nat)
    returns (es: seq<Event>)
    requires p.rate.Valid() && p.waiters > 0 && p.ttl < to && n > 0 && x.w.now == now <= to && UsedFirst(k, x.w)
    requires Both(p, k, x, now + Span(p.rate, n), now + Span(p.rate, n))
    requires x.s.log.slots == LogOf(x.w, k).slots == Served(p, [], 0, now, n)
    requires to - now < Span(p.rate, n) <= to - now + p.rate.interval
    ensures OrderlyRun(p, k, es) && Exceeds(p, k, es, now, to)
  {
    var full := now + Span(p.rate, n);
    var y := Forget(p, k, x, full, full, to);
    ServedTogether(p, now, n);
    ServedFromNow(p, now, n);
    SpanMonotone(p.rate, 1, p.rate.burst);
    CountWithin(Served(p, [], 0, now, n), now, to);
    es := DebtExceeds(p, k, y, 0, full, now);
  }

  // ---- First way: tokens taken at the start ----

  lemma StartHasRoom(p: Params, n: nat)
    requires p.rate.Valid() && p.waiters > 0 && n <= p.rate.burst + p.waiters
    ensures Room(p, [], 0, 0, n)
  {
    forall i: nat | i < n ensures RoomAfter(p, [], 0, 0, i) {
      AsleepFirst(p, i);
    }
  }

  /** One token more than refills by `t`. */
  lemma Overshoot(r: Rate, t: nat, n: nat) returns (m: nat)
    requires r.Valid() && t < Span(r, n)
    ensures 1 <= m <= n && t < Span(r, m) <= t + r.interval
  {
    m := t / r.interval + 1;
    SpanStep(r, m - 1);
    if n < m { SpanMonotone(r, n, m - 1); }
  }

  /** A ttl that burst and waiters outlast: their tokens are forgotten, and the rate exceeded. */
  lemma TokensShow(p: Params, k: string) returns (es: seq<Event>)
    requires p.rate.Valid() && p.waiters > 0 && p.rate.Cap() + Span(p.rate, p.waiters) > p.ttl + 1
    ensures OrderlyRun(p, k, es) && Exceeds(p, k, es, 0, p.ttl + 1)
  {
    SpanAdd(p.rate, p.rate.burst, p.waiters);
    var n := Overshoot(p.rate, p.ttl + 1, p.rate.burst + p.waiters);
    var x := Begin(p, k);
    StartHasRoom(p, n);
    x := Passes(p, k, x, 0, 0, n);
    FilledFirst(p, n);
    es := ForgottenExceeds(p, k, x, 0, n, p.ttl + 1);
  }

  // ---- Second way: a hold longer than the ttl ----

  /** The limiter has dropped the bucket, the reference keeps the hold. */
  lemma HoldForgotten(p: Params, k: string) returns (x: Point)
    requires p.hold > p.ttl + 1
    ensures Reached(p, k, x) && k !in x.w.keyed.buckets && x.w.paused == map[] && x.w.logs == map[]
    ensures x.s.now == x.w.now == p.ttl + 1 < x.s.hold && x.s.paused == map[] && x.s.log == Log([], [])
    ensures x.es != [] && x.es[0] == HoldOff(k, p.hold)
  {
    x := Begin(p, k);
    x := Then(p, k, x, HoldOff(k, p.hold));
    x := Then(p, k, x, Tick(p.ttl + 1));
    assert x.w.keyed.buckets[k].lastUsed == 0;
    x := Then(p, k, x, Sweep(p.ttl + 1));
  }

  /** A waiter gets through at the first sweep that can forget the hold, before the hold is over. */
  lemma HoldShows(p: Params, k: string) returns (es: seq<Event>)
    requires p.rate.Valid() && p.waiters > 0 && p.hold > p.ttl + 1
    ensures OrderlyRun(p, k, es) && es != [] && es[0] == HoldOff(k, p.hold)
    ensures LogOf(Run(p, START, es), k).slots == [p.ttl + 1] && SoloRun(p, k, es).log.slots == []
  {
    var x := HoldForgotten(p, k);
    var y := Then(p, k, x, Get(k, 0));
    assert y.w.paused[Waiter(k, 0)].until == y.w.now && y.s.paused[0] > y.s.now;
    var z := Then(p, k, y, Fire(k, 0));
    FreshSlot(p, y.w.now);
    assert z.s.log == Log([], []);
    es := z.es;
  }

  lemma FreshSlot(p: Params, now: nat)
    requires p.rate.Valid()
    ensures Take(p.rate, Fresh(p.rate), now).slot == now
  {
    SpanMonotone(p.rate, 1, p.rate.burst);
  }

  // ---- Third way: waiters let through so late, or held for so long, that the bucket looks idle ----

  ghost predicate CrowdSolo(p: Params, s: Solo, lo: nat, n: nat, full: int) {
    && s.hold == p.hold && FullAt(p.rate, s.level) == full && s.level.last <= s.now
    && (forall who: nat :: who in s.paused <==> lo <= who < n)
    && (forall who | who in s.paused :: s.paused[who] == p.hold)
  }

  ghost predicate CrowdAt(p: Params, k: string, w: World, lo: nat, n: nat, full: int) {
    && k in w.keyed.buckets
    && w.keyed.buckets[k].lastUsed == 0 && w.keyed.buckets[k].notBefore == p.hold
    && Fills(p, w, w.keyed.buckets[k], full)
    && (forall who: nat :: Waiter(k, who) in w.paused <==> lo <= who < n)
    && (forall x | x in w.paused && x.key == k :: w.paused[x] == Paused(w.keyed.buckets[k].limiter, p.hold))
  }

  /** The first n waiters came during the hold, and `lo` of them have been let through. */
  ghost predicate Crowd(p: Params, k: string, x: Point, lo: nat, n: nat, full: int) {
    Reached(p, k, x) && CrowdAt(p, k, x.w, lo, n, full) && CrowdSolo(p, x.s, lo, n, full) && x.s.now == x.w.now
  }

  lemma ArriveLimiter(p: Params, k: string, w: World, n: nat)
    requires CrowdAt(p, k, w, 0, n, 0) && w.now == 0
    ensures CrowdAt(p, k, DoGet(p, w, k, n), 0, n + 1, 0) && DoGet(p, w, k, n).now == 0
  {
    assert Waiter(k, n) !in w.paused;
  }

  lemma ArriveReference(p: Params, s: Solo, n: nat)
    requires CrowdSolo(p, s, 0, n, 0) && s.now == 0 && |s.paused| == n
    ensures CrowdSolo(p, SoloGet(s, n), 0, n + 1, 0) && |SoloGet(s, n).paused| == n + 1
  {
    assert n !in s.paused;
  }

  lemma {:induction false} Arrive(p: Params, k: string, n: nat) returns (x: Point)
    requires p.rate.Valid() && n <= p.waiters
    ensures Crowd(p, k, x, 0, n, 0) && x.w.now == 0 && |x.s.paused| == n
    ensures x.s.log.slots == [] == LogOf(x.w, k).slots
    decreases n
  {
    if n == 0 {
      x := Begin(p, k);
      x := Then(p, k, x, HoldOff(k, p.hold));
    } else {
      var y := Arrive(p, k, n - 1);
      x := Then(p, k, y, Get(k, n - 1));
      ArriveLimiter(p, k, y.w, n - 1);
      ArriveReference(p, y.s, n - 1);
    }
  }

  lemma LeaveLimiter(p: Params, k: string, w: World, lo: nat, n: nat, full: int)
    requires p.rate.Valid() && lo < n && p.hold <= w.now && CrowdAt(p, k, w, lo, n, full)
    ensures CrowdAt(p, k, DoFire(p, w, k, lo), lo + 1, n, Max(full, w.now) + p.rate.interval)
    ensures LogOf(DoFire(p, w, k, lo), k).slots == LogOf(w, k).slots + [Slot(p, full, w.now)]
  {
    assert Waiter(k, lo) in w.paused;
    TakeMovesFullAt(p.rate, w.keyed.levels[w.keyed.buckets[k].limiter], w.now);
  }

  lemma LeaveReference(p: Params, s: Solo, lo: nat, n: nat, full: int)
    requires p.rate.Valid() && lo < n && p.hold <= s.now && CrowdSolo(p, s, lo, n, full)
    ensures CrowdSolo(p, SoloFire(p, s, lo), lo + 1, n, Max(full, s.now) + p.rate.interval)
    ensures SoloFire(p, s, lo).log.slots == s.log.slots + [Slot(p, full, s.now)]
  {
    assert lo in s.paused;
    TakeMovesFullAt(p.rate, s.level, s.now);
  }

  lemma LeaveOne(p: Params, k: string, x: Point, lo: nat, n: nat, full: int) returns (y: Point)
    requires p.rate.Valid() && p.hold <= x.w.now && lo < n && Crowd(p, k, x, lo, n, full)
    ensures Crowd(p, k, y, lo + 1, n, Max(full, x.w.now) + p.rate.interval) && y.w.now == x.w.now
    ensures y.s.log.slots == x.s.log.slots + [Slot(p, full, x.w.now)]
    ensures LogOf(y.w, k).slots == LogOf(x.w, k).slots + [Slot(p, full, x.w.now)]
  {
    y := Then(p, k, x, Fire(k, lo));
    LeaveLimiter(p, k, x.w, lo, n, full);
    LeaveReference(p, x.s, lo, n, full);
  }

  lemma {:induction false} Leave(p: Params, k: string, x: Point, n: nat, j: nat) returns (y: Point)
    requires p.rate.Valid() && p.hold <= x.w.now && Crowd(p, k, x, 0, n, 0) && j <= n
    requires x.s.log.slots == [] == LogOf(x.w, k).slots
    ensures Crowd(p, k, y, j, n, Filled(p, 0, x.w.now, j)) && y.w.now == x.w.now
    ensures y.s.log.slots == Served(p, [], 0, x.w.now, j) == LogOf(y.w, k).slots
    decreases j
  {
    if j == 0 {
      y := x;
    } else {
      var z := Leave(p, k, x, n, j - 1);
      var full := Filled(p, 0, x.w.now, j - 1);
      y := LeaveOne(p, k, z, j - 1, n, full);
    }
  }

  /** Waiters that come during a hold and are let through at its end or late: the bucket they took from is dropped,
      their tokens are forgotten, and the rate exceeded. */
  lemma LatenessShows(p: Params, k: string) returns (es: seq<Event>, a: nat, b: nat)
    requires p.rate.Valid() && p.waiters > 0
    requires p.hold > p.ttl + 1 || p.hold + p.late + Span(p.rate, p.waiters) > p.ttl + 1
    ensures OrderlyRun(p, k, es) && Exceeds(p, k, es, a, b)
  {
    b := if p.hold > p.ttl + 1 then p.hold else p.ttl + 1;
    a := if p.hold + p.late < b then p.hold + p.late else b;
    SpanMonotone(p.rate, 1, p.waiters);
    var n := Overshoot(p.rate, b - a, p.waiters);
    var x := Arrive(p, k, n);
    var y := Then(p, k, x, Tick(a));
    x := Leave(p, k, y, n, n);
    ServedTogether(p, a, n);
    es := ForgottenExceeds(p, k, x, a, n, b);
  }

  // ---- The condition is exact ----

  ghost predicate EvictionUnseen(p: Params, k: string) {
    forall es | OrderlyRun(p, k, es) :: LogOf(Run(p, START, es), k) == LogOf(Run(p, START, WithoutSweeps(es)), k)
  }

  lemma {:induction false} NobodyWaits(p: Params, k: string, es: seq<Event>)
    requires p.waiters == 0 && OrderlyRun(p, k, es)
    ensures var w, s := Run(p, START, es), SoloRun(p, k, es);
            && s.paused == map[] && s.log == Log([], []) && LogOf(w, k) == s.log
            && forall who :: Waiter(k, who) !in w.paused
  {
    if es == [] {
    } else {
      var front := es[..|es| - 1];
      NobodyWaits(p, k, front);
      assert Orderly(p, k, SoloRun(p, k, front), es[|es| - 1]);
    }
  }

  /** Short of the side condition some orderly run exceeds the rate. */
  lemma ImpatienceExceeds(p: Params, k: string) returns (es: seq<Event>, a: nat, b: nat)
    requires p.rate.Valid() && p.waiters > 0 && Memory(p) > p.ttl + 1
    ensures OrderlyRun(p, k, es) && Exceeds(p, k, es, a, b)
  {
    if p.rate.Cap() + Span(p.rate, p.waiters) > p.ttl + 1 {
      a, b := 0, p.ttl + 1;
      es := TokensShow(p, k);
    } else {
      es, a, b := LatenessShows(p, k);
    }
  }

  /** Every orderly run of `k` is served as it would be without its sweeps, exactly when a bucket's memory is at most
      the ttl and a tick, or nobody may wait at all. */
  lemma EvictionUnseenExactly(p: Params, k: string)
    requires p.rate.Valid()
    ensures EvictionUnseen(p, k) <==> p.waiters == 0 || Memory(p) <= p.ttl + 1
  {
    if p.waiters > 0 && Memory(p) > p.ttl + 1 {
      var es, a, b := ImpatienceExceeds(p, k);
      ExcessShows(p, k, es, a, b);
      ReferenceNeverEvicts(p, k, es);
      assert OrderlyRun(p, k, es);
    } else {
      forall es | OrderlyRun(p, k, es)
        ensures LogOf(Run(p, START, es), k) == LogOf(Run(p, START, WithoutSweeps(es)), k)
      {
        if p.waiters == 0 {
          NobodyWaits(p, k, es);
          ReferenceNeverEvicts(p, k, es);
        } else {
          EvictionInvisible(p, k, es);
        }
      }
    }
  }

  ghost predicate RateKept(p: Params, k: string) {
    forall es, a: int, b: int | OrderlyRun(p, k, es) :: !Exceeds(p, k, es, a, b)
  }

  /** And under exactly the same condition no orderly run ever exceeds the rate. */
  lemma RateKeptExactly(p: Params, k: string)
    requires p.rate.Valid()
    ensures RateKept(p, k) <==> p.waiters == 0 || Memory(p) <= p.ttl + 1
  {
    if p.waiters > 0 && Memory(p) > p.ttl + 1 {
      var es, a, b := ImpatienceExceeds(p, k);
      assert OrderlyRun(p, k, es) && Exceeds(p, k, es, a, b);
    } else {
      forall es, a: int, b: int | OrderlyRun(p, k, es) ensures !Exceeds(p, k, es, a, b) {
        if p.waiters == 0 {
          NobodyWaits(p, k, es);
        } else if a <= b {
          EvictionKeepsRate(p, k, es, a, b);
        }
      }
    }
  }

  /** As shipped for Discord, in nanoseconds: two messages a second in bursts of four, sixteen workers, a ttl of
      fifteen minutes.  Eviction stays unseen exactly while holds and lateness come to no more than 14 minutes 52
      seconds. */
  lemma DiscordHolds(p: Params, k: string)
    requires p.rate == Rate(500_000_000, 4) && p.waiters == 16 && p.ttl == 900_000_000_000
    ensures EvictionUnseen(p, k) <==> p.hold + p.late <= 892_000_000_001
    ensures RateKept(p, k) <==> p.hold + p.late <= 892_000_000_001
  {
    EvictionUnseenExactly(p, k);
    RateKeptExactly(p, k);
  }
}
