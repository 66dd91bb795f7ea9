/** All runs of the keyed limiter: waiters, holds, sweeps and the clock interleaved in any order.

    Wait is two steps.  Get takes the pointer and the pause under the lock; Fire, once the pause is over,
    reserves on the pointer taken then, which the map may have forgotten in between. */
module KeyedRuns {
  import opened Base
  import opened TokenBucket
  import opened KeyedLimiter

  /** `hold` bounds how far ahead a hold reaches, `late` how long past its pause a waiter may be scheduled,
      `waiters` how many Waits of one key are blocked at once. */
  datatype Params = Params(rate: Rate, ttl: nat, hold: nat, late: nat, waiters: nat)

  datatype Event =
    | Get(key: string, who: nat)
    | Fire(key: string, who: nat)
    | Cancel(key: string, who: nat)
    | HoldOff(key: string, until: nat)
    | Sweep(asked: nat)
    | Tick(to: nat)

  datatype Waiter = Waiter(key: string, who: nat)

  /** A limiter's identity: the key it was made for, and a serial number among that key's. */
  datatype Id = Id(key: string, serial: nat)

  datatype Paused = Paused(limiter: Id, until: nat)

  /** The instants handed out, in order of reservation, and to whom. */
  datatype Log = Log(slots: seq<nat>, takers: seq<nat>)

  datatype World = World(keyed: State<Id>, now: nat, next: map<string, nat>, paused: map<Waiter, Paused>,
                         logs: map<string, Log>)

  const START := World(State(map[], map[]), 0, map[], map[], map[])

  function LogOf(w: World, key: string): Log {
    if key in w.logs then w.logs[key] else Log([], [])
  }

  /** The serial number of the next limiter that may be made for `key`. */
  function NextOf(w: World, key: string): nat {
    if key in w.next then w.next[key] else 0
  }

  function Add(log: Log, slot: nat, who: nat): Log {
    Log(log.slots + [slot], log.takers + [who])
  }

  function Later(a: nat, b: nat): nat {
    if a < b then b else a
  }

  function DoGet(p: Params, w: World, key: string, who: nat): World {
    if Waiter(key, who) in w.paused then w
    else
      var keyed := Ensure(p.rate, w.keyed, key, w.now, Id(key, NextOf(w, key)));
      var b := keyed.buckets[key];
      w.(keyed := keyed, next := w.next[key := NextOf(w, key) + 1],
         paused := w.paused[Waiter(key, who) := Paused(b.limiter, Later(w.now, b.notBefore))])
  }

  function DoFire(p: Params, w: World, key: string, who: nat): World {
    var x := Waiter(key, who);
    if x in w.paused && w.paused[x].until <= w.now && w.paused[x].limiter in w.keyed.levels then
      var limiter := w.paused[x].limiter;
      var slot := Take(p.rate, w.keyed.levels[limiter], w.now).slot;
      w.(keyed := Reserve(p.rate, w.keyed, limiter, w.now), paused := w.paused - {x},
         logs := w.logs[key := Add(LogOf(w, key), slot, who)])
    else w
  }

  function DoHold(p: Params, w: World, key: string, until: nat): World {
    w.(keyed := Hold(p.rate, w.keyed, key, until, w.now, Id(key, NextOf(w, key))),
       next := w.next[key := NextOf(w, key) + 1])
  }

  function Step(p: Params, w: World, e: Event): World {
    match e
    case Get(key, who) => DoGet(p, w, key, who)
    case Fire(key, who) => DoFire(p, w, key, who)
    case Cancel(key, who) => w.(paused := w.paused - {Waiter(key, who)})
    case HoldOff(key, until) => DoHold(p, w, key, until)
    case Sweep(asked) => if asked > w.now then w else w.(keyed := Evict(w.keyed, asked - p.ttl))
    case Tick(to) => if to < w.now then w else w.(now := to)
  }

  function Run(p: Params, w: World, es: seq<Event>): World {
    if es == [] then w else Step(p, Run(p, w, es[..|es| - 1]), es[|es| - 1])
  }

  // ---- The reference: one key, one bucket, one hold, nothing else ----

  datatype Solo = Solo(now: nat, level: Level, hold: nat, paused: map<nat, nat>, log: Log)

  function SoloStart(p: Params): Solo {
    Solo(0, Fresh(p.rate), 0, map[], Log([], []))
  }

  function SoloGet(s: Solo, who: nat): Solo {
    if who in s.paused then s else s.(paused := s.paused[who := Later(s.now, s.hold)])
  }

  function SoloFire(p: Params, s: Solo, who: nat): Solo {
    if who in s.paused && s.paused[who] <= s.now then
      var t := Take(p.rate, s.level, s.now);
      s.(level := t.level, paused := s.paused - {who}, log := Add(s.log, t.slot, who))
    else s
  }

  predicate Concerns(k: string, e: Event) {
    match e
    case Sweep(_) => false
    case Tick(_) => true
    case _ => e.key == k
  }

  function SoloStep(p: Params, k: string, s: Solo, e: Event): Solo {
    if !Concerns(k, e) then s
    else
      match e
      case Get(_, who) => SoloGet(s, who)
      case Fire(_, who) => SoloFire(p, s, who)
      case Cancel(_, who) => s.(paused := s.paused - {who})
      case HoldOff(_, until) => s.(hold := Later(s.hold, until))
      case Sweep(_) => s
      case Tick(to) => if to < s.now then s else s.(now := to)
  }

  function SoloRun(p: Params, k: string, es: seq<Event>): Solo {
    if es == [] then SoloStart(p) else SoloStep(p, k, SoloRun(p, k, es[..|es| - 1]), es[|es| - 1])
  }

  // ---- The side condition ----

  /** What the run must keep to for key `k`; the other keys are free. */
  ghost predicate Orderly(p: Params, k: string, s: Solo, e: Event) {
    match e
    case Get(key, who) =>
      key == k && who !in s.paused ==> |s.paused| + 1 + Asleep(s.log.slots, s.now) <= p.waiters
    case HoldOff(key, until) => key == k ==> until <= s.now + p.hold
    case Tick(to) => forall who | who in s.paused :: to <= s.paused[who] + p.late
    case _ => true
  }

  ghost predicate OrderlyRun(p: Params, k: string, es: seq<Event>) {
    es != [] ==> OrderlyRun(p, k, es[..|es| - 1]) && Orderly(p, k, SoloRun(p, k, es[..|es| - 1]), es[|es| - 1])
  }

  lemma RunAppend(p: Params, es: seq<Event>, e: Event)
    ensures Run(p, START, es + [e]) == Step(p, Run(p, START, es), e)
  {
    assert (es + [e])[..|es|] == es;
  }

  lemma SoloRunAppend(p: Params, k: string, es: seq<Event>, e: Event)
    ensures SoloRun(p, k, es + [e]) == SoloStep(p, k, SoloRun(p, k, es), e)
  {
    assert (es + [e])[..|es|] == es;
  }

  lemma OrderlyAppend(p: Params, k: string, es: seq<Event>, e: Event)
    requires OrderlyRun(p, k, es) && Orderly(p, k, SoloRun(p, k, es), e)
    ensures OrderlyRun(p, k, es + [e])
  {
    assert (es + [e])[..|es|] == es;
  }

  /** How long after its last use a bucket can still differ from a fresh one. */
  function Memory(p: Params): nat {
    Later(p.rate.Cap(), p.hold + p.late) + Span(p.rate, p.waiters)
  }

  ghost predicate Patient(p: Params) {
    p.rate.Valid() && Memory(p) <= p.ttl + 1
  }

  // ---- The simulation ----

  ghost predicate Wired(w: World) {
    && (forall id | id in w.keyed.levels :: id.serial < NextOf(w, id.key) && w.keyed.levels[id].last <= w.now)
    && (forall key | key in w.keyed.buckets ::
          w.keyed.buckets[key].limiter.key == key && w.keyed.buckets[key].limiter in w.keyed.levels)
    && (forall x | x in w.paused :: w.paused[x].limiter.key == x.key && w.paused[x].limiter in w.keyed.levels)
  }

  function Ensured(p: Params, w: World, key: string): World {
    w.(keyed := Ensure(p.rate, w.keyed, key, w.now, Id(key, NextOf(w, key))), next := w.next[key := NextOf(w, key) + 1])
  }

  lemma EnsureKeepsWired(p: Params, w: World, key: string)
    requires Wired(w)
    ensures Wired(Ensured(p, w, key)) && key in Ensured(p, w, key).keyed.buckets
  {
  }

  lemma GetKeepsWired(p: Params, w: World, key: string, who: nat)
    requires Wired(w)
    ensures Wired(DoGet(p, w, key, who))
  {
    EnsureKeepsWired(p, w, key);
  }

  lemma HoldKeepsWired(p: Params, w: World, key: string, until: nat)
    requires Wired(w)
    ensures Wired(DoHold(p, w, key, until))
  {
    EnsureKeepsWired(p, w, key);
  }

  lemma StepKeepsWired(p: Params, w: World, e: Event)
    requires Wired(w)
    ensures Wired(Step(p, w, e))
  {
    match e
    case Get(key, who) => GetKeepsWired(p, w, key, who);
    case HoldOff(key, until) => HoldKeepsWired(p, w, key, until);
    case _ =>
  }

  /** Pauses and holds reach no further than the side condition lets them. */
  ghost predicate Near(p: Params, s: Solo, u: nat) {
    && |s.paused| <= p.waiters
    && s.hold <= u + p.hold
    && (forall who | who in s.paused :: s.paused[who] <= u + p.hold && s.now <= s.paused[who] + p.late)
  }

  /** A bucket last used at `u` is full again by u + Memory, even after all still paused on it have taken a token. */
  ghost predicate Settling(p: Params, s: Solo, u: nat) {
    && u <= s.now
    && Near(p, s, u)
    && FullAt(p.rate, s.level) + Span(p.rate, |s.paused|) <= u + Memory(p)
  }

  ghost predicate SameTraffic(k: string, w: World, s: Solo) {
    && s.now == w.now
    && s.log == LogOf(w, k)
    && (forall who :: who in s.paused <==> Waiter(k, who) in w.paused)
    && (forall who | who in s.paused :: s.paused[who] == w.paused[Waiter(k, who)].until)
  }

  /** The live bucket and the reference agree on everything that is not past. */
  ghost predicate SameBucket(p: Params, k: string, w: World, s: Solo)
    requires k in w.keyed.buckets
  {
    var b := w.keyed.buckets[k];
    && b.limiter in w.keyed.levels
    && Max(FullAt(p.rate, w.keyed.levels[b.limiter]), w.now) == Max(FullAt(p.rate, s.level), w.now)
    && Later(b.notBefore, w.now) == Later(s.hold, w.now)
    && (forall x | x in w.paused && x.key == k :: w.paused[x].limiter == b.limiter)
  }

  /** With no live bucket, the reference is as good as fresh. */
  ghost predicate Rested(p: Params, s: Solo) {
    FullAt(p.rate, s.level) <= s.now && s.hold <= s.now && s.paused == map[]
  }

  /** The limiter and the reference are in step. */
  ghost predicate InStep(p: Params, k: string, w: World, s: Solo) {
    && Wired(w) && SameTraffic(k, w, s) && s.level.last <= s.now
    && (if k in w.keyed.buckets then SameBucket(p, k, w, s) else Rested(p, s))
  }

  /** And a sweep cannot part them. */
  ghost predicate Sim(p: Params, k: string, w: World, s: Solo) {
    && InStep(p, k, w, s) && Ledger(p.rate, s.level, s.log.slots, s.now)
    && (k in w.keyed.buckets ==> Settling(p, s, w.keyed.buckets[k].lastUsed))
  }

  lemma SpanAdd(r: Rate, m: nat, n: nat)
    ensures Span(r, m + n) == Span(r, m) + Span(r, n)
  {
  }

  lemma GetSettles(p: Params, k: string, s: Solo, who: nat)
    requires p.rate.Valid() && Ledger(p.rate, s.level, s.log.slots, s.now)
    requires Near(p, s, s.now) && who !in s.paused && Orderly(p, k, s, Get(k, who))
    ensures Settling(p, SoloGet(s, who), s.now)
  {
    var n := |s.paused| + 1;
    var asleep := Asleep(s.log.slots, s.now);
    assert |s.paused[who := Later(s.now, s.hold)]| == n;
    assert FullAt(p.rate, s.level) <= s.now + p.rate.Cap() + Span(p.rate, asleep);
    SpanAdd(p.rate, asleep, n);
    SpanMonotone(p.rate, n + asleep, p.waiters);
  }

  lemma FireSettles(p: Params, k: string, s: Solo, u: nat, who: nat)
    requires p.rate.Valid() && Ledger(p.rate, s.level, s.log.slots, s.now) && Settling(p, s, u)
    requires who in s.paused && s.paused[who] <= s.now
    ensures Settling(p, SoloFire(p, s, who), u)
  {
    TakeMovesFullAt(p.rate, s.level, s.now);
    RemoveShrinks(s.paused, who);
    SpanStep(p.rate, |s.paused| - 1);
    SpanMonotone(p.rate, |s.paused|, p.waiters);
  }

  // ---- Every step but a sweep keeps them in step ----

  /** The part of the state that belongs to `k` is the same. */
  ghost predicate Untouched(k: string, w: World, w': World) {
    && w'.now == w.now && LogOf(w', k) == LogOf(w, k) && NextOf(w', k) == NextOf(w, k)
    && (k in w'.keyed.buckets <==> k in w.keyed.buckets)
    && (k in w.keyed.buckets ==> w'.keyed.buckets[k] == w.keyed.buckets[k])
    && (forall who :: Waiter(k, who) in w'.paused <==> Waiter(k, who) in w.paused)
    && (forall x | x in w.paused && x.key == k :: w'.paused[x] == w.paused[x])
    && (forall id: Id | id.key == k :: id in w'.keyed.levels <==> id in w.keyed.levels)
    && (forall id | id in w.keyed.levels && id.key == k :: w'.keyed.levels[id] == w.keyed.levels[id])
  }

  lemma HoldLeavesOthers(p: Params, k: string, w: World, key: string, until: nat)
    requires Wired(w) && key != k
    ensures Untouched(k, w, DoHold(p, w, key, until))
  {
  }

  lemma UntouchedStaysInStep(p: Params, k: string, w: World, w': World, s: Solo)
    requires InStep(p, k, w, s) && Wired(w') && Untouched(k, w, w')
    ensures InStep(p, k, w', s)
  {
  }

  lemma OthersLeaveAlone(p: Params, k: string, w: World, e: Event)
    requires Wired(w) && !Concerns(k, e) && !e.Sweep?
    ensures Untouched(k, w, Step(p, w, e))
  {
    if e.HoldOff? {
      HoldLeavesOthers(p, k, w, e.key, e.until);
    }
  }

  lemma OtherInStep(p: Params, k: string, w: World, s: Solo, e: Event)
    requires InStep(p, k, w, s) && !Concerns(k, e) && !e.Sweep?
    ensures InStep(p, k, Step(p, w, e), s)
  {
    StepKeepsWired(p, w, e);
    OthersLeaveAlone(p, k, w, e);
    UntouchedStaysInStep(p, k, w, Step(p, w, e), s);
  }

  lemma GetMatches(p: Params, k: string, w: World, s: Solo, who: nat)
    requires InStep(p, k, w, s)
    ensures SameTraffic(k, DoGet(p, w, k, who), SoloGet(s, who))
  {
    var w' := DoGet(p, w, k, who);
    if who !in s.paused {
      assert w'.paused[Waiter(k, who)].until == Later(s.now, s.hold);
    }
  }

  lemma GetFindsBucket(p: Params, k: string, w: World, s: Solo, who: nat)
    requires InStep(p, k, w, s) && who !in s.paused
    ensures var w' := DoGet(p, w, k, who); k in w'.keyed.buckets && w'.keyed.buckets[k].lastUsed == w.now
    ensures SameBucket(p, k, DoGet(p, w, k, who), SoloGet(s, who))
  {
    if k !in w.keyed.buckets {
      assert forall who' :: Waiter(k, who') !in w.paused;
    }
  }

  lemma FireMatches(p: Params, k: string, w: World, s: Solo, who: nat)
    requires InStep(p, k, w, s) && p.rate.Valid()
    ensures SameTraffic(k, DoFire(p, w, k, who), SoloFire(p, s, who))
    ensures k in w.keyed.buckets ==> SameBucket(p, k, DoFire(p, w, k, who), SoloFire(p, s, who))
  {
    if who in s.paused && s.paused[who] <= s.now {
      var id := w.paused[Waiter(k, who)].limiter;
      assert id == w.keyed.buckets[k].limiter;
      TakeMovesFullAt(p.rate, s.level, s.now);
      TakeMovesFullAt(p.rate, w.keyed.levels[id], w.now);
    }
  }

  lemma HoldFindsBucket(p: Params, k: string, w: World, s: Solo, until: nat)
    requires InStep(p, k, w, s)
    ensures var w' := DoHold(p, w, k, until); k in w'.keyed.buckets && w'.keyed.buckets[k].lastUsed == w.now
    ensures SameBucket(p, k, DoHold(p, w, k, until), s.(hold := Later(s.hold, until)))
  {
    if k !in w.keyed.buckets {
      assert forall who :: Waiter(k, who) !in w.paused;
    }
  }

  lemma CancelMatches(p: Params, k: string, w: World, s: Solo, who: nat)
    requires SameTraffic(k, w, s)
    ensures SameTraffic(k, Step(p, w, Cancel(k, who)), s.(paused := s.paused - {who}))
    ensures k in w.keyed.buckets && SameBucket(p, k, w, s) ==>
              SameBucket(p, k, Step(p, w, Cancel(k, who)), s.(paused := s.paused - {who}))
  {
  }

  lemma GetInStep(p: Params, k: string, w: World, s: Solo, who: nat)
    requires InStep(p, k, w, s)
    ensures InStep(p, k, DoGet(p, w, k, who), SoloGet(s, who))
  {
    GetKeepsWired(p, w, k, who);
    GetMatches(p, k, w, s, who);
    if who !in s.paused {
      GetFindsBucket(p, k, w, s, who);
    }
  }

  lemma FireInStep(p: Params, k: string, w: World, s: Solo, who: nat)
    requires p.rate.Valid() && InStep(p, k, w, s)
    ensures InStep(p, k, DoFire(p, w, k, who), SoloFire(p, s, who))
  {
    FireMatches(p, k, w, s, who);
  }

  lemma HoldInStep(p: Params, k: string, w: World, s: Solo, until: nat)
    requires InStep(p, k, w, s)
    ensures InStep(p, k, DoHold(p, w, k, until), s.(hold := Later(s.hold, until)))
  {
    HoldKeepsWired(p, w, k, until);
    HoldFindsBucket(p, k, w, s, until);
  }

  lemma StepInStep(p: Params, k: string, w: World, s: Solo, e: Event)
    requires p.rate.Valid() && InStep(p, k, w, s) && !e.Sweep?
    ensures InStep(p, k, Step(p, w, e), SoloStep(p, k, s, e))
  {
    if !Concerns(k, e) {
      OtherInStep(p, k, w, s, e);
    } else {
      match e
      case Get(_, who) => GetInStep(p, k, w, s, who);
      case Fire(_, who) => FireInStep(p, k, w, s, who);
      case HoldOff(_, until) => HoldInStep(p, k, w, s, until);
      case Cancel(_, who) => {
        StepKeepsWired(p, w, e);
        CancelMatches(p, k, w, s, who);
      }
      case Tick(_) => StepKeepsWired(p, w, e);
    }
  }

  // ---- Under the side condition a sweep does too ----

  lemma SweepInStep(p: Params, k: string, w: World, s: Solo, asked: nat)
    requires Patient(p) && Sim(p, k, w, s)
    ensures Sim(p, k, Step(p, w, Sweep(asked)), s)
  {
    StepKeepsWired(p, w, Sweep(asked));
    if k in w.keyed.buckets && asked <= w.now && Idle(w.keyed, k, asked - p.ttl) {
      if p.waiters > 0 {
        SpanMonotone(p.rate, 1, p.waiters);
        assert p.hold + p.late <= p.ttl;
        assert forall who :: who !in s.paused;
      } else {
        assert s.paused == map[];
      }
    }
  }

  lemma CancelSettles(p: Params, s: Solo, u: nat, who: nat)
    requires Settling(p, s, u)
    ensures Settling(p, s.(paused := s.paused - {who}), u)
  {
    if who in s.paused {
      RemoveShrinks(s.paused, who);
      SpanStep(p.rate, |s.paused| - 1);
    } else {
      assert s.paused - {who} == s.paused;
    }
  }

  lemma StepKeepsLedger(p: Params, k: string, s: Solo, e: Event)
    requires p.rate.Valid() && Ledger(p.rate, s.level, s.log.slots, s.now)
    ensures var s' := SoloStep(p, k, s, e); Ledger(p.rate, s'.level, s'.log.slots, s'.now)
  {
    match e
    case Fire(key, who) =>
      if key == k && who in s.paused && s.paused[who] <= s.now {
        TakeKeepsLedger(p.rate, s.level, s.log.slots, s.now);
      }
    case Tick(to) =>
      if s.now <= to {
        LedgerWaits(p.rate, s.level, s.log.slots, s.now, to);
      }
    case _ =>
  }

  /** When `k` was last used, after one more event. */
  function UsedAfter(k: string, s: Solo, e: Event, u: nat): nat {
    if (e.Get? && e.key == k && e.who !in s.paused) || (e.HoldOff? && e.key == k) then s.now else u
  }

  lemma StepSettles(p: Params, k: string, s: Solo, e: Event, u: nat)
    requires p.rate.Valid() && Ledger(p.rate, s.level, s.log.slots, s.now) && Settling(p, s, u)
    requires Orderly(p, k, s, e) && !e.Sweep?
    ensures Settling(p, SoloStep(p, k, s, e), UsedAfter(k, s, e, u))
  {
    match e
    case Get(key, who) =>
      if key == k && who !in s.paused {
        GetSettles(p, k, s, who);
      }
    case Fire(key, who) =>
      if key == k && who in s.paused && s.paused[who] <= s.now {
        FireSettles(p, k, s, u, who);
      }
    case Cancel(key, who) =>
      if key == k {
        CancelSettles(p, s, u, who);
      }
    case _ =>
  }

  /** A bucket new in the map settles too, since the reference was at rest. */
  lemma RestSettles(p: Params, k: string, s: Solo, e: Event)
    requires p.rate.Valid() && Ledger(p.rate, s.level, s.log.slots, s.now) && Rested(p, s)
    requires Orderly(p, k, s, e) && Concerns(k, e) && (e.Get? || e.HoldOff?)
    ensures Settling(p, SoloStep(p, k, s, e), s.now)
  {
    if e.Get? {
      GetSettles(p, k, s, e.who);
    }
  }

  lemma StepUses(p: Params, k: string, w: World, s: Solo, e: Event)
    requires InStep(p, k, w, s) && !e.Sweep?
    ensures var w' := Step(p, w, e);
            if k in w.keyed.buckets then
              k in w'.keyed.buckets && w'.keyed.buckets[k].lastUsed == UsedAfter(k, s, e, w.keyed.buckets[k].lastUsed)
            else k in w'.keyed.buckets ==>
                   Concerns(k, e) && (e.Get? || e.HoldOff?) && w'.keyed.buckets[k].lastUsed == s.now
  {
  }

  lemma SimStep(p: Params, k: string, w: World, s: Solo, e: Event)
    requires Patient(p) && Sim(p, k, w, s) && Orderly(p, k, s, e)
    ensures Sim(p, k, Step(p, w, e), SoloStep(p, k, s, e))
  {
    if e.Sweep? {
      SweepInStep(p, k, w, s, e.asked);
    } else {
      StepInStep(p, k, w, s, e);
      StepKeepsLedger(p, k, s, e);
      StepUses(p, k, w, s, e);
      if k in w.keyed.buckets {
        StepSettles(p, k, s, e, w.keyed.buckets[k].lastUsed);
      } else if k in Step(p, w, e).keyed.buckets {
        RestSettles(p, k, s, e);
      }
    }
  }

  lemma {:induction false} SimRun(p: Params, k: string, es: seq<Event>)
    requires Patient(p) && OrderlyRun(p, k, es)
    ensures Sim(p, k, Run(p, START, es), SoloRun(p, k, es))
  {
    if es == [] {
      FreshLedger(p.rate, 0);
    } else {
      var front := es[..|es| - 1];
      SimRun(p, k, front);
      SimStep(p, k, Run(p, START, front), SoloRun(p, k, front), es[|es| - 1]);
    }
  }

  // ---- A limiter that never evicts ----

  function WithoutSweeps(es: seq<Event>): (kept: seq<Event>)
    ensures forall i | 0 <= i < |kept| :: !kept[i].Sweep?
  {
    if es == [] then []
    else WithoutSweeps(es[..|es| - 1]) + (if es[|es| - 1].Sweep? then [] else [es[|es| - 1]])
  }

  lemma {:induction false} SweepFreeInStep(p: Params, k: string, es: seq<Event>)
    requires p.rate.Valid() && forall i | 0 <= i < |es| :: !es[i].Sweep?
    ensures InStep(p, k, Run(p, START, es), SoloRun(p, k, es))
  {
    if es == [] {
    } else {
      var front := es[..|es| - 1];
      SweepFreeInStep(p, k, front);
      StepInStep(p, k, Run(p, START, front), SoloRun(p, k, front), es[|es| - 1]);
    }
  }

  lemma {:induction false} SoloIgnoresSweeps(p: Params, k: string, es: seq<Event>)
    ensures SoloRun(p, k, WithoutSweeps(es)) == SoloRun(p, k, es)
  {
    if es == [] {
    } else {
      var front, e := es[..|es| - 1], es[|es| - 1];
      SoloIgnoresSweeps(p, k, front);
      if e.Sweep? {
        assert WithoutSweeps(es) == WithoutSweeps(front);
      } else {
        SoloRunAppend(p, k, WithoutSweeps(front), e);
      }
    }
  }

  /** The reference is the limiter itself with every sweep left out, in all runs and under no condition. */
  lemma ReferenceNeverEvicts(p: Params, k: string, es: seq<Event>)
    requires p.rate.Valid()
    ensures LogOf(Run(p, START, WithoutSweeps(es)), k) == SoloRun(p, k, es).log
  {
    SweepFreeInStep(p, k, WithoutSweeps(es));
    SoloIgnoresSweeps(p, k, es);
  }

  // ---- Eviction cannot be seen ----

  /** Every key that keeps to the side condition is served as if nobody ever swept: the same slots, in the same order,
      to the same waiters, and those of a limiter that knows no other key. */
  lemma EvictionInvisible(p: Params, k: string, es: seq<Event>)
    requires Patient(p) && OrderlyRun(p, k, es)
    ensures LogOf(Run(p, START, es), k) == LogOf(Run(p, START, WithoutSweeps(es)), k) == SoloRun(p, k, es).log
  {
    SimRun(p, k, es);
    ReferenceNeverEvicts(p, k, es);
  }

  function Project(k: string, es: seq<Event>): seq<Event> {
    if es == [] then []
    else Project(k, es[..|es| - 1]) + (if Concerns(k, es[|es| - 1]) then [es[|es| - 1]] else [])
  }

  lemma {:induction false} SoloIgnoresOthers(p: Params, k: string, es: seq<Event>)
    ensures SoloRun(p, k, es) == SoloRun(p, k, Project(k, es))
  {
    if es == [] {
    } else {
      var front := es[..|es| - 1];
      SoloIgnoresOthers(p, k, front);
      if Concerns(k, es[|es| - 1]) {
        SoloRunAppend(p, k, Project(k, front), es[|es| - 1]);
      } else {
        assert Project(k, es) == Project(k, front);
      }
    }
  }

  /** Under the side condition what key `k` is given depends on its own events and the clock only, and not even on the
      sweeps. */
  lemma KeysDoNotInterfere(p: Params, k: string, es: seq<Event>, es': seq<Event>)
    requires Patient(p) && OrderlyRun(p, k, es) && OrderlyRun(p, k, es') && Project(k, es) == Project(k, es')
    ensures LogOf(Run(p, START, es), k) == LogOf(Run(p, START, es'), k)
  {
    EvictionInvisible(p, k, es);
    EvictionInvisible(p, k, es');
    SoloIgnoresOthers(p, k, es);
    SoloIgnoresOthers(p, k, es');
  }

  /** Under the side condition eviction never lets a key exceed its rate: any window of length b - a holds at most
      burst + rate * (b - a) slots.  EvictionSeen.RateKeptExactly shows that the condition is needed. */
  lemma EvictionKeepsRate(p: Params, k: string, es: seq<Event>, a: int, b: int)
    requires Patient(p) && OrderlyRun(p, k, es) && a <= b
    ensures p.rate.interval * CountIn(LogOf(Run(p, START, es), k).slots, a, b) <= p.rate.Cap() + (b - a)
  {
    SimRun(p, k, es);
    assert Span(p.rate, CountIn(LogOf(Run(p, START, es), k).slots, a, b)) <= p.rate.Cap() + (b - a);
  }

  // ---- A hold is served ----

  ghost predicate UsedInPast(w: World) {
    forall key | key in w.keyed.buckets :: w.keyed.buckets[key].lastUsed <= w.now
  }

  predicate Paired(w: World, key: string) {
    |LogOf(w, key).slots| == |LogOf(w, key).takers|
  }

  /** From the moment a hold is set, until it is over, the bucket stays and keeps the hold. */
  ghost predicate Holding(p: Params, w: World, key: string, until: nat) {
    && UsedInPast(w) && Paired(w, key)
    && (w.now < until ==>
          && key in w.keyed.buckets
          && w.keyed.buckets[key].notBefore >= until
          && until <= w.keyed.buckets[key].lastUsed + p.ttl + 1)
  }

  /** `who` is not let through before the hold ends, and whatever `who` has been given since the log was `before` long
      is not before it either. */
  ghost predicate Silent(p: Params, w: World, key: string, until: nat, who: nat, before: nat) {
    && Holding(p, w, key, until)
    && (Waiter(key, who) in w.paused ==> w.paused[Waiter(key, who)].until >= until)
    && (forall i | before <= i < |LogOf(w, key).takers| && LogOf(w, key).takers[i] == who ::
          LogOf(w, key).slots[i] >= until)
  }

  lemma GetKeepsHolding(p: Params, w: World, key: string, until: nat, other: string, waiter: nat)
    requires Holding(p, w, key, until)
    ensures Holding(p, DoGet(p, w, other, waiter), key, until)
  {
  }

  lemma HoldKeepsHolding(p: Params, w: World, key: string, until: nat, other: string, later: nat)
    requires Holding(p, w, key, until)
    ensures Holding(p, DoHold(p, w, other, later), key, until)
  {
  }

  lemma StepKeepsHolding(p: Params, w: World, key: string, until: nat, e: Event)
    requires Holding(p, w, key, until)
    ensures Holding(p, Step(p, w, e), key, until)
  {
    match e
    case Get(other, waiter) => GetKeepsHolding(p, w, key, until, other, waiter);
    case HoldOff(other, later) => HoldKeepsHolding(p, w, key, until, other, later);
    case _ =>
  }

  lemma FireKeepsSilent(p: Params, w: World, key: string, until: nat, who: nat, before: nat, other: string, waiter: nat)
    requires Silent(p, w, key, until, who, before)
    ensures Silent(p, DoFire(p, w, other, waiter), key, until, who, before)
  {
  }

  lemma StepKeepsSilent(p: Params, w: World, key: string, until: nat, who: nat, before: nat, e: Event)
    requires Silent(p, w, key, until, who, before)
    ensures Silent(p, Step(p, w, e), key, until, who, before)
  {
    StepKeepsHolding(p, w, key, until, e);
    if e.Fire? {
      FireKeepsSilent(p, w, key, until, who, before, e.key, e.who);
    }
  }

  lemma {:induction false} RunKeepsHolding(p: Params, w: World, key: string, until: nat, es: seq<Event>)
    requires Holding(p, w, key, until)
    ensures Holding(p, Run(p, w, es), key, until)
  {
    if es == [] {
    } else {
      RunKeepsHolding(p, w, key, until, es[..|es| - 1]);
      StepKeepsHolding(p, Run(p, w, es[..|es| - 1]), key, until, es[|es| - 1]);
    }
  }

  lemma {:induction false} RunKeepsSilent(p: Params, w: World, key: string, until: nat, who: nat, before: nat,
                                          es: seq<Event>)
    requires Silent(p, w, key, until, who, before)
    ensures Silent(p, Run(p, w, es), key, until, who, before)
  {
    if es == [] {
    } else {
      RunKeepsSilent(p, w, key, until, who, before, es[..|es| - 1]);
      StepKeepsSilent(p, Run(p, w, es[..|es| - 1]), key, until, who, before, es[|es| - 1]);
    }
  }

  lemma HoldBegins(p: Params, past: seq<Event>, key: string, until: nat)
    requires until <= Run(p, START, past).now + p.ttl + 1
    ensures Holding(p, DoHold(p, Run(p, START, past), key, until), key, until)
  {
    RunKeepsHolding(p, START, key, 0, past);
    HoldKeepsHolding(p, Run(p, START, past), key, 0, key, until);
  }

  /** From world w on, nobody whose Wait begins then or later gets a slot of `key` before `until`. */
  ghost predicate KeepsSilent(w: World, w': World, key: string, until: nat) {
    var before, log := LogOf(w, key), LogOf(w', key);
    forall i | |before.takers| <= i < |log.takers| && Waiter(key, log.takers[i]) !in w.paused ::
      i < |log.slots| && log.slots[i] >= until
  }

  lemma HoldingKeepsSilent(p: Params, w: World, key: string, until: nat, future: seq<Event>)
    requires Holding(p, w, key, until)
    ensures KeepsSilent(w, Run(p, w, future), key, until)
  {
    var before, log := LogOf(w, key), LogOf(Run(p, w, future), key);
    forall i | |before.takers| <= i < |log.takers| && Waiter(key, log.takers[i]) !in w.paused
      ensures i < |log.slots| && log.slots[i] >= until
    {
      RunKeepsSilent(p, w, key, until, log.takers[i], |before.takers|, future);
    }
  }

  /** A 429 silences its bucket.  After a hold of at most the ttl and a tick, in every continuation with sweeps, other
      holds and other keys, whoever begins to Wait at any time after the hold gets no slot before it ends: neither
      newcomers nor those that were waiting when it was set. */
  lemma HoldSilencesKey(p: Params, past: seq<Event>, key: string, until: nat, between: seq<Event>, future: seq<Event>)
    requires until <= Run(p, START, past).now + p.ttl + 1
    ensures var mid := Run(p, DoHold(p, Run(p, START, past), key, until), between);
            KeepsSilent(mid, Run(p, mid, future), key, until)
  {
    var held := DoHold(p, Run(p, START, past), key, until);
    HoldBegins(p, past, key, until);
    RunKeepsHolding(p, held, key, until, between);
    HoldingKeepsSilent(p, Run(p, held, between), key, until, future);
  }

  lemma {:induction false} SomebodyNew(waiters: set<Waiter>) returns (who: nat)
    ensures forall x | x in waiters :: x.who < who
    decreases |waiters|
  {
    if waiters == {} {
      who := 0;
    } else {
      var x := Member(waiters);
      var other := SomebodyNew(waiters - {x});
      who := Max(other, x.who + 1);
    }
  }

  /** A longer hold is forgotten at the first sweep that can forget it, and the next to wait goes through. */
  lemma LongHoldBroken(p: Params, w: World, key: string, until: nat) returns (future: seq<Event>)
    requires p.rate.Valid() && until > w.now + p.ttl + 1
    requires Paired(w, key)
    ensures !KeepsSilent(DoHold(p, w, key, until), Run(p, DoHold(p, w, key, until), future), key, until)
  {
    var who := SomebodyNew(w.paused.Keys);
    var to := w.now + p.ttl + 1;
    var w1 := Step(p, DoHold(p, w, key, until), Tick(to));
    var w2 := Step(p, w1, Sweep(to));
    assert key !in w2.keyed.buckets && Waiter(key, who) !in w2.paused;
    var w3 := Step(p, w2, Get(key, who));
    var w4 := Step(p, w3, Fire(key, who));
    future := [Tick(to), Sweep(to), Get(key, who), Fire(key, who)];
    RunOfFour(p, DoHold(p, w, key, until), future);
    NewcomerPasses(p, w2, key, who);
    var n := |LogOf(w, key).takers|;
    assert LogOf(w4, key).takers[n] == who && LogOf(w4, key).slots[n] == to;
  }

  lemma NewcomerPasses(p: Params, w: World, key: string, who: nat)
    requires p.rate.Valid() && key !in w.keyed.buckets && Waiter(key, who) !in w.paused
    ensures LogOf(DoFire(p, DoGet(p, w, key, who), key, who), key) == Add(LogOf(w, key), w.now, who)
  {
    SpanMonotone(p.rate, 1, p.rate.burst);
  }

  lemma RunOfFour(p: Params, w: World, es: seq<Event>)
    requires |es| == 4
    ensures Run(p, w, es) == Step(p, Step(p, Step(p, Step(p, w, es[0]), es[1]), es[2]), es[3])
  {
    var three, two, one := es[..3], es[..2], es[..1];
    assert three[..2] == two && two[..1] == one && one[..0] == [];
    assert Run(p, w, one) == Step(p, w, es[0]);
    assert Run(p, w, two) == Step(p, Run(p, w, one), es[1]);
    assert Run(p, w, three) == Step(p, Run(p, w, two), es[2]);
  }

  ghost predicate HoldKept(p: Params, w: World, key: string, until: nat) {
    forall between, future ::
      var mid := Run(p, DoHold(p, w, key, until), between);
      KeepsSilent(mid, Run(p, mid, future), key, until)
  }

  /** So a hold keeps what it promises, to all Waits that begin after it and in every continuation, exactly if it is
      no longer than the ttl and a tick. */
  lemma HoldKeptExactly(p: Params, past: seq<Event>, key: string, until: nat)
    requires p.rate.Valid()
    ensures HoldKept(p, Run(p, START, past), key, until) <==> until <= Run(p, START, past).now + p.ttl + 1
  {
    var w := Run(p, START, past);
    if until <= w.now + p.ttl + 1 {
      forall between, future
        ensures var mid := Run(p, DoHold(p, w, key, until), between); KeepsSilent(mid, Run(p, mid, future), key, until)
      {
        HoldSilencesKey(p, past, key, until, between, future);
      }
    } else {
      RunKeepsHolding(p, START, key, 0, past);
      var future := LongHoldBroken(p, w, key, until);
      var mid := Run(p, DoHold(p, w, key, until), []);
      assert !KeepsSilent(mid, Run(p, mid, future), key, until);
    }
  }

  // ---- Holds race ----

  /** ReserveFor calls of one key in the order in which they get the lock: the deadline each had worked out, when it
      got the lock, and the limiter it had ready. */
  datatype Call<L> = Call(until: nat, at: nat, spare: L)

  function HoldAll<L>(r: Rate, s: State<L>, key: string, calls: seq<Call<L>>): State<L> {
    if calls == [] then s
    else
      var last := calls[|calls| - 1];
      Hold(r, HoldAll(r, s, key, calls[..|calls| - 1]), key, last.until, last.at, last.spare)
  }

  function NotBefore<L>(s: State<L>, key: string): nat {
    if key in s.buckets then s.buckets[key].notBefore else 0
  }

  /** However calls race, they leave the latest of their deadlines and the one before: no hold is ever shortened. */
  lemma {:induction false} HoldsLeaveLatest<L>(r: Rate, s: State<L>, key: string, calls: seq<Call<L>>)
    ensures var left := NotBefore(HoldAll(r, s, key, calls), key);
            && left >= NotBefore(s, key) && (forall i | 0 <= i < |calls| :: left >= calls[i].until)
            && (left == NotBefore(s, key) || exists i :: 0 <= i < |calls| && left == calls[i].until)
  {
    if calls == [] {
    } else {
      var front, last := calls[..|calls| - 1], calls[|calls| - 1];
      HoldsLeaveLatest(r, s, key, front);
      assert forall i | 0 <= i < |front| :: calls[i] == front[i];
    }
  }

  predicate AsLate<L>(until: nat, calls: seq<Call<L>>) {
    exists i | 0 <= i < |calls| :: calls[i].until == until
  }

  /** Every deadline of one lot of calls is one of the other's. */
  predicate Matched<L>(calls: seq<Call<L>>, others: seq<Call<L>>) {
    forall i | 0 <= i < |calls| :: AsLate(calls[i].until, others)
  }

  lemma MatchedHoldsReachAsFar<L>(r: Rate, s: State<L>, key: string, calls: seq<Call<L>>, others: seq<Call<L>>)
    requires Matched(calls, others)
    ensures NotBefore(HoldAll(r, s, key, calls), key) <= NotBefore(HoldAll(r, s, key, others), key)
  {
    var left := NotBefore(HoldAll(r, s, key, calls), key);
    HoldsLeaveLatest(r, s, key, calls);
    HoldsLeaveLatest(r, s, key, others);
    if left != NotBefore(s, key) {
      assert AsLate(left, calls);
      var i :| 0 <= i < |calls| && calls[i].until == left;
      assert AsLate(calls[i].until, others);
    }
  }

  /** So only the deadlines matter, not the order of the calls nor when each got the lock. */
  lemma HoldsCommute<L>(r: Rate, s: State<L>, key: string, calls: seq<Call<L>>, others: seq<Call<L>>)
    requires Matched(calls, others) && Matched(others, calls)
    ensures NotBefore(HoldAll(r, s, key, calls), key) == NotBefore(HoldAll(r, s, key, others), key)
  {
    MatchedHoldsReachAsFar(r, s, key, calls, others);
    MatchedHoldsReachAsFar(r, s, key, others, calls);
  }
}
