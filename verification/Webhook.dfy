/** internal/discord/worker.go's workers on the keyed limiter: Wait, Send, and ReserveFor when Discord asks for a
    pause. As many workers as the limiter may have waiters, and no cancellation, which ends the process. */
module Webhook {
  import opened TokenBucket
  import KeyedLimiter
  import opened KeyedRuns
  import Budget = JagexBudget

  /** What a worker is at: nothing, in Wait's pause, past it with a slot, or told to hold the bucket off. */
  datatype Hand = Idle | Pausing(key: string) | Slotted(key: string, slot: nat) | Told(key: string, delay: nat)

  datatype Post = Post(key: string, at: nat, who: nat)

  /** `past` is what has happened to the limiter, and `w` the state it is in. */
  datatype State = State(past: seq<Event>, w: World, hands: seq<Hand>, posts: seq<Post>)

  datatype Move =
    | TakeUp(who: nat, key: string)
    | Pass(who: nat)                      // the pause is over, and the limiter gives a slot
    | Send(who: nat, delay: nat)          // one POST, at the slot or later; a delay of zero is no delay
    | HoldBucket(who: nat)
    | Evict(asked: nat)
    | Wait(to: nat)

  function Begin(p: Params): State {
    State([], START, seq(p.waiters, _ => Idle), [])
  }

  ghost predicate Enabled(p: Params, s: State, m: Move) {
    match m
    case TakeUp(who, key) => who < |s.hands| && s.hands[who].Idle?
    case Pass(who) =>
      && who < |s.hands| && s.hands[who].Pausing? && Waiter(s.hands[who].key, who) in s.w.paused
      && s.w.paused[Waiter(s.hands[who].key, who)].until <= s.w.now
    case Send(who, delay) =>
      who < |s.hands| && s.hands[who].Slotted? && s.hands[who].slot <= s.w.now && delay <= p.hold
    case HoldBucket(who) => who < |s.hands| && s.hands[who].Told?
    case Evict(_) => true
    case Wait(to) => s.w.now <= to && forall x | x in s.w.paused :: to <= s.w.paused[x].until + p.late
  }

  /** What a move does to the limiter. */
  function Effect(s: State, m: Move): seq<Event>
    requires m.HoldBucket? ==> m.who < |s.hands| && s.hands[m.who].Told?
    requires m.Pass? ==> m.who < |s.hands| && s.hands[m.who].Pausing?
  {
    match m
    case TakeUp(who, key) => [Get(key, who)]
    case Pass(who) => [Fire(s.hands[who].key, who)]
    case Send(_, _) => []
    case HoldBucket(who) => [HoldOff(s.hands[who].key, s.w.now + s.hands[who].delay)]
    case Evict(asked) => [Event.Sweep(asked)]
    case Wait(to) => [Tick(to)]
  }

  function Affected(p: Params, w: World, effect: seq<Event>): World {
    if effect == [] then w else Step(p, w, effect[0])
  }

  function LastSlot(w: World, key: string): nat {
    var slots := LogOf(w, key).slots;
    if slots == [] then 0 else slots[|slots| - 1]
  }

  function HandAfter(w': World, hand: Hand, m: Move): Hand {
    match m
    case TakeUp(_, key) => Pausing(key)
    case Pass(_) => if hand.Pausing? then Slotted(hand.key, LastSlot(w', hand.key)) else hand
    case Send(_, delay) => if hand.Slotted? && delay > 0 then Told(hand.key, delay) else Idle
    case HoldBucket(_) => Idle
    case _ => hand
  }

  ghost function Moved(p: Params, s: State, m: Move): State
    requires Enabled(p, s, m)
  {
    var effect := Effect(s, m);
    var w' := Affected(p, s.w, effect);
    State(s.past + effect, w',
          if m.Evict? || m.Wait? then s.hands else s.hands[m.who := HandAfter(w', s.hands[m.who], m)],
          if m.Send? then s.posts + [Post(s.hands[m.who].key, s.w.now, m.who)] else s.posts)
  }

  ghost predicate Moves(p: Params, s: State, ms: seq<Move>, s': State)
    decreases |ms|
  {
    if ms == [] then s' == s else Enabled(p, s, ms[0]) && Moves(p, Moved(p, s, ms[0]), ms[1..], s')
  }

  // ---- The workers are the waiters ----

  function Load(hands: seq<Hand>, k: string, t: nat): nat {
    if hands == [] then 0 else Load(hands[..|hands| - 1], k, t) + One(hands[|hands| - 1], k, t)
  }

  /** A worker that counts as a waiter of `k` at t. */
  function One(h: Hand, k: string, t: nat): nat {
    if h == Pausing(k) || (h.Slotted? && h.key == k && h.slot > t) then 1 else 0
  }

  lemma {:induction false} LoadUpdate(hands: seq<Hand>, i: nat, h: Hand, k: string, t: nat)
    requires i < |hands|
    ensures Load(hands[i := h], k, t) + One(hands[i], k, t) == Load(hands, k, t) + One(h, k, t)
  {
    var n := |hands| - 1;
    if i == n {
      assert hands[i := h][..n] == hands[..n];
    } else {
      LoadUpdate(hands[..n], i, h, k, t);
      assert hands[i := h][..n] == hands[..n][i := h];
    }
  }

  lemma {:induction false} LoadAtMost(hands: seq<Hand>, k: string, t: nat)
    ensures Load(hands, k, t) <= |hands|
  {
    if hands == [] {
    } else {
      LoadAtMost(hands[..|hands| - 1], k, t);
    }
  }

  /** The limiter's waiters are the workers that say so. */
  ghost predicate Matched(w: World, hands: seq<Hand>) {
    forall key, who: nat :: Waiter(key, who) in w.paused <==> who < |hands| && hands[who] == Pausing(key)
  }

  ghost predicate Manned(p: Params, s: State) {
    && |s.hands| == p.waiters && s.w == Run(p, START, s.past)
    && Matched(s.w, s.hands)
    && (forall who | 0 <= who < |s.hands| && s.hands[who].Told? :: s.hands[who].delay <= p.hold)
  }

  /** Waiters of `k` in the reference, asleep on a slot or in a pause, are workers. */
  ghost predicate Loaded(k: string, hands: seq<Hand>, solo: Solo) {
    forall t: nat {:trigger Asleep(solo.log.slots, t)} :: solo.now <= t ==>
      |solo.paused| + Asleep(solo.log.slots, t) <= Load(hands, k, t)
  }

  /** The workers, the limiter and the reference agree about `k`. */
  ghost predicate Abreast(p: Params, k: string, s: State, solo: Solo) {
    && p.rate.Valid() && |s.hands| == p.waiters
    && InStep(p, k, s.w, solo) && Matched(s.w, s.hands) && Loaded(k, s.hands, solo)
  }

  ghost predicate Good(p: Params, k: string, s: State) {
    Patient(p) && Manned(p, s) && OrderlyRun(p, k, s.past) && Loaded(k, s.hands, SoloRun(p, k, s.past))
  }

  lemma GoodIsAbreast(p: Params, k: string, s: State)
    requires Good(p, k, s)
    ensures Abreast(p, k, s, SoloRun(p, k, s.past))
  {
    SimRun(p, k, s.past);
  }

  lemma TakeUpIsOrderly(p: Params, k: string, s: State, solo: Solo, who: nat)
    requires Abreast(p, k, s, solo) && who < |s.hands| && s.hands[who].Idle?
    ensures Orderly(p, k, solo, Get(k, who))
  {
    LoadUpdate(s.hands, who, Pausing(k), k, s.w.now);
    LoadAtMost(s.hands[who := Pausing(k)], k, s.w.now);
    assert |solo.paused| + Asleep(solo.log.slots, s.w.now) <= Load(s.hands, k, s.w.now);
  }

  /** Nothing that the workers do is out of order: there are never more waiters than workers. */
  lemma MoveIsOrderly(p: Params, k: string, s: State, m: Move)
    requires Good(p, k, s) && Enabled(p, s, m) && Effect(s, m) != []
    ensures Orderly(p, k, SoloRun(p, k, s.past), Effect(s, m)[0])
  {
    GoodIsAbreast(p, k, s);
    if m.TakeUp? && m.key == k {
      TakeUpIsOrderly(p, k, s, SoloRun(p, k, s.past), m.who);
    }
  }

  // ---- Every move keeps that ----

  lemma TakeUpMatched(p: Params, w: World, hands: seq<Hand>, who: nat, key: string)
    requires Matched(w, hands) && who < |hands| && hands[who].Idle?
    ensures Matched(DoGet(p, w, key, who), hands[who := Pausing(key)])
  {
  }

  lemma PassMatched(p: Params, w: World, hands: seq<Hand>, who: nat, h: Hand)
    requires Matched(w, hands) && Wired(w) && who < |hands| && hands[who].Pausing? && !h.Pausing?
    requires w.paused[Waiter(hands[who].key, who)].until <= w.now
    ensures Matched(DoFire(p, w, hands[who].key, who), hands[who := h])
  {
  }

  lemma HoldMatched(p: Params, w: World, hands: seq<Hand>, who: nat, key: string, until: nat)
    requires Matched(w, hands) && who < |hands| && !hands[who].Pausing?
    ensures Matched(DoHold(p, w, key, until), hands[who := Idle])
  {
  }

  lemma SendMatched(w: World, hands: seq<Hand>, who: nat, h: Hand)
    requires Matched(w, hands) && who < |hands| && !hands[who].Pausing? && !h.Pausing?
    ensures Matched(w, hands[who := h])
  {
  }

  lemma TakeUpKeepsMatched(p: Params, s: State, who: nat, key: string)
    requires Matched(s.w, s.hands) && Enabled(p, s, TakeUp(who, key))
    ensures Matched(Moved(p, s, TakeUp(who, key)).w, Moved(p, s, TakeUp(who, key)).hands)
  {
    TakeUpMatched(p, s.w, s.hands, who, key);
  }

  lemma PassKeepsMatched(p: Params, s: State, who: nat)
    requires Matched(s.w, s.hands) && Enabled(p, s, Pass(who)) && Wired(s.w)
    ensures Matched(Moved(p, s, Pass(who)).w, Moved(p, s, Pass(who)).hands)
  {
    var key := s.hands[who].key;
    PassMatched(p, s.w, s.hands, who, Slotted(key, LastSlot(DoFire(p, s.w, key, who), key)));
  }

  lemma HoldKeepsMatched(p: Params, s: State, who: nat)
    requires Matched(s.w, s.hands) && Enabled(p, s, HoldBucket(who))
    ensures Matched(Moved(p, s, HoldBucket(who)).w, Moved(p, s, HoldBucket(who)).hands)
  {
    HoldMatched(p, s.w, s.hands, who, s.hands[who].key, s.w.now + s.hands[who].delay);
  }

  lemma MoveKeepsMatched(p: Params, s: State, m: Move)
    requires Matched(s.w, s.hands) && Enabled(p, s, m) && Wired(s.w)
    ensures Matched(Moved(p, s, m).w, Moved(p, s, m).hands)
  {
    match m
    case TakeUp(who, key) => TakeUpKeepsMatched(p, s, who, key);
    case Pass(who) => PassKeepsMatched(p, s, who);
    case HoldBucket(who) => HoldKeepsMatched(p, s, who);
    case Send(who, _) => SendMatched(s.w, s.hands, who, Moved(p, s, m).hands[who]);
    case _ =>
  }

  lemma MoveKeepsManned(p: Params, s: State, m: Move)
    requires Manned(p, s) && Enabled(p, s, m) && Wired(s.w)
    ensures Manned(p, Moved(p, s, m))
  {
    var effect := Effect(s, m);
    MoveKeepsMatched(p, s, m);
    if effect == [] {
      assert s.past + effect == s.past;
    } else {
      RunAppend(p, s.past, effect[0]);
    }
  }

  /** How the reference follows a move. */
  function Followed(p: Params, k: string, solo: Solo, effect: seq<Event>): Solo {
    if effect == [] then solo else SoloStep(p, k, solo, effect[0])
  }

  lemma ReferenceFollows(p: Params, k: string, s: State, m: Move)
    requires Enabled(p, s, m)
    ensures SoloRun(p, k, Moved(p, s, m).past) == Followed(p, k, SoloRun(p, k, s.past), Effect(s, m))
  {
    var effect := Effect(s, m);
    if effect == [] {
      assert s.past + effect == s.past;
    } else {
      SoloRunAppend(p, k, s.past, effect[0]);
    }
  }

  /** Fire gives the limiter's waiter the slot that the reference gives. */
  lemma PassGivesSlot(p: Params, k: string, s: State, solo: Solo, who: nat)
    requires Abreast(p, k, s, solo) && Enabled(p, s, Pass(who)) && s.hands[who].key == k
    ensures var slot := Take(p.rate, solo.level, solo.now).slot;
            && who in solo.paused && solo.paused[who] <= solo.now
            && SoloFire(p, solo, who).log.slots == solo.log.slots + [slot]
            && LastSlot(DoFire(p, s.w, k, who), k) == slot
  {
    FireMatches(p, k, s.w, solo, who);
  }

  lemma TakeUpLoads(p: Params, k: string, s: State, solo: Solo, who: nat)
    requires Abreast(p, k, s, solo) && who < |s.hands| && s.hands[who].Idle?
    ensures Loaded(k, s.hands[who := Pausing(k)], SoloGet(solo, who))
  {
    forall t: nat | solo.now <= t
      ensures |SoloGet(solo, who).paused| + Asleep(solo.log.slots, t) <= Load(s.hands[who := Pausing(k)], k, t)
    {
      LoadUpdate(s.hands, who, Pausing(k), k, t);
      assert |solo.paused| + Asleep(solo.log.slots, t) <= Load(s.hands, k, t);
    }
  }

  lemma SlotLoads(k: string, hands: seq<Hand>, solo: Solo, who: nat, slot: nat, solo': Solo)
    requires who < |hands| && hands[who] == Pausing(k) && who in solo.paused && Loaded(k, hands, solo)
    requires solo'.now == solo.now && solo'.paused == solo.paused - {who}
    requires solo'.log.slots == solo.log.slots + [slot]
    ensures Loaded(k, hands[who := Slotted(k, slot)], solo')
  {
    KeyedLimiter.RemoveShrinks(solo.paused, who);
    forall t: nat | solo.now <= t
      ensures |solo'.paused| + Asleep(solo'.log.slots, t) <= Load(hands[who := Slotted(k, slot)], k, t)
    {
      LoadUpdate(hands, who, Slotted(k, slot), k, t);
      CountAppend(solo.log.slots, slot, t + 1, 0);
      assert |solo.paused| + Asleep(solo.log.slots, t) <= Load(hands, k, t);
    }
  }

  lemma PassLoads(p: Params, k: string, s: State, solo: Solo, who: nat)
    requires Abreast(p, k, s, solo) && Enabled(p, s, Pass(who)) && s.hands[who].key == k
    ensures Loaded(k, s.hands[who := Slotted(k, LastSlot(DoFire(p, s.w, k, who), k))], SoloFire(p, solo, who))
  {
    PassGivesSlot(p, k, s, solo, who);
    SlotLoads(k, s.hands, solo, who, LastSlot(DoFire(p, s.w, k, who), k), SoloFire(p, solo, who));
  }

  /** Every other move leaves the reference's waiters, and what the workers count for, as they were. */
  lemma OtherLoads(p: Params, k: string, s: State, solo: Solo, m: Move)
    requires Abreast(p, k, s, solo) && Enabled(p, s, m)
    requires !(m.TakeUp? && m.key == k) && !(m.Pass? && s.hands[m.who].key == k)
    ensures Loaded(k, Moved(p, s, m).hands, Followed(p, k, solo, Effect(s, m)))
  {
    var solo' := Followed(p, k, solo, Effect(s, m));
    forall t: nat | solo'.now <= t
      ensures |solo'.paused| + Asleep(solo'.log.slots, t) <= Load(Moved(p, s, m).hands, k, t)
    {
      if !m.Evict? && !m.Wait? {
        LoadUpdate(s.hands, m.who, Moved(p, s, m).hands[m.who], k, t);
      }
      assert |solo.paused| + Asleep(solo.log.slots, t) <= Load(s.hands, k, t);
    }
  }

  lemma MoveKeepsLoaded(p: Params, k: string, s: State, solo: Solo, m: Move)
    requires Abreast(p, k, s, solo) && Enabled(p, s, m)
    ensures Loaded(k, Moved(p, s, m).hands, Followed(p, k, solo, Effect(s, m)))
  {
    if m.TakeUp? && m.key == k {
      TakeUpLoads(p, k, s, solo, m.who);
    } else if m.Pass? && s.hands[m.who].key == k {
      PassLoads(p, k, s, solo, m.who);
    } else {
      OtherLoads(p, k, s, solo, m);
    }
  }

  lemma MoveKeepsGood(p: Params, k: string, s: State, m: Move)
    requires Good(p, k, s) && Enabled(p, s, m)
    ensures Good(p, k, Moved(p, s, m))
  {
    GoodIsAbreast(p, k, s);
    MoveKeepsManned(p, s, m);
    ReferenceFollows(p, k, s, m);
    MoveKeepsLoaded(p, k, s, SoloRun(p, k, s.past), m);
    if Effect(s, m) == [] {
      assert s.past + Effect(s, m) == s.past;
    } else {
      MoveIsOrderly(p, k, s, m);
      OrderlyAppend(p, k, s.past, Effect(s, m)[0]);
    }
  }

  // ---- The rate at which Discord hears from us ----

  /** The instants at which one webhook is posted to. */
  function TimesOf(posts: seq<Post>, k: string): seq<nat> {
    if posts == [] then []
    else
      var last := posts[|posts| - 1];
      TimesOf(posts[..|posts| - 1], k) + (if last.key == k then [last.at] else [])
  }

  function WorkerOf(h: Hand, k: string): Budget.Worker {
    if h.Slotted? && h.key == k then Budget.Holding(h.slot, 1) else Budget.Free
  }

  function WorkersOf(hands: seq<Hand>, k: string): seq<Budget.Worker> {
    seq(|hands|, i requires 0 <= i < |hands| => WorkerOf(hands[i], k))
  }

  function BudgetOf(p: Params): Budget.Params {
    Budget.Params(p.rate, p.waiters, 1)
  }

  /** One webhook, seen as the hiscores runner: a limiter of its own, and one attempt for each slot. */
  function Account(k: string, hands: seq<Hand>, posts: seq<Post>, solo: Solo): Budget.State {
    Budget.State(solo.now, solo.level, solo.log.slots, WorkersOf(hands, k), TimesOf(posts, k))
  }

  /** The account after a move. */
  ghost function AccountAfter(p: Params, k: string, s: State, solo: Solo, m: Move): Budget.State
    requires Enabled(p, s, m)
  {
    Account(k, Moved(p, s, m).hands, Moved(p, s, m).posts, Followed(p, k, solo, Effect(s, m)))
  }

  lemma PassReserves(p: Params, k: string, s: State, solo: Solo, who: nat)
    requires Abreast(p, k, s, solo) && Enabled(p, s, Pass(who)) && s.hands[who].key == k
    ensures var account := Account(k, s.hands, s.posts, solo);
            && Budget.Enabled(account, Budget.Reserve(who))
            && AccountAfter(p, k, s, solo, Pass(who)) == Budget.Step(BudgetOf(p), account, Budget.Reserve(who))
  {
    PassGivesSlot(p, k, s, solo, who);
    var slot := Take(p.rate, solo.level, solo.now).slot;
    assert WorkersOf(s.hands[who := Slotted(k, slot)], k) == WorkersOf(s.hands, k)[who := Budget.Holding(slot, 1)];
  }

  lemma SendRequests(p: Params, k: string, s: State, solo: Solo, who: nat, delay: nat)
    requires Enabled(p, s, Send(who, delay)) && s.hands[who].key == k && solo.now == s.w.now
    ensures var account := Account(k, s.hands, s.posts, solo);
            && Budget.Enabled(account, Budget.Request(who))
            && var once := Budget.Step(BudgetOf(p), account, Budget.Request(who));
               && Budget.Enabled(once, Budget.Finish(who))
               && AccountAfter(p, k, s, solo, Send(who, delay)) == Budget.Step(BudgetOf(p), once, Budget.Finish(who))
  {
    var s' := Moved(p, s, Send(who, delay));
    assert s'.posts[..|s.posts|] == s.posts;
    var spent := Budget.Holding(s.hands[who].slot, 0);
    assert WorkersOf(s'.hands, k) == WorkersOf(s.hands, k)[who := spent][who := Budget.Free];
  }

  lemma OtherKeepsWorkers(p: Params, k: string, s: State, m: Move)
    requires Enabled(p, s, m)
    requires !(m.Pass? && s.hands[m.who].key == k) && !(m.Send? && s.hands[m.who].key == k)
    ensures WorkersOf(Moved(p, s, m).hands, k) == WorkersOf(s.hands, k)
  {
    var hands := Moved(p, s, m).hands;
    forall i | 0 <= i < |s.hands| ensures WorkerOf(hands[i], k) == WorkerOf(s.hands[i], k) {
    }
  }

  lemma OtherKeepsAccount(p: Params, k: string, s: State, solo: Solo, m: Move)
    requires Enabled(p, s, m) && !m.Wait?
    requires !(m.Pass? && s.hands[m.who].key == k) && !(m.Send? && s.hands[m.who].key == k)
    ensures AccountAfter(p, k, s, solo, m) == Account(k, s.hands, s.posts, solo)
  {
    OtherKeepsWorkers(p, k, s, m);
    if m.Send? {
      assert Moved(p, s, m).posts[..|s.posts|] == s.posts;
    }
  }

  ghost predicate Audited(p: Params, k: string, s: State) {
    Good(p, k, s) && Budget.Good(BudgetOf(p), Account(k, s.hands, s.posts, SoloRun(p, k, s.past)))
  }

  lemma MoveKeepsBudget(p: Params, k: string, s: State, solo: Solo, m: Move)
    requires Abreast(p, k, s, solo) && Enabled(p, s, m)
    requires Budget.Good(BudgetOf(p), Account(k, s.hands, s.posts, solo))
    ensures Budget.Good(BudgetOf(p), AccountAfter(p, k, s, solo, m))
  {
    var b, account := BudgetOf(p), Account(k, s.hands, s.posts, solo);
    if m.Pass? && s.hands[m.who].key == k {
      PassReserves(p, k, s, solo, m.who);
      Budget.StepKeepsGood(b, account, Budget.Reserve(m.who));
    } else if m.Send? && s.hands[m.who].key == k {
      SendRequests(p, k, s, solo, m.who, m.delay);
      Budget.StepKeepsGood(b, account, Budget.Request(m.who));
      Budget.StepKeepsGood(b, Budget.Step(b, account, Budget.Request(m.who)), Budget.Finish(m.who));
    } else if m.Wait? {
      Budget.StepKeepsGood(b, account, Budget.Advance(m.to));
    } else {
      OtherKeepsAccount(p, k, s, solo, m);
    }
  }

  lemma MoveKeepsAudited(p: Params, k: string, s: State, m: Move)
    requires Audited(p, k, s) && Enabled(p, s, m)
    ensures Audited(p, k, Moved(p, s, m))
  {
    GoodIsAbreast(p, k, s);
    MoveKeepsGood(p, k, s, m);
    ReferenceFollows(p, k, s, m);
    MoveKeepsBudget(p, k, s, SoloRun(p, k, s.past), m);
  }

  lemma {:induction false} MovesKeepAudited(p: Params, k: string, s: State, ms: seq<Move>, s': State)
    requires Audited(p, k, s) && Moves(p, s, ms, s')
    ensures Audited(p, k, s')
    decreases |ms|
  {
    if ms == [] {
    } else {
      MoveKeepsAudited(p, k, s, ms[0]);
      MovesKeepAudited(p, k, Moved(p, s, ms[0]), ms[1..], s');
    }
  }

  lemma BeginIsAudited(p: Params, k: string)
    requires Patient(p)
    ensures Audited(p, k, Begin(p))
  {
    Budget.StartIsGood(BudgetOf(p));
    assert WorkersOf(Begin(p).hands, k) == Budget.Start(BudgetOf(p)).workers;
  }

  /** With W workers, pauses no longer than the limiter remembers, and waiters scheduled in time, a webhook is posted
      to at most burst + rate * (b - a) + W times in any window of length b - a, however the replies fall out. */
  lemma PostsBounded(p: Params, k: string, ms: seq<Move>, s: State, a: int, b: int)
    requires Patient(p) && Moves(p, Begin(p), ms, s) && a <= b
    ensures p.rate.interval * CountIn(TimesOf(s.posts, k), a, b) <=
            p.rate.Cap() + (b - a) + p.rate.interval * p.waiters
  {
    BeginIsAudited(p, k);
    MovesKeepAudited(p, k, Begin(p), ms, s);
    Budget.GoodBounds(BudgetOf(p), Account(k, s.hands, s.posts, SoloRun(p, k, s.past)), a, b);
  }

  // ---- A pause that Discord asks for ----

  /** The worker is in Wait for `k`, or past it with a slot. */
  predicate On(hands: seq<Hand>, who: nat, k: string) {
    who < |hands| && (hands[who] == Pausing(k) || (hands[who].Slotted? && hands[who].key == k))
  }

  /** Worker `who` has been given no slot of `k` before the hold ends since the log was `before` long, holds none, and
      has posted nothing since there were `from` posts. */
  ghost predicate Heeds(p: Params, k: string, s: State, until: nat, who: nat, before: nat, from: nat) {
    && Silent(p, s.w, k, until, who, before) && before <= |LogOf(s.w, k).takers|
    && (who < |s.hands| && s.hands[who].Slotted? && s.hands[who].key == k ==> s.hands[who].slot >= until)
    && (forall i | from <= i < |s.posts| && s.posts[i].who == who && s.posts[i].key == k :: s.posts[i].at >= until)
  }

  lemma PassHeeds(p: Params, k: string, s: State, until: nat, who: nat, before: nat, from: nat, other: nat)
    requires Wired(s.w) && Heeds(p, k, s, until, who, before, from) && Enabled(p, s, Pass(other))
    ensures Heeds(p, k, Moved(p, s, Pass(other)), until, who, before, from)
  {
    var e := Fire(s.hands[other].key, other);
    StepKeepsSilent(p, s.w, k, until, who, before, e);
    var w' := Step(p, s.w, e);
    if other == who && s.hands[other].key == k {
      var log := LogOf(w', k);
      assert log.takers[|log.takers| - 1] == who && log.slots[|log.takers| - 1] >= until;
    }
  }

  lemma MoveHeeds(p: Params, k: string, s: State, until: nat, who: nat, before: nat, from: nat, m: Move)
    requires Wired(s.w) && Heeds(p, k, s, until, who, before, from) && Enabled(p, s, m)
    ensures Heeds(p, k, Moved(p, s, m), until, who, before, from)
  {
    if m.Pass? {
      PassHeeds(p, k, s, until, who, before, from, m.who);
    } else if Effect(s, m) != [] {
      StepKeepsSilent(p, s.w, k, until, who, before, Effect(s, m)[0]);
    }
  }

  lemma MoveKeepsWired(p: Params, s: State, m: Move)
    requires Wired(s.w) && Enabled(p, s, m)
    ensures Wired(Moved(p, s, m).w)
  {
    if Effect(s, m) != [] {
      StepKeepsWired(p, s.w, Effect(s, m)[0]);
    }
  }

  lemma {:induction false} MovesHeed(p: Params, k: string, s: State, ms: seq<Move>, s': State, until: nat, who: nat,
                                     before: nat, from: nat)
    requires Wired(s.w) && Heeds(p, k, s, until, who, before, from) && Moves(p, s, ms, s')
    ensures Heeds(p, k, s', until, who, before, from)
    decreases |ms|
  {
    if ms == [] {
    } else {
      MoveHeeds(p, k, s, until, who, before, from, ms[0]);
      MoveKeepsWired(p, s, ms[0]);
      MovesHeed(p, k, Moved(p, s, ms[0]), ms[1..], s', until, who, before, from);
    }
  }

  /** The hold on `k` stands, whoever waits. */
  ghost predicate Stands(p: Params, k: string, s: State, until: nat) {
    Wired(s.w) && Matched(s.w, s.hands) && Holding(p, s.w, k, until)
  }

  lemma MoveKeepsStands(p: Params, k: string, s: State, until: nat, m: Move)
    requires Stands(p, k, s, until) && Enabled(p, s, m)
    ensures Stands(p, k, Moved(p, s, m), until)
  {
    MoveKeepsWired(p, s, m);
    MoveKeepsMatched(p, s, m);
    if Effect(s, m) != [] {
      StepKeepsHolding(p, s.w, k, until, Effect(s, m)[0]);
    }
  }

  lemma {:induction false} MovesKeepStands(p: Params, k: string, s: State, until: nat, ms: seq<Move>, s': State)
    requires Stands(p, k, s, until) && Moves(p, s, ms, s')
    ensures Stands(p, k, s', until)
    decreases |ms|
  {
    if ms == [] {
    } else {
      MoveKeepsStands(p, k, s, until, ms[0]);
      MovesKeepStands(p, k, Moved(p, s, ms[0]), until, ms[1..], s');
    }
  }

  lemma HoldStands(p: Params, s: State, told: nat)
    requires Enabled(p, s, HoldBucket(told)) && s.hands[told].delay <= p.ttl + 1
    requires Stands(p, s.hands[told].key, s, 0)
    ensures Stands(p, s.hands[told].key, Moved(p, s, HoldBucket(told)), s.w.now + s.hands[told].delay)
  {
    MoveKeepsStands(p, s.hands[told].key, s, 0, HoldBucket(told));
  }

  /** A hold that stands binds whoever is not on the webhook yet. */
  lemma NewcomerHeeds(p: Params, k: string, s: State, until: nat, who: nat)
    requires Stands(p, k, s, until) && !On(s.hands, who, k)
    ensures Heeds(p, k, s, until, who, |LogOf(s.w, k).takers|, |s.posts|)
  {
  }

  /** Once a worker that was told to has held the bucket off, no message to that webhook whose Wait begins at any time
      after that is posted before the pause is over, if the pause is no longer than the ttl and a tick: in every run,
      orderly or not, and whoever was on that webhook when the answer came. */
  lemma RetryAfterHeeded(p: Params, past: seq<Move>, s: State, told: nat, between: seq<Move>, mid: State,
                         future: seq<Move>, s': State, i: nat)
    requires Moves(p, Begin(p), past, s) && Enabled(p, s, HoldBucket(told)) && s.hands[told].delay <= p.ttl + 1
    requires Moves(p, Moved(p, s, HoldBucket(told)), between, mid) && Moves(p, mid, future, s')
    requires |mid.posts| <= i < |s'.posts| && s'.posts[i].key == s.hands[told].key
    requires !On(mid.hands, s'.posts[i].who, s.hands[told].key)
    ensures s.w.now + s.hands[told].delay <= s'.posts[i].at
  {
    var k, until := s.hands[told].key, s.w.now + s.hands[told].delay;
    MovesKeepStands(p, k, Begin(p), 0, past, s);
    HoldStands(p, s, told);
    MovesKeepStands(p, k, Moved(p, s, HoldBucket(told)), until, between, mid);
    NewcomerHeeds(p, k, mid, until, s'.posts[i].who);
    MovesHeed(p, k, mid, future, s', until, s'.posts[i].who, |LogOf(mid.w, k).takers|, |mid.posts|);
  }

  /** It happens: the first message to a webhook is answered with a 429, and its worker has the bucket to hold off. */
  lemma PauseIsAsked(p: Params, key: string, delay: nat) returns (ms: seq<Move>, s: State)
    requires p.rate.Valid() && p.waiters > 0 && 0 < delay <= p.hold
    ensures Moves(p, Begin(p), ms, s) && Enabled(p, s, HoldBucket(0)) && s.hands[0] == Told(key, delay)
    ensures s.posts == [Post(key, 0, 0)] && s.w.now == 0
  {
    var s1 := Moved(p, Begin(p), TakeUp(0, key));
    var s2 := Moved(p, s1, Pass(0));
    NewcomerPasses(p, START, key, 0);
    s := Moved(p, s2, Send(0, delay));
    ms := MovesBefore(p, s2, Send(0, delay), [], s);
    ms := MovesBefore(p, s1, Pass(0), ms, s);
    ms := MovesBefore(p, Begin(p), TakeUp(0, key), ms, s);
  }

  lemma MovesBefore(p: Params, s: State, m: Move, ms: seq<Move>, s': State) returns (all: seq<Move>)
    requires Enabled(p, s, m) && Moves(p, Moved(p, s, m), ms, s')
    ensures Moves(p, s, all, s')
  {
    all := [m] + ms;
    assert all[1..] == ms;
  }
}
