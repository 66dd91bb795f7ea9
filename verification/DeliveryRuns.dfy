/** All runs of the delivery queue: enqueuers, any number of claiming workers, lost workers and lost updates, pruning
    and time, with the claim filter as written or repaired. */
module DeliveryRuns {
  import opened Base
  import opened Delivery

  /** The n-th claim of a row. */
  datatype Token = Token(id: int, n: nat)

  /** What a worker holding a claim has got to. */
  datatype Stage = Aloft | Landed(reply: Reply)

  /** A message in somebody's log; `heard` when the worker was told. */
  datatype Mark = Mark(id: int, key: Option<string>, at: int, heard: bool)

  datatype Params = Params(repaired: bool, lease: int, keep: int)

  /** sends: every POST, answered or not; takes: those that Discord took, whether or not the worker got to hear of it;
      marks: those recorded as delivered. */
  datatype World = World(rows: Table, serial: int, now: int, flights: map<Token, Stage>,
                         claims: map<Token, int>, sends: seq<Token>, takes: seq<Mark>, marks: seq<Mark>)

  datatype Event =
    | Enqueue(url: string, dedupeKey: string, priority: int)
    | Claim(id: int)                       // one row of a Claim; ClaimByRows puts a whole one together
    | Send(tk: Token, exchange: Exchange, taken: bool)  // taken: Discord took the message, whatever it answered
    | Complete(tk: Token)
    | Lose(tk: Token)                      // the worker stops, or its Complete fails
    | Prune
    | Tick(to: int)

  const START := World(map[], 1, 0, map[], map[], [], [], [])

  predicate Enabled(w: World, p: Params, e: Event) {
    match e
    case Enqueue(_, _, _) => true
    case Claim(id) => id in w.rows && Claimable(w.rows[id], w.now, p.repaired)
    case Send(tk, x, taken) =>
      && tk in w.flights && w.flights[tk].Aloft?
      && (Delivery.Send(x).verdict == Sent ==> taken) && (x.BadUrl? ==> !taken)
    case Complete(tk) => tk in w.flights && w.flights[tk].Landed?
    case Lose(tk) => tk in w.flights
    case Prune => true
    case Tick(to) => w.now <= to
  }

  function Claiming(w: World, p: Params, id: int): World
    requires id in w.rows
  {
    var tk := Token(id, w.rows[id].attempts + 1);
    w.(rows := ClaimRows(w.rows, {id}, w.now, p.lease), flights := w.flights[tk := Aloft],
       claims := w.claims[tk := w.now])
  }

  function Marked(w: World, log: seq<Mark>, id: int, heard: bool): seq<Mark> {
    if id in w.rows then log + [Mark(id, w.rows[id].key, w.now, heard)] else log
  }

  function Sending(w: World, tk: Token, x: Exchange, taken: bool): World {
    var reply := Delivery.Send(x);
    w.(flights := w.flights[tk := Landed(reply)],
       sends := w.sends + [tk],
       takes := if taken then Marked(w, w.takes, tk.id, reply.verdict == Sent) else w.takes)
  }

  function Completing(w: World, tk: Token): World
    requires tk in w.flights && w.flights[tk].Landed?
  {
    var reply := w.flights[tk].reply;
    w.(rows := Completed(w.rows, tk.id, tk.n, reply, w.now),
       flights := w.flights - {tk},
       marks := if reply.verdict == Sent then Marked(w, w.marks, tk.id, true) else w.marks)
  }

  function Step(w: World, p: Params, e: Event): World
    requires Enabled(w, p, e)
  {
    match e
    case Enqueue(url, dedupeKey, priority) =>
      w.(rows := Enqueued(w.rows, w.serial, url, KeyOf(dedupeKey), priority, w.now), serial := w.serial + 1)
    case Claim(id) => Claiming(w, p, id)
    case Send(tk, x, taken) => Sending(w, tk, x, taken)
    case Complete(tk) => Completing(w, tk)
    case Lose(tk) => w.(flights := w.flights - {tk})
    case Prune => w.(rows := Pruned(w.rows, w.now, p.keep))
    case Tick(to) => w.(now := to)
  }

  ghost predicate Run(w: World, p: Params, es: seq<Event>, w': World)
    decreases |es|
  {
    if es == [] then w' == w
    else Enabled(w, p, es[0]) && Run(Step(w, p, es[0]), p, es[1..], w')
  }

  // ---- The invariant of the queue as written ----

  predicate RowGood(r: Row) {
    match r.status
    case Pending => r.attempts <= 5 && r.due.At?
    case Delivering => 1 <= r.attempts <= 6 && r.due.At?
    case Delivered => 1 <= r.attempts <= 6 && r.deliveredAt.Some?
    case Failed => 1 <= r.attempts <= 6 && r.due == Infinity
    case DeadHook => 1 <= r.attempts <= 6
  }

  ghost predicate RowsGood(w: World) {
    forall id | id in w.rows :: id < w.serial && RowGood(w.rows[id])
  }

  /** A row is out with at most one worker, the holder of its latest claim, and only while it says so. */
  ghost predicate FlightsGood(w: World) {
    forall tk | tk in w.flights ::
      tk.id in w.rows && w.rows[tk.id].status == Delivering && w.rows[tk.id].attempts == tk.n
  }

  ghost predicate ClaimsGood(w: World) {
    && (forall tk | tk in w.claims :: tk.id < w.serial && 1 <= tk.n <= 6 && w.claims[tk] <= w.now)
    && (forall tk: Token | tk.id in w.rows :: tk in w.claims <==> 1 <= tk.n <= w.rows[tk.id].attempts)
  }

  ghost predicate SendsGood(w: World) {
    && (forall i | 0 <= i < |w.sends| ::
          w.sends[i] in w.claims && (w.sends[i] in w.flights ==> w.flights[w.sends[i]].Landed?))
    && (forall i, j | 0 <= i < j < |w.sends| && w.sends[i].id == w.sends[j].id :: w.sends[i].n < w.sends[j].n)
  }

  ghost predicate KeysGood(w: World) {
    forall a, b | a in w.rows && b in w.rows && w.rows[a].key.Some? && w.rows[a].key == w.rows[b].key :: a == b
  }

  /** Marks of different rows with one key are more than `keep` apart. */
  ghost predicate Apart(log: seq<Mark>, keep: int) {
    forall i, j | 0 <= i < j < |log| && log[i].id != log[j].id && log[i].key.Some? && log[i].key == log[j].key ::
      log[i].at + keep < log[j].at
  }

  ghost predicate HeardOnce(log: seq<Mark>) {
    forall i, j | 0 <= i < j < |log| && log[i].heard :: log[i].id != log[j].id
  }

  /** A row that Discord took stays until it is delivered and has been kept long enough; once the worker has heard of
      it, the row can only end as delivered. */
  predicate TakeKept(w: World, keep: int, m: Mark) {
    if m.id !in w.rows then m.at + keep < w.now
    else
      var r := w.rows[m.id];
      var tk := Token(m.id, r.attempts);
      && r.key == m.key
      && (r.status == Delivered ==> r.deliveredAt.Some? && m.at <= r.deliveredAt.value)
      && (m.heard ==>
            && (r.status == Delivering || r.status == Delivered)
            && (tk in w.flights ==> w.flights[tk].Landed? && w.flights[tk].reply.verdict == Sent))
  }

  predicate MarkKept(w: World, keep: int, m: Mark) {
    if m.id !in w.rows then m.at + keep < w.now
    else w.rows[m.id].key == m.key && w.rows[m.id].status == Delivered && w.rows[m.id].deliveredAt == Some(m.at)
  }

  ghost predicate TakesGood(w: World, keep: int) {
    && Apart(w.takes, keep) && HeardOnce(w.takes)
    && forall i | 0 <= i < |w.takes| ::
         TakeKept(w, keep, w.takes[i]) && w.takes[i].id < w.serial && w.takes[i].at <= w.now
  }

  ghost predicate MarksGood(w: World, keep: int) {
    && Apart(w.marks, keep) && HeardOnce(w.marks)
    && forall i | 0 <= i < |w.marks| ::
         MarkKept(w, keep, w.marks[i]) && w.marks[i].id < w.serial && w.marks[i].heard
  }

  ghost predicate Good(w: World, keep: int) {
    && RowsGood(w) && FlightsGood(w) && ClaimsGood(w) && SendsGood(w)
    && KeysGood(w) && TakesGood(w, keep) && MarksGood(w, keep)
  }

  lemma StepKeepsRows(w: World, p: Params, e: Event)
    requires !p.repaired && Good(w, p.keep) && Enabled(w, p, e)
    ensures RowsGood(Step(w, p, e))
  {
  }

  lemma StepKeepsFlights(w: World, p: Params, e: Event)
    requires !p.repaired && Good(w, p.keep) && Enabled(w, p, e)
    ensures FlightsGood(Step(w, p, e))
  {
  }

  lemma StepKeepsKeys(w: World, p: Params, e: Event)
    requires !p.repaired && Good(w, p.keep) && Enabled(w, p, e)
    ensures KeysGood(Step(w, p, e))
  {
  }

  lemma ClaimingKeepsClaims(w: World, p: Params, id: int)
    requires !p.repaired && Good(w, p.keep) && Enabled(w, p, Claim(id))
    ensures ClaimsGood(Claiming(w, p, id))
  {
    var w' := Claiming(w, p, id);
    forall tk: Token | tk.id in w'.rows ensures tk in w'.claims <==> 1 <= tk.n <= w'.rows[tk.id].attempts {
      assert tk in w.claims <==> 1 <= tk.n <= w.rows[tk.id].attempts;
    }
  }

  lemma CompletingKeepsClaims(w: World, p: Params, tk: Token)
    requires !p.repaired && Good(w, p.keep) && Enabled(w, p, Complete(tk))
    ensures ClaimsGood(Completing(w, tk))
  {
  }

  lemma StepKeepsClaims(w: World, p: Params, e: Event)
    requires !p.repaired && Good(w, p.keep) && Enabled(w, p, e)
    ensures ClaimsGood(Step(w, p, e))
  {
    match e
    case Claim(id) => ClaimingKeepsClaims(w, p, id);
    case Complete(tk) => CompletingKeepsClaims(w, p, tk);
    case _ =>
  }

  lemma StepKeepsSends(w: World, p: Params, e: Event)
    requires !p.repaired && Good(w, p.keep) && Enabled(w, p, e)
    ensures SendsGood(Step(w, p, e))
  {
  }

  lemma ClaimingKeepsTakes(w: World, p: Params, id: int)
    requires !p.repaired && Good(w, p.keep) && Enabled(w, p, Claim(id))
    ensures TakesGood(Claiming(w, p, id), p.keep)
  {
  }

  lemma SendingKeepsTakes(w: World, p: Params, tk: Token, x: Exchange, taken: bool)
    requires !p.repaired && Good(w, p.keep) && Enabled(w, p, Event.Send(tk, x, taken))
    ensures TakesGood(Sending(w, tk, x, taken), p.keep)
  {
  }

  lemma CompletingKeepsTakes(w: World, p: Params, tk: Token)
    requires !p.repaired && Good(w, p.keep) && Enabled(w, p, Complete(tk))
    ensures TakesGood(Completing(w, tk), p.keep)
  {
  }

  lemma StepKeepsTakes(w: World, p: Params, e: Event)
    requires !p.repaired && Good(w, p.keep) && Enabled(w, p, e)
    ensures TakesGood(Step(w, p, e), p.keep)
  {
    match e
    case Claim(id) => ClaimingKeepsTakes(w, p, id);
    case Send(tk, x, taken) => SendingKeepsTakes(w, p, tk, x, taken);
    case Complete(tk) => CompletingKeepsTakes(w, p, tk);
    case _ =>
  }

  lemma CompletingKeepsMarks(w: World, p: Params, tk: Token)
    requires !p.repaired && Good(w, p.keep) && Enabled(w, p, Complete(tk))
    ensures MarksGood(Completing(w, tk), p.keep)
  {
    var w' := Completing(w, tk);
    forall i | 0 <= i < |w'.marks| ensures MarkKept(w', p.keep, w'.marks[i]) {
      if i < |w.marks| {
        assert MarkKept(w, p.keep, w.marks[i]) && w.marks[i].id != tk.id;
      }
    }
  }

  lemma StepKeepsMarks(w: World, p: Params, e: Event)
    requires !p.repaired && Good(w, p.keep) && Enabled(w, p, e)
    ensures MarksGood(Step(w, p, e), p.keep)
  {
    match e
    case Complete(tk) => CompletingKeepsMarks(w, p, tk);
    case _ =>
  }

  lemma StepKeepsGood(w: World, p: Params, e: Event)
    requires !p.repaired && Good(w, p.keep) && Enabled(w, p, e)
    ensures Good(Step(w, p, e), p.keep)
  {
    StepKeepsRows(w, p, e);
    StepKeepsFlights(w, p, e);
    StepKeepsKeys(w, p, e);
    StepKeepsClaims(w, p, e);
    StepKeepsSends(w, p, e);
    StepKeepsTakes(w, p, e);
    StepKeepsMarks(w, p, e);
  }

  lemma {:induction false} RunKeepsGood(w: World, p: Params, es: seq<Event>, w': World)
    requires !p.repaired && Good(w, p.keep) && Run(w, p, es, w')
    ensures Good(w', p.keep)
    decreases |es|
  {
    if es == [] {
    } else {
      StepKeepsGood(w, p, es[0]);
      RunKeepsGood(Step(w, p, es[0]), p, es[1..], w');
    }
  }

  /** What any run from the empty queue ends in. */
  lemma Lifecycle(p: Params, es: seq<Event>, w: World, id: int)
    requires !p.repaired && Run(START, p, es, w) && id in w.rows
    ensures RowGood(w.rows[id])
    ensures forall tk | tk in w.flights && tk.id == id ::
              w.rows[id].status == Delivering && tk == Token(id, w.rows[id].attempts)
  {
    RunKeepsGood(START, p, es, w);
  }

  // ---- Rows that have ended ----

  lemma OneLiveRowPerKey(p: Params, es: seq<Event>, w: World, a: int, b: int)
    requires !p.repaired && Run(START, p, es, w)
    requires a in w.rows && b in w.rows && w.rows[a].key.Some? && w.rows[a].key == w.rows[b].key
    ensures a == b
  {
    RunKeepsGood(START, p, es, w);
  }

  predicate Ended(r: Row) {
    r.status == Delivered || r.status == Failed || r.status == DeadHook
  }

  lemma StepKeepsEnded(w: World, p: Params, e: Event, id: int)
    requires !p.repaired && Good(w, p.keep) && Enabled(w, p, e)
    requires id in w.rows && Ended(w.rows[id])
    ensures var w' := Step(w, p, e);
            if id in w'.rows then w'.rows[id] == w.rows[id]
            else w.rows[id].status == Delivered && w.rows[id].deliveredAt.value + p.keep < w.now
  {
  }

  /** Ids are never used twice. */
  lemma {:induction false} GoneStaysGone(w: World, p: Params, es: seq<Event>, w': World, id: int)
    requires Run(w, p, es, w') && id < w.serial && id !in w.rows
    ensures id !in w'.rows
    decreases |es|
  {
    if es == [] {
    } else {
      GoneStaysGone(Step(w, p, es[0]), p, es[1..], w', id);
    }
  }

  /** Delivered, dead and failed are final: the row is never touched again, and only a delivered one is ever pruned. */
  lemma {:induction false} EndedIsFinal(w: World, p: Params, es: seq<Event>, w': World, id: int)
    requires !p.repaired && Good(w, p.keep) && Run(w, p, es, w')
    requires id in w.rows && Ended(w.rows[id])
    ensures if id in w'.rows then w'.rows[id] == w.rows[id]
            else w.rows[id].status == Delivered && w.rows[id].deliveredAt.value + p.keep < w'.now
    decreases |es|
  {
    if es == [] {
    } else {
      var next := Step(w, p, es[0]);
      StepKeepsGood(w, p, es[0]);
      StepKeepsEnded(w, p, es[0], id);
      NowGrows(next, p, es[1..], w');
      if id in next.rows {
        EndedIsFinal(next, p, es[1..], w', id);
      } else {
        GoneStaysGone(next, p, es[1..], w', id);
      }
    }
  }

  lemma {:induction false} NowGrows(w: World, p: Params, es: seq<Event>, w': World)
    requires Run(w, p, es, w')
    ensures w.now <= w'.now && w.serial <= w'.serial
    decreases |es|
  {
    if es == [] {
    } else {
      NowGrows(Step(w, p, es[0]), p, es[1..], w');
    }
  }

  // ---- Rows that block their key ----

  /** A row that blocks its key: out with no worker, or dead, or failed. */
  ghost predicate Parked(w: World, id: int) {
    && id in w.rows
    && (w.rows[id].status in {Failed, DeadHook}
        || (w.rows[id].status == Delivering && Token(id, w.rows[id].attempts) !in w.flights))
  }

  lemma StepKeepsParked(w: World, p: Params, e: Event, id: int)
    requires !p.repaired && Good(w, p.keep) && Enabled(w, p, e) && Parked(w, id)
    ensures Parked(Step(w, p, e), id) && Step(w, p, e).rows[id] == w.rows[id]
  {
  }

  ghost predicate NoneAdded(was: seq<Mark>, now: seq<Mark>, key: Option<string>) {
    |was| <= |now| && now[..|was|] == was && forall i | |was| <= i < |now| :: now[i].key != key
  }

  ghost predicate KeySilent(w: World, w': World, key: Option<string>) {
    NoneAdded(w.takes, w'.takes, key) && NoneAdded(w.marks, w'.marks, key)
  }

  lemma NoneAddedTwice(a: seq<Mark>, b: seq<Mark>, c: seq<Mark>, key: Option<string>)
    requires NoneAdded(a, b, key) && NoneAdded(b, c, key)
    ensures NoneAdded(a, c, key)
  {
    assert c[..|a|] == b[..|a|];
    forall i | |a| <= i < |c| ensures c[i].key != key {
      if i < |b| { assert c[..|b|][i] == b[i]; }
    }
  }

  lemma StepKeepsSilent(w: World, p: Params, e: Event, id: int)
    requires !p.repaired && Good(w, p.keep) && Enabled(w, p, e) && Parked(w, id) && w.rows[id].key.Some?
    ensures KeySilent(w, Step(w, p, e), w.rows[id].key)
  {
  }

  /** Only Complete leaves 'delivering', so a row whose worker is lost keeps its place for ever, as dead and failed
      rows do: it is never claimed again. */
  lemma {:induction false} LostIsStuck(w: World, p: Params, es: seq<Event>, w': World, id: int)
    requires !p.repaired && Good(w, p.keep) && Run(w, p, es, w') && Parked(w, id)
    ensures Parked(w', id) && w'.rows[id] == w.rows[id]
    ensures Token(id, w.rows[id].attempts + 1) !in w'.claims
    decreases |es|
  {
    if es == [] {
    } else {
      StepKeepsGood(w, p, es[0]);
      StepKeepsParked(w, p, es[0], id);
      LostIsStuck(Step(w, p, es[0]), p, es[1..], w', id);
    }
  }

  /** Nor is anything delivered under its key again. */
  lemma {:induction false} ParkedSilencesKey(w: World, p: Params, es: seq<Event>, w': World, id: int)
    requires !p.repaired && Good(w, p.keep) && Run(w, p, es, w') && Parked(w, id) && w.rows[id].key.Some?
    ensures KeySilent(w, w', w.rows[id].key)
    decreases |es|
  {
    if es == [] {
    } else {
      var next := Step(w, p, es[0]);
      StepKeepsGood(w, p, es[0]);
      StepKeepsParked(w, p, es[0], id);
      StepKeepsSilent(w, p, es[0], id);
      ParkedSilencesKey(next, p, es[1..], w', id);
      NoneAddedTwice(w.takes, next.takes, w'.takes, w.rows[id].key);
      NoneAddedTwice(w.marks, next.marks, w'.marks, w.rows[id].key);
    }
  }

  // ---- Putting runs together ----

  lemma {:induction false} RunsJoin(a: World, p: Params, es: seq<Event>, b: World, fs: seq<Event>, c: World)
    requires Run(a, p, es, b) && Run(b, p, fs, c)
    ensures Run(a, p, es + fs, c)
    decreases |es|
  {
    if es == [] {
      assert es + fs == fs;
    } else {
      RunsJoin(Step(a, p, es[0]), p, es[1..], b, fs, c);
      assert (es + fs)[1..] == es[1..] + fs;
    }
  }

  lemma RunBefore(w: World, p: Params, e: Event, es: seq<Event>, w': World) returns (all: seq<Event>)
    requires Enabled(w, p, e) && Run(Step(w, p, e), p, es, w')
    ensures Run(w, p, all, w')
  {
    all := [e] + es;
    assert all[1..] == es;
  }

  /** The statement that claims many rows at once is a run of single claims. */
  lemma {:induction false} ClaimByRows(w: World, p: Params, ids: set<int>) returns (es: seq<Event>, w': World)
    requires ids <= Due(w.rows, {}, w.now, p.repaired)
    ensures Run(w, p, es, w')
    ensures w'.rows == ClaimRows(w.rows, ids, w.now, p.lease)
    ensures forall id | id in ids :: Token(id, w.rows[id].attempts + 1) in w'.flights
    ensures w.flights.Keys <= w'.flights.Keys
    ensures w'.serial == w.serial && w'.now == w.now && w'.sends == w.sends && w'.takes == w.takes
    ensures w'.marks == w.marks
    decreases |ids|
  {
    if |ids| == 0 {
      es, w' := [], w;
    } else {
      var id := Member(ids);
      var next := Claiming(w, p, id);
      var later;
      later, w' := ClaimByRows(next, p, ids - {id});
      es := RunBefore(w, p, Claim(id), later, w');
    }
  }
}
