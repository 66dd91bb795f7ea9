/** All runs of the fetch queue: claim transactions of any number of processes, locking row by row and committing
    later, late and repeated Completes, crashes, and the Site's inserts. */
module FetchRuns {
  import opened Base
  import opened SqlOrder
  import opened FetchQueue

  /** A claim transaction: Postgres' now() is its start, and stays so to the end. */
  datatype Txn = Txn(start: int, locked: set<int>)

  /** A committed claim of one row. */
  datatype Claimed = Claimed(id: int, at: int, txn: int)

  datatype World = World(table: Table, now: int, txns: map<int, Txn>, history: seq<Claimed>)

  datatype Event =
    | Begin(x: int)
    | Lock(x: int, id: int)                              // FOR UPDATE SKIP LOCKED takes one row
    | Take(x: int, id: int)                              // UPDATE ... SET claimed_at = now(), becoming visible
    | End(x: int)                                        // commit done, rollback or lost connection: locks go
    | Complete(id: int, outcome: string, body: string, errText: string)
    | Insert(id: int, row: Row)                          // the Site queues a request
    | Tick(to: int)

  predicate Held(w: World, id: int) {
    exists x :: x in w.txns && id in w.txns[x].locked
  }

  predicate Enabled(w: World, lease: int, e: Event) {
    match e
    case Begin(x) => x !in w.txns
    case Lock(x, id) =>
      // the row is locked only if free, and only if its latest committed version still qualifies
      x in w.txns && id in w.table && !Held(w, id) && Eligible(w.table[id], w.txns[x].start, lease)
    case Take(x, id) => x in w.txns && id in w.txns[x].locked
    case End(x) => x in w.txns
    case Complete(id, _, _, _) => !Held(w, id)           // an UPDATE waits for the row lock
    case Insert(id, row) => id !in w.table && row.claimedAt == None && row.fetchedAt == None
    case Tick(to) => w.now <= to
  }

  function Step(w: World, e: Event): World {
    match e
    case Begin(x) => w.(txns := w.txns[x := Txn(w.now, {})])
    case Lock(x, id) =>
      if x in w.txns then w.(txns := w.txns[x := w.txns[x].(locked := w.txns[x].locked + {id})]) else w
    case Take(x, id) =>
      if x in w.txns then
        w.(table := Stamp(w.table, {id}, w.txns[x].start),
           txns := w.txns[x := w.txns[x].(locked := w.txns[x].locked - {id})],
           history := w.history + [Claimed(id, w.txns[x].start, x)])
      else w
    case End(x) => w.(txns := w.txns - {x})
    case Complete(id, outcome, body, errText) => w.(table := Completed(w.table, id, outcome, body, errText, w.now))
    case Insert(id, row) => w.(table := w.table[id := row])
    case Tick(to) => w.(now := to)
  }

  ghost predicate Run(w: World, lease: int, es: seq<Event>, w': World)
    decreases |es|
  {
    if es == [] then w' == w
    else Enabled(w, lease, es[0]) && Run(Step(w, es[0]), lease, es[1..], w')
  }

  const START := World(map[], 0, map[], [])

  // ---- The invariant ----

  ghost predicate LocksGood(w: World, lease: int) {
    && (forall x, id | x in w.txns && id in w.txns[x].locked ::
          id in w.table && Eligible(w.table[id], w.txns[x].start, lease))
    && (forall x, y, id | x in w.txns && y in w.txns && id in w.txns[x].locked && id in w.txns[y].locked :: x == y)
    && (forall x | x in w.txns :: w.txns[x].start <= w.now)
  }

  /** Every claim in the history stands between the row and its next claim. */
  ghost predicate HistoryGood(w: World, lease: int) {
    && (forall i | 0 <= i < |w.history| ::
          var c := w.history[i];
          c.id in w.table && w.table[c.id].claimedAt.Some? && c.at <= w.table[c.id].claimedAt.value)
    && (forall i, j | 0 <= i < j < |w.history| && w.history[i].id == w.history[j].id ::
          w.history[i].at + lease < w.history[j].at)
    && (forall id | id in w.table && w.table[id].claimedAt.Some? :: w.table[id].claimedAt.value <= w.now)
  }

  ghost predicate Good(w: World, lease: int) {
    LocksGood(w, lease) && HistoryGood(w, lease)
  }

  lemma StepKeepsHistory(w: World, lease: int, e: Event)
    requires lease >= 0 && Good(w, lease) && Enabled(w, lease, e)
    ensures HistoryGood(Step(w, e), lease)
  {
  }

  lemma {:induction false} RunKeepsGood(w: World, lease: int, es: seq<Event>, w': World)
    requires lease >= 0 && Good(w, lease) && Run(w, lease, es, w')
    ensures Good(w', lease)
    decreases |es|
  {
    if es == [] {
    } else {
      StepKeepsHistory(w, lease, es[0]);
      RunKeepsGood(Step(w, es[0]), lease, es[1..], w');
    }
  }

  // ---- What follows ----

  /** No two transactions hold the same row, and two claims of one row have starts more than a lease apart; so claims
      whose transactions start within a lease of each other return disjoint rows. */
  lemma ClaimsExclude(lease: int, es: seq<Event>, w: World, i: nat, j: nat)
    requires lease >= 0 && Run(START, lease, es, w)
    requires i < j < |w.history| && w.history[i].id == w.history[j].id
    ensures w.history[i].at + lease < w.history[j].at
  {
    RunKeepsGood(START, lease, es, w);
  }

  lemma LocksExclude(lease: int, es: seq<Event>, w: World, x: int, y: int)
    requires lease >= 0 && Run(START, lease, es, w)
    requires x in w.txns && y in w.txns && x != y
    ensures w.txns[x].locked !! w.txns[y].locked
  {
    RunKeepsGood(START, lease, es, w);
    forall id | id in w.txns[x].locked ensures id !in w.txns[y].locked {
    }
  }

  lemma {:induction false} HistoryGrows(w: World, lease: int, es: seq<Event>, w': World)
    requires Run(w, lease, es, w')
    ensures |w.history| <= |w'.history| && w'.history[..|w.history|] == w.history
    decreases |es|
  {
    if es == [] {
    } else {
      HistoryGrows(Step(w, es[0]), lease, es[1..], w');
    }
  }

  /** A fetched row is final: no continuation claims it, completes it again or changes it in any way. */
  lemma {:induction false} FetchedIsFinal(w: World, lease: int, es: seq<Event>, w': World, id: int)
    requires lease >= 0 && Good(w, lease) && Run(w, lease, es, w')
    requires id in w.table && w.table[id].fetchedAt.Some?
    ensures id in w'.table && w'.table[id] == w.table[id]
    ensures |w.history| <= |w'.history|
    ensures forall i | |w.history| <= i < |w'.history| :: w'.history[i].id != id
    decreases |es|
  {
    if es == [] {
    } else {
      StepKeepsHistory(w, lease, es[0]);
      var next := Step(w, es[0]);
      assert next.table[id] == w.table[id];
      FetchedIsFinal(next, lease, es[1..], w', id);
      HistoryGrows(next, lease, es[1..], w');
      forall i | |w.history| <= i < |w'.history| ensures w'.history[i].id != id {
        if i < |next.history| {
          assert w'.history[..|next.history|][i] == next.history[i];
        }
      }
    }
  }

  /** Nothing is lost: in every reachable state a row not yet fetched is eligible to any claim that starts more than a
      lease from now, whoever crashed holding it. */
  lemma UnfetchedComesBack(lease: int, es: seq<Event>, w: World, id: int, later: int)
    requires lease >= 0 && Run(START, lease, es, w)
    requires id in w.table && w.table[id].fetchedAt.None? && later > w.now + lease
    ensures Eligible(w.table[id], later, lease)
  {
    RunKeepsGood(START, lease, es, w);
  }

  /** While a claim is within its lease the row is nobody else's, whatever the other processes do. */
  lemma LeaseProtects(w: World, lease: int, es: seq<Event>, w': World, i: nat, j: nat)
    requires lease >= 0 && Good(w, lease) && Run(w, lease, es, w')
    requires i < |w.history| && i < j < |w'.history| && w'.history[j].id == w.history[i].id
    ensures w'.now > w.history[i].at + lease
  {
    RunKeepsGood(w, lease, es, w');
    HistoryGrows(w, lease, es, w');
    assert w'.history[..|w.history|][i] == w.history[i];
  }

  // ---- Putting runs together ----

  lemma RunBefore(w: World, lease: int, e: Event, es: seq<Event>, w': World) returns (all: seq<Event>)
    requires Enabled(w, lease, e) && Run(Step(w, e), lease, es, w')
    ensures Run(w, lease, all, w') && all == [e] + es
  {
    all := [e] + es;
    assert all[1..] == es;
  }

  lemma {:induction false} RunsJoin(a: World, lease: int, es: seq<Event>, b: World, fs: seq<Event>, c: World)
    requires Run(a, lease, es, b) && Run(b, lease, fs, c)
    ensures Run(a, lease, es + fs, c)
    decreases |es|
  {
    if es == [] {
      assert es + fs == fs;
    } else {
      RunsJoin(Step(a, es[0]), lease, es[1..], b, fs, c);
      assert (es + fs)[1..] == es[1..] + fs;
    }
  }

  /** A row claimed and not completed is claimed again as soon as its lease allows. */
  lemma ClaimedTwice(lease: int, first: nat, second: nat) returns (es: seq<Event>, w: World)
    requires lease >= 0 && first + lease < second
    ensures Run(START, lease, es, w) && w.now == second && w.history == [Claimed(0, first, 1), Claimed(0, second, 2)]
  {
    var row := Row("", "main", 0, 0, None, None, None, None, None);
    var w1 := Step(START, Insert(0, row));
    var w2 := Step(w1, Tick(first));
    var w3 := Step(w2, Begin(1));
    var w4 := Step(w3, Lock(1, 0));
    var w5 := Step(w4, Take(1, 0));
    var w6 := Step(w5, Tick(second));
    var w7 := Step(w6, Begin(2));
    var w8 := Step(w7, Lock(2, 0));
    w := Step(w8, Take(2, 0));
    assert w5.txns[1].locked == {} && !Held(w7, 0) && w7.table[0].claimedAt == Some(first);
    es := RunBefore(w8, lease, Take(2, 0), [], w);
    es := RunBefore(w7, lease, Lock(2, 0), es, w);
    es := RunBefore(w6, lease, Begin(2), es, w);
    es := RunBefore(w5, lease, Tick(second), es, w);
    es := RunBefore(w4, lease, Take(1, 0), es, w);
    es := RunBefore(w3, lease, Lock(1, 0), es, w);
    es := RunBefore(w2, lease, Begin(1), es, w);
    es := RunBefore(w1, lease, Tick(first), es, w);
    es := RunBefore(START, lease, Insert(0, row), es, w);
  }

  // ---- Overlapping claims ----

  /** Transactions x and y, both open in `mid`, went on to claim the same row, and their starts are `gap` apart. */
  ghost predicate Shares(mid: World, w: World, i: nat, j: nat, gap: int) {
    && |mid.history| <= i < j < |w.history| && w.history[i].id == w.history[j].id
    && var c, d := w.history[i], w.history[j];
       && c.txn != d.txn && c.txn in mid.txns && d.txn in mid.txns
       && c.at == mid.txns[c.txn].start && d.at == mid.txns[d.txn].start && d.at - c.at == gap
  }

  ghost predicate OverlapShares(lease: int, gap: int) {
    exists es, mid, fs, w, i: nat, j: nat ::
      Run(START, lease, es, mid) && Run(mid, lease, fs, w) && Shares(mid, w, i, j, gap)
  }

  /** A transaction locks a row and is slow to take it; a second begins, and takes it once the first has let go. */
  lemma SlowTransactionShares(lease: int, gap: int) returns (es: seq<Event>, mid: World, fs: seq<Event>, w: World)
    requires 0 <= lease < gap
    ensures Run(START, lease, es, mid) && Run(mid, lease, fs, w) && Shares(mid, w, 0, 1, gap)
  {
    var row := Row("", "main", 0, 0, None, None, None, None, None);
    var w1 := Step(START, Insert(0, row));
    var w2 := Step(w1, Begin(1));
    var w3 := Step(w2, Lock(1, 0));
    var w4 := Step(w3, Tick(gap));
    mid := Step(w4, Begin(2));
    var w5 := Step(mid, Take(1, 0));
    var w6 := Step(w5, End(1));
    var w7 := Step(w6, Lock(2, 0));
    w := Step(w7, Take(2, 0));
    es := RunBefore(w4, lease, Begin(2), [], mid);
    es := RunBefore(w3, lease, Tick(gap), es, mid);
    es := RunBefore(w2, lease, Lock(1, 0), es, mid);
    es := RunBefore(w1, lease, Begin(1), es, mid);
    es := RunBefore(START, lease, Insert(0, row), es, mid);
    assert !Held(w6, 0) && w6.table[0].claimedAt == Some(0);
    fs := RunBefore(w7, lease, Take(2, 0), [], w);
    fs := RunBefore(w6, lease, Lock(2, 0), fs, w);
    fs := RunBefore(w5, lease, End(1), fs, w);
    fs := RunBefore(mid, lease, Take(1, 0), fs, w);
    assert w.history == [Claimed(0, 0, 1), Claimed(0, gap, 2)];
  }

  /** Transactions that are open at the same time can return the same row, and do so exactly with starts more than a
      lease apart. */
  lemma OverlapSharesExactly(lease: int, gap: int)
    requires lease >= 0
    ensures OverlapShares(lease, gap) <==> gap > lease
  {
    if OverlapShares(lease, gap) {
      var es, mid, fs, w, i: nat, j: nat :|
        Run(START, lease, es, mid) && Run(mid, lease, fs, w) && Shares(mid, w, i, j, gap);
      RunsJoin(START, lease, es, mid, fs, w);
      ClaimsExclude(lease, es + fs, w, i, j);
    }
    if gap > lease {
      var es, mid, fs, w := SlowTransactionShares(lease, gap);
    }
  }

  // ---- Store.Claim as a run ----

  function HeldIds(w: World): set<int> {
    set id | id in w.table && Held(w, id)
  }

  function Locking(w: World, x: int, ids: set<int>): World
    requires x in w.txns
  {
    w.(txns := w.txns[x := w.txns[x].(locked := w.txns[x].locked + ids)])
  }

  /** FOR UPDATE SKIP LOCKED over a set of rows that nobody holds. */
  lemma {:induction false} LockAll(w: World, x: int, lease: int, ids: set<int>) returns (es: seq<Event>)
    requires x in w.txns
    requires forall id | id in w.table && id in ids :: !Held(w, id) && Eligible(w.table[id], w.txns[x].start, lease)
    requires ids <= w.table.Keys
    ensures Run(w, lease, es, Locking(w, x, ids))
    decreases |ids|
  {
    if ids == {} {
      es := [];
      assert Locking(w, x, ids) == w;
    } else {
      var id := Member(ids);
      var w1 := Step(w, Lock(x, id));
      assert id in w.table;
      assert forall j :: Held(w1, j) ==> j == id || Held(w, j);
      es := LockAll(w1, x, lease, ids - {id});
      assert Locking(w1, x, ids - {id}) == Locking(w, x, ids) by {
        assert w1.txns[x].locked + (ids - {id}) == w.txns[x].locked + ids;
      }
      es := RunBefore(w, lease, Lock(x, id), es, Locking(w, x, ids));
    }
  }

  /** What one claim adds to the history. */
  function Entries(out: seq<int>, at: int, x: int): (entries: seq<Claimed>)
    ensures |entries| == |out| && forall i | 0 <= i < |out| :: entries[i] == Claimed(out[i], at, x)
  {
    seq(|out|, i requires 0 <= i < |out| => Claimed(out[i], at, x))
  }

  function Moved(w: World, x: int, ids: set<int>, entries: seq<Claimed>): World
    requires x in w.txns
  {
    var txn := w.txns[x];
    w.(table := Stamp(w.table, ids, txn.start),
       txns := w.txns[x := txn.(locked := txn.locked - ids)],
       history := w.history + entries)
  }

  lemma MovedTwice(w: World, x: int, a: set<int>, first: seq<Claimed>, b: set<int>, next: seq<Claimed>)
    requires x in w.txns
    ensures Moved(Moved(w, x, a, first), x, b, next) == Moved(w, x, a + b, first + next)
  {
    var txn := w.txns[x];
    assert Stamp(Stamp(w.table, a, txn.start), b, txn.start) == Stamp(w.table, a + b, txn.start);
    assert txn.locked - a - b == txn.locked - (a + b);
    assert w.history + first + next == w.history + (first + next);
  }

  lemma EntriesSplit(out: seq<int>, at: int, x: int)
    requires out != []
    ensures Entries(out, at, x) == [Claimed(out[0], at, x)] + Entries(out[1..], at, x)
  {
  }

  lemma ElemsSplit(out: seq<int>)
    requires out != [] && Distinct(out)
    ensures Elems(out) == {out[0]} + Elems(out[1..]) && out[0] !in Elems(out[1..]) && Distinct(out[1..])
  {
    var rest := out[1..];
    assert out == [out[0]] + rest;
    forall i | 0 <= i < |rest| ensures rest[i] != out[0] {
      assert rest[i] == out[i + 1];
    }
  }

  /** The UPDATE over the rows chosen, one after the other. */
  lemma {:induction false} TakeAll(w: World, x: int, lease: int, out: seq<int>) returns (es: seq<Event>)
    requires x in w.txns && Distinct(out) && Elems(out) <= w.txns[x].locked
    ensures Run(w, lease, es, Moved(w, x, Elems(out), Entries(out, w.txns[x].start, x)))
    decreases |out|
  {
    var start := w.txns[x].start;
    if out == [] {
      es := [];
      assert Stamp(w.table, {}, start) == w.table && w.txns[x].locked - {} == w.txns[x].locked;
      assert w.txns[x := w.txns[x]] == w.txns;
      assert Elems(out) == {} && Entries(out, start, x) == [] && w.history + [] == w.history;
    } else {
      var first := [Claimed(out[0], start, x)];
      EntriesSplit(out, start, x);
      ElemsSplit(out);
      assert Step(w, Take(x, out[0])) == Moved(w, x, {out[0]}, first);
      es := TakeAll(Moved(w, x, {out[0]}, first), x, lease, out[1..]);
      MovedTwice(w, x, {out[0]}, first, Elems(out[1..]), Entries(out[1..], start, x));
      es := RunBefore(w, lease, Take(x, out[0]), es, Moved(w, x, Elems(out), Entries(out, start, x)));
    }
  }

  lemma LockTakeEnd(w: World, x: int, lease: int, locked: set<int>, out: seq<int>) returns (es: seq<Event>, w': World)
    requires x in w.txns && w.txns[x].locked == {} && Distinct(out) && Elems(out) <= locked <= w.table.Keys
    requires forall id | id in w.table && id in locked :: !Held(w, id) && Eligible(w.table[id], w.txns[x].start, lease)
    ensures Run(w, lease, es, w') && w'.table == Stamp(w.table, Elems(out), w.txns[x].start) && w'.now == w.now
    ensures w'.txns == w.txns - {x} && w'.history == w.history + Entries(out, w.txns[x].start, x)
  {
    var locks := LockAll(w, x, lease, locked);
    var w1 := Locking(w, x, locked);
    var takes := TakeAll(w1, x, lease, out);
    var w2 := Moved(w1, x, Elems(out), Entries(out, w.txns[x].start, x));
    w' := Step(w2, End(x));
    es := RunBefore(w2, lease, End(x), [], w');
    RunsJoin(w1, lease, takes, w2, es, w');
    RunsJoin(w, lease, locks, w1, takes + es, w');
    es := locks + (takes + es);
  }

  /** Every execution of the claim query, whatever rows it locks on the way and whatever ties it breaks, is a run of
      single locks and takes, so all that is proved of runs holds of Store.Claim. */
  lemma ClaimIsRun(w: World, x: int, lease: int, limit: nat, jump: set<int>, rest: set<int>, out: seq<int>)
    returns (es: seq<Event>, w': World)
    requires x !in w.txns && Pipeline(w.table, HeldIds(w), limit, w.now, lease, jump, rest, Elems(out), out)
    ensures Run(w, lease, es, w') && w'.table == Stamp(w.table, Elems(out), w.now)
    ensures w'.txns == w.txns && w'.now == w.now && w'.history == w.history + Entries(out, w.now, x)
  {
    var w1 := Step(w, Begin(x));
    assert jump + rest <= Due(w.table, HeldIds(w), w.now, lease);
    assert forall id :: Held(w1, id) ==> Held(w, id);
    es, w' := LockTakeEnd(w1, x, lease, jump + rest, out);
    assert w1.txns - {x} == w.txns;
    es := RunBefore(w, lease, Begin(x), es, w');
  }
}
