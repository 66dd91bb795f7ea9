/** With a claim limit of one, a run in which the competition never gets a row through. */
module FetchStarvation {
  import opened Base
  import opened SqlOrder
  import opened FetchQueue
  import opened FetchRuns
  import opened FetchFairness

  /** One claim in a run of the queue: the states before and after it, and what it returned. */
  datatype Shift = Shift(before: World, out: seq<int>, after: World)

  ghost predicate Reaches(a: World, lease: int, b: World) {
    exists es :: Run(a, lease, es, b)
  }

  /** Nobody claims on the way. */
  ghost predicate ReachesUnclaimed(a: World, lease: int, b: World) {
    Reaches(a, lease, b) && a.history == b.history
  }

  ghost predicate IsClaim(c: Shift, limit: nat, lease: int) {
    && Reaches(c.before, lease, c.after)
    && Selects(c.before.table, HeldIds(c.before), limit, c.before.now, lease, c.out)
    && c.after.table == Stamp(c.before.table, Elems(c.out), c.before.now)
    && |c.after.history| == |c.before.history| + |c.out|
  }

  /** From the empty queue, claim after claim, with nothing but inserts, Completes and time in between. */
  ghost predicate Claiming(shifts: seq<Shift>, limit: nat, lease: int) {
    && (forall i | 0 <= i < |shifts| :: IsClaim(shifts[i], limit, lease))
    && (|shifts| > 0 ==> ReachesUnclaimed(START, lease, shifts[0].before))
    && (forall i | 0 < i < |shifts| :: ReachesUnclaimed(shifts[i - 1].after, lease, shifts[i].before))
  }

  function RoundOf(c: Shift): Round {
    Round(c.before.table, HeldIds(c.before), c.before.now, c.out)
  }

  function Rounds(shifts: seq<Shift>): (rounds: seq<Round>)
    ensures |rounds| == |shifts| && forall i | 0 <= i < |shifts| :: rounds[i] == RoundOf(shifts[i])
  {
    seq(|shifts|, i requires 0 <= i < |shifts| => RoundOf(shifts[i]))
  }

  // ---- One late joiner a claim ----

  function Queued(priority: int, at: int): Row {
    Row("", "main", priority, at, None, None, None, None, None)
  }

  /** Row 0 is the competition's and has waited from the start; every late joiner so far has been served. */
  ghost predicate Starved(w: World, n: nat, now: int) {
    && w.now == now && w.txns == map[] && 0 in w.table && w.table[0] == Queued(0, 0)
    && (forall id | id in w.table :: 0 <= id <= n && (id != 0 ==> w.table[id].fetchedAt.Some?))
  }

  lemma NobodyLocks(w: World)
    requires w.txns == map[]
    ensures HeldIds(w) == {}
  {
    assert forall id :: !Held(w, id);
  }

  lemma LateJoinerChosen(w: World, n: nat, now: int, lease: int)
    requires lease >= 0 && Starved(w, n, now)
    ensures var w1 := Step(w, Insert(n + 1, Queued(-1, now)));
            var r := Round(w1.table, {}, now, [n + 1]);
            && Selects(w1.table, {}, 1, now, lease, [n + 1])
            && RestAt(r, lease) == {0} && LateAt(r, lease) == {n + 1} && AheadAt(r, lease, 0) == {}
  {
    var w1 := Step(w, Insert(n + 1, Queued(-1, now)));
    assert w1.table[n + 1] == Queued(-1, now) && w1.table[0] == Queued(0, 0);
    forall id | id in w1.table ensures Eligible(w1.table[id], now, lease) <==> id == 0 || id == n + 1 {
      assert id == n + 1 || id in w.table;
    }
    assert forall id :: id in Due(w1.table, {}, now, lease) <==> id == 0 || id == n + 1;
    assert LateDue(w1.table, {}, now, lease) == {n + 1};
    assert RestDue(w1.table, {}, now, lease) == {0};
    assert Elems([n + 1]) == {n + 1} && {n + 1} * {n + 1} == {n + 1} && {n + 1} * {0} == {};
    assert Top(LaneOrder(w1.table), {n + 1}, 1, {n + 1});
    assert Top(LaneOrder(w1.table), {0}, 0, {});
  }

  lemma ChosenIsClaimed(w: World, lease: int, limit: nat, out: seq<int>) returns (c: Shift)
    requires w.txns == map[] && Selects(w.table, {}, limit, w.now, lease, out)
    ensures c.before == w && c.out == out && c.after.txns == map[] && c.after.now == w.now && IsClaim(c, limit, lease)
  {
    NobodyLocks(w);
    var jump, rest := PipelineReaches(w.table, {}, limit, w.now, lease, out);
    var es, w' := ClaimIsRun(w, 0, lease, limit, jump, rest, out);
    c := Shift(w, out, w');
  }

  lemma InsertReaches(w: World, id: int, row: Row, lease: int)
    requires Enabled(w, lease, Insert(id, row))
    ensures ReachesUnclaimed(w, lease, Step(w, Insert(id, row)))
  {
    var es := RunBefore(w, lease, Insert(id, row), [], Step(w, Insert(id, row)));
  }

  lemma CompleteReaches(w: World, id: int, step: nat, lease: int) returns (w': World)
    requires w.txns == map[]
    ensures w' == w.(table := Completed(w.table, id, "ok", "{}", "", w.now), now := w.now + step)
    ensures ReachesUnclaimed(w, lease, w')
  {
    var done := Complete(id, "ok", "{}", "");
    var w1 := Step(w, done);
    w' := w1.(now := w.now + step);
    var es := RunBefore(w1, lease, Tick(w'.now), [], w');
    es := RunBefore(w, lease, done, es, w');
  }

  /** A late joiner is queued, claimed and fetched, and time passes. */
  lemma StarvingShift(w: World, n: nat, now: int, lease: int, step: nat) returns (c: Shift, w': World)
    requires lease >= 0 && Starved(w, n, now)
    ensures IsClaim(c, 1, lease) && c.before.now == now && c.out == [n + 1]
    ensures ReachesUnclaimed(w, lease, c.before) && ReachesUnclaimed(c.after, lease, w')
    ensures RestAt(RoundOf(c), lease) == {0} && AheadAt(RoundOf(c), lease, 0) == {}
    ensures Starved(w', n + 1, now + step)
  {
    var late := Queued(-1, now);
    var w1 := Step(w, Insert(n + 1, late));
    InsertReaches(w, n + 1, late, lease);
    LateJoinerChosen(w, n, now, lease);
    c := ChosenIsClaimed(w1, lease, 1, [n + 1]);
    NobodyLocks(w1);
    w' := CompleteReaches(c.after, n + 1, step, lease);
    assert n + 1 in Elems([n + 1]);
  }

  lemma StarvationBegins(lease: int) returns (w: World)
    ensures ReachesUnclaimed(START, lease, w) && Starved(w, 0, 0)
  {
    w := Step(START, Insert(0, Queued(0, 0)));
    var es := RunBefore(START, lease, Insert(0, Queued(0, 0)), [], w);
  }

  function Clock(i: nat, step: nat): nat {
    if i == 0 then 0 else Clock(i - 1, step) + step
  }

  ghost predicate StarvedShift(c: Shift, i: nat, lease: int, step: nat) {
    && c.out == [i + 1] && c.before.now == Clock(i, step)
    && RestAt(RoundOf(c), lease) == {0} && AheadAt(RoundOf(c), lease, 0) == {}
  }

  lemma ReachesOn(a: World, lease: int, b: World, c: World)
    requires ReachesUnclaimed(a, lease, b) && ReachesUnclaimed(b, lease, c)
    ensures ReachesUnclaimed(a, lease, c)
  {
    var es :| Run(a, lease, es, b);
    var fs :| Run(b, lease, fs, c);
    RunsJoin(a, lease, es, b, fs, c);
  }

  function Last(shifts: seq<Shift>): World {
    if shifts == [] then START else shifts[|shifts| - 1].after
  }

  lemma ClaimingMore(shifts: seq<Shift>, c: Shift, limit: nat, lease: int)
    requires Claiming(shifts, limit, lease) && IsClaim(c, limit, lease)
    requires ReachesUnclaimed(Last(shifts), lease, c.before)
    ensures Claiming(shifts + [c], limit, lease)
  {
    var all := shifts + [c];
    forall i | 0 <= i < |all| ensures IsClaim(all[i], limit, lease) {
      assert i < |shifts| ==> all[i] == shifts[i];
    }
    forall i | 0 < i < |all| ensures ReachesUnclaimed(all[i - 1].after, lease, all[i].before) {
      assert all[i - 1] == shifts[i - 1] && (i < |shifts| ==> all[i] == shifts[i]);
    }
  }

  ghost predicate AllStarved(shifts: seq<Shift>, lease: int, step: nat) {
    Claiming(shifts, 1, lease) && forall i | 0 <= i < |shifts| :: StarvedShift(shifts[i], i, lease, step)
  }

  lemma StarvedMore(shifts: seq<Shift>, c: Shift, lease: int, step: nat)
    requires AllStarved(shifts, lease, step) && StarvedShift(c, |shifts|, lease, step)
    requires IsClaim(c, 1, lease) && ReachesUnclaimed(Last(shifts), lease, c.before)
    ensures AllStarved(shifts + [c], lease, step)
  {
    ClaimingMore(shifts, c, 1, lease);
    forall i | 0 <= i < |shifts| + 1 ensures StarvedShift((shifts + [c])[i], i, lease, step) {
      assert i < |shifts| ==> StarvedShift(shifts[i], i, lease, step);
    }
  }

  lemma OneMoreShift(shifts: seq<Shift>, w: World, lease: int, step: nat) returns (c: Shift, w': World)
    requires lease >= 0 && ReachesUnclaimed(Last(shifts), lease, w) && Starved(w, |shifts|, Clock(|shifts|, step))
    ensures StarvedShift(c, |shifts|, lease, step) && IsClaim(c, 1, lease)
    ensures ReachesUnclaimed(Last(shifts), lease, c.before) && ReachesUnclaimed(c.after, lease, w')
    ensures Starved(w', |shifts| + 1, Clock(|shifts| + 1, step))
  {
    assert Clock(|shifts| + 1, step) == Clock(|shifts|, step) + step;
    c, w' := StarvingShift(w, |shifts|, Clock(|shifts|, step), lease, step);
    ReachesOn(Last(shifts), lease, w, c.before);
  }

  lemma {:induction false} Starvation(lease: int, step: nat, n: nat) returns (shifts: seq<Shift>, w: World)
    requires lease >= 0
    ensures |shifts| == n && AllStarved(shifts, lease, step)
    ensures ReachesUnclaimed(Last(shifts), lease, w) && Starved(w, n, Clock(n, step))
  {
    if n == 0 {
      shifts := [];
      w := StarvationBegins(lease);
    } else {
      var c, most, mid;
      most, mid := Starvation(lease, step, n - 1);
      c, w := OneMoreShift(most, mid, lease, step);
      StarvedMore(most, c, lease, step);
      shifts := most + [c];
    }
  }

  /** However many claims of one row each are made, and however much time passes between them, a late joiner per claim
      keeps a competition row waiting: it is due at every claim, nothing of its lanes is ever ahead of it, and it is
      never taken. */
  lemma LimitOneStarves(lease: int, step: nat, n: nat) returns (shifts: seq<Shift>)
    requires lease >= 0
    ensures |shifts| == n && Claiming(shifts, 1, lease)
    ensures forall i | 0 <= i < n :: shifts[i].before.now == Clock(i, step)
    ensures Waits(Rounds(shifts), 1, lease, 0)
    ensures forall i | 0 <= i < n ::
              && 0 in RestAt(RoundOf(shifts[i]), lease) && 0 !in shifts[i].out
              && AheadAt(RoundOf(shifts[i]), lease, 0) == {}
  {
    var w;
    shifts, w := Starvation(lease, step, n);
    forall i | 0 <= i < n
      ensures shifts[i].before.now == Clock(i, step) && 0 in RestAt(RoundOf(shifts[i]), lease) && 0 !in shifts[i].out
      ensures AheadAt(RoundOf(shifts[i]), lease, 0) == {}
    {
      assert StarvedShift(shifts[i], i, lease, step);
    }
    var rounds := Rounds(shifts);
    forall i | 0 <= i < n ensures Selects(rounds[i].table, rounds[i].held, 1, rounds[i].now, lease, rounds[i].out) {
      assert IsClaim(shifts[i], 1, lease);
    }
    forall i | 0 < i < n ensures KeepsPlace(rounds[i - 1], rounds[i], lease, 0) {
      assert rounds[i] == RoundOf(shifts[i]);
    }
  }
}
