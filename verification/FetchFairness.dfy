/** How long a queued fetch waits, over every run of claims and whatever the Site queues in between. */
module FetchFairness {
  import opened Base
  import opened SqlOrder
  import opened FetchQueue

  /** One claim: the table and locks it found, when it ran, and what it took. */
  datatype Round = Round(table: Table, held: set<int>, now: int, out: seq<int>)

  function After(r: Round): Table {
    Stamp(r.table, Elems(r.out), r.now)
  }

  function LateAt(r: Round, lease: int): set<int> {
    LateDue(r.table, r.held, r.now, lease)
  }

  function RestAt(r: Round, lease: int): set<int> {
    RestDue(r.table, r.held, r.now, lease)
  }

  /** Rows of the ordinary lanes that may be served before `target`: earlier in lane order, or tied with it. */
  function AheadOf(t: Table, held: set<int>, now: int, lease: int, target: int): set<int> {
    set id | id in RestDue(t, held, now, lease) && id != target && !Before(LaneOrder(t), target, id)
  }

  function AheadAt(r: Round, lease: int, target: int): set<int> {
    AheadOf(r.table, r.held, r.now, lease, target)
  }

  ghost predicate Claims(rounds: seq<Round>, limit: nat, lease: int) {
    forall i | 0 <= i < |rounds| ::
      Selects(rounds[i].table, rounds[i].held, limit, rounds[i].now, lease, rounds[i].out)
  }

  /** Between two claims anything may happen, except that the target stays due while it has not been claimed and
      no row becomes due ahead of it. */
  ghost predicate KeepsPlace(a: Round, b: Round, lease: int, target: int) {
    target in RestAt(a, lease) && target !in a.out ==>
      && target in RestAt(b, lease)
      && AheadAt(b, lease, target) <= AheadOf(After(a), a.held, a.now, lease, target)
  }

  ghost predicate Waits(rounds: seq<Round>, limit: nat, lease: int, target: int) {
    && Claims(rounds, limit, lease)
    && (|rounds| > 0 ==> target in RestAt(rounds[0], lease))
    && (forall i | 0 < i < |rounds| :: KeepsPlace(rounds[i - 1], rounds[i], lease, target))
  }

  lemma ClaimedLeaveQueue(r: Round, lease: int)
    requires lease >= 0
    ensures Due(After(r), r.held, r.now, lease) == Due(r.table, r.held, r.now, lease) - Elems(r.out)
    ensures LateDue(After(r), r.held, r.now, lease) == LateAt(r, lease) - Elems(r.out)
    ensures LaneOrder(After(r)) == LaneOrder(r.table)
  {
    forall id: int
      ensures id in Due(After(r), r.held, r.now, lease) <==> id in Due(r.table, r.held, r.now, lease) - Elems(r.out)
    {
      assert id in After(r) <==> id in r.table;
      if id in r.table && id in Elems(r.out) {
        assert After(r)[id].claimedAt == Some(r.now);
        assert !Eligible(After(r)[id], r.now, lease);
      }
    }
  }

  /** A claim that passes the target over spends all the room the late joiners leave on rows ahead of it. */
  lemma PassedOver(r: Round, limit: nat, lease: int, target: int)
    requires Selects(r.table, r.held, limit, r.now, lease, r.out)
    requires target in RestAt(r, lease) && target !in r.out
    ensures JumpShare(limit) <= limit
    ensures |AheadAt(r, lease, target) - Elems(r.out)| + (limit - JumpShare(limit)) <= |AheadAt(r, lease, target)|
  {
    ShareLeavesRoom(limit);
    var taken := Elems(r.out) * RestAt(r, lease);
    var ahead := AheadAt(r, lease, target);
    assert target !in taken;
    SubsetCount(taken + {target}, RestAt(r, lease));
    assert |taken| >= limit - JumpShare(limit);
    forall y | y in taken ensures y in ahead {
      assert !Before(LaneOrder(r.table), target, y);
    }
    SubsetCount(taken, ahead * Elems(r.out));
    assert |ahead| == |ahead - Elems(r.out)| + |ahead * Elems(r.out)|;
  }

  lemma RoundShrinks(a: Round, b: Round, limit: nat, lease: int, target: int)
    requires lease >= 0 && Selects(a.table, a.held, limit, a.now, lease, a.out)
    requires target in RestAt(a, lease) && target !in a.out && KeepsPlace(a, b, lease, target)
    ensures JumpShare(limit) <= limit
    ensures |AheadAt(b, lease, target)| + (limit - JumpShare(limit)) <= |AheadAt(a, lease, target)|
  {
    PassedOver(a, limit, lease, target);
    ClaimedLeaveQueue(a, lease);
    SubsetCount(AheadAt(b, lease, target), AheadAt(a, lease, target) - Elems(a.out));
  }

  lemma {:induction false} AheadShrinks(rounds: seq<Round>, limit: nat, lease: int, target: int, i: nat, room: nat)
    requires lease >= 0 && Waits(rounds, limit, lease, target) && i < |rounds|
    requires room == limit - JumpShare(limit)
    requires forall j | 0 <= j < i :: target !in rounds[j].out
    ensures target in RestAt(rounds[i], lease)
    ensures |AheadAt(rounds[i], lease, target)| + i * room <= |AheadAt(rounds[0], lease, target)|
  {
    if i == 0 {
    } else {
      AheadShrinks(rounds, limit, lease, target, i - 1, room);
      assert KeepsPlace(rounds[i - 1], rounds[i], lease, target);
      RoundShrinks(rounds[i - 1], rounds[i], limit, lease, target);
      OneMore(i - 1, room);
    }
  }

  lemma OneMore(i: nat, room: nat)
    ensures (i + 1) * room == i * room + room
  {
  }

  lemma NoRoomLeft(p: nat, room: nat)
    requires room > 0
    ensures p < p / room * room + room
  {
  }

  /** No starvation: with p rows ahead of it, a row is claimed within p / (limit - share) + 1 claims, however many
      late joiners keep arriving. */
  lemma BoundedWaiting(rounds: seq<Round>, limit: nat, lease: int, target: int, room: nat) returns (served: nat)
    requires limit >= 2 && lease >= 0 && Waits(rounds, limit, lease, target)
    requires room == limit - JumpShare(limit)
    requires |rounds| > 0 && |rounds| == |AheadAt(rounds[0], lease, target)| / room + 1
    ensures served < |rounds| && target in rounds[served].out
  {
    var last := |rounds| - 1;
    if served' :| 0 <= served' < last && target in rounds[served'].out {
      served := served';
    } else {
      served := last;
      AheadShrinks(rounds, limit, lease, target, last, room);
      if target !in rounds[last].out {
        PassedOver(rounds[last], limit, lease, target);
        NoRoomLeft(|AheadAt(rounds[0], lease, target)|, room);
        assert false;
      }
    }
  }

  // ---- The bound needs a limit of two ----

  /** A claim serves the ordinary lanes whenever they have a row due, exactly from a limit of two on; with one it does
      so only while no late joiner is due, and with none never. */
  lemma RestServedExactly(r: Round, limit: nat, lease: int)
    requires Selects(r.table, r.held, limit, r.now, lease, r.out)
    ensures Elems(r.out) * RestAt(r, lease) != {} <==>
            RestAt(r, lease) != {} && (limit >= 2 || (limit == 1 && LateAt(r, lease) == {}))
  {
    ShareLeavesRoom(limit);
    var taken := Elems(r.out) * RestAt(r, lease);
    assert |taken| == Min(limit - Min(JumpShare(limit), |LateAt(r, lease)|), |RestAt(r, lease)|);
  }

  // ---- The late-joiner lane drains at exactly its share ----

  function Drained(backlog: nat, claims: nat, share: nat): nat {
    if backlog <= claims * share then 0 else backlog - claims * share
  }

  /** With no new late joiners, m claims leave exactly the backlog less m shares; so a backlog of k is gone after
      k / share claims, rounded up, and not before. */
  lemma {:induction false} LateLaneDrains(rounds: seq<Round>, limit: nat, lease: int, m: nat)
    requires lease >= 0 && limit > 0 && Claims(rounds, limit, lease) && m < |rounds|
    requires forall i | 0 < i < |rounds| ::
               LateAt(rounds[i], lease) == LateDue(After(rounds[i - 1]), rounds[i - 1].held, rounds[i - 1].now, lease)
    ensures |LateAt(rounds[m], lease)| == Drained(|LateAt(rounds[0], lease)|, m, JumpShare(limit))
  {
    if m == 0 {
    } else {
      LateLaneDrains(rounds, limit, lease, m - 1);
      LateRoundDrains(rounds[m - 1], limit, lease);
      DrainedTwice(|LateAt(rounds[0], lease)|, m - 1, JumpShare(limit));
    }
  }

  lemma DrainedTwice(backlog: nat, claims: nat, share: nat)
    ensures Drained(Drained(backlog, claims, share), 1, share) == Drained(backlog, claims + 1, share)
  {
    OneMore(claims, share);
  }

  lemma CutCount(s: set<int>, cut: set<int>)
    ensures |s - cut| == |s| - |cut * s|
  {
    assert s == (s - cut) + cut * s;
  }

  lemma LateRoundDrains(r: Round, limit: nat, lease: int)
    requires lease >= 0 && Selects(r.table, r.held, limit, r.now, lease, r.out)
    ensures |LateDue(After(r), r.held, r.now, lease)| == Drained(|LateAt(r, lease)|, 1, JumpShare(limit))
  {
    ClaimedLeaveQueue(r, lease);
    ShareLeavesRoom(limit);
    CutCount(LateAt(r, lease), Elems(r.out));
    assert |Elems(r.out) * LateAt(r, lease)| == Min(JumpShare(limit), |LateAt(r, lease)|);
  }
}
