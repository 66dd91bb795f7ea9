/** How far apart the claims of one message are. */
module DeliveryRetries {
  import opened Delivery
  import opened DeliveryRuns

  lemma StepKeepsDue(w: World, p: Params, e: Event, id: int)
    requires !p.repaired && Good(w, p.keep) && Enabled(w, p, e)
    requires id in w.rows && w.rows[id].status == Pending
    ensures var w' := Step(w, p, e);
            var tk := Token(id, w.rows[id].attempts + 1);
            if tk in w'.claims then w.rows[id].due.t <= w'.claims[tk] == w.now
            else id in w'.rows && w'.rows[id] == w.rows[id]
  {
  }

  lemma {:induction false} ClaimsStay(w: World, p: Params, es: seq<Event>, w': World, tk: Token)
    requires !p.repaired && Good(w, p.keep) && Run(w, p, es, w') && tk in w.claims
    ensures tk in w'.claims && w'.claims[tk] == w.claims[tk]
    decreases |es|
  {
    if es == [] {
    } else {
      StepKeepsGood(w, p, es[0]);
      assert Step(w, p, es[0]).claims[tk] == w.claims[tk];
      ClaimsStay(Step(w, p, es[0]), p, es[1..], w', tk);
    }
  }

  /** A pending row is untouched until a claim of it, which is no earlier than its due time. */
  lemma {:induction false} PendingWaits(w: World, p: Params, es: seq<Event>, w': World, id: int)
    requires !p.repaired && Good(w, p.keep) && Run(w, p, es, w')
    requires id in w.rows && w.rows[id].status == Pending
    ensures var tk := Token(id, w.rows[id].attempts + 1);
            if tk in w'.claims then w.rows[id].due.t <= w'.claims[tk]
            else id in w'.rows && w'.rows[id] == w.rows[id]
    decreases |es|
  {
    if es == [] {
    } else {
      var next := Step(w, p, es[0]);
      var tk := Token(id, w.rows[id].attempts + 1);
      StepKeepsGood(w, p, es[0]);
      StepKeepsDue(w, p, es[0], id);
      if tk in next.claims {
        ClaimsStay(next, p, es[1..], w', tk);
      } else {
        PendingWaits(next, p, es[1..], w', id);
      }
    }
  }

  /** A retry, a 429 above all, keeps its own message back for as long as Discord asked. */
  lemma AskedDelayHolds(w: World, p: Params, tk: Token, es: seq<Event>, w': World)
    requires !p.repaired && Good(w, p.keep) && Enabled(w, p, Complete(tk)) && Run(Completing(w, tk), p, es, w')
    requires w.flights[tk].reply.verdict == Retry && tk.n < MAX_ATTEMPTS
    ensures var again := Token(tk.id, tk.n + 1);
            var delay := Delay(tk.n, w.flights[tk].reply);
            if again in w'.claims then w.now + delay <= w'.claims[again]
            else tk.id in w'.rows && w'.rows[tk.id] == CompletedRow(w.rows[tk.id], tk.n, w.flights[tk].reply, w.now)
  {
    StepKeepsGood(w, p, Complete(tk));
    PendingWaits(Completing(w, tk), p, es, w', tk.id);
  }

  /** No reply to this row names a delay. */
  ghost predicate Unasked(w: World, id: int) {
    forall tk | tk in w.flights && tk.id == id && w.flights[tk].Landed? :: w.flights[tk].reply.retryAfter <= 0
  }

  ghost predicate NeverAsked(es: seq<Event>, id: int) {
    forall i | 0 <= i < |es| && es[i].Send? && es[i].tk.id == id :: Delivery.Send(es[i].exchange).retryAfter <= 0
  }

  predicate Gap(w: World, id: int, n: nat) {
    Token(id, n) in w.claims && Token(id, n + 1) in w.claims ==>
      w.claims[Token(id, n)] + Backoff(n) <= w.claims[Token(id, n + 1)]
  }

  ghost predicate Paced(w: World, id: int) {
    && (forall n: nat | 1 <= n < 6 :: Gap(w, id, n))
    && (id in w.rows && w.rows[id].status == Pending && w.rows[id].attempts >= 1 ==>
          var tk := Token(id, w.rows[id].attempts);
          tk in w.claims && w.rows[id].due.At? && w.claims[tk] + Backoff(tk.n) <= w.rows[id].due.t)
  }

  lemma StepKeepsGap(w: World, p: Params, e: Event, id: int, n: nat)
    requires !p.repaired && Good(w, p.keep) && Enabled(w, p, e) && Paced(w, id) && 1 <= n < 6
    ensures Gap(Step(w, p, e), id, n)
  {
    assert Gap(w, id, n);
  }

  lemma StepKeepsPaced(w: World, p: Params, e: Event, id: int)
    requires !p.repaired && Good(w, p.keep) && Enabled(w, p, e)
    requires Paced(w, id) && Unasked(w, id) && NeverAsked([e], id)
    ensures Paced(Step(w, p, e), id)
  {
    assert [e][0] == e;
    forall n: nat | 1 <= n < 6 ensures Gap(Step(w, p, e), id, n) {
      StepKeepsGap(w, p, e, id, n);
    }
  }

  lemma StepKeepsUnasked(w: World, p: Params, e: Event, id: int)
    requires Enabled(w, p, e) && Unasked(w, id) && NeverAsked([e], id)
    ensures Unasked(Step(w, p, e), id)
  {
    assert [e][0] == e;
  }

  lemma {:induction false} RunKeepsPaced(w: World, p: Params, es: seq<Event>, w': World, id: int)
    requires !p.repaired && Good(w, p.keep) && Run(w, p, es, w')
    requires Paced(w, id) && Unasked(w, id) && NeverAsked(es, id)
    ensures Paced(w', id) && Good(w', p.keep)
    decreases |es|
  {
    if es == [] {
    } else {
      assert NeverAsked([es[0]], id) by { assert [es[0]][0] == es[0]; }
      StepKeepsGood(w, p, es[0]);
      StepKeepsPaced(w, p, es[0], id);
      StepKeepsUnasked(w, p, es[0], id);
      assert NeverAsked(es[1..], id);
      RunKeepsPaced(Step(w, p, es[0]), p, es[1..], w', id);
    }
  }

  /** The schedule up to the n-th claim: Backoff(1) + ... + Backoff(n - 1). */
  function Schedule(n: nat): int {
    if n <= 1 then 0 else Schedule(n - 1) + Backoff(n - 1)
  }

  lemma {:induction false} GapsAddUp(w: World, id: int, n: nat)
    requires ClaimsGood(w) && (forall k: nat | 1 <= k < 6 :: Gap(w, id, k))
    requires forall k: nat | 1 <= k <= n :: Token(id, k) in w.claims
    requires n >= 1
    ensures w.claims[Token(id, 1)] + Schedule(n) <= w.claims[Token(id, n)]
  {
    assert Token(id, n) in w.claims;
    if n <= 1 {
    } else {
      GapsAddUp(w, id, n - 1);
      assert Gap(w, id, n - 1);
    }
  }

  /** The schedule in seconds. */
  lemma ScheduleInSeconds()
    ensures Schedule(1) == 0 && Schedule(2) == 5 * SECOND && Schedule(3) == 35 * SECOND
    ensures Schedule(4) == 155 * SECOND && Schedule(5) == 455 * SECOND && Schedule(6) == 1355 * SECOND
  {
    assert Schedule(3) == Schedule(2) + Backoff(2);
    assert Schedule(4) == Schedule(3) + Backoff(3);
    assert Schedule(5) == Schedule(4) + Backoff(4);
    assert Schedule(6) == Schedule(5) + Backoff(5);
  }

  /** While the row lives and Discord names no delay, its n-th claim comes Backoff(1) + ... + Backoff(n - 1) or more
      after its first: the second to sixth 5, 35, 155, 455 and 1355 seconds. */
  lemma RetriesKeepSchedule(p: Params, es: seq<Event>, w: World, id: int, n: nat)
    requires !p.repaired && Run(START, p, es, w) && NeverAsked(es, id)
    requires id in w.rows && 1 <= n <= w.rows[id].attempts
    ensures n <= 6 && Token(id, 1) in w.claims && Token(id, n) in w.claims
    ensures w.claims[Token(id, 1)] + Schedule(n) <= w.claims[Token(id, n)]
    ensures w.claims[Token(id, 1)] + [0, 5, 35, 155, 455, 1355][n - 1] * SECOND <= w.claims[Token(id, n)]
  {
    RunKeepsPaced(START, p, es, w, id);
    GapsAddUp(w, id, n);
    ScheduleInSeconds();
  }
}
