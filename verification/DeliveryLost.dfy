/** What becomes of a message whose worker is lost, with the claim filter as written and with it repaired. */
module DeliveryLost {
  import opened Delivery
  import opened DeliveryRuns
  import opened DeliveryTakes

  /** It happens: a worker claims a message and is lost. */
  lemma LossHappens(p: Params, hook: string) returns (es: seq<Event>, w: World)
    ensures Run(START, p, es, w) && 1 in w.rows && w.rows[1].status == Delivering && Parked(w, 1)
  {
    var w1 := Step(START, p, Enqueue(hook, "", 0));
    var w2 := Claiming(w1, p, 1);
    w := Step(w2, p, Lose(Token(1, 1)));
    es := [];
    es := RunBefore(w2, p, Lose(Token(1, 1)), es, w);
    es := RunBefore(w1, p, Claim(1), es, w);
    es := RunBefore(START, p, Enqueue(hook, "", 0), es, w);
  }

  /** Some continuation claims the row for the n-th time, by `until`. */
  ghost predicate ClaimedLater(w: World, p: Params, tk: Token, until: int) {
    exists es, w' :: Run(w, p, es, w') && tk in w'.claims && w'.claims[tk] <= until
  }

  ghost predicate ClaimedEver(w: World, p: Params, tk: Token) {
    exists es, w' :: Run(w, p, es, w') && tk in w'.claims
  }

  // ---- As written ----

  lemma RetryClaims(w: World, p: Params, tk: Token, reply: Reply) returns (es: seq<Event>, w': World)
    requires tk in w.flights && w.flights[tk] == Landed(reply) && TriedAgain(tk, reply)
    requires tk.id in w.rows && w.rows[tk.id].attempts == tk.n
    ensures Run(w, p, es, w') && Token(tk.id, tk.n + 1) in w'.claims
  {
    var due := w.now + Delay(tk.n, reply);
    var w1 := Completing(w, tk);
    var w2 := w1.(now := due);
    w' := Claiming(w2, p, tk.id);
    es := [];
    es := RunBefore(w2, p, Claim(tk.id), es, w');
    es := RunBefore(w1, p, Tick(due), es, w');
    es := RunBefore(w, p, Complete(tk), es, w');
  }

  /** The worker is there and may yet tell the queue to try again. */
  predicate MayRetry(w: World, tk: Token) {
    && tk.n < MAX_ATTEMPTS && tk in w.flights
    && (w.flights[tk].Landed? ==> w.flights[tk].reply.verdict == Retry)
  }

  lemma ClaimNeedsWorker(w: World, p: Params, tk: Token, es: seq<Event>, w': World)
    requires !p.repaired && Good(w, p.keep) && Run(w, p, es, w') && Token(tk.id, tk.n + 1) in w'.claims
    requires tk.id in w.rows && w.rows[tk.id].status == Delivering && w.rows[tk.id].attempts == tk.n
    ensures MayRetry(w, tk)
  {
    RunKeepsGood(w, p, es, w');
    if tk !in w.flights {
      LostIsStuck(w, p, es, w', tk.id);
    } else if w.flights[tk].Landed? {
      var reply := w.flights[tk].reply;
      assert Token(tk.id, tk.n + 1) !in w.claims;
      assert TakesLate(w, |w.takes|, tk, reply, w.now);
      RunFollows(w, p, es, w', |w.takes|, tk, reply, w.now);
    }
  }

  lemma EverNeedsWorker(w: World, p: Params, tk: Token)
    requires !p.repaired && Good(w, p.keep) && ClaimedEver(w, p, Token(tk.id, tk.n + 1))
    requires tk.id in w.rows && w.rows[tk.id].status == Delivering && w.rows[tk.id].attempts == tk.n
    ensures MayRetry(w, tk)
  {
    var es, w' :| Run(w, p, es, w') && Token(tk.id, tk.n + 1) in w'.claims;
    ClaimNeedsWorker(w, p, tk, es, w');
  }

  lemma WorkerMayClaim(w: World, p: Params, tk: Token)
    requires Good(w, p.keep) && MayRetry(w, tk)
    ensures ClaimedEver(w, p, Token(tk.id, tk.n + 1))
  {
    if w.flights[tk].Aloft? {
      var w1 := Sending(w, tk, NoResponse, false);
      var es, w' := RetryClaims(w1, p, tk, Reply(Retry, 0, 0));
      es := RunBefore(w, p, Event.Send(tk, NoResponse, false), es, w');
    } else {
      var es, w' := RetryClaims(w, p, tk, w.flights[tk].reply);
    }
  }

  /** As written, a row that is out is ever claimed again exactly if its worker is still there, has not been given a
      final answer, and the row has an attempt left.  A lost worker's row is not. */
  lemma ClaimedAgainExactly(p: Params, past: seq<Event>, w: World, id: int)
    requires !p.repaired && Run(START, p, past, w) && id in w.rows && w.rows[id].status == Delivering
    ensures var n := w.rows[id].attempts;
            ClaimedEver(w, p, Token(id, n + 1)) <==> MayRetry(w, Token(id, n))
  {
    RunKeepsGood(START, p, past, w);
    var tk := Token(id, w.rows[id].attempts);
    if ClaimedEver(w, p, Token(id, tk.n + 1)) {
      EverNeedsWorker(w, p, tk);
    }
    if MayRetry(w, tk) {
      WorkerMayClaim(w, p, tk);
    }
  }

  // ---- The filter that also takes 'delivering' ----

  ghost predicate OutUntil(w: World, p: Params) {
    forall id | id in w.rows && w.rows[id].status == Delivering ::
      w.rows[id].due.At? && w.rows[id].due.t <= w.now + p.lease
  }

  lemma {:induction false} RunKeepsOutUntil(w: World, p: Params, es: seq<Event>, w': World)
    requires p.lease >= 0 && OutUntil(w, p) && Run(w, p, es, w')
    ensures OutUntil(w', p)
    decreases |es|
  {
    if es == [] {
    } else {
      assert OutUntil(Step(w, p, es[0]), p);
      RunKeepsOutUntil(Step(w, p, es[0]), p, es[1..], w');
    }
  }

  lemma LeaseBringsBack(w: World, p: Params, id: int)
    requires p.repaired && p.lease >= 0 && OutUntil(w, p) && id in w.rows && w.rows[id].status == Delivering
    ensures ClaimedLater(w, p, Token(id, w.rows[id].attempts + 1), w.now + p.lease)
  {
    var w1 := w.(now := w.now + p.lease);
    var w2 := Claiming(w1, p, id);
    var es := RunBefore(w1, p, Claim(id), [], w2);
    es := RunBefore(w, p, Tick(w.now + p.lease), es, w2);
  }

  /** A row whose worker is lost can be claimed again within a lease exactly if the filter is repaired; if it is not,
      it is not claimed again however long one waits. */
  lemma LostComesBackExactlyIfRepaired(p: Params, past: seq<Event>, w: World, id: int)
    requires p.lease >= 0 && Run(START, p, past, w)
    requires id in w.rows && w.rows[id].status == Delivering && Token(id, w.rows[id].attempts) !in w.flights
    ensures ClaimedLater(w, p, Token(id, w.rows[id].attempts + 1), w.now + p.lease) <==> p.repaired
    ensures ClaimedEver(w, p, Token(id, w.rows[id].attempts + 1)) <==> p.repaired
  {
    if p.repaired {
      RunKeepsOutUntil(START, p, past, w);
      LeaseBringsBack(w, p, id);
    } else {
      ClaimedAgainExactly(p, past, w, id);
    }
  }

  /** A row was claimed, its worker was slow to hear of a failure, and the lease has run out. */
  predicate Overdue(w: World) {
    && 1 in w.rows && w.rows[1].status == Delivering && w.rows[1].attempts == 1 && Past(w.rows[1].due, w.now)
    && Token(1, 1) in w.flights && w.flights[Token(1, 1)] == Landed(Reply(Retry, 0, 0))
  }

  lemma OverdueHappens(p: Params, hook: string) returns (es: seq<Event>, w: World)
    requires p.lease >= 0
    ensures Run(START, p, es, w) && Overdue(w)
  {
    var w1 := Step(START, p, Enqueue(hook, "", 0));
    var w2 := Claiming(w1, p, 1);
    var w3 := Sending(w2, Token(1, 1), NoResponse, false);
    w := w3.(now := p.lease);
    es := [];
    es := RunBefore(w3, p, Tick(p.lease), es, w);
    es := RunBefore(w2, p, Event.Send(Token(1, 1), NoResponse, false), es, w);
    es := RunBefore(w1, p, Claim(1), es, w);
    es := RunBefore(START, p, Enqueue(hook, "", 0), es, w);
  }

  lemma OverdueIsUndone(w: World, p: Params) returns (es: seq<Event>, w': World)
    requires p.repaired && Overdue(w)
    ensures Run(w, p, es, w') && Enabled(w', p, Complete(Token(1, 1)))
    ensures 1 in w'.rows && w'.rows[1].status == Delivered
    ensures Step(w', p, Complete(Token(1, 1))).rows[1].status == Pending
  {
    var current := Token(1, 2);
    var w1 := Claiming(w, p, 1);
    var w2 := Sending(w1, current, Answered(204, 0), true);
    w' := Completing(w2, current);
    es := [];
    es := RunBefore(w2, p, Complete(current), es, w');
    es := RunBefore(w1, p, Event.Send(current, Answered(204, 0), true), es, w');
    es := RunBefore(w, p, Claim(1), es, w');
  }

  /** Repaired, whatever the lease, the unguarded Complete of a worker thought lost takes a delivered row back to
      pending. */
  lemma RepairAdmitsUndoing(p: Params, hook: string) returns (es: seq<Event>, w: World, stale: Token)
    requires p.repaired && p.lease >= 0
    ensures Run(START, p, es, w) && Enabled(w, p, Complete(stale))
    ensures stale.id in w.rows && w.rows[stale.id].status == Delivered
    ensures Step(w, p, Complete(stale)).rows[stale.id].status == Pending
  {
    stale := Token(1, 1);
    var before, after, mid;
    before, mid := OverdueHappens(p, hook);
    after, w := OverdueIsUndone(mid, p);
    RunsJoin(START, p, before, mid, after, w);
    es := before + after;
  }
}
