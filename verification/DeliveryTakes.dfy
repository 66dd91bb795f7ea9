/** How often Discord takes one message: a POST may be taken and its answer lost, and is then sent again. */
module DeliveryTakes {
  import opened Base
  import opened Delivery
  import opened DeliveryRuns

  // ---- At most six sends ----

  function SendsOf(log: seq<Token>, id: int): nat {
    if log == [] then 0
    else SendsOf(log[..|log| - 1], id) + if log[|log| - 1].id == id then 1 else 0
  }

  ghost predicate Climbs(log: seq<Token>, id: int, top: nat) {
    && (forall i | 0 <= i < |log| && log[i].id == id :: 1 <= log[i].n <= top)
    && (forall i, j | 0 <= i < j < |log| && log[i].id == log[j].id :: log[i].n < log[j].n)
  }

  lemma {:induction false} ClimbsBound(log: seq<Token>, id: int, top: nat)
    requires Climbs(log, id, top)
    ensures SendsOf(log, id) <= top
  {
    if log == [] {
    } else {
      var last := log[|log| - 1];
      ClimbsBound(log[..|log| - 1], id, if last.id == id then last.n - 1 else top);
    }
  }

  function TakesOf(log: seq<Mark>, id: int): nat {
    if log == [] then 0
    else TakesOf(log[..|log| - 1], id) + if log[|log| - 1].id == id then 1 else 0
  }

  function UnheardOf(log: seq<Mark>, id: int): nat {
    if log == [] then 0
    else UnheardOf(log[..|log| - 1], id) + if log[|log| - 1].id == id && !log[|log| - 1].heard then 1 else 0
  }

  lemma TakesOneMore(log: seq<Mark>, m: Mark, id: int)
    ensures TakesOf(log + [m], id) == TakesOf(log, id) + if m.id == id then 1 else 0
  {
    assert (log + [m])[..|log|] == log;
  }

  lemma SendsOneMore(log: seq<Token>, tk: Token, id: int)
    ensures SendsOf(log + [tk], id) == SendsOf(log, id) + if tk.id == id then 1 else 0
  {
    assert (log + [tk])[..|log|] == log;
  }

  lemma StepKeepsTakesSent(w: World, p: Params, e: Event, id: int)
    requires Enabled(w, p, e) && TakesOf(w.takes, id) <= SendsOf(w.sends, id)
    ensures TakesOf(Step(w, p, e).takes, id) <= SendsOf(Step(w, p, e).sends, id)
  {
    if e.Send? {
      SendsOneMore(w.sends, e.tk, id);
      if e.tk.id in w.rows {
        TakesOneMore(w.takes, Mark(e.tk.id, w.rows[e.tk.id].key, w.now, Delivery.Send(e.exchange).verdict == Sent), id);
      }
    }
  }

  lemma {:induction false} TakesAreSent(w: World, p: Params, es: seq<Event>, w': World, id: int)
    requires Run(w, p, es, w') && TakesOf(w.takes, id) <= SendsOf(w.sends, id)
    ensures TakesOf(w'.takes, id) <= SendsOf(w'.sends, id)
    decreases |es|
  {
    if es == [] {
    } else {
      StepKeepsTakesSent(w, p, es[0], id);
      TakesAreSent(Step(w, p, es[0]), p, es[1..], w', id);
    }
  }

  /** Nothing of a row is taken after the worker has heard of it, so all but its last take are unheard. */
  lemma {:induction false} HeardIsLast(log: seq<Mark>, id: int)
    requires HeardOnce(log)
    ensures TakesOf(log, id) <= UnheardOf(log, id) + 1
    ensures TakesOf(log, id) == UnheardOf(log, id) || exists i :: 0 <= i < |log| && log[i].id == id && log[i].heard
  {
    if log == [] {
    } else {
      var front, last := log[..|log| - 1], log[|log| - 1];
      HeardIsLast(front, id);
      if TakesOf(front, id) != UnheardOf(front, id) {
        var i :| 0 <= i < |front| && front[i].id == id && front[i].heard;
        assert log[i].id == id && log[i].heard;
      }
    }
  }

  /** Six sends at most; as many takes at most, and at most one of them heard of, though Complete checks no status. */
  lemma SixSends(p: Params, es: seq<Event>, w: World, id: int)
    requires !p.repaired && Run(START, p, es, w)
    ensures TakesOf(w.takes, id) <= SendsOf(w.sends, id) <= MAX_ATTEMPTS
    ensures TakesOf(w.takes, id) <= UnheardOf(w.takes, id) + 1
  {
    RunKeepsGood(START, p, es, w);
    ClimbsBound(w.sends, id, MAX_ATTEMPTS);
    TakesAreSent(START, p, es, w, id);
    HeardIsLast(w.takes, id);
  }

  // ---- Dedupe over time ----

  /** Once the worker has heard that Discord took a message, Discord takes nothing more of its row, nor of its key
      until more than `keep` later. */
  lemma HeardIsFinal(p: Params, es: seq<Event>, w: World, i: nat, j: nat)
    requires !p.repaired && Run(START, p, es, w) && i < j < |w.takes| && w.takes[i].heard
    ensures w.takes[j].id != w.takes[i].id
    ensures w.takes[i].key.Some? && w.takes[j].key == w.takes[i].key ==> w.takes[i].at + p.keep < w.takes[j].at
  {
    RunKeepsGood(START, p, es, w);
  }

  /** Two deliveries recorded under one key are more than `keep` apart. */
  lemma OncePerKey(p: Params, es: seq<Event>, w: World, i: nat, j: nat)
    requires !p.repaired && Run(START, p, es, w) && i < j < |w.marks|
    ensures w.marks[i].id != w.marks[j].id
    ensures w.marks[i].key.Some? && w.marks[i].key == w.marks[j].key ==> w.marks[i].at + p.keep < w.marks[j].at
  {
    RunKeepsGood(START, p, es, w);
  }

  // ---- What can follow a reply ----

  /** Complete will put the row back. */
  predicate TriedAgain(tk: Token, reply: Reply) {
    reply.verdict == Retry && tk.n < MAX_ATTEMPTS
  }

  /** The worker that holds claim `tk` got `reply` at `since`: it has not told the queue, or the row waits for its
      next claim, or that claim's time has come, or the row is out of the game. */
  ghost predicate Follows(w: World, tk: Token, reply: Reply, since: int) {
    || (TriedAgain(tk, reply) && since + Delay(tk.n, reply) <= w.now)
    || (Token(tk.id, tk.n + 1) !in w.claims && Unclaimed(w, tk, reply, since))
  }

  ghost predicate Unclaimed(w: World, tk: Token, reply: Reply, since: int) {
    || (tk in w.flights && w.flights[tk] == Landed(reply))
    || (TriedAgain(tk, reply) && Waiting(w, tk, since + Delay(tk.n, reply)))
    || Parked(w, tk.id)
    || (if tk.id in w.rows then Ended(w.rows[tk.id]) else tk.id < w.serial)
  }

  predicate Waiting(w: World, tk: Token, until: int) {
    && tk.id in w.rows && w.rows[tk.id].status == Pending && w.rows[tk.id].attempts == tk.n
    && w.rows[tk.id].due.At? && until <= w.rows[tk.id].due.t
  }

  lemma ClaimFollows(w: World, p: Params, id: int, tk: Token, reply: Reply, since: int)
    requires !p.repaired && Good(w, p.keep) && Enabled(w, p, Claim(id)) && Follows(w, tk, reply, since)
    ensures Follows(Claiming(w, p, id), tk, reply, since)
  {
  }

  lemma CompleteFollows(w: World, p: Params, other: Token, tk: Token, reply: Reply, since: int)
    requires !p.repaired && Good(w, p.keep) && Enabled(w, p, Complete(other))
    requires since <= w.now && Follows(w, tk, reply, since)
    ensures Follows(Completing(w, other), tk, reply, since)
  {
  }

  lemma StepFollows(w: World, p: Params, e: Event, tk: Token, reply: Reply, since: int)
    requires !p.repaired && Good(w, p.keep) && Enabled(w, p, e) && since <= w.now && Follows(w, tk, reply, since)
    ensures Follows(Step(w, p, e), tk, reply, since)
  {
    match e
    case Claim(id) => ClaimFollows(w, p, id, tk, reply, since);
    case Complete(other) => CompleteFollows(w, p, other, tk, reply, since);
    case _ =>
  }

  /** Takes of the row from index `from` on are late enough. */
  ghost predicate TakesLate(w: World, from: nat, tk: Token, reply: Reply, since: int) {
    forall j | from <= j < |w.takes| && w.takes[j].id == tk.id ::
      TriedAgain(tk, reply) && since + Delay(tk.n, reply) <= w.takes[j].at
  }

  lemma StepTakesLate(w: World, p: Params, e: Event, from: nat, tk: Token, reply: Reply, since: int)
    requires !p.repaired && Good(w, p.keep) && Enabled(w, p, e) && Follows(w, tk, reply, since)
    requires TakesLate(w, from, tk, reply, since)
    ensures TakesLate(Step(w, p, e), from, tk, reply, since)
  {
  }

  lemma {:induction false} RunFollows(w: World, p: Params, es: seq<Event>, w': World, from: nat, tk: Token,
                                      reply: Reply, since: int)
    requires !p.repaired && Good(w, p.keep) && Run(w, p, es, w')
    requires since <= w.now && Follows(w, tk, reply, since) && TakesLate(w, from, tk, reply, since)
    ensures Good(w', p.keep) && Follows(w', tk, reply, since) && TakesLate(w', from, tk, reply, since)
    decreases |es|
  {
    if es == [] {
    } else {
      StepKeepsGood(w, p, es[0]);
      StepFollows(w, p, es[0], tk, reply, since);
      StepTakesLate(w, p, es[0], from, tk, reply, since);
      RunFollows(Step(w, p, es[0]), p, es[1..], w', from, tk, reply, since);
    }
  }

  lemma {:induction false} TakesStay(w: World, p: Params, es: seq<Event>, w': World)
    requires Run(w, p, es, w')
    ensures |w.takes| <= |w'.takes| && w'.takes[..|w.takes|] == w.takes
    decreases |es|
  {
    if es == [] {
    } else {
      TakesStay(Step(w, p, es[0]), p, es[1..], w');
    }
  }

  // ---- When a message taken once is taken again ----

  function KeyAt(w: World, id: int): Option<string> {
    if id in w.rows then w.rows[id].key else None
  }

  /** A take of the same row, or of another under its dedupe key. */
  predicate SameMessage(m: Mark, id: int, key: Option<string>) {
    m.id == id || (key.Some? && m.key == key)
  }

  /** Some continuation of w has a further take of the message, by `until`. */
  ghost predicate TakenAgain(w: World, p: Params, id: int, key: Option<string>, until: int) {
    exists es, w', j ::
      Run(w, p, es, w') && |w.takes| <= j < |w'.takes| && SameMessage(w'.takes[j], id, key) && w'.takes[j].at <= until
  }

  lemma AgainNeedsRetry(w: World, p: Params, tk: Token, x: Exchange, es: seq<Event>, w': World, j: nat)
    requires !p.repaired && Good(w, p.keep) && Enabled(w, p, Event.Send(tk, x, true))
    requires Run(Sending(w, tk, x, true), p, es, w') && |w.takes| < j < |w'.takes|
    requires SameMessage(w'.takes[j], tk.id, KeyAt(w, tk.id)) && w'.takes[j].at <= w.now + p.keep
    ensures TriedAgain(tk, Delivery.Send(x)) && Delay(tk.n, Delivery.Send(x)) <= p.keep
  {
    var w1 := Sending(w, tk, x, true);
    var reply := Delivery.Send(x);
    StepKeepsGood(w, p, Event.Send(tk, x, true));
    assert Token(tk.id, tk.n + 1) !in w.claims;
    assert TakesLate(w1, |w1.takes|, tk, reply, w.now);
    RunFollows(w1, p, es, w', |w1.takes|, tk, reply, w.now);
    TakesStay(w1, p, es, w');
    var first := w1.takes[|w.takes|];
    assert w'.takes[|w.takes|] == w'.takes[..|w1.takes|][|w.takes|] == first;
    assert w'.takes[j].id == tk.id;
  }

  lemma RetryTakesAgain(w: World, p: Params, tk: Token, reply: Reply) returns (es: seq<Event>, w': World)
    requires tk in w.flights && w.flights[tk] == Landed(reply) && TriedAgain(tk, reply)
    requires tk.id in w.rows && w.rows[tk.id].attempts == tk.n
    ensures Run(w, p, es, w') && |w'.takes| == |w.takes| + 1 && w'.takes[..|w.takes|] == w.takes
    ensures w'.takes[|w.takes|] == Mark(tk.id, w.rows[tk.id].key, w.now + Delay(tk.n, reply), true)
  {
    var due := w.now + Delay(tk.n, reply);
    var next := Token(tk.id, tk.n + 1);
    var w1 := Completing(w, tk);
    var w2 := w1.(now := due);
    var w3 := Claiming(w2, p, tk.id);
    w' := Sending(w3, next, Answered(204, 0), true);
    es := [];
    es := RunBefore(w3, p, Event.Send(next, Answered(204, 0), true), es, w');
    es := RunBefore(w2, p, Claim(tk.id), es, w');
    es := RunBefore(w1, p, Tick(due), es, w');
    es := RunBefore(w, p, Complete(tk), es, w');
  }

  /** In every reachable state: a message that Discord takes now can be taken again within `keep`, as the same row or
      under its key, exactly when the worker is told to retry, has an attempt left, and does not have to wait longer. */
  lemma TakenAgainExactly(p: Params, past: seq<Event>, w: World, tk: Token, x: Exchange)
    requires !p.repaired && Run(START, p, past, w) && Enabled(w, p, Event.Send(tk, x, true))
    ensures TakenAgain(Sending(w, tk, x, true), p, tk.id, KeyAt(w, tk.id), w.now + p.keep) <==>
            TriedAgain(tk, Delivery.Send(x)) && Delay(tk.n, Delivery.Send(x)) <= p.keep
  {
    RunKeepsGood(START, p, past, w);
    var w1 := Sending(w, tk, x, true);
    var key := KeyAt(w, tk.id);
    if TakenAgain(w1, p, tk.id, key, w.now + p.keep) {
      var es, w', j :|
        Run(w1, p, es, w') && |w1.takes| <= j < |w'.takes| && SameMessage(w'.takes[j], tk.id, key)
        && w'.takes[j].at <= w.now + p.keep;
      AgainNeedsRetry(w, p, tk, x, es, w', j);
    }
    if TriedAgain(tk, Delivery.Send(x)) && Delay(tk.n, Delivery.Send(x)) <= p.keep {
      var es, w' := RetryTakesAgain(w1, p, tk, Delivery.Send(x));
      assert SameMessage(w'.takes[|w1.takes|], tk.id, key);
    }
  }

  /** It happens: Discord takes a message, the answer is lost, and five seconds later it takes the same message again,
      dedupe key and all. */
  lemma TakenTwice(p: Params, hook: string, key: string) returns (es: seq<Event>, w: World)
    requires key != ""
    ensures Run(START, p, es, w) && |w.takes| == 2
    ensures w.takes[0] == Mark(1, Some(key), 0, false) && w.takes[1] == Mark(1, Some(key), 5 * SECOND, true)
  {
    var w1 := Step(START, p, Enqueue(hook, key, 0));
    var w2 := Claiming(w1, p, 1);
    var w3 := Sending(w2, Token(1, 1), NoResponse, true);
    es, w := RetryTakesAgain(w3, p, Token(1, 1), Reply(Retry, 0, 0));
    assert w.takes[0] == w.takes[..1][0] == w3.takes[0];
    es := RunBefore(w2, p, Event.Send(Token(1, 1), NoResponse, true), es, w);
    es := RunBefore(w1, p, Claim(1), es, w);
    es := RunBefore(START, p, Enqueue(hook, key, 0), es, w);
  }
}
