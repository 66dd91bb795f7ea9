/** Keys do not interfere in any run, orderly or not: what one key is given depends on its own events, the clock and
    the sweeps. */
module KeyedIsolation {
  import opened KeyedRuns

  /** What `k` sees: its own events, the clock, and the sweeps. */
  predicate Seen(k: string, e: Event) {
    Concerns(k, e) || e.Sweep?
  }

  lemma OwnGet(p: Params, k: string, w: World, v: World, who: nat)
    requires Untouched(k, w, v)
    ensures Untouched(k, DoGet(p, w, k, who), DoGet(p, v, k, who))
  {
  }

  lemma OwnFire(p: Params, k: string, w: World, v: World, who: nat)
    requires Untouched(k, w, v) && Wired(w)
    ensures Untouched(k, DoFire(p, w, k, who), DoFire(p, v, k, who))
  {
  }

  lemma OwnHold(p: Params, k: string, w: World, v: World, until: nat)
    requires Untouched(k, w, v)
    ensures Untouched(k, DoHold(p, w, k, until), DoHold(p, v, k, until))
  {
  }

  lemma OwnCancel(p: Params, k: string, w: World, v: World, who: nat)
    requires Untouched(k, w, v)
    ensures Untouched(k, Step(p, w, Cancel(k, who)), Step(p, v, Cancel(k, who)))
  {
  }

  lemma OwnSweep(p: Params, k: string, w: World, v: World, asked: nat)
    requires Untouched(k, w, v)
    ensures Untouched(k, Step(p, w, Sweep(asked)), Step(p, v, Sweep(asked)))
  {
  }

  lemma OwnStep(p: Params, k: string, w: World, v: World, e: Event)
    requires Untouched(k, w, v) && Wired(w) && Seen(k, e)
    ensures Untouched(k, Step(p, w, e), Step(p, v, e))
  {
    match e
    case Get(_, who) => OwnGet(p, k, w, v, who);
    case Fire(_, who) => OwnFire(p, k, w, v, who);
    case HoldOff(_, until) => OwnHold(p, k, w, v, until);
    case Cancel(_, who) => OwnCancel(p, k, w, v, who);
    case Sweep(asked) => OwnSweep(p, k, w, v, asked);
    case Tick(_) =>
  }

  lemma OtherStep(p: Params, k: string, w: World, v: World, e: Event)
    requires Untouched(k, w, v) && Wired(w) && !Seen(k, e)
    ensures Untouched(k, Step(p, w, e), v)
  {
    OthersLeaveAlone(p, k, w, e);
  }

  function View(k: string, es: seq<Event>): seq<Event> {
    if es == [] then []
    else View(k, es[..|es| - 1]) + (if Seen(k, es[|es| - 1]) then [es[|es| - 1]] else [])
  }

  lemma {:induction false} RunOfView(p: Params, k: string, es: seq<Event>)
    ensures Wired(Run(p, START, es)) && Untouched(k, Run(p, START, es), Run(p, START, View(k, es)))
  {
    if es == [] {
    } else {
      var front, e := es[..|es| - 1], es[|es| - 1];
      var w, v := Run(p, START, front), Run(p, START, View(k, front));
      RunOfView(p, k, front);
      StepKeepsWired(p, w, e);
      if Seen(k, e) {
        OwnStep(p, k, w, v, e);
        RunAppend(p, View(k, front), e);
      } else {
        OtherStep(p, k, w, v, e);
        assert View(k, es) == View(k, front);
      }
    }
  }

  /** Two runs in which `k` sees the same are the same to `k`, whatever the other keys do, with no condition on
      either. */
  lemma KeysAreIsolated(p: Params, k: string, es: seq<Event>, es': seq<Event>)
    requires View(k, es) == View(k, es')
    ensures LogOf(Run(p, START, es), k) == LogOf(Run(p, START, es'), k)
  {
    RunOfView(p, k, es);
    RunOfView(p, k, es');
  }
}
