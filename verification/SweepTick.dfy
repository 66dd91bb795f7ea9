/** The runner's use of the pool: its three tallies against the batch. */
module SweepTick {
  import opened Pool
  import opened HiscoresClient

  lemma {:induction false} OutcomesPartition(records: seq<Record<Outcome>>)
    ensures Count(records, OK) + Count(records, Unranked) + Count(records, Transient) == |records|
  {
    if records == [] {
    } else {
      var front, v := records[..|records| - 1], records[|records| - 1].verdict;
      OutcomesPartition(front);
      forall u ensures Count(records, u) == Count(front, u) + (if v == u then 1 else 0) {
      }
      assert v == OK || v == Unranked || v == Transient;
    }
  }

  /** When a tick returns, fetched + unranked + errors is the number of Completes; never cancelled, it is the number
      claimed. */
  lemma TickAccounts(items: nat, workers: nat, burst: nat, es: seq<Event<Outcome>>, s: State<Outcome>)
    requires workers > 0 && Run(Start<Outcome>(items, workers, burst), true, es, s) && Joined(s)
    ensures s.tally[OK] + s.tally[Unranked] + s.tally[Transient] == |s.records|
    ensures burst > 0 && !s.cancelled ==> |s.records| == items
    ensures forall r | 0 <= r < |s.records| :: !s.records[r].cut
  {
    StartIsGood<Outcome>(items, workers, burst, true);
    RunKeepsGood(Start<Outcome>(items, workers, burst), true, es, s);
    JoinedAccount(s, true, OK);
    JoinedAccount(s, true, Unranked);
    JoinedAccount(s, true, Transient);
    OutcomesPartition(s.records);
    if burst > 0 && !s.cancelled {
      UncancelledIsComplete(s, true);
    }
  }
}
