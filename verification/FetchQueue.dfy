/** internal/store/store.go: the claim query over hiscores_fetches, and the row transitions it and Complete make. */
module FetchQueue {
  import opened Base
  import opened SqlOrder

  datatype Row = Row(rsn: string, mode: string, priority: int, requestedAt: int, claimedAt: Option<int>,
                     fetchedAt: Option<int>, outcome: Option<string>, body: Option<string>, error: Option<string>)

  type Table = map<int, Row>

  datatype Request = Request(id: int, rsn: string, mode: string)

  /** A fifth of the claim, at least one. */
  function JumpShare(limit: int): nat {
    if limit <= 0 then 0
    else
      var n := limit / 5;
      if n < 1 then 1 else n
  }

  /** A fifth, rounded down, and at least one; it leaves room for the competition exactly when a claim takes two or
      more. */
  lemma ShareLeavesRoom(limit: int)
    ensures limit <= 0 ==> JumpShare(limit) == 0
    ensures 1 <= limit < 5 ==> JumpShare(limit) == 1
    ensures limit >= 5 ==> 5 * JumpShare(limit) <= limit < 5 * JumpShare(limit) + 5
    ensures limit >= 0 ==> JumpShare(limit) <= limit
    ensures JumpShare(limit) < limit <==> limit >= 2
  {
  }

  // ---- Rows and their order ----

  predicate Eligible(row: Row, now: int, lease: int) {
    row.fetchedAt.None? && (row.claimedAt.None? || row.claimedAt.value < now - lease)
  }

  function LaneOrder(t: Table): Ranks {
    map id | id in t :: Rank(t[id].priority, t[id].requestedAt)
  }

  /** Eligible rows nobody else has locked. */
  function Due(t: Table, held: set<int>, now: int, lease: int): set<int> {
    set id | id in t && id !in held && Eligible(t[id], now, lease)
  }

  function LateDue(t: Table, held: set<int>, now: int, lease: int): set<int> {
    set id | id in Due(t, held, now, lease) && t[id].priority < 0
  }

  function RestDue(t: Table, held: set<int>, now: int, lease: int): set<int> {
    set id | id in Due(t, held, now, lease) && t[id].priority >= 0
  }

  function Stamp(t: Table, ids: set<int>, now: int): Table {
    map id | id in t :: if id in ids then t[id].(claimedAt := Some(now)) else t[id]
  }

  function Ids(requests: seq<Request>): seq<int> {
    seq(|requests|, i requires 0 <= i < |requests| => requests[i].id)
  }

  // ---- The query, stage by stage, and what it is meant to select ----

  /** One execution of the four stages, whatever ties it broke. */
  ghost predicate Pipeline(t: Table, held: set<int>, limit: nat, now: int, lease: int,
                           jump: set<int>, rest: set<int>, due: set<int>, out: seq<int>) {
    && Top(LaneOrder(t), LateDue(t, held, now, lease), JumpShare(limit), jump)
    && Top(LaneOrder(t), RestDue(t, held, now, lease), limit, rest)
    && Top(LaneOrder(t), jump + rest, limit, due)
    && Distinct(out) && Elems(out) == due && Sorted(LaneOrder(t), out)
  }

  /** Late joiners up to their share, the rest up to the limit, each part maximal, the whole in lane order. */
  ghost predicate Selects(t: Table, held: set<int>, limit: nat, now: int, lease: int, out: seq<int>) {
    && Distinct(out) && Sorted(LaneOrder(t), out)
    && TwoLanes(LaneOrder(t), LateDue(t, held, now, lease), RestDue(t, held, now, lease), JumpShare(limit), limit,
                Elems(out))
  }

  lemma PipelineRefines(t: Table, held: set<int>, limit: nat, now: int, lease: int,
                        jump: set<int>, rest: set<int>, due: set<int>, out: seq<int>)
    requires Pipeline(t, held, limit, now, lease, jump, rest, due, out)
    ensures Selects(t, held, limit, now, lease, out)
  {
    StagesGiveTwoLanes(LaneOrder(t), LateDue(t, held, now, lease), RestDue(t, held, now, lease), JumpShare(limit),
                       limit, jump, rest, due);
  }

  /** And nothing less: every selection that meets the specification is one the query can make. */
  lemma PipelineReaches(t: Table, held: set<int>, limit: nat, now: int, lease: int, out: seq<int>)
    returns (jump: set<int>, rest: set<int>)
    requires Selects(t, held, limit, now, lease, out)
    ensures Pipeline(t, held, limit, now, lease, jump, rest, Elems(out), out)
  {
    jump, rest := TwoLanesGiveStages(LaneOrder(t), LateDue(t, held, now, lease), RestDue(t, held, now, lease),
                                     JumpShare(limit), limit, Elems(out));
  }

  /** Within a claim a late joiner is handed out first. */
  lemma LateJoinersFirst(t: Table, held: set<int>, limit: nat, now: int, lease: int, out: seq<int>, i: nat, j: nat)
    requires Selects(t, held, limit, now, lease, out) && i < j < |out|
    requires out[j] in LateDue(t, held, now, lease)
    ensures out[i] in LateDue(t, held, now, lease)
  {
    assert out[i] in Elems(out);
  }

  // ---- The selection, on the rows' own fields ----

  /** Within its lane, a row claimed is no less urgent, and if as urgent no younger, than a due row left behind. */
  lemma ClaimedFirst(t: Table, held: set<int>, limit: nat, now: int, lease: int, out: seq<int>, x: int, y: int)
    requires Selects(t, held, limit, now, lease, out) && x in Elems(out) && y in t && y !in held && y !in Elems(out)
    requires t[y].fetchedAt.None? && (t[y].claimedAt.None? || t[y].claimedAt.value < now - lease)
    ensures x in t
    ensures (t[x].priority < 0 <==> t[y].priority < 0) ==>
              t[x].priority < t[y].priority
              || (t[x].priority == t[y].priority && t[x].requestedAt <= t[y].requestedAt)
  {
    var late, rest := LateDue(t, held, now, lease), RestDue(t, held, now, lease);
    assert x in late + rest;
    if t[x].priority < 0 && t[y].priority < 0 {
      assert y in late && x in Elems(out) * late && !Before(LaneOrder(t), y, x);
    } else if t[x].priority >= 0 && t[y].priority >= 0 {
      assert y in rest && x in Elems(out) * rest && !Before(LaneOrder(t), y, x);
    }
  }

  /** And the rows come in that order, over both lanes. */
  lemma ClaimedInOrder(t: Table, held: set<int>, limit: nat, now: int, lease: int, out: seq<int>, i: nat, j: nat)
    requires Selects(t, held, limit, now, lease, out) && i < j < |out|
    ensures out[i] in t && out[j] in t
    ensures t[out[i]].priority < t[out[j]].priority
            || (t[out[i]].priority == t[out[j]].priority && t[out[i]].requestedAt <= t[out[j]].requestedAt)
  {
    assert out[i] in Elems(out) && out[j] in Elems(out);
    assert !Before(LaneOrder(t), out[j], out[i]);
  }

  lemma ClaimedIsDue(t: Table, held: set<int>, limit: nat, now: int, lease: int, out: seq<int>, x: int)
    requires Selects(t, held, limit, now, lease, out) && x in Elems(out)
    ensures x in t && x !in held && t[x].fetchedAt.None?
    ensures t[x].claimedAt.None? || t[x].claimedAt.value < now - lease
  {
    assert x in LateDue(t, held, now, lease) + RestDue(t, held, now, lease);
  }

  /** All of that, for the requests that a selection is handed out as. */
  lemma RequestsOnFields(t: Table, held: set<int>, limit: nat, now: int, lease: int, out: seq<Request>)
    requires Selects(t, held, limit, now, lease, Ids(out))
    ensures forall i | 0 <= i < |out| ::
              && out[i].id in t && out[i].id !in held && t[out[i].id].fetchedAt.None?
              && (t[out[i].id].claimedAt.None? || t[out[i].id].claimedAt.value < now - lease)
    ensures forall i, j | 0 <= i < j < |out| ::
              var a, b := out[i].id, out[j].id;
              && a in t && b in t && a != b
              && (t[a].priority < t[b].priority
                  || (t[a].priority == t[b].priority && t[a].requestedAt <= t[b].requestedAt))
    ensures forall i, y | 0 <= i < |out| && y in t && y !in held && t[y].fetchedAt.None?
              && (t[y].claimedAt.None? || t[y].claimedAt.value < now - lease) && y !in Ids(out) ::
              var x := out[i].id;
              && x in t
              && ((t[x].priority < 0 <==> t[y].priority < 0) ==>
                    t[x].priority < t[y].priority
                    || (t[x].priority == t[y].priority && t[x].requestedAt <= t[y].requestedAt))
  {
    var ids := Ids(out);
    forall i | 0 <= i < |out|
      ensures out[i].id in t && out[i].id !in held && t[out[i].id].fetchedAt.None?
              && (t[out[i].id].claimedAt.None? || t[out[i].id].claimedAt.value < now - lease)
    {
      assert ids[i] in Elems(ids);
      ClaimedIsDue(t, held, limit, now, lease, ids, ids[i]);
    }
    forall i, j | 0 <= i < j < |out|
      ensures var a, b := out[i].id, out[j].id;
              && a in t && b in t && a != b
              && (t[a].priority < t[b].priority
                  || (t[a].priority == t[b].priority && t[a].requestedAt <= t[b].requestedAt))
    {
      ClaimedInOrder(t, held, limit, now, lease, ids, i, j);
      assert ids[i] != ids[j];
    }
    forall i, y | 0 <= i < |out| && y in t && y !in held && t[y].fetchedAt.None?
      && (t[y].claimedAt.None? || t[y].claimedAt.value < now - lease) && y !in Ids(out)
      ensures var x := out[i].id;
              && x in t
              && ((t[x].priority < 0 <==> t[y].priority < 0) ==>
                    t[x].priority < t[y].priority
                    || (t[x].priority == t[y].priority && t[x].requestedAt <= t[y].requestedAt))
    {
      assert ids[i] in Elems(ids);
      ClaimedFirst(t, held, limit, now, lease, ids, ids[i], y);
    }
  }

  lemma StampOnFields(t: Table, ids: seq<int>, now: int)
    ensures Stamp(t, Elems(ids), now).Keys == t.Keys
    ensures forall id | id in t ::
              Stamp(t, Elems(ids), now)[id] == if id !in ids then t[id] else t[id].(claimedAt := Some(now))
  {
  }

  /** Due rows of one lane. */
  function Lane(t: Table, held: set<int>, now: int, lease: int, late: bool): set<int> {
    set id | id in t && id !in held && t[id].fetchedAt.None?
             && (t[id].claimedAt.None? || t[id].claimedAt.value < now - lease) && (t[id].priority < 0 <==> late)
  }

  /** As many late joiners as the share lets in, and as many others as there is then room for. */
  lemma ClaimedCounts(t: Table, held: set<int>, limit: nat, now: int, lease: int, out: seq<int>)
    requires Selects(t, held, limit, now, lease, out)
    ensures var late, rest := Lane(t, held, now, lease, true), Lane(t, held, now, lease, false);
            && |out| == |Elems(out) * late| + |Elems(out) * rest|
            && |Elems(out) * late| == Min(JumpShare(limit), |late|)
            && |Elems(out) * rest| == Min(limit - |Elems(out) * late|, |rest|)
  {
    var late, rest := Lane(t, held, now, lease, true), Lane(t, held, now, lease, false);
    LanesAreDue(t, held, now, lease);
    ShareLeavesRoom(limit);
    DistinctCount(out);
    assert Elems(out) == Elems(out) * late + Elems(out) * rest;
  }

  lemma LanesAreDue(t: Table, held: set<int>, now: int, lease: int)
    ensures Lane(t, held, now, lease, true) == LateDue(t, held, now, lease)
    ensures Lane(t, held, now, lease, false) == RestDue(t, held, now, lease)
  {
    var late, rest := Lane(t, held, now, lease, true), Lane(t, held, now, lease, false);
    forall id: int ensures id in late <==> id in LateDue(t, held, now, lease) {
      assert id in Due(t, held, now, lease) <==> id in late || id in rest;
    }
    forall id: int ensures id in rest <==> id in RestDue(t, held, now, lease) {
      assert id in Due(t, held, now, lease) <==> id in late || id in rest;
    }
  }

  // ---- The store ----

  method Query(t: Table, held: set<int>, limit: nat, now: int, lease: int) returns (out: seq<int>)
    ensures Selects(t, held, limit, now, lease, out)
    ensures forall i | 0 <= i < |out| :: out[i] in t
  {
    var jump := Select(LaneOrder(t), LateDue(t, held, now, lease), JumpShare(limit));
    var rest := Select(LaneOrder(t), RestDue(t, held, now, lease), limit);
    out := Select(LaneOrder(t), Elems(jump) + Elems(rest), limit);
    PipelineRefines(t, held, limit, now, lease, Elems(jump), Elems(rest), Elems(out), out);
    forall i | 0 <= i < |out| ensures out[i] in t {
      assert out[i] in Elems(out);
    }
  }

  method Scan(t: Table, ids: seq<int>) returns (out: seq<Request>)
    requires forall i | 0 <= i < |ids| :: ids[i] in t
    ensures |out| == |ids|
    ensures forall i | 0 <= i < |ids| :: out[i] == Request(ids[i], t[ids[i]].rsn, t[ids[i]].mode)
  {
    out := [];
    for i := 0 to |ids|
      invariant |out| == i
      invariant forall j | 0 <= j < i :: out[j] == Request(ids[j], t[ids[j]].rsn, t[ids[j]].mode)
    {
      out := out + [Request(ids[i], t[ids[i]].rsn, t[ids[i]].mode)];
    }
  }

  class Store {
    var table: Table
    const dryRun: bool

    constructor (table: Table, dryRun: bool)
      ensures this.table == table && this.dryRun == dryRun
    {
      this.table, this.dryRun := table, dryRun;
    }

    /** `held` are the rows other transactions have locked.  A negative limit is an SQL error. */
    method Claim(limit: int, lease: int, now: int, held: set<int>) returns (res: Option<seq<Request>>)
      modifies this`table
      ensures limit < 0 ==> res == None && table == old(table)
      ensures limit >= 0 ==>
                && res.Some? && Selects(old(table), held, limit, now, lease, Ids(res.value))
                && table == Stamp(old(table), Elems(Ids(res.value)), now)
      // the rows returned were due and free, and are returned as they were
      ensures forall i | limit >= 0 && 0 <= i < |res.value| ::
                var r := res.value[i];
                && r.id in old(table) && r.id !in held && old(table)[r.id].fetchedAt.None?
                && (old(table)[r.id].claimedAt.None? || old(table)[r.id].claimedAt.value < now - lease)
                && r.rsn == old(table)[r.id].rsn && r.mode == old(table)[r.id].mode
      // in order of priority, and of age
      ensures forall i, j | limit >= 0 && 0 <= i < j < |res.value| ::
                var a, b := res.value[i].id, res.value[j].id;
                && a in old(table) && b in old(table) && a != b
                && (old(table)[a].priority < old(table)[b].priority
                    || (old(table)[a].priority == old(table)[b].priority
                        && old(table)[a].requestedAt <= old(table)[b].requestedAt))
      // and within a lane before whatever was due and is left
      ensures forall i, y | limit >= 0 && 0 <= i < |res.value| && y in old(table) && y !in held
                && old(table)[y].fetchedAt.None?
                && (old(table)[y].claimedAt.None? || old(table)[y].claimedAt.value < now - lease)
                && y !in Ids(res.value) ::
                var x := res.value[i].id;
                && x in old(table)
                && ((old(table)[x].priority < 0 <==> old(table)[y].priority < 0) ==>
                      old(table)[x].priority < old(table)[y].priority
                      || (old(table)[x].priority == old(table)[y].priority
                          && old(table)[x].requestedAt <= old(table)[y].requestedAt))
      // nothing changes but their claims
      ensures limit >= 0 ==>
                && table.Keys == old(table).Keys
                && forall id | id in old(table) ::
                     table[id] == if id !in Ids(res.value) then old(table)[id]
                                  else old(table)[id].(claimedAt := Some(now))
    {
      if limit < 0 {
        return None;
      }
      var due := Query(table, held, limit, now, lease);
      var out := Scan(table, due);
      assert Ids(out) == due;
      RequestsOnFields(table, held, limit, now, lease, out);
      StampOnFields(table, Ids(out), now);
      table := Stamp(table, Elems(due), now);
      res := Some(out);
    }

    /** First write wins; what is written, field by field. */
    method Complete(id: int, outcome: string, body: string, errText: string, now: int)
      modifies this`table
      ensures table == if dryRun then old(table) else Completed(old(table), id, outcome, body, errText, now)
      ensures table.Keys == old(table).Keys
      ensures forall other | other in table && other != id :: table[other] == old(table)[other]
      ensures id in table ==>
                var was, row := old(table)[id], table[id];
                if dryRun || was.fetchedAt.Some? then row == was
                else
                  && row.fetchedAt == Some(now) && row.outcome == Some(outcome)
                  && row.body == (if body == "" then None else Some(body))
                  && row.error == (if errText == "" then None else Some(errText))
                  && row.rsn == was.rsn && row.mode == was.mode && row.priority == was.priority
                  && row.requestedAt == was.requestedAt && row.claimedAt == was.claimedAt
    {
      if dryRun {
        return;
      }
      var bodyArg := if |body| > 0 then Some(body) else None;
      var errArg := if errText != "" then Some(errText) else None;
      if id in table && table[id].fetchedAt.None? {
        var row := table[id];
        table := table[id := row.(fetchedAt := Some(now), outcome := Some(outcome), body := bodyArg, error := errArg)];
      }
    }
  }

  function Completed(t: Table, id: int, outcome: string, body: string, errText: string, now: int): Table {
    if id in t && t[id].fetchedAt.None? then
      t[id := t[id].(fetchedAt := Some(now), outcome := Some(outcome),
                     body := if body == "" then None else Some(body),
                     error := if errText == "" then None else Some(errText))]
    else t
  }
}
