/** internal/discord/queue.go and sender.go: rows of forge_discord_deliveries and what each statement does to them. */
module Delivery {
  import opened Base
  import opened SqlOrder

  const SECOND: int := 1_000_000_000
  const MAX_ATTEMPTS: nat := 6

  // ---- sender.go ----

  datatype Verdict = Sent | Retry | Dead | Drop

  /** What one POST comes to; a 429 carries the delay Discord asks for. */
  datatype Exchange = BadUrl | NoResponse | Answered(code: int, asked: nat)

  datatype Reply = Reply(verdict: Verdict, code: int, retryAfter: int)

  function Send(x: Exchange): Reply {
    match x
    case BadUrl => Reply(Dead, 0, 0)
    case NoResponse => Reply(Retry, 0, 0)
    case Answered(code, asked) =>
      if 200 <= code < 300 then Reply(Sent, code, 0)
      else if code == 429 then Reply(Retry, code, asked)
      else if code == 404 || code == 401 || code == 403 then Reply(Dead, code, 0)
      else if code == 400 || code == 413 then Reply(Drop, code, 0)
      else Reply(Retry, code, 0)
  }

  function Backoff(attempts: int): int {
    if attempts <= 1 then 5 * SECOND
    else if attempts == 2 then 30 * SECOND
    else if attempts == 3 then 120 * SECOND
    else if attempts == 4 then 300 * SECOND
    else 900 * SECOND
  }

  lemma BackoffGrows(m: int, n: int)
    requires m <= n
    ensures 0 < Backoff(m) <= Backoff(n) <= 15 * 60 * SECOND
  {
  }

  // ---- queue.go ----

  datatype Status = Pending | Delivering | Delivered | Failed | DeadHook

  datatype When = At(t: int) | Infinity

  datatype Row = Row(url: string, key: Option<string>, priority: int, createdAt: int, status: Status, attempts: nat,
                     due: When, deliveredAt: Option<int>, lastStatus: Option<int>)

  type Table = map<int, Row>

  datatype Claimed = Claimed(id: int, url: string, attempts: nat)

  predicate Past(w: When, now: int) {
    w.At? && w.t <= now
  }

  /** The claim's filter; `repaired` adds 'delivering' to it, as the comment above Claim intends. */
  predicate Claimable(r: Row, now: int, repaired: bool) {
    (r.status == Pending || r.status == Failed || (repaired && r.status == Delivering)) && Past(r.due, now)
  }

  function Due(t: Table, held: set<int>, now: int, repaired: bool): set<int> {
    set id | id in t && id !in held && Claimable(t[id], now, repaired)
  }

  function DueOrder(t: Table): Ranks {
    map id | id in t && t[id].due.At? :: Rank(-t[id].priority, t[id].due.t)
  }

  function ClaimedRow(r: Row, now: int, lease: int): Row {
    r.(status := Delivering, due := At(now + lease), attempts := r.attempts + 1)
  }

  function ClaimRows(t: Table, ids: set<int>, now: int, lease: int): Table {
    map id | id in t :: if id in ids then ClaimedRow(t[id], now, lease) else t[id]
  }

  /** Complete decides by the attempts the worker was handed, not by the row's. */
  function CompletedRow(r: Row, attempts: nat, reply: Reply, now: int): Row {
    match reply.verdict
    case Sent => r.(status := Delivered, deliveredAt := Some(now), lastStatus := Some(reply.code))
    case Dead => r.(status := DeadHook, lastStatus := Some(reply.code))
    case Drop => r.(status := Failed, due := Infinity, lastStatus := Some(reply.code))
    case Retry =>
      if attempts >= MAX_ATTEMPTS then r.(status := Failed, due := Infinity, lastStatus := Some(reply.code))
      else r.(status := Pending, due := At(now + Delay(attempts, reply)), lastStatus := Some(reply.code))
  }

  function Delay(attempts: nat, reply: Reply): int {
    if reply.retryAfter > 0 then reply.retryAfter else Backoff(attempts)
  }

  function Completed(t: Table, id: int, attempts: nat, reply: Reply, now: int): Table {
    if id in t then t[id := CompletedRow(t[id], attempts, reply, now)] else t
  }

  /** Which answer leads where, and when a message that is tried again is due. */
  lemma FateOfSend(r: Row, attempts: nat, x: Exchange, now: int)
    ensures var after := CompletedRow(r, attempts, Send(x), now);
            var code := if x.Answered? then x.code else 0;
            var asked := x.Answered? && x.code == 429 && x.asked > 0;
            var transient := !x.BadUrl? && !(200 <= code < 300) && code !in {400, 401, 403, 404, 413};
            && (after.status == Delivered <==> 200 <= code < 300)
            && (after.status == DeadHook <==> x.BadUrl? || code in {401, 403, 404})
            && (after.status == Failed <==> code in {400, 413} || (transient && attempts >= 6))
            && (after.status == Pending <==> transient && attempts < 6)
            && (after.status == Failed ==> after.due == Infinity)
            && (after.status == Pending ==> after.due == At(now + if asked then x.asked else Backoff(attempts)))
            && after.lastStatus == Some(code) && after.attempts == r.attempts && after.key == r.key
            && after.deliveredAt == (if after.status == Delivered then Some(now) else r.deliveredAt)
  {
  }

  predicate Prunable(r: Row, now: int, keep: int) {
    r.status == Delivered && r.deliveredAt.Some? && r.deliveredAt.value < now - keep
  }

  function Pruned(t: Table, now: int, keep: int): Table {
    map id | id in t && !Prunable(t[id], now, keep) :: t[id]
  }

  function KeyOf(dedupeKey: string): Option<string> {
    if dedupeKey == "" then None else Some(dedupeKey)
  }

  predicate Taken(t: Table, key: Option<string>) {
    key.Some? && exists id | id in t :: t[id].key == key
  }

  function NewRow(url: string, key: Option<string>, priority: int, now: int): Row {
    Row(url, key, priority, now, Pending, 0, At(now), None, None)
  }

  /** The insert draws its id from the sequence whether or not the key conflicts. */
  function Enqueued(t: Table, serial: int, url: string, key: Option<string>, priority: int, now: int): Table {
    if Taken(t, key) then t else t[serial := NewRow(url, key, priority, now)]
  }

  /** What the first due rows are, on the rows' own fields. */
  lemma DueOnFields(t: Table, held: set<int>, limit: nat, now: int, ids: set<int>)
    requires Top(DueOrder(t), Due(t, held, now, false), limit, ids)
    ensures forall x | x in t && x in ids ::
              && x !in held && (t[x].status == Pending || t[x].status == Failed) && t[x].due.At? && t[x].due.t <= now
    ensures forall y | y in t && y !in held && y !in ids
              && (t[y].status == Pending || t[y].status == Failed) && t[y].due.At? && t[y].due.t <= now ::
              |ids| == limit
    ensures forall x, y | x in t && x in ids && y in t && y !in held && y !in ids
              && (t[y].status == Pending || t[y].status == Failed) && t[y].due.At? && t[y].due.t <= now ::
              t[x].priority > t[y].priority || (t[x].priority == t[y].priority && t[x].due.t <= t[y].due.t)
  {
    var due := Due(t, held, now, false);
    forall y | y in t && y !in held && y !in ids
      && (t[y].status == Pending || t[y].status == Failed) && t[y].due.At? && t[y].due.t <= now
      ensures |ids| == limit
    {
      assert y in due;
      SubsetCount(ids + {y}, due);
    }
    forall x, y | x in t && x in ids && y in t && y !in held && y !in ids
      && (t[y].status == Pending || t[y].status == Failed) && t[y].due.At? && t[y].due.t <= now
      ensures t[x].due.At?
              && (t[x].priority > t[y].priority || (t[x].priority == t[y].priority && t[x].due.t <= t[y].due.t))
    {
      assert x in due && y in due && !Before(DueOrder(t), y, x);
    }
  }

  function IdsOf(out: seq<Claimed>): set<int> {
    set c | c in out :: c.id
  }

  class Queue {
    var rows: Table
    var serial: int

    constructor ()
      ensures rows == map[] && serial == 1
    {
      rows, serial := map[], 1;
    }

    /** Zero means the key is already queued or sent; an empty key never is. */
    method Enqueue(url: string, dedupeKey: string, priority: int, now: int) returns (id: int)
      requires serial > 0
      modifies this
      ensures rows == Enqueued(old(rows), old(serial), url, KeyOf(dedupeKey), priority, now)
      ensures serial == old(serial) + 1
      ensures id == 0 <==>
                dedupeKey != "" && exists other :: other in old(rows) && old(rows)[other].key == Some(dedupeKey)
      ensures id == 0 ==> rows == old(rows)
      ensures id != 0 ==>
                && id == old(serial) && id in rows && rows.Keys == old(rows).Keys + {id}
                && (forall other | other in rows && other != id :: rows[other] == old(rows)[other])
                && var r := rows[id];
                   && r.url == url && r.priority == priority && r.status == Pending && r.attempts == 0
                   && r.key == (if dedupeKey == "" then None else Some(dedupeKey))
                   && r.createdAt == now && r.due == At(now) && r.deliveredAt == None && r.lastStatus == None
    {
      var key := if dedupeKey == "" then None else Some(dedupeKey);
      var taken := false;
      if key.Some? {
        taken := exists other :: other in rows && rows[other].key == key;
      }
      if taken {
        id := 0;
      } else {
        id := serial;
        rows := rows[id := Row(url, key, priority, now, Pending, 0, At(now), None, None)];
      }
      serial := serial + 1;
    }

    /** At most `limit` due rows, higher priority and earlier due first, each once and in no order.  A negative limit is
        an SQL error. */
    method Claim(limit: int, lease: int, now: int, held: set<int>) returns (res: Option<seq<Claimed>>)
      modifies this`rows
      ensures limit < 0 ==> res == None && rows == old(rows)
      ensures limit >= 0 ==>
                && res.Some?
                && |res.value| == |IdsOf(res.value)|
                && Top(DueOrder(old(rows)), Due(old(rows), held, now, false), limit, IdsOf(res.value))
                && rows == ClaimRows(old(rows), IdsOf(res.value), now, lease)
      // the rows returned were due and free, and are returned as they now are
      ensures forall i | limit >= 0 && 0 <= i < |res.value| ::
                var c := res.value[i];
                && c.id in old(rows) && c.id !in held && c.url == old(rows)[c.id].url
                && (old(rows)[c.id].status == Pending || old(rows)[c.id].status == Failed)
                && old(rows)[c.id].due.At? && old(rows)[c.id].due.t <= now
                && c.attempts == old(rows)[c.id].attempts + 1
      // as many as the limit if any is left
      ensures forall y | limit >= 0 && y in old(rows) && y !in held && y !in IdsOf(res.value)
                && (old(rows)[y].status == Pending || old(rows)[y].status == Failed)
                && old(rows)[y].due.At? && old(rows)[y].due.t <= now :: |res.value| == limit
      // before whatever was due and is left: by priority, and then by due time
      ensures forall i, y | limit >= 0 && 0 <= i < |res.value| && y in old(rows) && y !in held && y !in IdsOf(res.value)
                && (old(rows)[y].status == Pending || old(rows)[y].status == Failed)
                && old(rows)[y].due.At? && old(rows)[y].due.t <= now ::
                var x := res.value[i].id;
                && x in old(rows) && old(rows)[x].due.At?
                && (old(rows)[x].priority > old(rows)[y].priority
                    || (old(rows)[x].priority == old(rows)[y].priority && old(rows)[x].due.t <= old(rows)[y].due.t))
      // leased and counted; nothing else changes
      ensures limit >= 0 ==>
                && rows.Keys == old(rows).Keys
                && forall id | id in old(rows) ::
                     rows[id] == if id !in IdsOf(res.value) then old(rows)[id]
                                 else old(rows)[id].(status := Delivering, due := At(now + lease),
                                                     attempts := old(rows)[id].attempts + 1)
    {
      if limit < 0 {
        return None;
      }
      ghost var was := rows;
      var ids := Select(DueOrder(rows), Due(rows, held, now, false), limit);
      forall i | 0 <= i < |ids| ensures ids[i] in rows {
        assert ids[i] in Elems(ids);
      }
      rows := ClaimRows(rows, Elems(ids), now, lease);
      var out := Scan(ids);
      DistinctCount(ids);
      forall id ensures id in IdsOf(out) <==> id in Elems(ids) {
        if id in Elems(ids) {
          var i :| 0 <= i < |ids| && ids[i] == id;
          assert out[i] in out;
        }
      }
      assert IdsOf(out) == Elems(ids);
      DueOnFields(was, held, limit, now, Elems(ids));
      forall i | 0 <= i < |out| ensures out[i].id in Elems(ids) {
        assert out[i].id == ids[i];
      }
      res := Some(out);
    }

    method Scan(ids: seq<int>) returns (out: seq<Claimed>)
      requires forall i | 0 <= i < |ids| :: ids[i] in rows
      ensures |out| == |ids|
      ensures forall i | 0 <= i < |ids| :: out[i] == Claimed(ids[i], rows[ids[i]].url, rows[ids[i]].attempts)
    {
      out := [];
      for i := 0 to |ids|
        invariant |out| == i
        invariant forall j | 0 <= j < i :: out[j] == Claimed(ids[j], rows[ids[j]].url, rows[ids[j]].attempts)
      {
        out := out + [Claimed(ids[i], rows[ids[i]].url, rows[ids[i]].attempts)];
      }
    }

    method Complete(d: Claimed, reply: Reply, now: int)
      modifies this`rows
      ensures rows == Completed(old(rows), d.id, d.attempts, reply, now)
      // only that row, if it is still there, and whatever its status
      ensures rows.Keys == old(rows).Keys && forall id | id in rows && id != d.id :: rows[id] == old(rows)[id]
      ensures d.id in rows ==>
                var was, row := old(rows)[d.id], rows[d.id];
                && row.url == was.url && row.key == was.key && row.priority == was.priority
                && row.createdAt == was.createdAt && row.attempts == was.attempts && row.lastStatus == Some(reply.code)
                && match reply.verdict
                   case Sent => row.status == Delivered && row.deliveredAt == Some(now) && row.due == was.due
                   case Dead => row.status == DeadHook && row.deliveredAt == was.deliveredAt && row.due == was.due
                   case Drop => row.status == Failed && row.deliveredAt == was.deliveredAt && row.due == Infinity
                   case Retry =>
                     && row.deliveredAt == was.deliveredAt
                     // by the attempts that were handed out, not by those of the row
                     && if d.attempts >= 6 then row.status == Failed && row.due == Infinity
                        else
                          && row.status == Pending
                          && row.due == At(now + if reply.retryAfter > 0 then reply.retryAfter else Backoff(d.attempts))
    {
      if d.id !in rows {
        return;
      }
      var r := rows[d.id].(lastStatus := Some(reply.code));
      match reply.verdict {
        case Sent => r := r.(status := Delivered, deliveredAt := Some(now));
        case Dead => r := r.(status := DeadHook);
        case Drop => r := r.(status := Failed, due := Infinity);
        case Retry =>
          if d.attempts >= MAX_ATTEMPTS {
            r := r.(status := Failed, due := Infinity);
          } else {
            var delay := reply.retryAfter;
            if delay <= 0 {
              delay := Backoff(d.attempts);
            }
            r := r.(status := Pending, due := At(now + delay));
          }
      }
      rows := rows[d.id := r];
    }

    method Prune(keep: int, now: int) returns (deleted: nat)
      modifies this`rows
      ensures rows == Pruned(old(rows), now, keep)
      ensures deleted == |old(rows)| - |rows|
      // exactly the rows delivered longer ago than `keep` are gone, and the others are as they were
      ensures forall id :: id in rows <==>
                (id in old(rows)
                 && !(old(rows)[id].status == Delivered && old(rows)[id].deliveredAt.Some?
                      && old(rows)[id].deliveredAt.value < now - keep))
      ensures forall id | id in rows :: rows[id] == old(rows)[id]
    {
      var kept := Pruned(rows, now, keep);
      assert kept.Keys <= rows.Keys;
      SubsetCount(kept.Keys, rows.Keys);
      assert |kept| == |kept.Keys| && |rows| == |rows.Keys|;
      deleted := |rows| - |kept|;
      rows := kept;
    }
  }
}
