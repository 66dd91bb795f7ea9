/** handleIngest of internal/edge/server.go over Ingest of internal/edge/store.go. */
module EdgeIngest {
  import opened Base
  import opened Rsn

  datatype Caller = Caller(account: Option<int>, subject: Option<string>)

  datatype Event = Event(kind: string, payload: string, dedupeKey: string)

  datatype Request = Request(lone: Event, events: seq<Event>)

  /** A row of forge_plugin_ingest_events, in id order. */
  datatype Row = Row(caller: Caller, kind: string, payload: string, key: Option<string>)

  /** What becomes of one insert: it can fail, or take effect and fail to say so. */
  datatype Fault = Fine | Failed | Unheard

  /** One event against the table: no kind, an error, or kept, as a new row or as a duplicate. */
  datatype Offer = Rejected | Broken | Kept(isNew: bool)

  datatype Response = BadRequest | ServerError | Accepted(accepted: int, duplicates: int)

  // ---- The specification ----

  function KeyOf(dedupeKey: string): Option<string> {
    if dedupeKey == "" then None else Some(dedupeKey)
  }

  function Keys(rows: seq<Row>): set<string> {
    set r | r in rows && r.key.Some? :: r.key.value
  }

  function NewRow(caller: Caller, e: Event): Row {
    Row(caller, e.kind, if e.payload == "" then "{}" else e.payload, KeyOf(e.dedupeKey))
  }

  predicate IsNew(rows: seq<Row>, row: Row) {
    row.key.Some? ==> row.key.value !in Keys(rows)
  }

  function Ingested(rows: seq<Row>, row: Row): seq<Row> {
    if IsNew(rows, row) then rows + [row] else rows
  }

  /** The rows once every event of the batch has been offered. */
  function Stored(rows: seq<Row>, caller: Caller, batch: seq<Event>): seq<Row> {
    if batch == [] then rows
    else Ingested(Stored(rows, caller, batch[..|batch| - 1]), NewRow(caller, batch[|batch| - 1]))
  }

  predicate Blank(e: Event) {
    TrimSpace(e.kind) == ""
  }

  function FaultAt(faults: seq<Fault>, i: nat): Fault {
    if i < |faults| then faults[i] else Fine
  }

  predicate Passes(batch: seq<Event>, faults: seq<Fault>, n: nat)
    requires n <= |batch|
  {
    forall i | 0 <= i < n :: !Blank(batch[i]) && FaultAt(faults, i) == Fine
  }

  /** The first event that stops the loop. */
  predicate StopsAt(batch: seq<Event>, faults: seq<Fault>, n: nat) {
    n <= |batch| && Passes(batch, faults, n) && (n < |batch| ==> Blank(batch[n]) || FaultAt(faults, n) != Fine)
  }

  /** How many events took effect when the loop stopped at n. */
  function Reached(batch: seq<Event>, faults: seq<Fault>, n: nat): nat {
    if n < |batch| && !Blank(batch[n]) && FaultAt(faults, n) == Unheard then n + 1 else n
  }

  // ---- The server ----

  class Server {
    var rows: seq<Row>
    var ingested: int
    var duplicates: int

    constructor ()
      ensures rows == [] && ingested == 0 && duplicates == 0
    {
      rows, ingested, duplicates := [], 0, 0;
    }

    method Ingest(caller: Caller, kind: string, payload: string, dedupeKey: string, fault: Fault)
      returns (stored: Option<bool>)
      modifies this`rows
      ensures var row := Row(caller, kind, payload, KeyOf(dedupeKey));
              && rows == (if fault == Failed then old(rows) else Ingested(old(rows), row))
              && stored == (if fault == Fine then Some(IsNew(old(rows), row)) else None)
    {
      var key := KeyOf(dedupeKey);
      if fault == Failed {
        return None;
      }
      var was := |rows|;
      rows := Ingested(rows, Row(caller, kind, payload, key));
      stored := if fault == Fine then Some(|rows| > was) else None;
    }

    /** One turn of the loop. */
    method Offer(caller: Caller, e: Event, fault: Fault) returns (offer: Offer)
      modifies this`rows
      ensures rows == if Blank(e) || fault == Failed then old(rows) else Ingested(old(rows), NewRow(caller, e))
      ensures offer == if Blank(e) then Rejected else if fault != Fine then Broken else Kept(|rows| > |old(rows)|)
    {
      if TrimSpace(e.kind) == "" {
        return Rejected;
      }
      var payload := e.payload;
      if |payload| == 0 {
        payload := "{}";
      }
      var stored := Ingest(caller, e.kind, payload, e.dedupeKey, fault);
      offer := if stored == None then Broken else Kept(stored.value);
    }

    /** The loop: where it stopped and on what, and how many events were new and how many not. */
    method OfferAll(caller: Caller, batch: seq<Event>, faults: seq<Fault>)
      returns (n: nat, stop: Offer, inserted: int, repeated: int)
      modifies this`rows
      ensures StopsAt(batch, faults, n) && rows == Stored(old(rows), caller, batch[..Reached(batch, faults, n)])
      ensures n < |batch| ==> stop == if Blank(batch[n]) then Rejected else Broken
      ensures n == |batch| ==> stop.Kept? && inserted == |rows| - |old(rows)| && inserted + repeated == n
    {
      n, inserted, repeated, stop := 0, 0, 0, Kept(false);
      while n < |batch|
        invariant n <= |batch| && Passes(batch, faults, n) && stop.Kept?
        invariant rows == Stored(old(rows), caller, batch[..n])
        invariant inserted == |rows| - |old(rows)| && inserted + repeated == n
      {
        StoredMore(old(rows), caller, batch, n);
        stop := Offer(caller, batch[n], FaultAt(faults, n));
        if !stop.Kept? {
          return;
        }
        if stop.isNew {
          inserted := inserted + 1;
        } else {
          repeated := repeated + 1;
        }
        n := n + 1;
      }
    }

    method HandleIngest(caller: Caller, req: Request, faults: seq<Fault>) returns (response: Response, ghost n: nat)
      modifies this
      // the loop stops at the first event without a kind or with a store error; the batch is `events`, or the lone one
      ensures var batch := if req.events == [] then [req.lone] else req.events;
              && n <= |batch|
              && (forall i | 0 <= i < n :: TrimSpace(batch[i].kind) != "" && (i < |faults| ==> faults[i] == Fine))
              && (response == BadRequest <==> n < |batch| && TrimSpace(batch[n].kind) == "")
              && (response == ServerError <==>
                    n < |batch| && TrimSpace(batch[n].kind) != "" && n < |faults| && faults[n] != Fine)
              && (response.Accepted? <==> n == |batch|)
      // what it stored: every event before that, and the one it stopped at if its insert took effect unheard
      ensures var batch := if req.events == [] then [req.lone] else req.events;
              var heard := n < |batch| && TrimSpace(batch[n].kind) != "" && n < |faults| && faults[n] == Unheard;
              rows == Stored(old(rows), caller, batch[..if heard then n + 1 else n])
      // accepted is the rows added, duplicates the other events, in the reply and in the counters
      ensures response.Accepted? ==>
                && response.accepted == |rows| - |old(rows)|
                && response.accepted + response.duplicates == |if req.events == [] then [req.lone] else req.events|
                && ingested == old(ingested) + |rows| - |old(rows)|
                && duplicates == old(duplicates) + response.duplicates
      ensures !response.Accepted? ==> ingested == old(ingested) && duplicates == old(duplicates)
    {
      var batch := req.events;
      if |batch| == 0 {
        batch := [req.lone];
      }
      var stop, inserted, repeated;
      n, stop, inserted, repeated := OfferAll(caller, batch, faults);
      match stop {
        case Rejected => response := BadRequest;
        case Broken => response := ServerError;
        case Kept(_) =>
          ingested := ingested + inserted;
          duplicates := duplicates + repeated;
          response := Accepted(inserted, repeated);
      }
    }
  }

  // ---- Replays ----

  /** The batch has at most one row per key, and an index enforces it. */
  ghost predicate OneRowPerKey(rows: seq<Row>) {
    forall i, j | 0 <= i < j < |rows| && rows[i].key.Some? :: rows[i].key != rows[j].key
  }

  function Offered(batch: seq<Event>): set<string> {
    set e | e in batch && e.dedupeKey != "" :: e.dedupeKey
  }

  function Keyless(batch: seq<Event>): nat {
    if batch == [] then 0 else Keyless(batch[..|batch| - 1]) + if batch[|batch| - 1].dedupeKey == "" then 1 else 0
  }

  lemma IngestedKeys(rows: seq<Row>, row: Row)
    ensures Keys(Ingested(rows, row)) == Keys(rows) + (if row.key.Some? then {row.key.value} else {})
    ensures OneRowPerKey(rows) ==> OneRowPerKey(Ingested(rows, row))
  {
    if row.key.None? || row.key.value !in Keys(rows) {
      assert forall r :: r in rows + [row] <==> r in rows || r == row;
      forall i | 0 <= i < |rows| && rows[i].key.Some? ensures rows[i].key != row.key {
        assert rows[i] in rows;
      }
    }
  }

  lemma StoredMore(rows: seq<Row>, caller: Caller, batch: seq<Event>, i: nat)
    requires i < |batch|
    ensures Stored(rows, caller, batch[..i + 1]) == Ingested(Stored(rows, caller, batch[..i]), NewRow(caller, batch[i]))
  {
    assert batch[..i + 1][..i] == batch[..i];
  }

  lemma {:induction false} StoredKeys(rows: seq<Row>, caller: Caller, batch: seq<Event>)
    ensures Keys(Stored(rows, caller, batch)) == Keys(rows) + Offered(batch)
    ensures OneRowPerKey(rows) ==> OneRowPerKey(Stored(rows, caller, batch))
  {
    if batch == [] {
    } else {
      var front, last := batch[..|batch| - 1], batch[|batch| - 1];
      StoredKeys(rows, caller, front);
      IngestedKeys(Stored(rows, caller, front), NewRow(caller, last));
      OfferedMore(batch);
    }
  }

  lemma OfferedMore(batch: seq<Event>)
    requires batch != []
    ensures var last := batch[|batch| - 1];
            Offered(batch) == Offered(batch[..|batch| - 1]) + (if last.dedupeKey != "" then {last.dedupeKey} else {})
  {
    assert batch == batch[..|batch| - 1] + [batch[|batch| - 1]];
  }

  /** The table only ever grows at its end. */
  lemma {:induction false} StoredAppends(rows: seq<Row>, caller: Caller, batch: seq<Event>)
    ensures |rows| <= |Stored(rows, caller, batch)| <= |rows| + |batch| && Stored(rows, caller, batch)[..|rows|] == rows
  {
    if batch == [] {
    } else {
      StoredAppends(rows, caller, batch[..|batch| - 1]);
    }
  }

  /** Each row added is one of the events, its payload as sent, or an empty object if none was sent. */
  lemma {:induction false} RowsAreEvents(rows: seq<Row>, caller: Caller, batch: seq<Event>, i: nat) returns (j: nat)
    requires |rows| <= i < |Stored(rows, caller, batch)|
    ensures j < |batch|
    ensures var row, e := Stored(rows, caller, batch)[i], batch[j];
            && row.caller == caller && row.kind == e.kind
            && row.payload == (if e.payload == "" then "{}" else e.payload)
            && row.key == (if e.dedupeKey == "" then None else Some(e.dedupeKey))
  {
    if batch == [] {
    } else {
      var front := batch[..|batch| - 1];
      if i < |Stored(rows, caller, front)| {
        j := RowsAreEvents(rows, caller, front, i);
      } else {
        j := |batch| - 1;
      }
    }
  }

  /** And an event without a key adds its row every time. */
  lemma KeylessIsKept(rows: seq<Row>, caller: Caller, e: Event)
    requires e.dedupeKey == ""
    ensures var after := Stored(rows, caller, [e]);
            |after| == |rows| + 1 && after[..|rows|] == rows && after[|rows|].kind == e.kind
  {
    assert [e][..0] == [];
  }

  /** Offering again what is there adds the events without a key, and no others. */
  lemma {:induction false} RepeatAddsKeyless(rows: seq<Row>, caller: Caller, batch: seq<Event>)
    requires Offered(batch) <= Keys(rows)
    ensures |Stored(rows, caller, batch)| == |rows| + Keyless(batch)
    ensures Keyless(batch) == 0 ==> Stored(rows, caller, batch) == rows
  {
    if batch == [] {
    } else {
      var front := batch[..|batch| - 1];
      OfferedMore(batch);
      RepeatAddsKeyless(rows, caller, front);
      StoredKeys(rows, caller, front);
    }
  }

  lemma {:induction false} StoredJoin(rows: seq<Row>, caller: Caller, a: seq<Event>, b: seq<Event>)
    ensures Stored(rows, caller, a + b) == Stored(Stored(rows, caller, a), caller, b)
  {
    if b == [] {
      assert a + b == a;
    } else {
      StoredJoin(rows, caller, a, b[..|b| - 1]);
      assert (a + b)[..|a + b| - 1] == a + b[..|b| - 1];
    }
  }

  /** `a` holds the keys of `b`, and `extra` rows more. */
  predicate Exceeds(a: seq<Row>, b: seq<Row>, extra: nat) {
    Keys(a) == Keys(b) && |a| == |b| + extra && (extra == 0 ==> a == b)
  }

  lemma {:induction false} StoredKeepsExcess(a: seq<Row>, b: seq<Row>, extra: nat, caller: Caller, batch: seq<Event>)
    requires Exceeds(a, b, extra)
    ensures Exceeds(Stored(a, caller, batch), Stored(b, caller, batch), extra)
  {
    if batch == [] {
    } else {
      var front, row := batch[..|batch| - 1], NewRow(caller, batch[|batch| - 1]);
      StoredKeepsExcess(a, b, extra, caller, front);
      IngestedKeys(Stored(a, caller, front), row);
      IngestedKeys(Stored(b, caller, front), row);
    }
  }

  /** Finishing a batch after a first attempt that reached k: the rows of one clean run, and every event without a key
      that was reached, once more. */
  lemma ReplayAdds(rows: seq<Row>, caller: Caller, batch: seq<Event>, k: nat)
    requires k <= |batch|
    ensures Exceeds(Stored(Stored(rows, caller, batch[..k]), caller, batch), Stored(rows, caller, batch),
                    Keyless(batch[..k]))
  {
    var partly := Stored(rows, caller, batch[..k]);
    var again := Stored(partly, caller, batch[..k]);
    assert batch == batch[..k] + batch[k..];
    StoredJoin(rows, caller, batch[..k], batch[k..]);
    StoredJoin(partly, caller, batch[..k], batch[k..]);
    StoredKeys(rows, caller, batch[..k]);
    RepeatAddsKeyless(partly, caller, batch[..k]);
    StoredKeys(partly, caller, batch[..k]);
    assert Exceeds(again, partly, Keyless(batch[..k]));
    StoredKeepsExcess(again, partly, Keyless(batch[..k]), caller, batch[k..]);
  }

  /** A retried batch ends as one clean run would, row for row, exactly when every event its first attempt reached has
      a dedupe key. */
  lemma ReplayIsSafeExactlyWithKeys(rows: seq<Row>, caller: Caller, batch: seq<Event>, k: nat)
    requires k <= |batch|
    ensures Stored(Stored(rows, caller, batch[..k]), caller, batch) == Stored(rows, caller, batch) <==>
            forall i | 0 <= i < k :: batch[i].dedupeKey != ""
  {
    ReplayAdds(rows, caller, batch, k);
    KeylessNone(batch[..k]);
  }

  lemma {:induction false} KeylessNone(batch: seq<Event>)
    ensures Keyless(batch) == 0 <==> forall i | 0 <= i < |batch| :: batch[i].dedupeKey != ""
  {
    if batch == [] {
    } else {
      KeylessNone(batch[..|batch| - 1]);
    }
  }

  /** What is left when attempts that reached so many events of the batch have broken off, one after the other. */
  function Attempted(rows: seq<Row>, caller: Caller, batch: seq<Event>, tries: seq<nat>): seq<Row>
    requires forall i | 0 <= i < |tries| :: tries[i] <= |batch|
  {
    if tries == [] then rows
    else
      var reached := tries[|tries| - 1];
      Stored(Attempted(rows, caller, batch, tries[..|tries| - 1]), caller, batch[..reached])
  }

  /** With no one else writing, any number of broken attempts at a batch of keyed events leave no trace: the end is
      that of one clean run. */
  lemma {:induction false} RetriesLeaveNoTrace(rows: seq<Row>, caller: Caller, batch: seq<Event>, tries: seq<nat>)
    requires forall i | 0 <= i < |tries| :: tries[i] <= |batch|
    requires forall i | 0 <= i < |batch| :: batch[i].dedupeKey != ""
    ensures Stored(Attempted(rows, caller, batch, tries), caller, batch) == Stored(rows, caller, batch)
  {
    if tries == [] {
    } else {
      var front := tries[..|tries| - 1];
      ReplayIsSafeExactlyWithKeys(Attempted(rows, caller, batch, front), caller, batch, tries[|tries| - 1]);
      RetriesLeaveNoTrace(rows, caller, batch, front);
    }
  }

  // ---- With others writing ----

  /** One insert: an event of ours, or somebody else's row. */
  datatype Insert = Ours(e: Event) | Theirs(row: Row)

  function Interleaved(rows: seq<Row>, caller: Caller, inserts: seq<Insert>): seq<Row> {
    if inserts == [] then rows
    else
      var before, last := Interleaved(rows, caller, inserts[..|inserts| - 1]), inserts[|inserts| - 1];
      Ingested(before, if last.Ours? then NewRow(caller, last.e) else last.row)
  }

  function OursOf(inserts: seq<Insert>): seq<Event> {
    if inserts == [] then []
    else
      var last := inserts[|inserts| - 1];
      OursOf(inserts[..|inserts| - 1]) + (if last.Ours? then [last.e] else [])
  }

  /** When nobody else writes, that is what the handler stores. */
  lemma {:induction false} AloneIsStored(rows: seq<Row>, caller: Caller, inserts: seq<Insert>)
    requires forall i | 0 <= i < |inserts| :: inserts[i].Ours?
    ensures Interleaved(rows, caller, inserts) == Stored(rows, caller, OursOf(inserts))
  {
    if inserts == [] {
    } else {
      var front, last := inserts[..|inserts| - 1], inserts[|inserts| - 1];
      AloneIsStored(rows, caller, front);
      assert OursOf(inserts)[..|OursOf(front)|] == OursOf(front);
    }
  }

  lemma {:induction false} InterleavedKeys(rows: seq<Row>, caller: Caller, inserts: seq<Insert>)
    requires OneRowPerKey(rows)
    ensures OneRowPerKey(Interleaved(rows, caller, inserts))
    ensures Offered(OursOf(inserts)) <= Keys(Interleaved(rows, caller, inserts))
  {
    if inserts == [] {
    } else {
      var front, last := inserts[..|inserts| - 1], inserts[|inserts| - 1];
      InterleavedKeys(rows, caller, front);
      IngestedKeys(Interleaved(rows, caller, front), if last.Ours? then NewRow(caller, last.e) else last.row);
      if last.Ours? {
        OfferedMore(OursOf(inserts));
        assert OursOf(inserts)[..|OursOf(front)|] == OursOf(front);
      }
    }
  }

  function RowsWith(rows: seq<Row>, key: string): set<int> {
    set i | 0 <= i < |rows| && rows[i].key == Some(key)
  }

  /** Whatever broken attempts have offered before, and whoever writes in between, insert by insert, once an attempt
      gets through each key of its batch has one row. */
  lemma EachKeyOnce(rows: seq<Row>, caller: Caller, inserts: seq<Insert>, broken: seq<Event>, batch: seq<Event>,
                    key: string)
    requires OneRowPerKey(rows) && OursOf(inserts) == broken + batch && key in Offered(batch)
    ensures |RowsWith(Interleaved(rows, caller, inserts), key)| == 1
  {
    var after := Interleaved(rows, caller, inserts);
    InterleavedKeys(rows, caller, inserts);
    assert key in Offered(broken + batch) by {
      var e :| e in batch && e.dedupeKey == key;
      assert e in broken + batch;
    }
    var i :| 0 <= i < |after| && after[i].key == Some(key);
    assert RowsWith(after, key) == {i};
  }
}
