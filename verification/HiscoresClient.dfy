/** internal/hiscores/client.go: Fetch's retry loop over whatever the network and the context do. */
module HiscoresClient {
  import opened Base
  import Rsn

  datatype Outcome = OK | Unranked | Transient

  datatype Error = InvalidRsn | UnknownMode | NotFound | Cancelled | Attempt(error: AttemptError)

  datatype AttemptError = NoResponse | RateLimited | Status(code: int) | Unreadable | NotStats

  datatype Result = Result(outcome: Outcome, body: Option<string>, err: Option<Error>)

  /** What one HTTP exchange comes to. */
  datatype Response = Failed | Answered(code: int, body: string, readFails: bool)

  /** One round of the loop: the exchange, and whether the context ended by its end or during the pause after it. */
  datatype Turn = Turn(response: Response, cancelledAfter: bool, cancelledInPause: bool)

  datatype Once = Good(body: string) | Missing | Bad(error: AttemptError)

  const BODY_LIMIT: nat := 0x10_0000

  function Clip(body: string): string {
    if |body| > BODY_LIMIT then body[..BODY_LIMIT] else body
  }

  /** fetchOnce; `stats` says which bodies decode to a JSON object with a non-empty list of skills. */
  function FetchOnce(r: Response, stats: string -> bool): Once {
    if r.Failed? then Bad(NoResponse)
    else if r.code == 404 then Missing
    else if r.code == 429 then Bad(RateLimited)
    else if r.code >= 400 then Bad(Status(r.code))
    else if r.readFails then Bad(Unreadable)
    else if !stats(Clip(r.body)) then Bad(NotStats)
    else Good(Clip(r.body))
  }

  /** The modes that have a table. */
  const MODES: set<string> := {"main", "ironman", "hardcore", "ultimate"}

  function Tries(retries: int): nat {
    if retries < 1 then 1 else retries
  }

  /** A round after which the loop goes on: a transient failure that the context outlives. */
  predicate GoesOn(t: Turn, stats: string -> bool) {
    FetchOnce(t.response, stats).Bad? && !t.cancelledAfter && !t.cancelledInPause
  }

  /** The loop reaches round k. */
  predicate Reaches(turns: nat -> Turn, k: nat, stats: string -> bool) {
    forall j | 0 <= j < k :: GoesOn(turns(j), stats)
  }

  predicate LookedUp(rsn: string, mode: string) {
    Rsn.IsPlausibleRsn(Rsn.Display(rsn)) && mode in MODES
  }

  /** The first stats body, if the loop gets to it. */
  predicate Succeeds(turns: nat -> Turn, k: nat, stats: string -> bool) {
    Reaches(turns, k, stats) && FetchOnce(turns(k).response, stats).Good?
  }

  /** The error that goes with a loop that stopped after so many requests. */
  function Why(rsn: string, mode: string, retries: int, turns: nat -> Turn, stats: string -> bool, requests: nat)
    : Option<Error>
  {
    if !Rsn.IsPlausibleRsn(Rsn.Display(rsn)) then Some(InvalidRsn)
    else if mode !in MODES then Some(UnknownMode)
    else if requests == 0 then None
    else
      var last := turns(requests - 1);
      match FetchOnce(last.response, stats)
      case Good(_) => None
      case Missing => Some(NotFound)
      case Bad(error) =>
        if last.cancelledAfter || (requests < Tries(retries) && last.cancelledInPause) then Some(Cancelled)
        else Some(Attempt(error))
  }

  /** Where the loop stops: at the first round that does not go on, or at the last that it may make. */
  predicate StopsAfter(turns: nat -> Turn, n: nat, retries: int, stats: string -> bool) {
    && 1 <= n <= Tries(retries) && Reaches(turns, n - 1, stats)
    && (n < Tries(retries) ==> !GoesOn(turns(n - 1), stats))
  }

  lemma SuccessIsTheStop(turns: nat -> Turn, n: nat, retries: int, stats: string -> bool, k: nat)
    requires StopsAfter(turns, n, retries, stats) && k < Tries(retries)
    ensures Succeeds(turns, k, stats) <==> n == k + 1 && FetchOnce(turns(k).response, stats).Good?
  {
    if Succeeds(turns, k, stats) {
      assert !GoesOn(turns(k), stats);
    }
  }

  function ResultOf(rsn: string, mode: string, retries: int, turns: nat -> Turn, stats: string -> bool, n: nat)
    : Result
  {
    var err := Why(rsn, mode, retries, turns, stats, n);
    if n == 0 then Result(Unranked, None, err)
    else
      match FetchOnce(turns(n - 1).response, stats)
      case Good(body) => Result(OK, Some(body), err)
      case Missing => Result(Unranked, None, err)
      case Bad(_) => Result(Transient, None, err)
  }

  /** The loop over attempts. */
  method Attempts(rsn: string, mode: string, retries: int, turns: nat -> Turn, stats: string -> bool)
    returns (res: Result, requests: nat)
    requires LookedUp(rsn, mode)
    ensures StopsAfter(turns, requests, retries, stats)
    ensures res == ResultOf(rsn, mode, retries, turns, stats, requests)
  {
    var attempts := if retries < 1 then 1 else retries;
    var last := NoResponse;
    requests := 0;
    var attempt := 1;
    while attempt <= attempts
      invariant 1 <= attempt <= attempts + 1 && requests == attempt - 1
      invariant requests > 0 ==> Reaches(turns, requests - 1, stats)
      invariant requests > 0 ==> FetchOnce(turns(requests - 1).response, stats) == Bad(last)
      invariant 0 < requests < attempts ==> GoesOn(turns(requests - 1), stats)
      invariant requests > 0 ==> !turns(requests - 1).cancelledAfter
    {
      var turn := turns(requests);
      requests := requests + 1;
      match FetchOnce(turn.response, stats) {
        case Good(body) =>
          return Result(OK, Some(body), None), requests;
        case Missing =>
          return Result(Unranked, None, Some(NotFound)), requests;
        case Bad(error) =>
          last := error;
          if turn.cancelledAfter {
            return Result(Transient, None, Some(Cancelled)), requests;
          }
          if attempt < attempts && turn.cancelledInPause {
            return Result(Transient, None, Some(Cancelled)), requests;
          }
      }
      attempt := attempt + 1;
    }
    res := Result(Transient, None, Some(Attempt(last)));
  }

  method Fetch(rsn: string, mode: string, retries: int, turns: nat -> Turn, stats: string -> bool)
    returns (res: Result, requests: nat)
    // no request is spent on a name or a table that cannot be looked up
    ensures requests == 0 <==>
              !Rsn.IsPlausibleRsn(Rsn.Display(rsn)) || mode !in {"main", "ironman", "hardcore", "ultimate"}
    ensures requests == 0 ==> res.outcome == Unranked
    ensures !Rsn.IsPlausibleRsn(Rsn.Display(rsn)) ==> res.err == Some(InvalidRsn)
    ensures requests == 0 && Rsn.IsPlausibleRsn(Rsn.Display(rsn)) ==> res.err == Some(UnknownMode)
    // otherwise there are as many as it takes, up to the number of attempts
    ensures requests <= if retries < 1 then 1 else retries
    // every round but the last is a failure other than a 404, and the context outlives it and the pause
    ensures forall j | 0 <= j < requests - 1 ::
              var r := turns(j).response;
              && !turns(j).cancelledAfter && !turns(j).cancelledInPause
              && (r.Answered? ==>
                    && r.code != 404
                    && (r.code >= 400 || r.readFails
                        || !stats(if |r.body| > 0x10_0000 then r.body[..0x10_0000] else r.body)))
    // a 404 is final
    ensures requests > 0 ==>
              var r := turns(requests - 1).response;
              r.Answered? && r.code == 404 ==> res.outcome == Unranked && res.err == Some(NotFound)
    // a stats body is handed on byte for byte, up to one MiB
    ensures requests > 0 ==>
              var r := turns(requests - 1).response;
              r.Answered? && r.code < 400 && !r.readFails ==>
                var body := if |r.body| > 0x10_0000 then r.body[..0x10_0000] else r.body;
                stats(body) ==> res.outcome == OK && res.body == Some(body)
    // any other end is transient, with the reason; it comes on cancellation or when the attempts are used up
    ensures requests > 0 ==>
              var last := turns(requests - 1);
              var r := last.response;
              var bad := !r.Answered? || (r.code >= 400 && r.code != 404) || (r.code < 400 && r.readFails)
                         || (r.code < 400 && !stats(if |r.body| > 0x10_0000 then r.body[..0x10_0000] else r.body));
              bad ==>
                var used := requests == if retries < 1 then 1 else retries;
                && res.outcome == Transient && (used || last.cancelledAfter || last.cancelledInPause)
                && res.err == Some(
                     if last.cancelledAfter || (!used && last.cancelledInPause) then Cancelled
                     else if !r.Answered? then Attempt(NoResponse)
                     else if r.code == 429 then Attempt(RateLimited)
                     else if r.code >= 400 then Attempt(Status(r.code))
                     else if r.readFails then Attempt(Unreadable)
                     else Attempt(NotStats))
    // it is ok exactly when some attempt, all earlier ones transient and not cancelled, brings a stats body
    ensures res.outcome == OK <==>
              LookedUp(rsn, mode) && exists k: nat :: k < Tries(retries) && Succeeds(turns, k, stats)
    ensures forall k: nat | LookedUp(rsn, mode) && k < Tries(retries) && Succeeds(turns, k, stats) :: requests == k + 1
    ensures res.body.Some? <==> res.outcome == OK
    ensures res.err.None? <==> res.outcome == OK
  {
    var clean := Rsn.SanitizeRsn(rsn);
    if !Rsn.IsPlausibleRsn(clean) {
      return Result(Unranked, None, Some(InvalidRsn)), 0;
    }
    if mode !in MODES {
      return Result(Unranked, None, Some(UnknownMode)), 0;
    }
    res, requests := Attempts(rsn, mode, retries, turns, stats);
    forall k: nat | k < Tries(retries)
      ensures Succeeds(turns, k, stats) <==> requests == k + 1 && FetchOnce(turns(k).response, stats).Good?
    {
      SuccessIsTheStop(turns, requests, retries, stats, k);
    }
    if res.outcome == OK {
      assert Succeeds(turns, requests - 1, stats);
    }
    forall j | 0 <= j < requests - 1 ensures GoesOn(turns(j), stats) {
    }
  }
}
