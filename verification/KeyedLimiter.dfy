/** internal/ratelimit/keyed.go: one limiter per key, made on demand and dropped when idle.

    The functions say what each critical section does to a value; the class does it in place.  `L` stands
    for the identity of a limiter, which outlives its place in the map: Wait keeps the pointer while it sleeps. */
module KeyedLimiter {
  import opened TokenBucket

  datatype BucketState<L> = BucketState(limiter: L, lastUsed: nat, notBefore: nat)

  datatype State<L> = State(buckets: map<string, BucketState<L>>, levels: map<L, Level>)

  /** ensureLocked; `spare` is the limiter to install when the key has none. */
  function Ensure<L>(r: Rate, s: State<L>, key: string, now: nat, spare: L): State<L> {
    if key in s.buckets then
      s.(buckets := s.buckets[key := s.buckets[key].(lastUsed := now)])
    else
      State(s.buckets[key := BucketState(spare, now, 0)], s.levels[spare := Fresh(r)])
  }

  /** The locked part of ReserveFor, with `until` already computed. */
  function Hold<L>(r: Rate, s: State<L>, key: string, until: nat, now: nat, spare: L): State<L> {
    var e := Ensure(r, s, key, now, spare);
    var b := e.buckets[key];
    if until > b.notBefore then e.(buckets := e.buckets[key := b.(notBefore := until)]) else e
  }

  predicate Idle<L>(s: State<L>, key: string, cutoff: int)
    requires key in s.buckets
  {
    s.buckets[key].lastUsed < cutoff
  }

  function Evict<L>(s: State<L>, cutoff: int): State<L> {
    s.(buckets := map key | key in s.buckets && !Idle(s, key, cutoff) :: s.buckets[key])
  }

  /** A waiter reserves on the limiter it holds, wherever that limiter now lives. */
  function Reserve<L>(r: Rate, s: State<L>, limiter: L, now: nat): State<L>
    requires limiter in s.levels
  {
    s.(levels := s.levels[limiter := Take(r, s.levels[limiter], now).level])
  }

  class Bucket {
    const limiter: Limiter
    var lastUsed: nat
    var notBefore: nat

    constructor (limiter: Limiter)
      ensures this.limiter == limiter && lastUsed == 0 && notBefore == 0
    {
      this.limiter := limiter;
      lastUsed, notBefore := 0, 0;
    }
  }

  class Keyed {
    const rate: Rate
    const ttl: nat
    var buckets: map<string, Bucket>
    /** Every bucket and every limiter ever made, evicted or not. */
    ghost var made: set<Bucket>
    ghost var issued: set<Limiter>

    ghost predicate Valid()
      reads this, made, issued
    {
      && rate.burst > 0
      && (forall l | l in issued :: l.rate == rate)
      && (forall b | b in made :: b.limiter in issued)
      && (forall key | key in buckets :: buckets[key] in made)
      && (forall j, k | j in buckets && k in buckets && j != k :: buckets[j] != buckets[k])
    }

    ghost function View(): (s: State<Limiter>)
      requires Valid()
      reads this, made, issued
    {
      State(map key | key in buckets :: Seen(buckets[key]), map l | l in issued :: l.level)
    }

    static ghost function Seen(b: Bucket): BucketState<Limiter>
      reads b
    {
      BucketState(b.limiter, b.lastUsed, b.notBefore)
    }

    /** The same, read off field by field. */
    ghost predicate Shows(s: State<Limiter>)
      requires Valid()
      reads this, made, issued
    {
      && s.buckets.Keys == buckets.Keys
      && (forall key | key in buckets :: s.buckets[key] == Seen(buckets[key]))
      && s.levels.Keys == issued
      && (forall l | l in issued :: s.levels[l] == l.level)
    }

    lemma ShowsView(s: State<Limiter>)
      requires Valid() && Shows(s)
      ensures View() == s
    {
      assert View().buckets == s.buckets;
      assert View().levels == s.levels;
    }

    /** `second` is how many ticks make a second; an interval of zero is rate.Inf. */
    constructor (interval: nat, burst: int, ttl: int, second: nat)
      requires second > 0
      ensures Valid() && View() == State(map[], map[])
      ensures rate == Rate(interval, Max(burst, 1)) && this.ttl == if ttl <= 0 then 10 * 60 * second else ttl
    {
      rate := Rate(interval, if burst < 1 then 1 else burst);
      this.ttl := if ttl <= 0 then 10 * 60 * second else ttl;
      buckets := map[];
      made, issued := {}, {};
    }

    method EnsureLocked(key: string, now: nat) returns (b: Bucket)
      requires Valid()
      modifies this`buckets, this`made, this`issued, made
      ensures Valid() && key in buckets && buckets[key] == b
      ensures key !in old(buckets) ==> fresh(b) && b.limiter !in old(issued)
      ensures fresh(made - old(made))
      ensures View() == Ensure(rate, old(View()), key, now, b.limiter)
    {
      if key !in buckets {
        Install(key);
      }
      b := buckets[key];
      ghost var s := View();
      Touch(key, now);
      assert View() == s.(buckets := s.buckets[key := s.buckets[key].(lastUsed := now)]);
    }

    method Touch(key: string, now: nat)
      requires Valid() && key in buckets
      modifies buckets[key]
      ensures Valid()
      ensures var s := old(View()); View() == s.(buckets := s.buckets[key := s.buckets[key].(lastUsed := now)])
    {
      ghost var s := View();
      buckets[key].lastUsed := now;
      ShowsView(s.(buckets := s.buckets[key := s.buckets[key].(lastUsed := now)]));
    }

    method Install(key: string)
      requires Valid() && key !in buckets
      modifies this`buckets, this`made, this`issued
      ensures Valid() && key in buckets && fresh(buckets[key]) && buckets[key].limiter !in old(issued)
      ensures made == old(made) + {buckets[key]}
      ensures var s := old(View()); var id := buckets[key].limiter;
              View() == State(s.buckets[key := BucketState(id, 0, 0)], s.levels[id := Fresh(rate)])
    {
      ghost var s := View();
      var limiter := new Limiter(rate);
      var b := new Bucket(limiter);
      buckets := buckets[key := b];
      made := made + {b};
      issued := issued + {limiter};
      ShowsView(State(s.buckets[key := BucketState(limiter, 0, 0)], s.levels[limiter := Fresh(rate)]));
    }

    /** The pause may be negative, as time.Until is. */
    method Get(key: string, now: nat) returns (limiter: Limiter, pause: int)
      requires Valid()
      modifies this`buckets, this`made, this`issued, made
      ensures Valid()
      ensures View() == Ensure(rate, old(View()), key, now, limiter)
      ensures key !in old(buckets) ==> limiter !in old(issued)
      ensures var b := View().buckets[key]; limiter == b.limiter && pause == b.notBefore - now
    {
      var b := EnsureLocked(key, now);
      limiter, pause := b.limiter, b.notBefore - now;
    }

    /** `asked` is when the deadline was computed, `now` when the lock was taken. */
    method ReserveFor(key: string, d: int, asked: nat, now: nat)
      requires Valid() && asked <= now
      modifies this`buckets, this`made, this`issued, made
      ensures Valid()
      ensures d <= 0 ==> View() == old(View())
      ensures d > 0 ==> key in buckets && View() == Hold(rate, old(View()), key, asked + d, now, buckets[key].limiter)
      ensures d > 0 && key !in old(buckets) ==> buckets[key].limiter !in old(issued)
    {
      if d <= 0 {
        return;
      }
      var until := asked + d;
      var b := EnsureLocked(key, now);
      if until > b.notBefore {
        PushBack(key, until);
      }
    }

    method PushBack(key: string, until: nat)
      requires Valid() && key in buckets
      modifies buckets[key]
      ensures Valid()
      ensures var s := old(View()); View() == s.(buckets := s.buckets[key := s.buckets[key].(notBefore := until)])
    {
      ghost var s := View();
      buckets[key].notBefore := until;
      ShowsView(s.(buckets := s.buckets[key := s.buckets[key].(notBefore := until)]));
    }

    method Sweep(asked: nat) returns (evicted: nat)
      requires Valid()
      modifies this`buckets
      ensures Valid()
      ensures View() == Evict(old(View()), asked - ttl)
      ensures evicted == |old(buckets)| - |buckets|
    {
      ghost var before := View();
      evicted := DropIdle(asked - ttl);
      ShowsView(Evict(before, asked - ttl));
    }

    method DropIdle(cutoff: int) returns (evicted: nat)
      requires Valid()
      modifies this`buckets
      ensures forall key :: key in buckets <==> key in old(buckets) && old(buckets)[key].lastUsed >= cutoff
      ensures forall key | key in buckets :: buckets[key] == old(buckets)[key]
      ensures evicted == |old(buckets)| - |buckets|
    {
      var keys := buckets.Keys;
      evicted := 0;
      while keys != {}
        invariant keys <= old(buckets).Keys && buckets.Keys <= old(buckets).Keys
        invariant forall key | key in old(buckets) ::
                    key in buckets <==> key in keys || old(buckets)[key].lastUsed >= cutoff
        invariant forall key | key in buckets :: buckets[key] == old(buckets)[key]
        invariant evicted == |old(buckets)| - |buckets|
        decreases |keys|
      {
        var key :| key in keys;
        if buckets[key].lastUsed < cutoff {
          RemoveShrinks(buckets, key);
          buckets := buckets - {key};
          evicted := evicted + 1;
        }
        keys := keys - {key};
      }
    }

    method Len() returns (n: nat)
      requires Valid()
      ensures n == |View().buckets|
    {
      n := |buckets|;
      assert View().buckets.Keys == buckets.Keys;
      assert |View().buckets| == |View().buckets.Keys| && |buckets| == |buckets.Keys|;
    }
  }

  lemma RemoveShrinks<K, V>(m: map<K, V>, k: K)
    requires k in m
    ensures |m - {k}| == |m| - 1
  {
    assert (m - {k}).Keys == m.Keys - {k};
    assert |m.Keys| == |m| && |(m - {k}).Keys| == |m - {k}|;
  }
}
