/** ORDER BY major, minor LIMIT n over rows named by id, with every way of breaking ties. */
module SqlOrder {
  import opened Base

  datatype Rank = Rank(major: int, minor: int)

  type Ranks = map<int, Rank>

  predicate Precedes(a: Rank, b: Rank) {
    a.major < b.major || (a.major == b.major && a.minor < b.minor)
  }

  predicate Before(r: Ranks, a: int, b: int) {
    a in r && b in r && Precedes(r[a], r[b])
  }

  function Min(a: nat, b: nat): nat {
    if a < b then a else b
  }

  function Elems(s: seq<int>): set<int> {
    set x | x in s
  }

  ghost predicate Distinct(s: seq<int>) {
    forall i, j | 0 <= i < j < |s| :: s[i] != s[j]
  }

  ghost predicate Sorted(r: Ranks, s: seq<int>) {
    forall i, j | 0 <= i < j < |s| :: !Before(r, s[j], s[i])
  }

  /** `top` is a choice of the first n candidates: nothing left out comes before anything taken. */
  ghost predicate Top(r: Ranks, candidates: set<int>, n: nat, top: set<int>) {
    && top <= candidates
    && |top| == Min(n, |candidates|)
    && (forall x, y | x in candidates && x !in top && y in top :: !Before(r, x, y))
  }

  ghost predicate OrderLimit(r: Ranks, candidates: set<int>, n: nat, out: seq<int>) {
    Distinct(out) && Sorted(r, out) && Top(r, candidates, n, Elems(out))
  }

  lemma {:induction false} DistinctCount(s: seq<int>)
    requires Distinct(s)
    ensures |Elems(s)| == |s|
  {
    if s == [] {
    } else {
      var front := s[..|s| - 1];
      DistinctCount(front);
      assert Elems(s) == Elems(front) + {s[|s| - 1]};
    }
  }

  function Range(n: nat): (r: set<int>)
    ensures |r| == n && forall i :: i in r <==> 0 <= i < n
  {
    if n == 0 then {} else Range(n - 1) + {n - 1}
  }

  lemma SubsetCount(a: set<int>, b: set<int>)
    requires a <= b
    ensures |a| <= |b| && (|a| == |b| ==> a == b)
  {
    assert b == a + (b - a);
  }

  lemma {:induction false} First(r: Ranks, s: set<int>) returns (first: int)
    requires s != {}
    ensures first in s && forall y | y in s :: !Before(r, y, first)
    decreases |s|
  {
    var z := Member(s);
    first := z;
    if s != {z} {
      var x := First(r, s - {z});
      if Before(r, z, x) {
        forall y | y in s - {z} ensures !Before(r, y, z) {
          assert !Before(r, y, x);
        }
      } else {
        first := x;
      }
    }
  }

  method Select(r: Ranks, candidates: set<int>, n: nat) returns (out: seq<int>)
    ensures OrderLimit(r, candidates, n, out)
  {
    out := [];
    var rest := candidates;
    while |out| < n && rest != {}
      invariant |out| <= n && Distinct(out) && Sorted(r, out)
      invariant rest == candidates - Elems(out) && Elems(out) <= candidates
      invariant forall x, y | x in rest && y in out :: !Before(r, x, y)
      decreases n - |out|
    {
      ghost var first := First(r, rest);
      var x :| x in rest && forall y | y in rest :: !Before(r, y, x);
      assert Elems(out + [x]) == Elems(out) + {x};
      out := out + [x];
      rest := rest - {x};
    }
    DistinctCount(out);
    SubsetCount(Elems(out), candidates);
  }

  /** A choice of the first m can be grown into a choice of the first n. */
  lemma {:induction false} TopGrows(r: Ranks, candidates: set<int>, m: nat, n: nat, top: set<int>)
    returns (more: set<int>)
    requires m <= n && Top(r, candidates, m, top)
    ensures top <= more && Top(r, candidates, n, more)
    decreases n - m
  {
    SubsetCount(top, candidates);
    if m == n || top == candidates {
      more := top;
    } else {
      var rest := candidates - top;
      assert candidates == top + rest;
      var x := First(r, rest);
      SubsetCount(top + {x}, candidates);
      more := TopGrows(r, candidates, m + 1, n, top + {x});
    }
  }

  /** LIMIT m of LIMIT n is LIMIT m. */
  lemma TopOfTop(r: Ranks, candidates: set<int>, n: nat, top: set<int>, m: nat, sub: set<int>)
    requires m <= n && Top(r, candidates, n, top)
    ensures Top(r, top, m, sub) ==> Top(r, candidates, m, sub)
    ensures sub <= top && Top(r, candidates, m, sub) ==> Top(r, top, m, sub)
  {
    SubsetCount(top, candidates);
  }

  ghost predicate Ahead(r: Ranks, a: set<int>, b: set<int>) {
    a !! b && forall x, y | x in a && y in b :: Before(r, x, y)
  }

  /** When every a comes before every b, the first n of both are all of a and then the first of b. */
  lemma TopKeepsAhead(r: Ranks, a: set<int>, b: set<int>, n: nat, top: set<int>)
    requires |a| <= n && Ahead(r, a, b) && Top(r, a + b, n, top)
    ensures a <= top && Top(r, b, n - |a|, top * b)
  {
    assert |a + b| == |a| + |b|;
    if !(a <= top) {
      var x := Outsider(a, top);
      assert forall y | y in top :: y in a;
      SubsetCount(top + {x}, a);
      assert false;
    }
    assert top == a + top * b && |top| == |a| + |top * b|;
  }

  lemma AheadThenTop(r: Ranks, a: set<int>, b: set<int>, n: nat, main: set<int>)
    requires |a| <= n && Ahead(r, a, b) && Top(r, b, n - |a|, main)
    ensures Top(r, a + b, n, a + main)
  {
    assert |a + b| == |a| + |b| && |a + main| == |a| + |main|;
  }

  /** The first `share` of lane a, and the first of lane b in what room is left up to n. */
  ghost predicate TwoLanes(r: Ranks, a: set<int>, b: set<int>, share: nat, n: nat, due: set<int>)
    requires share <= n
  {
    && due <= a + b
    && Top(r, a, share, due * a)
    && Top(r, b, n - Min(share, |a|), due * b)
  }

  lemma StagesGiveTwoLanes(r: Ranks, a: set<int>, b: set<int>, share: nat, n: nat,
                           jump: set<int>, rest: set<int>, due: set<int>)
    requires share <= n && Ahead(r, a, b)
    requires Top(r, a, share, jump) && Top(r, b, n, rest) && Top(r, jump + rest, n, due)
    ensures TwoLanes(r, a, b, share, n, due)
  {
    TopKeepsAhead(r, jump, rest, n, due);
    TopOfTop(r, b, n, rest, n - |jump|, due * rest);
    assert due * a == jump;
    assert due * b == due * rest;
  }

  lemma TwoLanesGiveStages(r: Ranks, a: set<int>, b: set<int>, share: nat, n: nat, due: set<int>)
    returns (jump: set<int>, rest: set<int>)
    requires share <= n && Ahead(r, a, b) && TwoLanes(r, a, b, share, n, due)
    ensures Top(r, a, share, jump) && Top(r, b, n, rest) && Top(r, jump + rest, n, due)
  {
    jump := due * a;
    var main, room := due * b, n - |due * a|;
    rest := TopGrows(r, b, room, n, main);
    TopOfTop(r, b, n, rest, room, main);
    assert due == jump + main && Ahead(r, jump, rest);
    AheadThenTop(r, jump, rest, n, main);
  }
}
