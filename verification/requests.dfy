/**
  Preload requests and their priority tiers.

  A request is a remote's name with one of three priorities; the loader ranks
  them critical = 0, high = 1, low = 2 and compares requests by that rank only.
 */
module Requests {

  datatype Priority = Critical | High | Low

  /** The rank the loader's priority map gives each tier. */
  function Rank(p: Priority): nat
  {
    match p
    case Critical => 0
    case High => 1
    case Low => 2
  }

  datatype Request = Request(name: string, priority: Priority)

  /** Every request of `t` has priority `p`. */
  ghost predicate AllOf(t: seq<Request>, p: Priority)
  {
    forall k :: 0 <= k < |t| ==> t[k].priority == p
  }

  function RankOf(r: Request): nat
  {
    Rank(r.priority)
  }

  /** Non-decreasing rank from left to right. */
  ghost predicate SortedByRank(s: seq<Request>)
  {
    forall i, j :: 0 <= i < j < |s| ==> RankOf(s[i]) <= RankOf(s[j])
  }

  /** The requests of tier `p`, in the order they appear in `s`. */
  function Tier(s: seq<Request>, p: Priority): seq<Request>
  {
    if s == [] then []
    else
      var last := s[|s| - 1];
      Tier(s[..|s| - 1], p) + (if last.priority == p then [last] else [])
  }

  /** The requests that are not critical, in the order they appear in `s`. */
  function NonCritical(s: seq<Request>): seq<Request>
  {
    if s == [] then []
    else
      var last := s[|s| - 1];
      NonCritical(s[..|s| - 1]) + (if last.priority != Critical then [last] else [])
  }

  lemma {:induction false} TierAppend(a: seq<Request>, b: seq<Request>, p: Priority)
    ensures Tier(a + b, p) == Tier(a, p) + Tier(b, p)
    decreases |b|
  {
    if b == [] {
      assert a + b == a;
    } else {
      var b' := b[..|b| - 1];
      var tail := if b[|b| - 1].priority == p then [b[|b| - 1]] else [];
      assert (a + b)[..|a + b| - 1] == a + b';
      assert (a + b)[|a + b| - 1] == b[|b| - 1];
      TierAppend(a, b', p);
      calc {
        Tier(a + b, p);
        Tier(a + b', p) + tail;
        Tier(a, p) + Tier(b', p) + tail;
        { assert b == b' + [b[|b| - 1]]; }
        Tier(a, p) + Tier(b, p);
      }
    }
  }

  lemma {:induction false} NonCriticalAppend(a: seq<Request>, b: seq<Request>)
    ensures NonCritical(a + b) == NonCritical(a) + NonCritical(b)
    decreases |b|
  {
    if b == [] {
      assert a + b == a;
    } else {
      var b' := b[..|b| - 1];
      var tail := if b[|b| - 1].priority != Critical then [b[|b| - 1]] else [];
      assert (a + b)[..|a + b| - 1] == a + b';
      assert (a + b)[|a + b| - 1] == b[|b| - 1];
      NonCriticalAppend(a, b');
      calc {
        NonCritical(a + b);
        NonCritical(a + b') + tail;
        NonCritical(a) + NonCritical(b') + tail;
        { assert b == b' + [b[|b| - 1]]; }
        NonCritical(a) + NonCritical(b);
      }
    }
  }

  /** Selecting a tier from requests all of that tier changes nothing. */
  lemma {:induction false} TierOfSame(s: seq<Request>, p: Priority)
    requires AllOf(s, p)
    ensures Tier(s, p) == s
  {
    if s != [] {
      TierOfSame(s[..|s| - 1], p);
      assert s == s[..|s| - 1] + [s[|s| - 1]];
    }
  }

  /** Selecting a tier from requests none of which is of that tier gives nothing. */
  lemma {:induction false} TierOfOther(s: seq<Request>, p: Priority)
    requires forall k :: 0 <= k < |s| ==> s[k].priority != p
    ensures Tier(s, p) == []
  {
    if s != [] {
      TierOfOther(s[..|s| - 1], p);
    }
  }

  lemma {:induction false} NonCriticalOfNonCritical(s: seq<Request>)
    requires forall k :: 0 <= k < |s| ==> s[k].priority != Critical
    ensures NonCritical(s) == s
  {
    if s != [] {
      NonCriticalOfNonCritical(s[..|s| - 1]);
      assert s == s[..|s| - 1] + [s[|s| - 1]];
    }
  }

  lemma {:induction false} NonCriticalOfCritical(s: seq<Request>)
    requires AllOf(s, Critical)
    ensures NonCritical(s) == []
  {
    if s != [] {
      NonCriticalOfCritical(s[..|s| - 1]);
    }
  }

  /** A tier holds exactly the requests of `s` with that priority, and no more copies of any. */
  lemma {:induction false} TierMembers(s: seq<Request>, p: Priority)
    ensures forall x :: x in Tier(s, p) <==> x in s && x.priority == p
    ensures multiset(Tier(s, p)) <= multiset(s)
  {
    if s != [] {
      var s' := s[..|s| - 1];
      TierMembers(s', p);
      assert s == s' + [s[|s| - 1]];
    }
  }
}
