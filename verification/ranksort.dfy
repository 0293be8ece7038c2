/**
  The batch ordering of `preloadStrategic`: an in-place `Array.prototype.sort` with
  the comparator `rank(a) - rank(b)`. That sort is stable, so the result is unique:
  critical requests, then high, then low, each tier in submission order.
  The model computes it with an insertion sort and proves it is exactly that.
 */
module RankSort {
  import opened Requests

  /** Inserts `x` into a rank-sorted sequence after every request of rank at most its own. */
  function Insert(s: seq<Request>, x: Request): seq<Request>
    decreases |s|
  {
    if s == [] || RankOf(s[|s| - 1]) <= RankOf(x) then s + [x]
    else Insert(s[..|s| - 1], x) + [s[|s| - 1]]
  }

  /** Insertion adds `x` and loses nothing. */
  lemma {:induction false} InsertPermutes(s: seq<Request>, x: Request)
    ensures multiset(Insert(s, x)) == multiset(s) + multiset{x}
    decreases |s|
  {
    if s != [] && RankOf(s[|s| - 1]) > RankOf(x) {
      var init, last := s[..|s| - 1], s[|s| - 1];
      assert s == init + [last];
      InsertPermutes(init, x);
    }
  }

  /** Insertion keeps a sorted sequence sorted. */
  lemma {:induction false} InsertSorted(s: seq<Request>, x: Request)
    requires SortedByRank(s)
    ensures SortedByRank(Insert(s, x))
    decreases |s|
  {
    if s != [] && RankOf(s[|s| - 1]) > RankOf(x) {
      var init, last := s[..|s| - 1], s[|s| - 1];
      assert s == init + [last];
      InsertSorted(init, x);
      InsertPermutes(init, x);
      var r' := Insert(init, x);
      forall k | 0 <= k < |r'|
        ensures RankOf(r'[k]) <= RankOf(last)
      {
        assert r'[k] in multiset(r');
        if r'[k] != x {
          assert r'[k] in multiset(init);
          var i :| 0 <= i < |init| && init[i] == r'[k];
          assert s[i] == init[i];
        }
      }
      assert Insert(s, x) == r' + [last];
    }
  }

  /** The batch as the loader's stable sort leaves it. */
  function Sort(s: seq<Request>): seq<Request>
    decreases |s|
  {
    if s == [] then []
    else Insert(Sort(s[..|s| - 1]), s[|s| - 1])
  }

  /** The sort orders the batch by rank. */
  lemma {:induction false} SortSorts(s: seq<Request>)
    ensures SortedByRank(Sort(s))
    decreases |s|
  {
    if s != [] {
      SortSorts(s[..|s| - 1]);
      InsertSorted(Sort(s[..|s| - 1]), s[|s| - 1]);
    }
  }

  /** The sort keeps exactly the batch's requests. */
  lemma {:induction false} SortPermutes(s: seq<Request>)
    ensures multiset(Sort(s)) == multiset(s)
    decreases |s|
  {
    if s != [] {
      var init, last := s[..|s| - 1], s[|s| - 1];
      assert s == init + [last];
      SortPermutes(init);
      InsertPermutes(Sort(init), last);
    }
  }

  /** The independent description of a stable rank sort of `s`: same requests,
      ranks non-decreasing, and every tier in submission order. */
  ghost predicate IsStableRankSort(s: seq<Request>, r: seq<Request>)
  {
    && multiset(r) == multiset(s)
    && SortedByRank(r)
    && forall p: Priority :: Tier(r, p) == Tier(s, p)
  }

  /** The three tiers laid end to end. */
  function Tiered(s: seq<Request>): seq<Request>
  {
    Tier(s, Critical) + Tier(s, High) + Tier(s, Low)
  }

  /** Inserting `x` into a sorted sequence whose suffix `b` outranks `x`, and whose
      prefix `a` ends no higher than `x`, puts `x` exactly between them. */
  lemma {:induction false} InsertBetween(a: seq<Request>, b: seq<Request>, x: Request)
    requires a == [] || RankOf(a[|a| - 1]) <= RankOf(x)
    requires forall k :: 0 <= k < |b| ==> RankOf(b[k]) > RankOf(x)
    ensures Insert(a + b, x) == a + [x] + b
    decreases |b|
  {
    if b == [] {
      assert a + b == a;
    } else {
      var b', y := b[..|b| - 1], b[|b| - 1];
      var ab := a + b;
      assert ab[..|ab| - 1] == a + b';
      assert ab[|ab| - 1] == y;
      assert Insert(ab, x) == Insert(a + b', x) + [y];
      InsertBetween(a, b', x);
      assert b == b' + [y];
    }
  }

  lemma TierPriorities(s: seq<Request>, p: Priority)
    ensures AllOf(Tier(s, p), p)
  {
    TierMembers(s, p);
    forall k | 0 <= k < |Tier(s, p)|
      ensures Tier(s, p)[k].priority == p
    {
      assert Tier(s, p)[k] in Tier(s, p);
    }
  }

  lemma TierSingle(x: Request, p: Priority)
    ensures Tier([x], p) == if x.priority == p then [x] else []
  {
    assert [x][..0] == [];
  }

  /** Appending `x` to a batch appends it to its own tier only. */
  lemma TierSnoc(s: seq<Request>, x: Request, p: Priority)
    ensures Tier(s + [x], p) == Tier(s, p) + (if x.priority == p then [x] else [])
  {
    assert (s + [x])[..|s|] == s;
  }

  lemma InsertCriticalBetween(c: seq<Request>, h: seq<Request>, l: seq<Request>, x: Request)
    requires AllOf(c, Critical) && AllOf(h, High) && AllOf(l, Low) && x.priority == Critical
    ensures Insert(c + h + l, x) == (c + [x]) + h + l
  {
    assert c + h + l == c + (h + l);
    InsertBetween(c, h + l, x);
    assert c + [x] + (h + l) == (c + [x]) + h + l;
  }

  lemma InsertHighBetween(c: seq<Request>, h: seq<Request>, l: seq<Request>, x: Request)
    requires AllOf(c, Critical) && AllOf(h, High) && AllOf(l, Low) && x.priority == High
    ensures Insert(c + h + l, x) == c + (h + [x]) + l
  {
    var a := c + h;
    assert a == [] || RankOf(a[|a| - 1]) <= RankOf(x) by {
      if h != [] {
        assert a[|a| - 1] == h[|h| - 1];
      } else if c != [] {
        assert a[|a| - 1] == c[|c| - 1];
      }
    }
    InsertBetween(a, l, x);
    assert c + (h + [x]) == a + [x];
  }

  lemma InsertCritical(s: seq<Request>, x: Request)
    requires x.priority == Critical
    ensures Insert(Tiered(s), x) == Tiered(s + [x])
  {
    TierSnoc(s, x, Critical);
    TierSnoc(s, x, High);
    TierSnoc(s, x, Low);
    TierPriorities(s, Critical);
    TierPriorities(s, High);
    TierPriorities(s, Low);
    InsertCriticalBetween(Tier(s, Critical), Tier(s, High), Tier(s, Low), x);
  }

  lemma InsertHigh(s: seq<Request>, x: Request)
    requires x.priority == High
    ensures Insert(Tiered(s), x) == Tiered(s + [x])
  {
    TierSnoc(s, x, Critical);
    TierSnoc(s, x, High);
    TierSnoc(s, x, Low);
    TierPriorities(s, Critical);
    TierPriorities(s, High);
    TierPriorities(s, Low);
    InsertHighBetween(Tier(s, Critical), Tier(s, High), Tier(s, Low), x);
  }

  lemma InsertLow(s: seq<Request>, x: Request)
    requires x.priority == Low
    ensures Insert(Tiered(s), x) == Tiered(s + [x])
  {
    var c, h, l := Tier(s, Critical), Tier(s, High), Tier(s, Low);
    TierSnoc(s, x, Critical);
    TierSnoc(s, x, High);
    TierSnoc(s, x, Low);
    var t := Tiered(s);
    assert Insert(t, x) == t + [x] by {
      assert t == [] || RankOf(t[|t| - 1]) <= RankOf(x);
    }
    assert t + [x] == c + h + (l + [x]);
  }

  /** One insertion step of the sort keeps the tiers laid end to end. */
  lemma InsertIntoTiered(s: seq<Request>, x: Request)
    ensures Insert(Tiered(s), x) == Tiered(s + [x])
  {
    match x.priority
    case Critical => InsertCritical(s, x);
    case High => InsertHigh(s, x);
    case Low => InsertLow(s, x);
  }

  /** The stable sort lays the tiers end to end: critical, then high, then low,
      each in submission order. */
  lemma {:induction false} SortIsTiered(s: seq<Request>)
    ensures Sort(s) == Tiered(s)
    decreases |s|
  {
    if s != [] {
      var s', x := s[..|s| - 1], s[|s| - 1];
      assert s == s' + [x];
      SortIsTiered(s');
      InsertIntoTiered(s', x);
    }
  }

  lemma SnocTieredCritical(r: seq<Request>, x: Request)
    requires r == Tiered(r) && x.priority == Critical
    requires forall k :: 0 <= k < |r| ==> RankOf(r[k]) <= RankOf(x)
    ensures r + [x] == Tiered(r + [x])
  {
    assert AllOf(r, Critical);
    TierOfSame(r, Critical);
    TierOfOther(r, High);
    TierOfOther(r, Low);
    TierSnoc(r, x, Critical);
    TierSnoc(r, x, High);
    TierSnoc(r, x, Low);
    assert Tiered(r + [x]) == (r + [x]) + [] + [];
  }

  lemma NoLowBefore(r: seq<Request>, x: Request)
    requires x.priority == High
    requires forall k :: 0 <= k < |r| ==> RankOf(r[k]) <= RankOf(x)
    ensures Tier(r, Low) == []
  {
    assert forall k :: 0 <= k < |r| ==> r[k].priority != Low;
    TierOfOther(r, Low);
  }

  lemma TieredSnocHigh(r: seq<Request>, x: Request)
    requires x.priority == High && Tier(r, Low) == []
    ensures Tiered(r + [x]) == (Tier(r, Critical) + Tier(r, High)) + [x]
  {
    var c, h := Tier(r, Critical), Tier(r, High);
    assert Tier(r + [x], Critical) == c by {
      TierSnoc(r, x, Critical);
      assert c + [] == c;
    }
    assert Tier(r + [x], High) == h + [x] by {
      TierSnoc(r, x, High);
    }
    assert Tier(r + [x], Low) == [] by {
      TierSnoc(r, x, Low);
    }
    assert c + (h + [x]) + [] == (c + h) + [x];
  }

  lemma SnocTieredHigh(r: seq<Request>, x: Request)
    requires r == Tiered(r) && x.priority == High
    requires forall k :: 0 <= k < |r| ==> RankOf(r[k]) <= RankOf(x)
    ensures r + [x] == Tiered(r + [x])
  {
    NoLowBefore(r, x);
    TieredSnocHigh(r, x);
    assert r == Tier(r, Critical) + Tier(r, High) + [];
  }

  lemma SnocTieredLow(r: seq<Request>, x: Request)
    requires r == Tiered(r) && x.priority == Low
    ensures r + [x] == Tiered(r + [x])
  {
    var c, h, l := Tier(r, Critical), Tier(r, High), Tier(r, Low);
    TierSnoc(r, x, Critical);
    TierSnoc(r, x, High);
    TierSnoc(r, x, Low);
    assert Tiered(r + [x]) == c + h + (l + [x]);
  }

  /** Appending a request that outranks nothing before it keeps a tiered sequence tiered. */
  lemma SnocTiered(r: seq<Request>, x: Request)
    requires r == Tiered(r)
    requires forall k :: 0 <= k < |r| ==> RankOf(r[k]) <= RankOf(x)
    ensures r + [x] == Tiered(r + [x])
  {
    match x.priority
    case Critical => SnocTieredCritical(r, x);
    case High => SnocTieredHigh(r, x);
    case Low => SnocTieredLow(r, x);
  }

  /** A rank-sorted sequence already is its tiers laid end to end. */
  lemma {:induction false} SortedIsTiered(r: seq<Request>)
    requires SortedByRank(r)
    ensures r == Tiered(r)
    decreases |r|
  {
    if r != [] {
      var r', x := r[..|r| - 1], r[|r| - 1];
      assert r == r' + [x];
      SortedIsTiered(r');
      SnocTiered(r', x);
    }
  }

  /** Selecting a tier from three uniform tiers laid end to end gives that tier back. */
  lemma TierOfTiers(c: seq<Request>, h: seq<Request>, l: seq<Request>, p: Priority)
    requires AllOf(c, Critical) && AllOf(h, High) && AllOf(l, Low)
    ensures Tier(c + h + l, p) == match p case Critical => c case High => h case Low => l
  {
    TierAppend(c + h, l, p);
    TierAppend(c, h, p);
    match p
    case Critical =>
      TierOfSame(c, p); TierOfOther(h, p); TierOfOther(l, p);
      assert c + [] + [] == c;
    case High =>
      TierOfOther(c, p); TierOfSame(h, p); TierOfOther(l, p);
      assert [] + h + [] == h;
    case Low =>
      TierOfOther(c, p); TierOfOther(h, p); TierOfSame(l, p);
      assert [] + [] + l == l;
  }

  lemma TierOfTiered(s: seq<Request>, p: Priority)
    ensures Tier(Tiered(s), p) == Tier(s, p)
  {
    TierPriorities(s, Critical);
    TierPriorities(s, High);
    TierPriorities(s, Low);
    TierOfTiers(Tier(s, Critical), Tier(s, High), Tier(s, Low), p);
  }

  /** The loader's sort is a stable rank sort: a permutation of the batch, ranks
      non-decreasing, equal-rank requests in submission order. */
  lemma SortIsStable(s: seq<Request>)
    ensures IsStableRankSort(s, Sort(s))
  {
    SortSorts(s);
    SortPermutes(s);
    SortIsTiered(s);
    forall p: Priority
      ensures Tier(Sort(s), p) == Tier(s, p)
    {
      TierOfTiered(s, p);
    }
  }

  /** ... and it is the only one: any stable rank sort of the batch equals it. */
  lemma StableRankSortIsUnique(s: seq<Request>, r: seq<Request>)
    ensures IsStableRankSort(s, r) <==> r == Sort(s)
  {
    if r == Sort(s) {
      SortIsStable(s);
    }
    if IsStableRankSort(s, r) {
      SortedIsTiered(r);
      SortIsTiered(s);
      assert Tier(r, Critical) == Tier(s, Critical);
      assert Tier(r, High) == Tier(s, High);
      assert Tier(r, Low) == Tier(s, Low);
    }
  }
}
