/**
  The idle-drain loop terminates: apart from new `preloadStrategic` calls, every event
  strictly decreases a natural-number measure of outstanding work.
 */
module Termination {
  import opened Requests
  import opened Loader

  /** Outstanding work of one call: three units per queued request while its array can
      still be drained, plus two while its critical fan-out is awaited. */
  function BatchWork(b: Batch): nat
  {
    match b.phase
    case Eager => 3 * |b.queue| + 2
    case Deferred => 3 * |b.queue|
    case Rejected => 0
  }

  function SumWork(bs: seq<Batch>): nat
  {
    if bs == [] then 0 else SumWork(bs[..|bs| - 1]) + BatchWork(bs[|bs| - 1])
  }

  /** Batches' work, one unit per scheduled callback, two for the fetch in flight. */
  function Work(s: State): nat
  {
    SumWork(s.batches) + |s.pending| + (if s.inFlight.Some? then 2 else 0)
  }

  lemma {:induction false} SumWorkUpdate(bs: seq<Batch>, i: nat, nb: Batch)
    requires i < |bs|
    ensures SumWork(bs[i := nb]) + BatchWork(bs[i]) == SumWork(bs) + BatchWork(nb)
    decreases |bs|
  {
    var n := |bs| - 1;
    assert bs[i := nb][..n] == if i < n then bs[..n][i := nb] else bs[..n];
    if i < n {
      SumWorkUpdate(bs[..n], i, nb);
    }
  }

  lemma SumWorkSnoc(bs: seq<Batch>, nb: Batch)
    ensures SumWork(bs + [nb]) == SumWork(bs) + BatchWork(nb)
  {
    assert (bs + [nb])[..|bs|] == bs;
  }

  /** Every event other than a new call strictly decreases the outstanding work. */
  lemma DrainEventDecreasesWork(s: State, e: Event)
    requires Valid(s) && Enabled(s, e) && !e.Submit?
    ensures Work(Step(s, e, DropOnGuard)) < Work(s)
  {
    var r := Step(s, e, DropOnGuard);
    match e
    case CriticalSettled(b, outcomes) =>
      SumWorkUpdate(s.batches, b, r.batches[b]);
      assert r.batches == s.batches[b := r.batches[b]];
    case IdleFired(k) =>
      var b := s.pending[k].batch;
      if !s.isPreloading && s.batches[b].queue != [] {
        SumWorkUpdate(s.batches, b, r.batches[b]);
        assert s.batches[b].phase == Deferred;
      }
    case FetchSettled(ok) =>
  }

  /** A new call adds a bounded amount of work: at most three units per request plus two. */
  lemma SubmitAddsBoundedWork(s: State, remotes: seq<Request>)
    ensures Work(PreloadStrategic(s, remotes)) <= Work(s) + 3 * |remotes| + 2
  {
    var r := PreloadStrategic(s, remotes);
    PreloadStrategicSplit(s, remotes);
    var nb := r.batches[|s.batches|];
    assert r.batches == s.batches + [nb] by {
      assert r.batches == r.batches[..|s.batches|] + [nb];
    }
    SumWorkSnoc(s.batches, nb);
    Partition(remotes);
    var others := Tier(remotes, High) + Tier(remotes, Low);
    assert |others| <= |remotes| by {
      assert |multiset(others)| <= |multiset(remotes)|;
    }
  }
}
