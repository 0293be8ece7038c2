/**
  Every transition of the loader keeps its invariant `Loader.Valid`.
 */
module LoaderInvariant {
  import opened Requests
  import opened Loader
  import RankSort

  // ---------------------------------------------------------------------------
  // Counting helpers

  lemma DoneSnoc(settled: seq<Settlement>, st: Settlement, b: nat)
    ensures Done(settled + [st], b) == Done(settled, b) + (if st.batch == b then [st.item] else [])
  {
    assert (settled + [st])[..|settled|] == settled;
  }

  lemma {:induction false} DoneOfOther(settled: seq<Settlement>, b: nat)
    requires forall i :: 0 <= i < |settled| ==> settled[i].batch != b
    ensures Done(settled, b) == []
  {
    if settled != [] {
      DoneOfOther(settled[..|settled| - 1], b);
    }
  }

  lemma CallbacksForSnoc(p: seq<Callback>, cb: Callback, b: nat)
    ensures CallbacksFor(p + [cb], b) == CallbacksFor(p, b) + (if cb.batch == b then 1 else 0)
  {
    assert (p + [cb])[..|p|] == p;
  }

  lemma {:induction false} CallbacksForAppend(p: seq<Callback>, q: seq<Callback>, b: nat)
    ensures CallbacksFor(p + q, b) == CallbacksFor(p, b) + CallbacksFor(q, b)
    decreases |q|
  {
    if q == [] {
      assert p + q == p;
    } else {
      var q', last := q[..|q| - 1], q[|q| - 1];
      assert p + q == (p + q') + [last];
      assert q == q' + [last];
      CallbacksForSnoc(p + q', last, b);
      CallbacksForSnoc(q', last, b);
      CallbacksForAppend(p, q', b);
    }
  }

  lemma CallbacksForRemove(p: seq<Callback>, k: nat, b: nat)
    requires k < |p|
    ensures CallbacksFor(Remove(p, k), b) + (if p[k].batch == b then 1 else 0) == CallbacksFor(p, b)
  {
    assert p == (p[..k] + [p[k]]) + p[k + 1..];
    CallbacksForAppend(p[..k] + [p[k]], p[k + 1..], b);
    CallbacksForAppend(p[..k], p[k + 1..], b);
    CallbacksForSnoc(p[..k], p[k], b);
  }

  lemma {:induction false} CallbacksForOther(p: seq<Callback>, b: nat)
    requires forall k :: 0 <= k < |p| ==> p[k].batch != b
    ensures CallbacksFor(p, b) == 0
  {
    if p != [] {
      CallbacksForOther(p[..|p| - 1], b);
    }
  }

  /** A callback naming `b` is counted. */
  lemma CallbacksForMember(p: seq<Callback>, k: nat)
    requires k < |p|
    ensures CallbacksFor(p, p[k].batch) >= 1
  {
    CallbacksForRemove(p, k, p[k].batch);
  }

  lemma OthersWellFormed(h: seq<Request>, l: seq<Request>)
    requires AllOf(h, High) && AllOf(l, Low)
    ensures forall k :: 0 <= k < |h + l| ==> (h + l)[k].priority != Critical
    ensures forall i, j :: 0 <= i < j < |h + l| && (h + l)[j].priority == High ==> (h + l)[i].priority == High
  {
  }

  // ---------------------------------------------------------------------------
  // Preservation, event by event

  lemma SubmitKeepsOld(s: State, remotes: seq<Request>)
    ensures var r := PreloadStrategic(s, remotes);
      forall b :: 0 <= b < |s.batches| ==> r.batches[b] == s.batches[b]
  {
    var r := PreloadStrategic(s, remotes);
    var n := |s.batches|;
    PreloadStrategicSplit(s, remotes);
    forall b | 0 <= b < n ensures r.batches[b] == s.batches[b] {
      assert r.batches[..n][b] == r.batches[b];
    }
  }

  lemma SubmitKeepsRefsLive(s: State, remotes: seq<Request>)
    requires RefsLive(s)
    ensures RefsLive(PreloadStrategic(s, remotes))
  {
    var r := PreloadStrategic(s, remotes);
    PreloadStrategicSplit(s, remotes);
    SubmitKeepsOld(s, remotes);
    forall k | 0 <= k < |r.pending|
      ensures LiveBatch(r, r.pending[k].batch)
    {
      if k < |s.pending| {
        assert r.pending[k] == s.pending[k];
      }
    }
  }

  lemma SubmitKeepsWellFormed(s: State, remotes: seq<Request>)
    requires BatchesWellFormed(s)
    ensures BatchesWellFormed(PreloadStrategic(s, remotes))
  {
    var r := PreloadStrategic(s, remotes);
    PreloadStrategicSplit(s, remotes);
    SubmitKeepsOld(s, remotes);
    RankSort.TierPriorities(remotes, Critical);
    RankSort.TierPriorities(remotes, High);
    RankSort.TierPriorities(remotes, Low);
    OthersWellFormed(Tier(remotes, High), Tier(remotes, Low));
    assert WellFormed(r.batches[|s.batches|]);
  }

  lemma SubmitKeepsConserved(s: State, remotes: seq<Request>)
    requires RefsLive(s) && Conserved(s)
    ensures Conserved(PreloadStrategic(s, remotes))
  {
    var r := PreloadStrategic(s, remotes);
    PreloadStrategicSplit(s, remotes);
    var n := |s.batches|;
    SubmitKeepsOld(s, remotes);
    DoneOfOther(s.settled, n);
    forall b | 0 <= b < |r.batches|
      ensures r.batches[b].others == Done(r.settled, b) + InFlightFrom(r.inFlight, b) + r.batches[b].queue
    {
      if b == n {
        assert InFlightFrom(s.inFlight, b) == [];
        assert r.batches[b].others == [] + [] + r.batches[b].queue;
      }
    }
  }

  lemma SubmitKeepsExclusive(s: State, remotes: seq<Request>)
    requires RefsLive(s) && Exclusive(s)
    ensures Exclusive(PreloadStrategic(s, remotes))
  {
    var r := PreloadStrategic(s, remotes);
    PreloadStrategicSplit(s, remotes);
    var n := |s.batches|;
    CallbacksForOther(s.pending, n);
    forall b | 0 <= b < |r.batches|
      ensures Tokens(r, b) <= 1
    {
      if b < n {
        assert Tokens(s, b) <= 1;
      } else {
        assert InFlightFrom(s.inFlight, b) == [];
      }
      if r.pending != s.pending {
        CallbacksForSnoc(s.pending, r.pending[|r.pending| - 1], b);
        assert r.pending == s.pending + [r.pending[|r.pending| - 1]];
      }
    }
  }

  lemma SubmitPreservesValid(s: State, remotes: seq<Request>)
    requires Valid(s)
    ensures Valid(PreloadStrategic(s, remotes))
  {
    SubmitKeepsRefsLive(s, remotes);
    SubmitKeepsWellFormed(s, remotes);
    SubmitKeepsConserved(s, remotes);
    SubmitKeepsExclusive(s, remotes);
  }

  lemma CriticalSettledKeepsExclusive(s: State, b: nat, outcomes: seq<bool>)
    requires RefsLive(s) && Exclusive(s)
    requires b < |s.batches| && s.batches[b].phase == Eager
    requires |outcomes| == |s.batches[b].critical|
    ensures Exclusive(CriticalSettledStep(s, b, outcomes))
  {
    var r := CriticalSettledStep(s, b, outcomes);
    CallbacksForOther(s.pending, b);
    assert InFlightFrom(s.inFlight, b) == [];
    forall c | 0 <= c < |r.batches|
      ensures Tokens(r, c) <= 1
    {
      assert Tokens(s, c) <= 1;
      if false !in outcomes {
        CallbacksForSnoc(s.pending, Callback(b, TriggerFor(s.hasIdleCallback)), c);
      }
    }
  }

  lemma CriticalSettledKeepsRefsLive(s: State, b: nat, outcomes: seq<bool>)
    requires RefsLive(s)
    requires b < |s.batches| && s.batches[b].phase == Eager
    requires |outcomes| == |s.batches[b].critical|
    ensures RefsLive(CriticalSettledStep(s, b, outcomes))
  {
    var r := CriticalSettledStep(s, b, outcomes);
    forall k | 0 <= k < |r.pending|
      ensures LiveBatch(r, r.pending[k].batch)
    {
      if k < |s.pending| {
        assert r.pending[k] == s.pending[k];
      }
    }
  }

  lemma CriticalSettledPreservesValid(s: State, b: nat, outcomes: seq<bool>)
    requires Valid(s)
    requires b < |s.batches| && s.batches[b].phase == Eager
    requires |outcomes| == |s.batches[b].critical|
    ensures Valid(CriticalSettledStep(s, b, outcomes))
  {
    var r := CriticalSettledStep(s, b, outcomes);
    assert r.batches[b] == s.batches[b].(phase := r.batches[b].phase);
    CriticalSettledKeepsExclusive(s, b, outcomes);
    CriticalSettledKeepsRefsLive(s, b, outcomes);
  }

  /** The callbacks left after callback `k` is taken are all among the old ones. */
  lemma RemoveKeepsMembers(p: seq<Callback>, k: nat)
    requires k < |p|
    ensures forall j :: 0 <= j < |Remove(p, k)| ==> Remove(p, k)[j] in p
  {
    var rest := Remove(p, k);
    forall j | 0 <= j < |rest| ensures rest[j] in p {
      if j < k { assert rest[j] == p[j]; } else { assert rest[j] == p[j + 1]; }
    }
  }

  /** A callback that lands on the guard changes no batch and no fetch. */
  lemma GuardHitPreservesValid(s: State, k: nat, guard: GuardPolicy)
    requires Valid(s)
    requires k < |s.pending| && s.pending[k].batch < |s.batches|
    requires s.isPreloading || s.batches[s.pending[k].batch].queue == []
    ensures Valid(IdleFiredStep(s, k, guard))
  {
    var r := IdleFiredStep(s, k, guard);
    var cb := s.pending[k];
    var rest := Remove(s.pending, k);
    RemoveKeepsMembers(s.pending, k);
    var again := Callback(cb.batch, TriggerFor(s.hasIdleCallback));
    assert r.pending == rest || r.pending == rest + [again];
    forall c | 0 <= c < |r.batches|
      ensures Tokens(r, c) <= 1
    {
      assert Tokens(s, c) <= 1;
      CallbacksForRemove(s.pending, k, c);
      CallbacksForSnoc(rest, again, c);
    }
    forall j | 0 <= j < |r.pending|
      ensures LiveBatch(r, r.pending[j].batch)
    {
      if j < |rest| {
        assert r.pending[j] in s.pending;
      }
    }
  }

  lemma ProductiveFireKeepsExclusive(s: State, k: nat, guard: GuardPolicy)
    requires FlagTracksFetch(s) && Exclusive(s)
    requires k < |s.pending| && s.pending[k].batch < |s.batches|
    requires !s.isPreloading && s.batches[s.pending[k].batch].queue != []
    ensures Exclusive(IdleFiredStep(s, k, guard))
  {
    var r := IdleFiredStep(s, k, guard);
    CallbacksForMember(s.pending, k);
    forall c | 0 <= c < |r.batches|
      ensures Tokens(r, c) <= 1
    {
      assert Tokens(s, c) <= 1;
      CallbacksForRemove(s.pending, k, c);
    }
  }

  lemma ProductiveFireKeepsConserved(s: State, k: nat, guard: GuardPolicy)
    requires FlagTracksFetch(s) && Conserved(s)
    requires k < |s.pending| && s.pending[k].batch < |s.batches|
    requires !s.isPreloading && s.batches[s.pending[k].batch].queue != []
    ensures Conserved(IdleFiredStep(s, k, guard))
  {
    var r := IdleFiredStep(s, k, guard);
    var b := s.pending[k].batch;
    var q := s.batches[b].queue;
    forall c | 0 <= c < |r.batches|
      ensures r.batches[c].others == Done(r.settled, c) + InFlightFrom(r.inFlight, c) + r.batches[c].queue
    {
      if c == b {
        assert q == [q[0]] + q[1..];
      }
    }
  }

  lemma ProductiveFireKeepsRefsLive(s: State, k: nat, guard: GuardPolicy)
    requires RefsLive(s)
    requires k < |s.pending| && s.pending[k].batch < |s.batches|
    requires !s.isPreloading && s.batches[s.pending[k].batch].queue != []
    ensures RefsLive(IdleFiredStep(s, k, guard))
  {
    var r := IdleFiredStep(s, k, guard);
    RemoveKeepsMembers(s.pending, k);
    forall j | 0 <= j < |r.pending|
      ensures LiveBatch(r, r.pending[j].batch)
    {
      assert r.pending[j] in s.pending;
    }
  }

  /** A callback that finds the loader idle and its array non-empty starts one fetch. */
  lemma ProductiveFirePreservesValid(s: State, k: nat, guard: GuardPolicy)
    requires Valid(s)
    requires k < |s.pending| && s.pending[k].batch < |s.batches|
    requires !s.isPreloading && s.batches[s.pending[k].batch].queue != []
    ensures Valid(IdleFiredStep(s, k, guard))
  {
    ProductiveFireKeepsExclusive(s, k, guard);
    ProductiveFireKeepsConserved(s, k, guard);
    ProductiveFireKeepsRefsLive(s, k, guard);
  }

  lemma IdleFiredPreservesValid(s: State, k: nat, guard: GuardPolicy)
    requires Valid(s)
    requires k < |s.pending| && s.pending[k].batch < |s.batches|
    ensures Valid(IdleFiredStep(s, k, guard))
  {
    if s.isPreloading || s.batches[s.pending[k].batch].queue == [] {
      GuardHitPreservesValid(s, k, guard);
    } else {
      ProductiveFirePreservesValid(s, k, guard);
    }
  }

  lemma FetchSettledPreservesValid(s: State, ok: bool)
    requires Valid(s)
    requires s.inFlight.Some? && s.inFlight.value.batch < |s.batches|
    ensures Valid(FetchSettledStep(s, ok))
  {
    var r := FetchSettledStep(s, ok);
    var f := s.inFlight.value;
    var st := Settlement(f.batch, f.item, ok);
    forall c | 0 <= c < |r.batches|
      ensures r.batches[c].others == Done(r.settled, c) + InFlightFrom(r.inFlight, c) + r.batches[c].queue
    {
      DoneSnoc(s.settled, st, c);
    }
    forall c | 0 <= c < |r.batches|
      ensures Tokens(r, c) <= 1
    {
      assert Tokens(s, c) <= 1;
      if r.pending != s.pending {
        CallbacksForSnoc(s.pending, Callback(f.batch, TriggerFor(s.hasIdleCallback)), c);
      }
    }
    forall j | 0 <= j < |r.pending|
      ensures LiveBatch(r, r.pending[j].batch)
    {
      if j < |s.pending| {
        assert r.pending[j] == s.pending[j];
      }
    }
    forall i | 0 <= i < |r.settled|
      ensures LiveBatch(r, r.settled[i].batch)
    {
      if i < |s.settled| {
        assert r.settled[i] == s.settled[i];
      }
    }
  }

  /** Every enabled event, under either guard policy, keeps the loader's invariant. */
  lemma StepPreservesValid(s: State, e: Event, guard: GuardPolicy)
    requires Valid(s) && Enabled(s, e)
    ensures Valid(Step(s, e, guard))
  {
    match e
    case Submit(remotes) => SubmitPreservesValid(s, remotes);
    case CriticalSettled(b, outcomes) => CriticalSettledPreservesValid(s, b, outcomes);
    case IdleFired(k) => IdleFiredPreservesValid(s, k, guard);
    case FetchSettled(ok) => FetchSettledPreservesValid(s, ok);
  }
}
