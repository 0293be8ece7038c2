/**
  Runs of the loader: event scripts, the uncontended drain of one array, and a whole
  `preloadStrategic` call from a fresh loader to quiescence.
 */
module Drain {
  import opened Wrappers
  import opened Requests
  import opened Loader
  import RankSort

  /** Applies `es` in order; `None` when some event is not enabled where it occurs. */
  function Run(s: State, es: seq<Event>, guard: GuardPolicy): Option<State>
    decreases |es|
  {
    if es == [] then Some(s)
    else if !Enabled(s, es[0]) then None
    else Run(Step(s, es[0], guard), es[1..], guard)
  }

  /** One drain round per outcome: the sole callback fires, then its fetch settles. */
  function Rounds(outcomes: seq<bool>): seq<Event>
  {
    if outcomes == [] then [] else [IdleFired(0), FetchSettled(outcomes[0])] + Rounds(outcomes[1..])
  }

  /** The drain of an array with no competing callers: one round per request, or a single
      callback that finds the array empty. */
  function DrainScript(outcomes: seq<bool>): seq<Event>
  {
    if outcomes == [] then [IdleFired(0)] else Rounds(outcomes)
  }

  /** The settlements of `q`'s requests, in order, with the given outcomes. */
  function Settlements(b: nat, q: seq<Request>, outcomes: seq<bool>): seq<Settlement>
    requires |q| == |outcomes|
  {
    if q == [] then [] else [Settlement(b, q[0], outcomes[0])] + Settlements(b, q[1..], outcomes[1..])
  }

  lemma RunTwo(s: State, a: Event, c: Event, rest: seq<Event>, guard: GuardPolicy)
    requires Enabled(s, a) && Enabled(Step(s, a, guard), c)
    ensures Run(s, [a, c] + rest, guard) == Run(Step(Step(s, a, guard), c, guard), rest, guard)
  {
    var es := [a, c] + rest;
    assert es[0] == a && es[1..] == [c] + rest;
    assert ([c] + rest)[0] == c && ([c] + rest)[1..] == rest;
  }

  /** One drain round takes the head of the array, settles it, and re-registers the
      callback exactly when requests remain. */
  lemma OneRound(s: State, ok: bool, guard: GuardPolicy)
    requires |s.pending| == 1 && s.pending[0].batch < |s.batches|
    requires !s.isPreloading && s.inFlight == None
    requires s.batches[s.pending[0].batch].queue != []
    ensures var b := s.pending[0].batch; var q := s.batches[b].queue;
      var s1 := IdleFiredStep(s, 0, guard);
      && Enabled(s1, FetchSettled(ok))
      && var r := FetchSettledStep(s1, ok);
      && r.batches == s.batches[b := s.batches[b].(queue := q[1..])]
      && r.settled == s.settled + [Settlement(b, q[0], ok)]
      && !r.isPreloading && r.inFlight == None
      && r.hasIdleCallback == s.hasIdleCallback
      && r.pending == (if q[1..] == [] then [] else [Callback(b, TriggerFor(s.hasIdleCallback))])
  {
    assert Remove(s.pending, 0) == [];
  }

  /** A callback that finds its array empty does nothing and schedules nothing. */
  lemma DrainEmpty(s: State, guard: GuardPolicy)
    requires |s.pending| == 1 && s.pending[0].batch < |s.batches|
    requires !s.isPreloading && s.inFlight == None
    requires s.batches[s.pending[0].batch].queue == []
    ensures var r := Run(s, DrainScript([]), guard);
      r.Some? && r.value == s.(pending := [])
  {
    assert Remove(s.pending, 0) == [];
    assert [IdleFired(0)][1..] == [];
  }

  /** An uncontended drain of an array of n requests performs exactly n rounds, settles
      the requests in array order (failures included, none retried), and then stops with
      the flag down and nothing scheduled. No guard is hit on the way, so this holds with
      the guard as written and with the corrected one alike. */
  lemma {:induction false} DrainsInOrder(s: State, outcomes: seq<bool>, guard: GuardPolicy)
    requires |s.pending| == 1 && s.pending[0].batch < |s.batches|
    requires !s.isPreloading && s.inFlight == None
    requires |outcomes| == |s.batches[s.pending[0].batch].queue|
    ensures DrainedInOrder(s, outcomes, guard)
    decreases |outcomes|, 1
  {
    var b := s.pending[0].batch;
    if outcomes == [] {
      DrainEmpty(s, guard);
      assert s.batches[b := s.batches[b].(queue := [])] == s.batches;
      assert s.settled + Settlements(b, [], outcomes) == s.settled;
    } else {
      DrainRound(s, outcomes, guard);
    }
  }

  ghost predicate DrainedInOrder(s: State, outcomes: seq<bool>, guard: GuardPolicy)
    requires |s.pending| == 1 && s.pending[0].batch < |s.batches|
    requires |outcomes| == |s.batches[s.pending[0].batch].queue|
  {
    DrainsTo(s, outcomes, Run(s, DrainScript(outcomes), guard))
  }

  /** `r` is what an in-order drain of the array of the one callback of `s` leaves. */
  ghost predicate DrainsTo(s: State, outcomes: seq<bool>, r: Option<State>)
    requires |s.pending| == 1 && s.pending[0].batch < |s.batches|
    requires |outcomes| == |s.batches[s.pending[0].batch].queue|
  {
    var b := s.pending[0].batch;
    var q := s.batches[b].queue;
    && r.Some?
    && r.value.batches == s.batches[b := s.batches[b].(queue := [])]
    && r.value.settled == s.settled + Settlements(b, q, outcomes)
    && !r.value.isPreloading && Quiescent(r.value)
  }

  lemma DrainLast(s: State, ok: bool, guard: GuardPolicy)
    requires |s.pending| == 1 && s.pending[0].batch < |s.batches|
    requires !s.isPreloading && s.inFlight == None
    requires |s.batches[s.pending[0].batch].queue| == 1
    ensures DrainedInOrder(s, [ok], guard)
  {
    var b := s.pending[0].batch;
    var q := s.batches[b].queue;
    OneRound(s, ok, guard);
    RunTwo(s, IdleFired(0), FetchSettled(ok), [], guard);
    assert [ok][1..] == [];
    assert Rounds([ok]) == [IdleFired(0), FetchSettled(ok)] + Rounds([]);
    assert DrainScript([ok]) == [IdleFired(0), FetchSettled(ok)] + [];
    assert Settlements(b, q, [ok]) == [Settlement(b, q[0], ok)];
  }

  /** The first of several rounds leaves one callback on the shortened array. */
  lemma NextRound(s: State, outcomes: seq<bool>, guard: GuardPolicy) returns (s2: State)
    requires |s.pending| == 1 && s.pending[0].batch < |s.batches|
    requires !s.isPreloading && s.inFlight == None
    requires |outcomes| == |s.batches[s.pending[0].batch].queue| > 1
    ensures var b := s.pending[0].batch; var q := s.batches[b].queue;
      && s2.batches == s.batches[b := s.batches[b].(queue := q[1..])]
      && s2.settled == s.settled + [Settlement(b, q[0], outcomes[0])]
      && s2.pending == [Callback(b, TriggerFor(s.hasIdleCallback))]
      && !s2.isPreloading && s2.inFlight == None
      && Run(s, DrainScript(outcomes), guard) == Run(s2, DrainScript(outcomes[1..]), guard)
  {
    var ok, rest := outcomes[0], outcomes[1..];
    s2 := FetchSettledStep(IdleFiredStep(s, 0, guard), ok);
    OneRound(s, ok, guard);
    RunTwo(s, IdleFired(0), FetchSettled(ok), Rounds(rest), guard);
    assert DrainScript(outcomes) == [IdleFired(0), FetchSettled(ok)] + Rounds(rest);
    assert DrainScript(rest) == Rounds(rest);
  }

  lemma {:induction false} DrainRound(s: State, outcomes: seq<bool>, guard: GuardPolicy)
    requires |s.pending| == 1 && s.pending[0].batch < |s.batches|
    requires !s.isPreloading && s.inFlight == None
    requires |outcomes| == |s.batches[s.pending[0].batch].queue| > 0
    ensures DrainedInOrder(s, outcomes, guard)
    decreases |outcomes|, 0
  {
    if |outcomes| == 1 {
      assert outcomes == [outcomes[0]];
      DrainLast(s, outcomes[0], guard);
    } else {
      var s2 := NextRound(s, outcomes, guard);
      DrainsInOrder(s2, outcomes[1..], guard);
      RoundThenRest(s, outcomes, s2, Run(s2, DrainScript(outcomes[1..]), guard));
    }
  }

  /** A first round followed by an in-order drain of the rest is an in-order drain. */
  lemma RoundThenRest(s: State, outcomes: seq<bool>, s2: State, r: Option<State>)
    requires |s.pending| == 1 && s.pending[0].batch < |s.batches|
    requires |outcomes| == |s.batches[s.pending[0].batch].queue| > 1
    requires var b := s.pending[0].batch; var q := s.batches[b].queue;
      && s2.batches == s.batches[b := s.batches[b].(queue := q[1..])]
      && s2.settled == s.settled + [Settlement(b, q[0], outcomes[0])]
      && s2.pending == [Callback(b, TriggerFor(s.hasIdleCallback))]
    requires DrainsTo(s2, outcomes[1..], r)
    ensures DrainsTo(s, outcomes, r)
  {
    var b := s.pending[0].batch;
    var q := s.batches[b].queue;
    var rest := outcomes[1..];
    var head := Settlement(b, q[0], outcomes[0]);
    assert r.value.batches == s.batches[b := s.batches[b].(queue := [])] by {
      assert s2.pending[0].batch == b;
      assert s2.batches[b := s2.batches[b].(queue := [])] == s.batches[b := s.batches[b].(queue := [])];
    }
    assert r.value.settled == s.settled + Settlements(b, q, outcomes) by {
      assert s2.pending[0].batch == b && s2.batches[b].queue == q[1..];
      assert Settlements(b, q, outcomes) == [head] + Settlements(b, q[1..], rest);
      assert s2.settled + Settlements(b, q[1..], rest) == s.settled + ([head] + Settlements(b, q[1..], rest));
    }
  }

  /** The settlements list the array's requests in order, one per outcome. */
  lemma {:induction false} SettlementsInOrder(b: nat, q: seq<Request>, outcomes: seq<bool>)
    requires |q| == |outcomes|
    ensures |Settlements(b, q, outcomes)| == |q|
    ensures forall i :: 0 <= i < |q| ==> Settlements(b, q, outcomes)[i] == Settlement(b, q[i], outcomes[i])
  {
    if q != [] {
      SettlementsInOrder(b, q[1..], outcomes[1..]);
    }
  }

  /** A loader constructed in the default mode. */
  function Fresh(hasIdleCallback: bool): State
  {
    New(None, hasIdleCallback).value
  }

  /** One `preloadStrategic` call up to the end of its await: the call itself and, when it
      has critical requests, the settling of their `Promise.all`. */
  function CallScript(remotes: seq<Request>, critical: seq<bool>): seq<Event>
  {
    [Submit(remotes)] + (if Tier(remotes, Critical) == [] then [] else [CriticalSettled(0, critical)])
  }

  lemma RunOne(s: State, e: Event, guard: GuardPolicy)
    requires Enabled(s, e)
    ensures Run(s, [e], guard) == Some(Step(s, e, guard))
  {
    assert [e][1..] == [];
  }

  /** A single call on a fresh loader, whatever its fetches do. If a critical invoke
      rejects, the call rejects, nothing is handed to the idle loop and nothing more
      happens. Otherwise the idle loop then fetches exactly the high requests and then
      the low ones, each tier in submission order, one at a time, a failure never
      blocking the next, and stops with nothing scheduled. This holds under either guard. */
  lemma EndToEnd(remotes: seq<Request>, hasIdleCallback: bool, critical: seq<bool>, outcomes: seq<bool>,
                 guard: GuardPolicy)
    requires |critical| == |Tier(remotes, Critical)|
    requires |outcomes| == |Tier(remotes, High) + Tier(remotes, Low)|
    ensures var s := Run(Fresh(hasIdleCallback), CallScript(remotes, critical), guard);
      && s.Some?
      && |s.value.batches| == 1
      && (false in critical ==> s.value.batches[0].phase == Rejected && Quiescent(s.value) && s.value.settled == [])
      && (false !in critical ==>
            var r := Run(s.value, DrainScript(outcomes), guard);
            && r.Some? && Quiescent(r.value) && !r.value.isPreloading
            && r.value.settled == Settlements(0, Tier(remotes, High) + Tier(remotes, Low), outcomes))
  {
    var s0 := Fresh(hasIdleCallback);
    var s1 := PreloadStrategic(s0, remotes);
    PreloadStrategicSplit(s0, remotes);
    if Tier(remotes, Critical) == [] {
      assert CallScript(remotes, critical) == [Submit(remotes)];
      RunOne(s0, Submit(remotes), guard);
      assert s1.pending == [Callback(0, TriggerFor(hasIdleCallback))];
      DrainsInOrder(s1, outcomes, guard);
    } else {
      var s2 := CriticalSettledStep(s1, 0, critical);
      assert CallScript(remotes, critical) == [Submit(remotes), CriticalSettled(0, critical)] + [];
      RunTwo(s0, Submit(remotes), CriticalSettled(0, critical), [], guard);
      if false !in critical {
        assert s2.pending == [Callback(0, TriggerFor(hasIdleCallback))];
        DrainsInOrder(s2, outcomes, guard);
      }
    }
  }

  /** The example order: submitted as A low, B high, C low, D high to a fresh loader,
      the call has no critical list, its array is B, D, A, C, and that array is handed
      to the idle loop at once with one callback. */
  lemma ExampleDrainOrder(hasIdleCallback: bool)
    ensures var a, b, c, d := Request("A", Low), Request("B", High), Request("C", Low), Request("D", High);
      var r := PreloadStrategic(Fresh(hasIdleCallback), [a, b, c, d]);
      && |r.batches| == 1 && r.batches[0].critical == [] && r.batches[0].queue == [b, d, a, c]
      && r.batches[0].phase == Deferred && r.pending == [Callback(0, TriggerFor(hasIdleCallback))]
  {
    var a, b, c, d := Request("A", Low), Request("B", High), Request("C", Low), Request("D", High);
    var remotes := [a, b, c, d];
    assert remotes[..3] == [a, b, c];
    assert [a, b, c][..2] == [a, b];
    assert [a, b][..1] == [a];
    assert [a][..0] == [];
    RankSort.TierSingle(a, Critical);
    RankSort.TierSingle(a, High);
    RankSort.TierSingle(a, Low);
    assert Tier([a, b], Critical) == [] && Tier([a, b], High) == [b] && Tier([a, b], Low) == [a];
    assert Tier([a, b, c], Critical) == [] && Tier([a, b, c], High) == [b] && Tier([a, b, c], Low) == [a, c];
    assert Tier(remotes, Critical) == [] && Tier(remotes, High) == [b, d] && Tier(remotes, Low) == [a, c];
    PreloadStrategicSplit(Fresh(hasIdleCallback), remotes);
  }
}
