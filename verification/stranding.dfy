/**
  Two overlapping `preloadStrategic` calls on one loader.

  Each call drains its own array, but all calls share the one `isPreloading` flag, and a
  callback that lands on that flag returns without registering again. When the second
  call's callback fires while the first call's fetch is in flight, the second array
  loses its only callback and is never drained. `StrandedWitness` exhibits this on the
  loader as written. `RescheduleKeepsCovered` proves that re-registering on a guard hit
  keeps every non-empty handed-on array covered by a callback or a fetch, so no quiet
  state strands a request. Eventual progress also needs every callback to fire and
  every fetch to settle, which the model does not assume.
 */
module Stranding {
  import opened Wrappers
  import opened Requests
  import opened Loader
  import opened LoaderInvariant
  import Drain

  /** Every handed-on array that still holds requests has a callback or fetch on it. */
  ghost predicate Covered(s: State)
  {
    forall b: nat :: LiveBatch(s, b) && s.batches[b].queue != [] ==> Tokens(s, b) >= 1
  }

  /** Nothing scheduled and nothing in flight while a handed-on array is non-empty:
      no event other than a new call can ever reach its requests. */
  ghost predicate Stranded(s: State, b: nat)
  {
    Quiescent(s) && LiveBatch(s, b) && s.batches[b].queue != []
  }

  /** With coverage, a loader that has gone quiet has drained every handed-on array. */
  lemma CoveredQuietIsDrained(s: State)
    requires Covered(s) && Quiescent(s)
    ensures forall b: nat :: !Stranded(s, b)
  {
    forall b: nat
      ensures !Stranded(s, b)
    {
      assert Tokens(s, b) == 0;
    }
  }

  // ---------------------------------------------------------------------------
  // As written: a concrete run that strands the second call's array

  const A1: Request := Request("a1", High)
  const A2: Request := Request("a2", High)
  const B1: Request := Request("b1", Low)

  /** Two calls without critical requests; the first call's callback fires and starts a1;
      the second call's callback fires during that fetch and is dropped; a1 settles and
      re-registers the first call's callback, which then fetches a2. */
  function StrandingScript(): seq<Event>
  {
    [Submit([A1, A2]), Submit([B1]), IdleFired(0), IdleFired(0), FetchSettled(true),
     IdleFired(0), FetchSettled(true)]
  }

  lemma RunCons(s: State, e: Event, rest: seq<Event>, guard: GuardPolicy)
    requires Enabled(s, e)
    ensures Drain.Run(s, [e] + rest, guard) == Drain.Run(Step(s, e, guard), rest, guard)
  {
    assert ([e] + rest)[0] == e && ([e] + rest)[1..] == rest;
  }

  lemma SubmitNoCritical(s: State, remotes: seq<Request>, p: Priority)
    requires p != Critical
    requires AllOf(remotes, p)
    ensures var r := PreloadStrategic(s, remotes); var n := |s.batches|;
      && r.batches == s.batches + [Batch([], remotes, remotes, Deferred)]
      && r.pending == s.pending + [Callback(n, TriggerFor(s.hasIdleCallback))]
      && r.isPreloading == s.isPreloading && r.inFlight == s.inFlight && r.settled == s.settled
      && r.hasIdleCallback == s.hasIdleCallback
  {
    var r := PreloadStrategic(s, remotes);
    PreloadStrategicSplit(s, remotes);
    TierOfOther(remotes, Critical);
    TierOfSame(remotes, p);
    if p == High {
      TierOfOther(remotes, Low);
      assert remotes + [] == remotes;
    } else {
      TierOfOther(remotes, High);
      assert [] + remotes == remotes;
    }
    assert r.batches == r.batches[..|s.batches|] + [r.batches[|s.batches|]];
  }

  // The states the run passes through, as written: `S0(h)` is a fresh loader whose
  // browser has idle callbacks exactly when `h`, and `S7(h)` is the state it ends in.
  // Batch 0 is the first call's array, batch 1 the second's.

  function BatchA(queue: seq<Request>): Batch { Batch([], [A1, A2], queue, Deferred) }
  const BatchB: Batch := Batch([], [B1], [B1], Deferred)
  function Cb(h: bool, b: nat): Callback { Callback(b, TriggerFor(h)) }
  const Done1: seq<Settlement> := [Settlement(0, A1, true)]
  const Done2: seq<Settlement> := [Settlement(0, A1, true), Settlement(0, A2, true)]

  function S0(h: bool): State { State(h, false, [], [], None, []) }
  function S1(h: bool): State { State(h, false, [BatchA([A1, A2])], [Cb(h, 0)], None, []) }
  function S2(h: bool): State { State(h, false, [BatchA([A1, A2]), BatchB], [Cb(h, 0), Cb(h, 1)], None, []) }
  function S3(h: bool): State { State(h, true, [BatchA([A2]), BatchB], [Cb(h, 1)], Some(Fetch(0, A1)), []) }
  function S4(h: bool): State { State(h, true, [BatchA([A2]), BatchB], [], Some(Fetch(0, A1)), []) }
  function S5(h: bool): State { State(h, false, [BatchA([A2]), BatchB], [Cb(h, 0)], None, Done1) }
  function S6(h: bool): State { State(h, true, [BatchA([]), BatchB], [], Some(Fetch(0, A2)), Done1) }
  function S7(h: bool): State { State(h, false, [BatchA([]), BatchB], [], None, Done2) }

  lemma Step1(h: bool)
    ensures Step(S0(h), Submit([A1, A2]), DropOnGuard) == S1(h)
  {
    SubmitNoCritical(S0(h), [A1, A2], High);
  }

  lemma Step2(h: bool)
    ensures Step(S1(h), Submit([B1]), DropOnGuard) == S2(h)
  {
    SubmitNoCritical(S1(h), [B1], Low);
  }

  /** The first call's callback starts `a1`. */
  lemma Step3(h: bool)
    ensures Enabled(S2(h), IdleFired(0)) && Step(S2(h), IdleFired(0), DropOnGuard) == S3(h)
  {
    assert [A1, A2][1..] == [A2];
  }

  /** The second call's callback lands on the flag and is dropped. */
  lemma Step4(h: bool)
    ensures Enabled(S3(h), IdleFired(0)) && Step(S3(h), IdleFired(0), DropOnGuard) == S4(h)
  {
  }

  lemma Step5(h: bool)
    ensures Enabled(S4(h), FetchSettled(true)) && Step(S4(h), FetchSettled(true), DropOnGuard) == S5(h)
  {
  }

  lemma Step6(h: bool)
    ensures Enabled(S5(h), IdleFired(0)) && Step(S5(h), IdleFired(0), DropOnGuard) == S6(h)
  {
    assert [A2][1..] == [];
  }

  lemma Step7(h: bool)
    ensures Enabled(S6(h), FetchSettled(true)) && Step(S6(h), FetchSettled(true), DropOnGuard) == S7(h)
  {
    assert Done1 + [Settlement(0, A2, true)] == Done2;
  }

  /** The script drives a fresh loader as written to `S7`. */
  lemma ScriptRuns(h: bool)
    ensures Drain.Run(Drain.Fresh(h), StrandingScript(), DropOnGuard) == Some(S7(h))
  {
    var e1, e2, e3 := Submit([A1, A2]), Submit([B1]), IdleFired(0);
    var e5 := FetchSettled(true);
    assert StrandingScript() == [e1] + ([e2] + ([e3] + ([e3] + ([e5] + ([e3] + ([e5] + []))))));
    Step1(h); Step2(h); Step3(h); Step4(h); Step5(h); Step6(h); Step7(h);
    RunCons(S6(h), e5, [], DropOnGuard);
    RunCons(S5(h), e3, [e5] + [], DropOnGuard);
    RunCons(S4(h), e5, [e3] + ([e5] + []), DropOnGuard);
    RunCons(S3(h), e3, [e5] + ([e3] + ([e5] + [])), DropOnGuard);
    RunCons(S2(h), e3, [e3] + ([e5] + ([e3] + ([e5] + []))), DropOnGuard);
    RunCons(S1(h), e2, [e3] + ([e3] + ([e5] + ([e3] + ([e5] + [])))), DropOnGuard);
    RunCons(S0(h), e1, [e2] + ([e3] + ([e3] + ([e5] + ([e3] + ([e5] + []))))), DropOnGuard);
  }

  lemma FinalDone(h: bool)
    ensures Done(S7(h).settled, 0) == [A1, A2]
    ensures Done(S7(h).settled, 1) == []
  {
    var d := S7(h).settled;
    assert d == [Settlement(0, A1, true), Settlement(0, A2, true)];
    assert d[..1] == Done1 && Done1[..0] == [];
    assert Done(Done1, 0) == [A1] && Done(Done1, 1) == [];
  }

  lemma FinalConserved(h: bool)
    ensures Conserved(S7(h))
  {
    FinalDone(h);
    var r := S7(h);
    forall b | 0 <= b < |r.batches|
      ensures r.batches[b].others == Done(r.settled, b) + InFlightFrom(r.inFlight, b) + r.batches[b].queue
    {
      if b == 0 {
        assert [A1, A2] + [] + [] == [A1, A2];
      } else {
        assert [] + [] + [B1] == [B1];
      }
    }
  }

  lemma FinalRefsLive(h: bool)
    ensures RefsLive(S7(h))
  {
  }

  lemma FinalWellFormed(h: bool)
    ensures BatchesWellFormed(S7(h))
  {
    var r := S7(h);
    assert WellFormed(r.batches[0]);
    assert WellFormed(r.batches[1]);
  }

  /** Nothing is scheduled or in flight at the end: no array has a callback or fetch. */
  lemma FinalNoTokens(h: bool, b: nat)
    ensures Tokens(S7(h), b) == 0
  {
  }

  /** The state the run ends in satisfies the invariant. */
  lemma FinalValid(h: bool)
    ensures Valid(S7(h))
  {
    FinalConserved(h);
    FinalRefsLive(h);
    FinalWellFormed(h);
    FinalNoTokens(h, 0);
    FinalNoTokens(h, 1);
  }

  /** At the end, the second call's array still holds `b1` and nothing works on it. */
  lemma FinalStranded(h: bool)
    ensures Stranded(S7(h), 1) && S7(h).batches[1].queue == [B1] && !Covered(S7(h))
  {
    FinalNoTokens(h, 1);
  }

  /** On the loader as written, with or without idle callbacks, the run above ends quiet
      with `b1` still queued in a handed-on array: the second call's deferred request is
      never preloaded, although the invariant holds. */
  lemma StrandedWitness(hasIdleCallback: bool)
    ensures var r := Drain.Run(Drain.Fresh(hasIdleCallback), StrandingScript(), DropOnGuard);
      && r.Some? && Valid(r.value)
      && Stranded(r.value, 1) && r.value.batches[1].queue == [B1]
      && !Covered(r.value)
  {
    ScriptRuns(hasIdleCallback);
    FinalValid(hasIdleCallback);
    FinalStranded(hasIdleCallback);
  }

  /** A new call adds a batch after `b` and at most a callback on that new batch. */
  lemma SubmitLeavesUntokened(s: State, remotes: seq<Request>, b: nat)
    requires LiveBatch(s, b) && Tokens(s, b) == 0
    ensures var r := PreloadStrategic(s, remotes);
      LiveBatch(r, b) && Tokens(r, b) == 0 && r.batches[b].queue == s.batches[b].queue
  {
    var r := PreloadStrategic(s, remotes);
    PreloadStrategicSplit(s, remotes);
    assert r.batches[b] == r.batches[..|s.batches|][b];
    var extra := r.pending[|s.pending|..];
    assert r.pending == s.pending + extra;
    CallbacksForAppend(s.pending, extra, b);
    if extra != [] {
      CallbacksForSnoc([], extra[0], b);
    }
  }

  /** A firing callback belongs to some other array, so it registers nothing on `b`. */
  lemma IdleFiredLeavesUntokened(s: State, k: nat, b: nat, guard: GuardPolicy)
    requires LiveBatch(s, b) && Tokens(s, b) == 0
    requires k < |s.pending| && s.pending[k].batch < |s.batches|
    ensures var r := IdleFiredStep(s, k, guard);
      LiveBatch(r, b) && Tokens(r, b) == 0 && r.batches[b].queue == s.batches[b].queue
  {
    var c := s.pending[k].batch;
    CallbacksForMember(s.pending, k);
    CallbacksForRemove(s.pending, k, b);
    if (s.isPreloading || s.batches[c].queue == []) && guard == RescheduleOnGuard && s.batches[c].queue != [] {
      CallbacksForSnoc(Remove(s.pending, k), Callback(c, TriggerFor(s.hasIdleCallback)), b);
    }
  }

  /** An array with no callback and no fetch on it is never touched again, whatever
      happens next and whichever guard is used: no event can register a callback on it. */
  lemma UntokenedUntouched(s: State, e: Event, b: nat, guard: GuardPolicy)
    requires LiveBatch(s, b) && Tokens(s, b) == 0 && Enabled(s, e)
    ensures var r := Step(s, e, guard);
      LiveBatch(r, b) && Tokens(r, b) == 0 && r.batches[b].queue == s.batches[b].queue
  {
    match e
    case Submit(remotes) =>
      SubmitLeavesUntokened(s, remotes, b);
    case CriticalSettled(c, outcomes) =>
      if false !in outcomes {
        CallbacksForSnoc(s.pending, Callback(c, TriggerFor(s.hasIdleCallback)), b);
      }
    case IdleFired(k) =>
      IdleFiredLeavesUntokened(s, k, b, guard);
    case FetchSettled(ok) =>
      var c := s.inFlight.value.batch;
      assert c != b by {
        assert |InFlightFrom(s.inFlight, b)| == 0;
      }
      if s.batches[c].queue != [] {
        CallbacksForSnoc(s.pending, Callback(c, TriggerFor(s.hasIdleCallback)), b);
      }
  }

  /** Once an array has lost its last callback, no run of any events ever fetches
      another of its requests: what it still holds stays queued for good. */
  lemma {:induction false} NeverDrained(s: State, es: seq<Event>, b: nat, guard: GuardPolicy)
    requires LiveBatch(s, b) && Tokens(s, b) == 0
    ensures var r := Drain.Run(s, es, guard);
      r.Some? ==> LiveBatch(r.value, b) && Tokens(r.value, b) == 0
                  && r.value.batches[b].queue == s.batches[b].queue
    decreases |es|
  {
    if es != [] && Enabled(s, es[0]) {
      UntokenedUntouched(s, es[0], b, guard);
      NeverDrained(Step(s, es[0], guard), es[1..], b, guard);
    }
  }

  // ---------------------------------------------------------------------------
  // Corrected: a callback that lands on the flag registers again

  /** A new call covers its own array when it hands it on, and leaves the others' alone. */
  lemma SubmitKeepsCovered(s: State, remotes: seq<Request>)
    requires Covered(s)
    ensures Covered(PreloadStrategic(s, remotes))
  {
    var r := PreloadStrategic(s, remotes);
    var n := |s.batches|;
    PreloadStrategicSplit(s, remotes);
    var extra := r.pending[|s.pending|..];
    assert r.pending == s.pending + extra;
    forall b: nat | LiveBatch(r, b) && r.batches[b].queue != []
      ensures Tokens(r, b) >= 1
    {
      CallbacksForAppend(s.pending, extra, b);
      if b < n {
        assert r.batches[b] == r.batches[..n][b];
        assert LiveBatch(s, b);
      } else {
        assert extra == [Callback(n, TriggerFor(s.hasIdleCallback))];
        CallbacksForSnoc([], extra[0], b);
      }
    }
  }

  /** Critical invokes settling cover the array they hand on. */
  lemma CriticalSettledKeepsCovered(s: State, b: nat, outcomes: seq<bool>)
    requires Covered(s)
    requires b < |s.batches| && s.batches[b].phase == Eager
    requires |outcomes| == |s.batches[b].critical|
    ensures Covered(CriticalSettledStep(s, b, outcomes))
  {
    var r := CriticalSettledStep(s, b, outcomes);
    forall c: nat | LiveBatch(r, c) && r.batches[c].queue != []
      ensures Tokens(r, c) >= 1
    {
      if false !in outcomes {
        CallbacksForSnoc(s.pending, Callback(b, TriggerFor(s.hasIdleCallback)), c);
      }
      if c != b {
        assert LiveBatch(s, c);
      }
    }
  }

  /** The batches other than `b` lose nothing when one callback on `b` is consumed and
      the flag was down or the fetch in flight belongs to `b`. */
  lemma RemoveKeepsOthers(s: State, r: State, k: nat, c: nat)
    requires k < |s.pending| && c != s.pending[k].batch
    requires CallbacksFor(r.pending, c) >= CallbacksFor(Remove(s.pending, k), c)
    requires |InFlightFrom(r.inFlight, c)| >= |InFlightFrom(s.inFlight, c)|
    ensures Tokens(r, c) >= Tokens(s, c)
  {
    CallbacksForRemove(s.pending, k, c);
  }

  /** Under the corrected guard, a callback firing keeps every array covered: a guard hit
      hands its token back by registering again, a productive call turns it into a fetch. */
  lemma IdleFiredKeepsCovered(s: State, k: nat)
    requires FlagTracksFetch(s) && Covered(s)
    requires k < |s.pending| && s.pending[k].batch < |s.batches|
    ensures Covered(IdleFiredStep(s, k, RescheduleOnGuard))
  {
    var r := IdleFiredStep(s, k, RescheduleOnGuard);
    var b := s.pending[k].batch;
    var q := s.batches[b].queue;
    var cb := Callback(b, TriggerFor(s.hasIdleCallback));
    forall c: nat | LiveBatch(r, c) && r.batches[c].queue != []
      ensures Tokens(r, c) >= 1
    {
      if s.isPreloading || q == [] {
        if q != [] {
          CallbacksForSnoc(Remove(s.pending, k), cb, c);
        }
        if c != b {
          RemoveKeepsOthers(s, r, k, c);
          assert LiveBatch(s, c);
        }
      } else if c != b {
        assert s.inFlight == None;
        RemoveKeepsOthers(s, r, k, c);
        assert LiveBatch(s, c);
      }
    }
  }

  /** A settling fetch re-registers its own array when it still holds requests, and
      takes nothing from the others. This holds on the loader as written too. */
  lemma FetchSettledKeepsCovered(s: State, ok: bool)
    requires Covered(s)
    requires s.inFlight.Some? && s.inFlight.value.batch < |s.batches|
    ensures Covered(FetchSettledStep(s, ok))
  {
    var r := FetchSettledStep(s, ok);
    var b := s.inFlight.value.batch;
    var extra := if s.batches[b].queue != [] then [Callback(b, TriggerFor(s.hasIdleCallback))] else [];
    forall c: nat | LiveBatch(r, c) && r.batches[c].queue != []
      ensures Tokens(r, c) >= 1
    {
      CallbacksForAppend(s.pending, extra, c);
      if c == b {
        assert extra != [];
        CallbacksForSnoc([], extra[0], c);
      } else {
        assert LiveBatch(s, c);
      }
    }
  }

  /** Re-registering on a guard hit makes coverage an invariant of every step. */
  lemma RescheduleKeepsCovered(s: State, e: Event)
    requires Valid(s) && Covered(s) && Enabled(s, e)
    ensures Covered(Step(s, e, RescheduleOnGuard))
  {
    match e
    case Submit(remotes) => SubmitKeepsCovered(s, remotes);
    case CriticalSettled(b, outcomes) => CriticalSettledKeepsCovered(s, b, outcomes);
    case IdleFired(k) => IdleFiredKeepsCovered(s, k);
    case FetchSettled(ok) => FetchSettledKeepsCovered(s, ok);
  }

  /** Every state a fresh loader reaches under the corrected guard is valid and covered. */
  lemma {:induction false} RescheduleRunCovered(s: State, es: seq<Event>)
    requires Valid(s) && Covered(s)
    ensures var r := Drain.Run(s, es, RescheduleOnGuard); r.Some? ==> Valid(r.value) && Covered(r.value)
    decreases |es|
  {
    if es != [] && Enabled(s, es[0]) {
      StepPreservesValid(s, es[0], RescheduleOnGuard);
      RescheduleKeepsCovered(s, es[0]);
      RescheduleRunCovered(Step(s, es[0], RescheduleOnGuard), es[1..]);
    }
  }

  /** With the corrected guard, no run of a fresh loader strands a handed-on request:
      whenever the loader goes quiet, every handed-on array is empty. The script that
      strands `b1` as written is one such run. */
  lemma RescheduleNeverStrands(hasIdleCallback: bool, es: seq<Event>)
    ensures var r := Drain.Run(Drain.Fresh(hasIdleCallback), es, RescheduleOnGuard);
      r.Some? ==> Valid(r.value) && forall b: nat :: !Stranded(r.value, b)
  {
    var s := Drain.Fresh(hasIdleCallback);
    assert Covered(s);
    RescheduleRunCovered(s, es);
    var r := Drain.Run(s, es, RescheduleOnGuard);
    if r.Some? {
      forall b: nat
        ensures !Stranded(r.value, b)
      {
        if Quiescent(r.value) {
          CoveredQuietIsDrained(r.value);
        }
      }
    }
  }
}
