/**
  The strategic loader as a transition system.

  The JavaScript class keeps one `isPreloading` flag per instance. Every call of
  `preloadStrategic` sorts its batch, fires the critical requests together, awaits
  them all, and hands its own array of remaining requests to the idle-drain loop
  (`queueForIdlePreload` / `preloadNext`). Here every call is a `Batch`, every
  scheduled `preloadNext` closure is a `Callback` naming the batch whose array it
  captured, and the asynchronous interleaving becomes four discrete events.
 */
module Loader {
  import opened Wrappers
  import opened Requests
  import RankSort

  /** The only invocation mode the constructor accepts, and its default. */
  const PreloadRemoteMode: string := "preloadRemote"
  /** The `timeout` option passed to `requestIdleCallback`, in milliseconds. */
  const IdleTimeoutMs: nat := 5000
  /** The `setTimeout` delay used where `requestIdleCallback` does not exist, in milliseconds. */
  const FallbackDelayMs: nat := 1000

  datatype ConfigError = UnsupportedMode(mode: string)

  /** How a callback was registered: idle detection with a timeout, or a plain timer. */
  datatype Trigger = IdleCallback(timeoutMs: nat) | Timer(delayMs: nat)

  /** A scheduled `preloadNext` call on the request array of one batch. */
  datatype Callback = Callback(batch: nat, trigger: Trigger)

  /** Where one `preloadStrategic` call stands. */
  datatype Phase =
    | Eager     // awaiting `Promise.all` over its critical invokes
    | Deferred  // resolved; its remaining requests were handed to the idle loop
    | Rejected  // a critical invoke rejected; its remaining requests were never handed on

  /** One `preloadStrategic` call: its critical list, the remaining (`others`) list as
      computed, that list's current contents as the drain shifts it, and its phase. */
  datatype Batch = Batch(critical: seq<Request>, others: seq<Request>, queue: seq<Request>, phase: Phase)

  /** The deferred fetch `preloadNext` is awaiting: the batch it came from and the request. */
  datatype Fetch = Fetch(batch: nat, item: Request)

  /** A finished deferred fetch: success, or a failure that was caught and logged. */
  datatype Settlement = Settlement(batch: nat, item: Request, ok: bool)

  datatype State = State(
    hasIdleCallback: bool,
    isPreloading: bool,
    batches: seq<Batch>,
    pending: seq<Callback>,
    inFlight: Option<Fetch>,
    settled: seq<Settlement>)

  /** The events that drive the loader: a `preloadStrategic` call, the settling of its
      critical fan-out (one outcome per critical invoke), a scheduled callback firing,
      and the settling of the deferred fetch in flight. */
  datatype Event =
    | Submit(remotes: seq<Request>)
    | CriticalSettled(batch: nat, outcomes: seq<bool>)
    | IdleFired(index: nat)
    | FetchSettled(ok: bool)

  /** What a callback that finds the loader busy does: the code drops it; the corrected
      variant registers it again. */
  datatype GuardPolicy = DropOnGuard | RescheduleOnGuard

  /** The constructor: the mode defaults to `preloadRemote` and any other mode throws. */
  function New(mode: Option<string>, hasIdleCallback: bool): (r: Result<State, ConfigError>)
    ensures r.Success? <==> mode == None || mode == Some(PreloadRemoteMode)
    ensures r.Failure? ==> mode.Some? && r.error == UnsupportedMode(mode.value)
    ensures r.Success? ==> Valid(r.value) && !r.value.isPreloading && r.value.batches == [] && Quiescent(r.value)
    ensures r.Success? ==> r.value.hasIdleCallback == hasIdleCallback
  {
    var m := if mode.Some? then mode.value else PreloadRemoteMode;
    if m != PreloadRemoteMode then Failure(UnsupportedMode(m))
    else Success(State(hasIdleCallback, false, [], [], None, []))
  }

  /** Nothing scheduled and nothing in flight: no drain event can happen. */
  predicate Quiescent(s: State)
  {
    s.pending == [] && s.inFlight == None
  }

  function TriggerFor(hasIdleCallback: bool): Trigger
  {
    if hasIdleCallback then IdleCallback(IdleTimeoutMs) else Timer(FallbackDelayMs)
  }

  /** `queueForIdlePreload`: registers one callback on the array of batch `b`. */
  function QueueForIdle(s: State, b: nat): State
  {
    s.(pending := s.pending + [Callback(b, TriggerFor(s.hasIdleCallback))])
  }

  function Remove<T>(p: seq<T>, k: nat): seq<T>
    requires k < |p|
  {
    p[..k] + p[k + 1..]
  }

  /** `preloadStrategic`, up to its `await`: sort, split, and either start the critical
      fan-out or, with no critical request, hand the rest to the idle loop at once. */
  function PreloadStrategic(s: State, remotes: seq<Request>): State
  {
    var sorted := RankSort.Sort(remotes);
    var critical := Tier(sorted, Critical);
    var others := NonCritical(sorted);
    var b := |s.batches|;
    if |critical| > 0 then
      s.(batches := s.batches + [Batch(critical, others, others, Eager)])
    else
      QueueForIdle(s.(batches := s.batches + [Batch(critical, others, others, Deferred)]), b)
  }

  /** What one `preloadStrategic` call records: a new batch whose critical list is the
      batch's critical requests and whose remaining list is its high then its low
      requests, in submission order; the remaining list reaches the idle loop at once
      exactly when there is no critical request; nothing else changes. */
  lemma PreloadStrategicSplit(s: State, remotes: seq<Request>)
    ensures var r := PreloadStrategic(s, remotes); var n := |s.batches|;
      && |r.batches| == n + 1 && r.batches[..n] == s.batches
      && r.batches[n].critical == Tier(remotes, Critical)
      && r.batches[n].others == Tier(remotes, High) + Tier(remotes, Low)
      && r.batches[n].queue == r.batches[n].others
      && r.batches[n].phase == (if Tier(remotes, Critical) == [] then Deferred else Eager)
      && (Tier(remotes, Critical) == [] ==> r.pending == s.pending + [Callback(n, TriggerFor(s.hasIdleCallback))])
      && (Tier(remotes, Critical) != [] ==> r.pending == s.pending)
      && r.isPreloading == s.isPreloading && r.inFlight == s.inFlight && r.settled == s.settled
      && r.hasIdleCallback == s.hasIdleCallback
  {
    PartitionLists(remotes);
  }

  lemma NonCriticalOfTiers(c: seq<Request>, h: seq<Request>, l: seq<Request>)
    requires AllOf(c, Critical) && AllOf(h, High) && AllOf(l, Low)
    ensures NonCritical(c + h + l) == h + l
  {
    NonCriticalAppend(c + h, l);
    NonCriticalOfNonCritical(l);
    assert NonCritical(c + h) == h by {
      NonCriticalAppend(c, h);
      NonCriticalOfCritical(c);
      NonCriticalOfNonCritical(h);
      assert NonCritical(c + h) == [] + h;
    }
  }

  lemma PartitionLists(remotes: seq<Request>)
    ensures Tier(RankSort.Sort(remotes), Critical) == Tier(remotes, Critical)
    ensures NonCritical(RankSort.Sort(remotes)) == Tier(remotes, High) + Tier(remotes, Low)
  {
    RankSort.SortIsTiered(remotes);
    RankSort.TierOfTiered(remotes, Critical);
    RankSort.TierPriorities(remotes, Critical);
    RankSort.TierPriorities(remotes, High);
    RankSort.TierPriorities(remotes, Low);
    NonCriticalOfTiers(Tier(remotes, Critical), Tier(remotes, High), Tier(remotes, Low));
  }

  lemma PartitionCounts(remotes: seq<Request>)
    ensures multiset(Tier(remotes, Critical)) + multiset(Tier(remotes, High) + Tier(remotes, Low)) == multiset(remotes)
  {
    var c, h, l := Tier(remotes, Critical), Tier(remotes, High), Tier(remotes, Low);
    assert multiset(c + h + l) == multiset(remotes) by {
      RankSort.SortIsTiered(remotes);
      RankSort.SortPermutes(remotes);
    }
    assert c + h + l == c + (h + l);
    assert multiset(c + (h + l)) == multiset(c) + multiset(h + l);
  }

  lemma PartitionMembers(remotes: seq<Request>)
    ensures forall x :: x in Tier(remotes, Critical) <==> x in remotes && x.priority == Critical
    ensures forall x :: x in Tier(remotes, High) + Tier(remotes, Low) <==> x in remotes && x.priority != Critical
  {
    TierMembers(remotes, Critical);
    TierMembers(remotes, High);
    TierMembers(remotes, Low);
  }

  /** The split of the sorted batch: the critical list is exactly the critical requests,
      the remaining list exactly the others with every high before every low, each tier
      in submission order, and together they hold the batch once. */
  lemma Partition(remotes: seq<Request>)
    ensures Tier(RankSort.Sort(remotes), Critical) == Tier(remotes, Critical)
    ensures NonCritical(RankSort.Sort(remotes)) == Tier(remotes, High) + Tier(remotes, Low)
    ensures multiset(Tier(remotes, Critical)) + multiset(Tier(remotes, High) + Tier(remotes, Low)) == multiset(remotes)
    ensures forall x :: x in Tier(remotes, Critical) <==> x in remotes && x.priority == Critical
    ensures forall x :: x in Tier(remotes, High) + Tier(remotes, Low) <==> x in remotes && x.priority != Critical
  {
    PartitionLists(remotes);
    PartitionCounts(remotes);
    PartitionMembers(remotes);
  }

  /** Promise.all settles: all critical invokes fulfilled hands the remaining requests
      to the idle loop; a single rejection rejects the call and hands on nothing. */
  function CriticalSettledStep(s: State, b: nat, outcomes: seq<bool>): (r: State)
    requires b < |s.batches| && s.batches[b].phase == Eager
    requires |outcomes| == |s.batches[b].critical|
    ensures |r.batches| == |s.batches| && r.batches == s.batches[b := s.batches[b].(phase := r.batches[b].phase)]
    ensures r.batches[b].phase == Deferred <==> false !in outcomes
    ensures r.batches[b].phase == Rejected <==> false in outcomes
    ensures false in outcomes ==> r.pending == s.pending
    ensures false !in outcomes ==> r.pending == s.pending + [Callback(b, TriggerFor(s.hasIdleCallback))]
    ensures r.isPreloading == s.isPreloading && r.inFlight == s.inFlight && r.settled == s.settled
    ensures r.hasIdleCallback == s.hasIdleCallback
  {
    var batch := s.batches[b];
    if false !in outcomes then
      QueueForIdle(s.(batches := s.batches[b := batch.(phase := Deferred)]), b)
    else
      s.(batches := s.batches[b := batch.(phase := Rejected)])
  }

  /** A scheduled callback fires and runs `preloadNext` on its batch's array. */
  function IdleFiredStep(s: State, k: nat, guard: GuardPolicy): (r: State)
    requires k < |s.pending| && s.pending[k].batch < |s.batches|
    ensures var b := s.pending[k].batch; var q := s.batches[b].queue;
      if s.isPreloading || q == [] then
        && r.isPreloading == s.isPreloading && r.inFlight == s.inFlight
        && r.batches == s.batches && r.settled == s.settled
        && (guard == DropOnGuard || q == [] ==> r.pending == Remove(s.pending, k))
        && (guard == RescheduleOnGuard && q != [] ==>
              r.pending == Remove(s.pending, k) + [Callback(b, TriggerFor(s.hasIdleCallback))])
      else
        && r.isPreloading && r.inFlight == Some(Fetch(b, q[0]))
        && r.batches == s.batches[b := s.batches[b].(queue := q[1..])]
        && r.settled == s.settled && r.pending == Remove(s.pending, k)
    ensures r.hasIdleCallback == s.hasIdleCallback
  {
    var cb := s.pending[k];
    var batch := s.batches[cb.batch];
    var s1 := s.(pending := Remove(s.pending, k));
    if s.isPreloading || |batch.queue| == 0 then
      if guard == RescheduleOnGuard && |batch.queue| > 0 then QueueForIdle(s1, cb.batch) else s1
    else
      s1.(isPreloading := true,
          inFlight := Some(Fetch(cb.batch, batch.queue[0])),
          batches := s.batches[cb.batch := batch.(queue := batch.queue[1..])])
  }

  /** The awaited deferred fetch settles, either way: the flag drops, the request is
      recorded once and never put back, and the loop re-registers only if its array
      still holds requests. */
  function FetchSettledStep(s: State, ok: bool): (r: State)
    requires s.inFlight.Some? && s.inFlight.value.batch < |s.batches|
    ensures !r.isPreloading && r.inFlight == None
    ensures r.batches == s.batches
    ensures r.settled == s.settled + [Settlement(s.inFlight.value.batch, s.inFlight.value.item, ok)]
    ensures var b := s.inFlight.value.batch;
      r.pending == s.pending + (if s.batches[b].queue != [] then [Callback(b, TriggerFor(s.hasIdleCallback))] else [])
    ensures r.hasIdleCallback == s.hasIdleCallback
  {
    var f := s.inFlight.value;
    var s1 := s.(isPreloading := false, inFlight := None,
                 settled := s.settled + [Settlement(f.batch, f.item, ok)]);
    if |s.batches[f.batch].queue| > 0 then QueueForIdle(s1, f.batch) else s1
  }

  predicate Enabled(s: State, e: Event)
  {
    match e
    case Submit(_) => true
    case CriticalSettled(b, outcomes) =>
      b < |s.batches| && s.batches[b].phase == Eager && |outcomes| == |s.batches[b].critical|
    case IdleFired(k) => k < |s.pending| && s.pending[k].batch < |s.batches|
    case FetchSettled(_) => s.inFlight.Some? && s.inFlight.value.batch < |s.batches|
  }

  function Step(s: State, e: Event, guard: GuardPolicy): State
    requires Enabled(s, e)
  {
    match e
    case Submit(remotes) => PreloadStrategic(s, remotes)
    case CriticalSettled(b, outcomes) => CriticalSettledStep(s, b, outcomes)
    case IdleFired(k) => IdleFiredStep(s, k, guard)
    case FetchSettled(ok) => FetchSettledStep(s, ok)
  }

  // ---------------------------------------------------------------------------
  // The invariant

  /** The requests of batch `b` whose deferred fetch has settled, in settling order. */
  function Done(settled: seq<Settlement>, b: nat): seq<Request>
  {
    if settled == [] then []
    else
      var last := settled[|settled| - 1];
      Done(settled[..|settled| - 1], b) + (if last.batch == b then [last.item] else [])
  }

  /** The request of batch `b` currently being fetched, if any. */
  function InFlightFrom(f: Option<Fetch>, b: nat): seq<Request>
  {
    if f.Some? && f.value.batch == b then [f.value.item] else []
  }

  /** How many scheduled callbacks name batch `b`. */
  function CallbacksFor(p: seq<Callback>, b: nat): nat
  {
    if p == [] then 0
    else CallbacksFor(p[..|p| - 1], b) + (if p[|p| - 1].batch == b then 1 else 0)
  }

  /** Live drain activity on batch `b`: its scheduled callbacks plus its fetch in flight. */
  function Tokens(s: State, b: nat): nat
  {
    CallbacksFor(s.pending, b) + |InFlightFrom(s.inFlight, b)|
  }

  /** A batch that was handed to the idle loop. */
  predicate LiveBatch(s: State, b: nat)
  {
    b < |s.batches| && s.batches[b].phase == Deferred
  }

  /** The split of one call: critical requests only in the critical list, none in the
      remaining list, and every high request of that list before every low one. */
  ghost predicate WellFormed(batch: Batch)
  {
    && AllOf(batch.critical, Critical)
    && (forall k :: 0 <= k < |batch.others| ==> batch.others[k].priority != Critical)
    && (forall i, j :: 0 <= i < j < |batch.others| && batch.others[j].priority == High ==> batch.others[i].priority == High)
  }

  /** The flag is up exactly while a deferred fetch is in flight. */
  ghost predicate FlagTracksFetch(s: State)
  {
    s.isPreloading <==> s.inFlight.Some?
  }

  /** Callbacks, the fetch in flight and settlements only concern handed-on batches. */
  ghost predicate RefsLive(s: State)
  {
    && (forall k :: 0 <= k < |s.pending| ==> LiveBatch(s, s.pending[k].batch))
    && (s.inFlight.Some? ==> LiveBatch(s, s.inFlight.value.batch))
    && (forall i :: 0 <= i < |s.settled| ==> LiveBatch(s, s.settled[i].batch))
  }

  ghost predicate BatchesWellFormed(s: State)
  {
    forall b :: 0 <= b < |s.batches| ==> WellFormed(s.batches[b])
  }

  /** Every handed-on request is, exactly once and in order, settled, in flight, or still
      in its array: nothing is lost, duplicated, reordered or put back. */
  ghost predicate Conserved(s: State)
  {
    forall b :: 0 <= b < |s.batches| ==>
      s.batches[b].others == Done(s.settled, b) + InFlightFrom(s.inFlight, b) + s.batches[b].queue
  }

  /** Each array has at most one callback or fetch working on it. */
  ghost predicate Exclusive(s: State)
  {
    forall b :: 0 <= b < |s.batches| ==> Tokens(s, b) <= 1
  }

  /** The loader's invariant. */
  ghost predicate Valid(s: State)
  {
    FlagTracksFetch(s) && RefsLive(s) && BatchesWellFormed(s) && Conserved(s) && Exclusive(s)
  }
}
