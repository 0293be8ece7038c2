# Strategic loader for module-federation remotes

This project models `StrategicLoader`, the class that a module-federation host uses to
preload its remote bundles in priority order:

- the constructor accepts only the `preloadRemote` mode;
- `preloadStrategic(remotes)` sorts the batch by priority (critical, high, low). It
  awaits the preloads of all critical remotes in parallel. It then hands the remaining
  high and low remotes to the idle loop;
- `queueForIdlePreload(remotes)` registers one idle callback. It uses
  `requestIdleCallback` with a 5000 ms timeout, or `setTimeout` with 1000 ms where idle
  callbacks are missing. The callback runs `preloadNext` on that array;
- `preloadNext(remotes)` returns at once when another idle preload is running or the
  array is empty. Otherwise it raises the shared `isPreloading` flag and shifts the head
  off the array. It awaits that one preload, swallows any failure, and lowers the flag.
  It registers a new callback when the array still holds remotes.

The model is a pure transition system:

- `Loader.State` holds the shared flag, one `Batch` per `preloadStrategic` call, the
  scheduled callbacks, the fetch in flight and a log of settled fetches.
- A `Batch` holds the call's critical list, its remaining list, the array the idle loop
  drains, and a phase. The phase is `Eager` while the critical invokes are awaited,
  `Deferred` once the array has been handed on, and `Rejected` when `Promise.all` rejected.
- Events are a new call (`Submit`), the critical invokes settling (`CriticalSettled`),
  one scheduled callback firing (`IdleFired`) and the awaited idle fetch settling
  (`FetchSettled`).
- The transport is not modelled. Each event carries the outcomes it stands for, so every
  property holds for every pattern of successes and failures.

Modules:

- `Requests` holds priorities, requests and the tier selections.
- `RankSort` holds the stable sort.
- `Loader` holds the state, the operations and the invariant.
- `LoaderInvariant` proves the invariant is preserved.
- `Termination` holds the work measure.
- `Drain` holds runs of event scripts and the drain and end-to-end properties.
- `Stranding` holds the finding below.
- `Wrappers` holds `Option` and `Result`.

Two points of the code shape the model:

- A critical failure rejects the whole call. The awaited `Promise.all` rejects before
  `queueForIdlePreload` is reached, so the batch becomes `Rejected` and none of its high
  or low requests is ever queued.
- Each call drains its own `others` array, and only the `isPreloading` flag is shared,
  so the model keeps one array per batch.

## Model

`Loader.TriggerFor` and `Loader.QueueForIdle` model `queueForIdlePreload`
(hostbuildtime/src/StrategicLoader.js:80-92). Its effect is stated as the appended
`Callback(b, TriggerFor(h))` in the contracts of `PreloadStrategicSplit`,
`CriticalSettledStep` and `FetchSettledStep`.

| member | source | states |
|---|---|---|
| Loader.New | hostbuildtime/src/StrategicLoader.js:12-17 | construction succeeds exactly when the mode is absent, so the default applies, or is `'preloadRemote'`; any other mode fails with an error naming that mode; a new loader has its flag down, no batches and nothing scheduled or in flight, and satisfies the invariant |
| RankSort.SortSorts | hostbuildtime/src/StrategicLoader.js:37-40 | the sorted batch has ranks non-decreasing, critical before high before low |
| RankSort.SortPermutes | hostbuildtime/src/StrategicLoader.js:37-40 | the sorted batch holds exactly the submitted requests, each as often as submitted |
| RankSort.SortIsTiered | hostbuildtime/src/StrategicLoader.js:37-40 | the sorted batch is the critical requests, then the high ones, then the low ones, each tier in submission order, because the sort is stable |
| RankSort.StableRankSortIsUnique | hostbuildtime/src/StrategicLoader.js:37-40 | a sequence is a stable rank sort of the batch if and only if it equals the loader's sorted batch |
| Loader.PartitionLists | hostbuildtime/src/StrategicLoader.js:43-72 | the critical filter of the sorted batch is exactly the batch's critical requests in submission order, and the remaining filter is exactly its high requests then its low requests, each in submission order |
| Loader.PartitionCounts | hostbuildtime/src/StrategicLoader.js:43-72 | the critical list and the remaining list together hold every submitted request exactly as often as it was submitted |
| Loader.PreloadStrategicSplit | hostbuildtime/src/StrategicLoader.js:35-74 | a call adds one batch with the critical requests and the high-then-low remaining list as its array; with no critical request the array is handed to the idle loop at once with one callback; with critical requests nothing is scheduled until they settle; older batches, the flag, the fetch in flight and the settled log do not change |
| Loader.CriticalSettledStep | hostbuildtime/src/StrategicLoader.js:44-73 | when the critical invokes settle, the array is handed on with one callback exactly when none failed; if any failed the batch is rejected and nothing is scheduled; nothing else in that batch changes, neither its critical list, its remaining list nor its array, and no other batch changes |
| Loader.IdleFiredStep | hostbuildtime/src/StrategicLoader.js:98-107 | a callback that finds the flag up or its array empty changes nothing but removing itself; as written it does not register again, and with the corrected guard it registers again exactly when its array is non-empty; otherwise it raises the flag, puts the array's head in flight and leaves exactly the tail queued |
| Loader.FetchSettledStep | hostbuildtime/src/StrategicLoader.js:109-125 | a settling idle fetch lowers the flag whether it succeeded or failed; it records the request once with its outcome and never puts it back; it registers a callback on its array exactly when that array still holds requests |
| LoaderInvariant.SubmitPreservesValid | hostbuildtime/src/StrategicLoader.js:35-74 | a new call preserves the invariant |
| LoaderInvariant.CriticalSettledPreservesValid | hostbuildtime/src/StrategicLoader.js:50-73 | the critical invokes settling preserves the invariant |
| LoaderInvariant.IdleFiredPreservesValid | hostbuildtime/src/StrategicLoader.js:98-107 | a callback firing, whether it hits the guard or starts a fetch, preserves the invariant |
| LoaderInvariant.FetchSettledPreservesValid | hostbuildtime/src/StrategicLoader.js:109-125 | an idle fetch settling preserves the invariant |
| LoaderInvariant.StepPreservesValid | hostbuildtime/src/StrategicLoader.js:28-125 | every event preserves the invariant. The invariant has five parts. The flag is up exactly while an idle fetch is in flight. Callbacks, the fetch and the log refer only to handed-on arrays. Each batch is split correctly. Each array's remaining list equals its settled requests, then its request in flight, then what is still queued, so nothing is lost, duplicated, reordered or retried. Each array has at most one callback or fetch working on it |
| Termination.DrainEventDecreasesWork | hostbuildtime/src/StrategicLoader.js:98-125 | with the guard as written, every event other than a new call strictly decreases a natural-number measure of outstanding work, so the idle loop terminates |
| Termination.SubmitAddsBoundedWork | hostbuildtime/src/StrategicLoader.js:35-74 | a new call adds at most three units of work per request plus two |
| Drain.DrainsInOrder | hostbuildtime/src/StrategicLoader.js:98-125 | under either guard, an uncontended array of n requests is drained in exactly n rounds of callback and fetch, in array order, with failures recorded and never retried; then the loop stops with the flag down and nothing scheduled |
| Drain.EndToEnd | hostbuildtime/src/StrategicLoader.js:35-125 | for one call on a new loader, any outcomes and either guard: a critical rejection leaves the batch rejected with nothing scheduled and nothing fetched; otherwise the idle loop fetches exactly the high requests then the low ones, in submission order, and stops |
| Drain.ExampleDrainOrder | hostbuildtime/src/StrategicLoader.js:37-74 | a call with A low, B high, C low, D high on a new loader records no critical list, makes B, D, A, C the array the idle loop drains, and hands that array on at once with one callback |
| Stranding.StrandedWitness | hostbuildtime/src/StrategicLoader.js:99 | as written, with or without idle callbacks, two overlapping calls reach a valid state with nothing scheduled and nothing in flight while the second call's array still holds its request |
| Stranding.NeverDrained | hostbuildtime/src/StrategicLoader.js:99-125 | once a handed-on array has no callback and no fetch on it, no sequence of later events, new calls included, registers a callback on it or takes a request from it |
| Stranding.RescheduleKeepsCovered | hostbuildtime/src/StrategicLoader.js:99-125 | when a callback that hits the guard registers again, every event keeps each non-empty handed-on array covered by a callback or a fetch |
| Stranding.RescheduleNeverStrands | hostbuildtime/src/StrategicLoader.js:99-125 | with that correction, every state reachable from a new loader is valid, and whenever it is quiet no handed-on array holds a request |
| Stranding.FetchSettledKeepsCovered | hostbuildtime/src/StrategicLoader.js:121-125 | a settling fetch, with or without the correction, registers a callback on its own array whenever that array still holds requests, and takes no callback away from any other array |

## Left out

- The user interface, build configuration and bootstrap code of the host are not part of this model.
- The transport (`preloadRemote` from the federation runtime) is not modelled. Each invoke's success or failure is a parameter of the event that settles it.
- Timing is not modelled. Idle callbacks and timers fire in any order the event sequence chooses. The 5000 ms timeout and the 1000 ms fallback delay are recorded only as the tag on each registered callback. Whether `requestIdleCallback` exists is a flag fixed when the loader is made.
- Logging through `console` and timing through `performance.now` have no effect on state and are omitted.
- The `preloadQueue` field is initialised but never read or written afterwards, so it is omitted.
- Priority strings other than `critical`, `high` and `low` make the comparator return `NaN`. They are outside the three-valued `Priority` type.
- The source sorts the caller's array in place and returns that same array. When there are critical requests, the remaining list is filtered from it only after the critical invokes settle, so a caller that changes the array or its objects during the await changes what is queued. The model returns a sorted copy and fixes both lists when the call is made; it models neither the caller observing the sort nor later changes to the array reaching the remaining list.
- Loader.CriticalSettledStep: `Promise.all` rejects at the first rejection, while the other invokes keep running unobserved. The model collapses this into one settle event, which carries every critical outcome.
- Termination.DrainEventDecreasesWork: holds for the guard as written only. With the corrected guard, a callback that hits the guard registers again without making progress, so that variant has no such measure.

## Findings

| source | as written | input that shows it | evidently intended | confidence | as-written member | corrected member |
|---|---|---|---|---|---|---|
| hostbuildtime/src/StrategicLoader.js:99 | a callback that finds `isPreloading` set returns without registering again, and that callback was the only one on its array | `preloadStrategic([a1 high, a2 high])` then `preloadStrategic([b1 low])`; the second call's callback fires while `a1` is being fetched | no request handed to the idle loop is left queued once the loader is quiet; here the loader goes quiet with `b1` still queued, and with the correction no quiet state holds a handed-on request | not executed; medium, since a second call before the first drains is plausible in a host | Stranding.StrandedWitness | Stranding.RescheduleNeverStrands |

The stranded array cannot recover later. `Stranding.NeverDrained` shows that an array
with no callback and no fetch on it is never touched again, whatever events follow.
The corrected guard registers the callback again when it finds the flag up and its
array non-empty. With that guard, `Stranding.RescheduleNeverStrands` shows that no
reachable quiet state holds a handed-on request. Every step takes the guard policy as a
parameter: `DropOnGuard` is the code as written and `RescheduleOnGuard` the correction.
The invariant, the drain lemmas and the end-to-end lemma hold under both policies. Only
the termination measure needs the guard as written.
