# StatusGraph capture pipeline in Dafny

This project models the core of StatusGraph, a library that watches a web
application's state-management store (Redux or Vuex) and captures its state
changes. The model covers these parts:

- the **sampler**, which decides whether one candidate change is captured, and
  the adaptive sample rate;
- the **sanitizer**, which redacts string leaves under sensitive field names and
  truncates long strings and arrays in a value tree;
- the shared **object utilities** `deepMerge`, `getPathValue`, `setPathValue`
  and `estimateSize`;
- **framework detection** from page-global markers;
- the **Redux and Vuex adapters**, which hook into a host store and undo that
  on teardown;
- the **adapter factory**, with its fixed-priority automatic selection;
- the **state tracker**, with its merged options, start/stop flag and sampling
  clock.

JavaScript values are the datatype `Values.Value`:
null, undefined, booleans, numbers as `real`, strings, arrays, objects as
`map<string, Value>` and functions as opaque ids. `Values.Lookup` gives the
language's property access on these values. `Values.Spread` gives object spread.
Array and string indices become keys through a decimal rendering
(`NatToString`), whose round trip with index parsing is proved.

The pure parts are functions with lemmas. The sampler, the sanitizer,
detection, the factory's selection and the tracker's option handling are pure.
Where the source loops, the model has a method with loop invariants, proved
against a specification function:

- `DeepMerge` against `Merged`;
- `GetPathValue` against `GetPath`;
- `SetPathValue` against `SetPath`;
- `AutoDetectAdapter` against `SelectAdapter`.

The adapters and the tracker are classes whose fields their methods update.
The host store is a `Host.Store` object. It has members that can be probed
and overwritten, and it logs every call an adapter makes into it. The
interceptor is an `Interception.Interceptor` object that keeps only a handler
count and a destroyed flag. Randomness and the clock are parameters. The
sampler's two `Math.random()` draws are `r1` and `r2`. The tracker's
`performance.now()` reading is `now`. The page's global scope is the record
`FrameworkDetector.Env`, passed to detection and to the tracker's constructor.

## Code and design

Where the design description and the code disagree, the model follows the code:

- The sanitizer has no visited-set, so a cyclic input would recurse without end.
  The model is defined on finite trees only.
- `getCurrentState` of the tracker returns an empty object. It does not ask the
  adapter.
- Neither adapter publishes a normalized event on a change. The Redux wrapper
  and the Vuex listeners only register one more handler on the interceptor per
  notification. Neither calls the sampler or the sanitizer. `captureChange`
  only moves the last-capture time.
- Teardown is idempotent. After a single `init`, Redux teardown restores the
  store's own `dispatch`. But `init` called twice on one Redux adapter with the
  same store and no teardown between records its own wrapper as the
  "original". The next dispatch then recurses until the engine throws
  (`ReduxAdapters.InitTwiceThenDispatch`). A teardown after the second `init`
  reinstalls the first wrapper, not the store's own dispatch. That wrapper
  reads the fields the teardown cleared, so every later dispatch throws a
  TypeError (`ReduxAdapters.InitTwiceTeardownThenDispatch`).
- `init` called on one Redux adapter with a second store and no teardown
  between records the second store's dispatch as the "original". The first
  store keeps the first wrapper, so a dispatch on the first store moves the
  second store's state (`ReduxAdapters.InitOnTwoStoresThenDispatch`). The
  teardown restores and unsubscribes only the second store. The first keeps
  its subscription and the first wrapper, and every later dispatch on it
  throws a TypeError (`ReduxAdapters.InitOnTwoStoresTeardownThenDispatch`).
- A Vuex store whose `subscribeAction` is not a function passes `isSupported`.
  `init` on such a store throws a TypeError after it has already subscribed to
  mutations. Only a returning `init` hands out the teardown, and `destroy` is
  private. So the mutation subscription is never released, and each later
  mutation still adds a handler (`VuexAdapters.FailedInitKeepsListening`).

## Model

| member | source | states |
|---|---|---|
| Values.Lookup | packages/shared/src/utils/index.ts:111 | property access: an object's own field or undefined, an array element or a string's character at a canonical index key, an array's or string's length under "length", undefined for any other key of an array or string, undefined on other primitives; it is never applied to null or undefined, which every caller tests for first |
| Values.Spread | packages/shared/src/utils/index.ts:132 | `{...v}`: an object's fields, an array's elements or a string's characters under their index keys, nothing for any other value |
| Sampler.BurstFactor | packages/core/src/core/sampler.ts:22-32 | the second-draw threshold is one of 0.2, 0.6 and 1 |
| Sampler.ShouldCapture | packages/core/src/core/sampler.ts:11-33 | an admission needs r1 ≤ rate; a gate-passing draw with a gap of at least 500 ms is always admitted; an admission with a gap under 100 ms needs r2 < 0.2, and one under 500 ms needs r2 < 0.6 |
| Sampler.RejectAboveRate | packages/core/src/core/sampler.ts:16-18 | a first draw above the rate rejects, whatever the gap since the last capture |
| Sampler.AdmitWhenIdle | packages/core/src/core/sampler.ts:22-32 | a gate-passing draw with a gap of at least 500 ms is admitted, independently of the second draw |
| Sampler.BurstDamping | packages/core/src/core/sampler.ts:22-29 | past the gate, a gap under 100 ms admits iff r2 < 0.2, a gap in [100, 500) iff r2 < 0.6 |
| Sampler.FullRateIdleAlwaysAdmits | packages/core/src/core/sampler.ts:16-32 | with rate ≥ 1, any draw in [0, 1) and gap ≥ 500 ms is admitted |
| Sampler.AdmissionRegion | packages/core/src/core/sampler.ts:11-33 | for r2 in [0, 1): admitted iff r1 ≤ rate and r2 < BurstFactor(gap), a product of two independent tests |
| Sampler.ZeroRateAdmitsOnlyZeroDraw | packages/core/src/core/sampler.ts:16-18 | a rate of 0 admits only the draw r1 = 0 |
| Sampler.AdmissionMonotoneInGap | packages/core/src/core/sampler.ts:22-32 | a longer gap never turns an admission into a rejection |
| Sampler.AdaptiveSampleRate | packages/core/src/core/sampler.ts:41-50 | the rate is one of 0.1, 0.3, 0.8; 0.1 iff size > 1e6 or load > 0.8; 0.3 iff not that but size > 1e5 or load > 0.5; 0.8 iff size ≤ 1e5 and load ≤ 0.5 |
| Sampler.AdaptiveRateAntitone | packages/core/src/core/sampler.ts:41-50 | a larger state or a heavier load never raises the rate |
| FrameworkDetector.DetectFramework | packages/core/src/utils/framework-detector.ts:10-40 | any result other than unknown needs a window; redux iff there is a window and a Redux marker; vuex or pinia only with both Vue markers and no Redux marker |
| FrameworkDetector.DetectionTable | packages/core/src/utils/framework-detector.ts:10-40 | one if-and-only-if per outcome: each result requires a window and all earlier marker groups absent |
| FrameworkDetector.NoWindowIsUnknown | packages/core/src/utils/framework-detector.ts:11-13 | without a window the result is unknown |
| FrameworkDetector.NoMarkersIsUnknown | packages/core/src/utils/framework-detector.ts:39 | with no marker set the result is unknown |
| FrameworkDetector.ReduxDominates | packages/core/src/utils/framework-detector.ts:16-18 | a Redux marker yields redux whatever the other markers are |
| FrameworkDetector.VueHookAloneFallsThrough | packages/core/src/utils/framework-detector.ts:21-37 | a Vue hook without `__VUE__` yields neither vuex nor pinia, and the result is as if no Vue or Pinia marker were set |
| ObjectUtils.DeepMerge | packages/shared/src/utils/index.ts:23-50 | the copy-then-loop merge computes `Merged(target, source)` |
| ObjectUtils.MergedKeys | packages/shared/src/utils/index.ts:27-46 | the result's keys are the target's keys plus the source keys with a defined value |
| ObjectUtils.MergeKeepsUntouched | packages/shared/src/utils/index.ts:27-49 | a target key absent from the source keeps its target value |
| ObjectUtils.MergeIgnoresUndefined | packages/shared/src/utils/index.ts:43-45 | a source key holding undefined neither adds nor overwrites anything |
| ObjectUtils.MergeRecursesOrReplaces | packages/shared/src/utils/index.ts:34-45 | two non-array objects merge recursively; otherwise a defined source value, arrays included, replaces the target's |
| ObjectUtils.MergeEmptySource | packages/shared/src/utils/index.ts:27-49 | merging an empty source returns the target |
| ObjectUtils.MergeIdempotent | packages/shared/src/utils/index.ts:23-50 | merging an object into itself gives the same object |
| ObjectUtils.MergeSourceLeafWins | packages/shared/src/utils/index.ts:23-50 | a defined non-object leaf of the source, reached through objects, is what the merged object holds at that path |
| ObjectUtils.GetPathValue | packages/shared/src/utils/index.ts:103-115 | the loop computes `GetPath(obj, path)`, stopping at the first null or undefined |
| ObjectUtils.GetPathEmpty | packages/shared/src/utils/index.ts:104-114 | the empty path reads the value itself |
| ObjectUtils.GetPathAppend | packages/shared/src/utils/index.ts:103-115 | reading along `a + b` is reading along `a` and then along `b` |
| ObjectUtils.GetPathOfUndefined | packages/shared/src/utils/index.ts:107-109 | every path read from undefined is undefined |
| ObjectUtils.NullishBeforeEnd | packages/shared/src/utils/index.ts:107-109 | meeting null or undefined before the end of the path yields undefined |
| ObjectUtils.SetPathValue | packages/shared/src/utils/index.ts:120-138 | the walk down the path with fresh copies computes `SetPath(obj, path, value)` |
| ObjectUtils.SetPathEmpty | packages/shared/src/utils/index.ts:125 | the empty path returns the object unchanged |
| ObjectUtils.SetThenGet | packages/shared/src/utils/index.ts:127-137 | reading a non-empty path just written yields the written value |
| ObjectUtils.SetPathTopLevelFrame | packages/shared/src/utils/index.ts:127-133 | the result's keys are the object's keys plus the first path key; every other top-level key keeps its value |
| ObjectUtils.SetPathSiblingFrame | packages/shared/src/utils/index.ts:127-137 | through plain objects, any path that leaves the written path at some depth reads the same before and after |
| ObjectUtils.EstimateSize | packages/shared/src/utils/index.ts:59-65 | null, undefined and functions weigh 0, a boolean 4, a number 8, a string twice its length |
| ObjectUtils.ArraySizeAppend | packages/shared/src/utils/index.ts:74-76 | an array weighs the sum of its elements: appending adds the new element's size |
| ObjectUtils.ItemsSizePrefix | packages/shared/src/utils/index.ts:74-76 | the running sum over the first n elements depends only on those elements |
| ObjectUtils.FieldsSizeRemove | packages/shared/src/utils/index.ts:79-82 | an object weighs the sum of 2·|key| + size over its entries, in any order of entries |
| ObjectUtils.FieldsSizeFrame | packages/shared/src/utils/index.ts:79-82 | the sum over a key set depends only on the values under those keys |
| ObjectUtils.ObjectSizeAfterStore | packages/shared/src/utils/index.ts:79-82 | storing under a key changes an object's size by the replaced entry's size and the new entry's size only |
| Sanitizer.DefaultPatterns | packages/core/src/utils/sanitizer.ts:41-50 | the default matchers are case-insensitive name matchers for password, token, secret, key, auth, credential, ssn, credit |
| Sanitizer.Resolve | packages/core/src/utils/sanitizer.ts:40-45 | each option that is given is used and each missing one takes its default |
| Sanitizer.DefaultOptions | packages/core/src/utils/sanitizer.ts:40-45 | no options means the default names, 1000, 100 and "[REDACTED]" |
| Sanitizer.IsSensitive | packages/core/src/utils/sanitizer.ts:62-65 | a path is sensitive only if there is at least one pattern, and it is sensitive as soon as any pattern matches any one of its segments |
| Sanitizer.TruncateString | packages/core/src/utils/sanitizer.ts:72-76 | a string not longer than the maximum is kept; a longer one becomes a prefix of it of the maximum's length (0 for a negative maximum) followed by "..."; with a negative maximum that is "..." alone |
| Sanitizer.KeptLength | packages/core/src/utils/sanitizer.ts:82-84 | the kept array length never exceeds the input's |
| Sanitizer.NonStringLeavesUnchanged | packages/core/src/utils/sanitizer.ts:55-105 | null, undefined, booleans, numbers and functions come back unchanged, even under a sensitive key |
| Sanitizer.SensitiveStringRedacted | packages/core/src/utils/sanitizer.ts:60-69 | a string under a path whose join or one of whose segments matches a pattern becomes the marker, whatever its length |
| Sanitizer.OtherStringTruncated | packages/core/src/utils/sanitizer.ts:71-76 | any other string is kept when not longer than the maximum, and otherwise becomes its first max characters plus "..." |
| Sanitizer.ArraySanitized | packages/core/src/utils/sanitizer.ts:80-88 | an array keeps min(length, max) elements, element i sanitized under path + [i] |
| Sanitizer.NegativeArrayMaximum | packages/core/src/utils/sanitizer.ts:82-88 | a negative maximum drops that many elements from the end, as `slice(0, max)` does, and each kept element is sanitized under its index |
| Sanitizer.NegativeStringMaximum | packages/core/src/utils/sanitizer.ts:71-74 | a negative string maximum turns every string not under a sensitive path into "..." |
| Sanitizer.ObjectSanitized | packages/core/src/utils/sanitizer.ts:92-101 | an object keeps exactly its own keys, each value sanitized under path + [key] |
| Sanitizer.Sanitize | packages/core/src/utils/sanitizer.ts:53-106 | the output has the input's kind; an array keeps the length `slice(0, max)` leaves; an object keeps exactly its own keys |
| Sanitizer.SanitizedIsRedacted | packages/core/src/utils/sanitizer.ts:53-106 | for every option value, negative maxima included: in the output every string under a sensitive path is the redaction value |
| Sanitizer.SanitizedIsWithinBounds | packages/core/src/utils/sanitizer.ts:53-106 | for a non-negative array maximum: every string not under a sensitive path is at most the string maximum (0 if negative) plus 3 long, and every array at most the array maximum long |
| Sanitizer.SanitizeData | packages/core/src/utils/sanitizer.ts:36-109 | with the options resolved against the defaults, every string under a sensitive path of the result is the redaction value |
| Sanitizer.SanitizeIdempotent | packages/core/src/utils/sanitizer.ts:53-106 | sanitizing an output again changes nothing, for a non-negative array maximum |
| Sanitizer.PasswordSegmentSensitive | packages/core/src/utils/sanitizer.ts:41-65 | under the defaults every path ending in a `password` segment is sensitive |
| Sanitizer.RedactsNestedPassword | packages/core/src/utils/sanitizer.ts:36-109 | `{user: {password: "x"}}` with the defaults becomes `{user: {password: "[REDACTED]"}}` |
| AdapterFactory.CreateAdapter | packages/core/src/adapters/adapter-factory.ts:14-23 | redux and vuex give an adapter of that type; every other type fails with an error naming it |
| AdapterFactory.NewAdapter | packages/core/src/adapters/adapter-factory.ts:32-35 | a new adapter of the requested kind, all fields cleared, with the matching type |
| AdapterFactory.FirstSupported | packages/core/src/adapters/adapter-factory.ts:39-44 | a selected kind is one of the candidates and supports the target |
| AdapterFactory.FirstSupportedIsFirst | packages/core/src/adapters/adapter-factory.ts:39-44 | the selection is preceded only by candidates that do not support the target; none is selected iff no candidate supports it |
| AdapterFactory.SelectAdapter | packages/core/src/adapters/adapter-factory.ts:31-66 | with a truthy target, a selected adapter supports it; without one, a selected adapter needs a window and has the detected framework's type; no window and no target selects nothing |
| AdapterFactory.AutoDetectAdapter | packages/core/src/adapters/adapter-factory.ts:31-66 | the loop over the adapters and the global-marker checks compute `SelectAdapter(target, env)` |
| AdapterFactory.TargetSelection | packages/core/src/adapters/adapter-factory.ts:38-45 | with a truthy target: redux iff its shape passes the Redux check; vuex iff it fails that and passes the Vuex check; none otherwise |
| AdapterFactory.GlobalSelectionFollowsDetection | packages/core/src/adapters/adapter-factory.ts:48-65 | without a target the selection is an adapter exactly when detection yields redux or vuex, of that type; pinia, recoil, jotai and unknown give none |
| AdapterFactory.TargetIgnoresMarkers | packages/core/src/adapters/adapter-factory.ts:38-45 | with a truthy target the global markers do not affect the selection |
| ReduxAdapters.ReduxAdapter.constructor | packages/core/src/adapters/redux.ts:20-25 | type redux, all four fields null |
| ReduxAdapters.ReduxAdapter.IsSupported | packages/core/src/adapters/redux.ts:77-84 | a supported target is truthy and its dispatch, getState and subscribe are functions |
| ReduxAdapters.SupportIgnoresVuexMembers | packages/core/src/adapters/redux.ts:77-84 | `commit` and `state` play no part in the Redux check |
| ReduxAdapters.ReduxAdapter.Init | packages/core/src/adapters/redux.ts:31-64 | unsupported: throws, nothing changes; otherwise records the store, a new "redux-interceptor" and the prior dispatch, installs a fresh wrapper that differs from it, subscribes once, and changes no other store member |
| ReduxAdapters.ReduxAdapter.Dispatch | packages/core/src/adapters/redux.ts:43-55 | the wrapper calls the original dispatch, which moves the current state of the store that dispatch belongs to, then calls its own store's getState, adds exactly one handler and returns the original's result, changing no other store member; when the original throws, the error propagates with no getState and no handler; with the original cleared it throws a TypeError; with itself as original it recurses until a RangeError |
| ReduxAdapters.ReduxAdapter.GetState | packages/core/src/adapters/redux.ts:69-71 | null when not initialised, the store's getState() otherwise, with every store member left as it was |
| ReduxAdapters.ReduxAdapter.Destroy | packages/core/src/adapters/redux.ts:89-106 | restores the original dispatch and changes no other store member, unsubscribes once, destroys the interceptor and clears all four fields; when already cleared it changes nothing |
| ReduxAdapters.InitAndTeardownTwice | packages/core/src/adapters/redux.ts:31-106 | after init and two teardowns every store member is what it was, with exactly one subscribe and one unsubscribe call on a supported store and no call otherwise |
| ReduxAdapters.InitTwiceThenDispatch | packages/core/src/adapters/redux.ts:40-45 | initialising twice on the same store without teardown makes the next dispatch end in a RangeError |
| ReduxAdapters.InitTwiceTeardownThenDispatch | packages/core/src/adapters/redux.ts:31-106 | after two inits on the same store and a teardown the store's dispatch is the first wrapper, not its own, and the next dispatch throws a TypeError |
| ReduxAdapters.InitOnTwoStoresThenDispatch | packages/core/src/adapters/redux.ts:36-55 | after inits on two stores, a dispatch on the first store returns the second store's result and moves the second store's state; the first store's state is only read |
| ReduxAdapters.InitOnTwoStoresTeardownThenDispatch | packages/core/src/adapters/redux.ts:31-106 | after inits on two stores and a teardown, the second store is restored and unsubscribed; the first keeps a wrapper and its subscription, and its next dispatch throws a TypeError |
| VuexAdapters.VuexAdapter.constructor | packages/core/src/adapters/vuex.ts:23-28 | type vuex, all four fields null |
| VuexAdapters.VuexAdapter.IsSupported | packages/core/src/adapters/vuex.ts:73-81 | a supported target is truthy, its commit, dispatch and subscribe are functions and its state is defined |
| VuexAdapters.SupportIgnoresGetState | packages/core/src/adapters/vuex.ts:73-81 | `getState` plays no part in the Vuex check |
| VuexAdapters.VuexAdapter.Init | packages/core/src/adapters/vuex.ts:34-60 | unsupported: throws, nothing changes; otherwise records the store and a new "vuex-interceptor", subscribes to mutations and then to actions, and reassigns no store member; a non-function subscribeAction throws after the mutation subscription |
| VuexAdapters.VuexAdapter.Notify | packages/core/src/adapters/vuex.ts:43-56 | each mutation or action notification adds exactly one handler, and throws once the interceptor is cleared |
| VuexAdapters.VuexAdapter.GetState | packages/core/src/adapters/vuex.ts:65-67 | the store's state while initialised, null otherwise |
| VuexAdapters.VuexAdapter.Destroy | packages/core/src/adapters/vuex.ts:86-103 | calls each unsubscriber that is set once, on the store that issued it, and changes no store member; destroys the interceptor and clears all fields; when already cleared it changes nothing |
| VuexAdapters.InitAndTeardownTwice | packages/core/src/adapters/vuex.ts:34-103 | every store member is what it was; after a returning init, two teardowns release each subscription exactly once; an init that throws at subscribeAction leaves the mutation subscription in place |
| VuexAdapters.FailedInitKeepsListening | packages/core/src/adapters/vuex.ts:34-59 | after an init that throws at subscribeAction, the mutation subscription is still held and the next mutation adds a handler to a live interceptor |
| Tracker.Override | packages/core/src/core/tracker.ts:22-25 | one property of an object spread: a present property, even an undefined one, wins over the default |
| Tracker.MergeOptions | packages/core/src/core/tracker.ts:22-25 | spreading no options onto the defaults keeps them, and spreading options onto nothing copies them |
| Tracker.SpreadIdempotent | packages/core/src/core/tracker.ts:22-25 | spreading the same options twice equals spreading them once |
| Tracker.EnabledOrTrue | packages/core/src/core/tracker.ts:27 | inactive exactly when `enabled` is given as false |
| Tracker.EffectiveSampleRate | packages/core/src/core/tracker.ts:58 | the given rate unless it is missing, undefined or 0, in which case 1; never 0 |
| Tracker.InitialFramework | packages/core/src/core/tracker.ts:28-29 | the named framework; else the detected one when autoDetectFramework is true; else unknown |
| Tracker.NextLastCapture | packages/core/src/core/tracker.ts:54-63 | the next last-capture time is either now or the old one, and the old one whenever the tracker is inactive or the first draw exceeds the rate |
| Tracker.NextLastCaptureCases | packages/core/src/core/tracker.ts:54-63 | for r2 in [0, 1), an active tracker whose clock has moved sets the last-capture time to now iff both sampler tests pass |
| Tracker.LastCaptureMonotone | packages/core/src/core/tracker.ts:57-59 | with a clock that does not go back, the last-capture time stays between its old value and now |
| Tracker.NegativeRateNeverCaptures | packages/core/src/core/tracker.ts:58 | a negative configured rate is kept and admits nothing |
| Tracker.ZeroRateMeansFullRate | packages/core/src/core/tracker.ts:58 | a configured rate of 0 samples like a rate of 1 |
| Tracker.StateTracker.constructor | packages/core/src/core/tracker.ts:21-31 | options are the defaults spread with the given ones; active is `enabled ?? true`; the framework is chosen once; last capture 0 |
| Tracker.StateTracker.Start | packages/core/src/core/tracker.ts:36-39 | active becomes true, nothing else changes |
| Tracker.StateTracker.Stop | packages/core/src/core/tracker.ts:44-47 | active becomes false, nothing else changes |
| Tracker.StateTracker.CaptureChange | packages/core/src/core/tracker.ts:54-63 | only the last-capture time may change, to `NextLastCapture` of the sampler's verdict on `sampleRate || 1` and `now - lastCapture` |
| Tracker.StateTracker.GetCurrentState | packages/core/src/core/tracker.ts:68-71 | always an empty object |
| Tracker.DefaultTracker | packages/shared/src/constants/index.ts:10-17 | without options the tracker is active, samples at rate 1 and uses the detected framework |
| Tracker.UndefinedEnabledIsActive | packages/core/src/core/tracker.ts:22-27 | an explicit `enabled: undefined` still yields an active tracker |
| Tracker.UndefinedAutoDetectSkipsDetection | packages/core/src/core/tracker.ts:22-29 | an explicit `autoDetectFramework: undefined` overrides the default and skips detection |
| Tracker.StopStartScenario | packages/core/src/core/tracker.ts:36-63 | a stopped tracker ignores a change; after start the same idle, gate-passing change is captured |

## Left out

- `generateId`, `getTimestamp` and `safeJsonParse` (packages/shared/src/utils/index.ts:8-18, 91-98) are left out. They wrap the platform's random source, clock and JSON parser.
- Console logging in the adapters and the tracker is left out. It has no effect on state.
- The interceptor's implementation is not part of this model. It is known only through a handler count and a destroyed flag, and its publish semantics are not modelled.
- The storage engine, `initStatusGraph`, and the build and test configuration are left out. They have no implementation in the core.
- Regular expressions are abstracted. A sensitive field name is a case-insensitive literal substring test with ASCII case folding: metacharacters in a name and non-ASCII case folding are not interpreted. A caller's own RegExp is an opaque `test` predicate, so the state that `g` and `y` flags keep between calls is not modelled.
- Object identity and sharing are left out: values are finite trees. `estimateSize`'s WeakSet counts a shared subtree once, and the model counts it at each occurrence. Cyclic inputs to the sanitizer and to `estimateSize` are excluded.
- ObjectUtils.EstimateSize is a ghost function. It sums an object's entries in an arbitrary order, and `FieldsSizeRemove` proves that order irrelevant.
- Numbers are reals. NaN, infinities, and the truncation of non-integer option values are not modelled. String and array options are integers.
- Prototype-inherited properties, getters, symbol keys, sparse arrays and key order are not modelled. An object is an unordered map of its own properties.
- Strings are sequences of Unicode scalar values, not of UTF-16 code units as in JavaScript. For characters outside the Basic Multilingual Plane, `length`, string indexing and spread, the sanitizer's truncation and `estimateSize` count one unit where JavaScript counts two, and truncation cannot split a surrogate pair.
- ReduxAdapters.ReduxAdapter.Dispatch: when the recorded original dispatch is another adapter's wrapper, the model stops at `Forwarded` instead of following the chain into the other adapter.
- The results of the host library's own functions (how dispatch ends, and the unsubscribe functions subscribe returns) are parameters and opaque handles. Their behaviour belongs to Redux and Vuex. Only the host's dispatch may throw; its `getState`, `subscribe`, `subscribeAction` and the unsubscribers are taken to return. A host dispatch acts on the store it belongs to; its notification of that store's subscribers is not modelled, since the Redux adapter's own listener does nothing.
- AdapterFactory.CreateAdapter returns the kind of adapter, and `NewAdapter` constructs one. The error's message text and framework strings outside the enumeration are not modelled.
- Tracker options keep only the properties the tracker reads or carries (`enabled`, `sampleRate`, `memoryLimit`, `maxRecords`, `autoDetectFramework`, `framework`, `enableSanitization`). `sensitiveFields` is not read by the tracker and is left out.
- Tracker.StateTracker.CaptureChange leaves out the `action` and `state` arguments' use. The code only logs them.
