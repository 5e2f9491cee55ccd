# Resilience shell and Creative-section choreography of the n3wth portfolio

This project models, in Dafny, the three parts of the portfolio site that have
logic of their own.

- **ErrorBoundary** (`src/components/ErrorBoundary.tsx`). The boundary catches
  render failures. Its state is `hasError`/`error`:
  - `getDerivedStateFromError` sets it;
  - `resetErrorBoundary` clears it;
  - `componentDidUpdate` clears it when the `resetKeys` prop changes.

  `componentDidCatch` calls `onError`. It then reloads the page once when the
  error is a failed fetch of a code-split chunk. The session flag
  `n3wth:chunk-reload` stops it reloading a second time.
- **lazyWithRetry** (`src/utils/lazyWithRetry.ts`). This dynamic import is
  tried again after a chunk failure, through a closure counter `attempt`. It
  uses the same four-pattern `isChunkError` as the boundary.
- **Creative section** (`src/components/sections/Creative.tsx`). Setting the
  section up registers scroll triggers: a shape guard, a header reveal, a
  master "out of section" trigger, and per panel a background crossfade and
  scrubbed tweens. The callbacks then update the target opacities of
  fixed-position backgrounds and decorative shapes.

Modules and files:

- `wrappers.dfy`, module `Wrappers`: `Option`, standing for an absent
  JavaScript property.
- `chunk_errors.dfy`, module `ChunkErrors`: `isChunkError`.
  - The specification side says matching a pattern is an occurrence of its
    text, ignoring ASCII case.
  - The matcher side is a left-to-right scan with a greedy digit run.
  - The two are proved equal.
- `error_boundary.dfy`, module `Boundary`:
  - the session storage as a datatype;
  - the guard as a function from session to session;
  - `haveResetKeysChanged`;
  - the boundary as a class whose methods change its state;
  - a `Host` object holding the session and the ordered calls out of the
    boundary (`onError`, `onReset`, `window.location.reload`).
- `lazy_retry.dfy`, module `LazyRetry`:
  - the behaviour of one `load`, as a recursive reference function;
  - the loader as a class whose `Load` method is a `while` loop over a shared
    `attempt` field.

  The importer is a function from the invocation number to what that
  invocation settles to.
- `creative.dfy`, module `Creative`:
  - the registrations the setup makes, as functions;
  - the effect of one scroll event on the target opacities, as functions;
  - a `CreativeSection` class with arrays of background and shape targets, a
    registry, setup methods with loops, and a `Dispatch` method.

  Each tween is reduced to the target value it sets.

## Model

| member | source | states |
|---|---|---|
| ChunkErrors.MatchesFromCorrect | src/components/ErrorBoundary.tsx:24-29 | comparing a pattern text from a position on succeeds iff the message is long enough and every remaining character agrees ignoring case |
| ChunkErrors.MatchesAtCorrect | src/components/ErrorBoundary.tsx:24-29 | trying a pattern text at a position succeeds iff the text occurs there, ignoring case |
| ChunkErrors.SearchFromCorrect | src/components/ErrorBoundary.tsx:35 | scanning from position `i` finds a pattern text iff it occurs at some position at or after `i` |
| ChunkErrors.ContainsCorrect | src/components/ErrorBoundary.tsx:25-28 | a literal case-insensitive pattern tests true on a message iff the message contains its text, ignoring case |
| ChunkErrors.DigitsEnd | src/components/ErrorBoundary.tsx:26 | the greedy `[\d]+` run starting at `i` ends inside the message, at or after `i` |
| ChunkErrors.DigitsEndCorrect | src/components/ErrorBoundary.tsx:26 | the greedy run consists of digits only and is followed by a non-digit or by the end of the message |
| ChunkErrors.DigitRunIsMaximal | src/components/ErrorBoundary.tsx:26 | any digit run followed by a non-digit is exactly the greedy run, so backtracking in `[\d]+` never finds another match |
| ChunkErrors.SuffixStartIsNotDigit | src/components/ErrorBoundary.tsx:26 | a character matching the space of " failed" is not a digit |
| ChunkErrors.LoadingChunkAtSound | src/components/ErrorBoundary.tsx:26 | when the scan accepts `/Loading chunk [\d]+ failed/i` at a position, the prefix, one or more digits and the suffix occur there |
| ChunkErrors.LoadingChunkAtComplete | src/components/ErrorBoundary.tsx:26 | when the prefix, one or more digits and the suffix occur at a position, the scan accepts there |
| ChunkErrors.LoadingChunkAtCorrect | src/components/ErrorBoundary.tsx:26 | the numbered-chunk pattern is accepted at a position iff "Loading chunk ", a digit run and " failed" occur there, ignoring case |
| ChunkErrors.SearchLoadingChunkFromCorrect | src/components/ErrorBoundary.tsx:26 | scanning for the numbered-chunk pattern from `i` succeeds iff it occurs at some position at or after `i` |
| ChunkErrors.TestCorrect | src/components/ErrorBoundary.tsx:25-28 | `pattern.test(message)` holds iff the pattern occurs in the message |
| ChunkErrors.SomePatternMatchesCorrect | src/components/ErrorBoundary.tsx:35 | `patterns.some(p => p.test(m))` holds iff one of the patterns occurs in `m` |
| ChunkErrors.IsChunkErrorIffSignature | src/components/ErrorBoundary.tsx:24-36 | an error is a chunk error iff its message (or `String(value)`) contains "ChunkLoadError", "Loading chunk <digits> failed", "Failed to fetch dynamically imported module" or "Importing a module script failed", ignoring case |
| ChunkErrors.ShortMessageIsNotChunkError | src/components/ErrorBoundary.tsx:24-36 | a message shorter than the shortest signature is never a chunk error |
| ChunkErrors.NullishIsNotChunkError | src/components/ErrorBoundary.tsx:34 | a thrown `null` or `undefined` ("null", "undefined") is never a chunk error |
| ChunkErrors.NumberedChunkMessageIsChunkError | src/components/ErrorBoundary.tsx:26 | "Loading chunk <n> failed" is a chunk error for every non-empty digit string `n`, whatever text surrounds it |
| ChunkErrors.ChunkErrorIgnoresCase | src/components/ErrorBoundary.tsx:24-29 | the `i` flag: ASCII lower-casing a message (`A`-`Z` onto `a`-`z`, not `toLowerCase`) does not change whether it is a chunk error |
| Boundary.ShouldAutoReloadChunk | src/components/ErrorBoundary.tsx:38-50 | grants a reload iff the storage answers both calls and the flag is not already `'true'`; a grant writes `'true'` under `n3wth:chunk-reload` and nothing else; a refusal (no window, no storage, a throwing call, the flag already set) leaves the session unchanged |
| Boundary.GrantMarksSession | src/components/ErrorBoundary.tsx:31-50 | after a grant the session is marked; a marked session is refused and left unchanged |
| Boundary.GuardGrantsAtMostOnce | src/components/ErrorBoundary.tsx:38-50 | asked any number of times in one session the guard grants at most once, never in a marked session, and exactly once from a usable unmarked session |
| Boundary.SomeKeyDiffersFrom | src/components/ErrorBoundary.tsx:58 | the `.some` over equal-length key lists holds iff some position at or after `i` holds different keys |
| Boundary.HaveResetKeysChanged | src/components/ErrorBoundary.tsx:52-59 | false when either list is absent; otherwise true iff the lengths differ or some position holds different keys |
| Boundary.ResetKeysChangedIffDifferent | src/components/ErrorBoundary.tsx:52-59 | the keys changed iff both lists are present and not equal |
| Boundary.ResetKeysChangedSymmetric | src/components/ErrorBoundary.tsx:52-59 | the comparison is symmetric and a list never differs from itself |
| Boundary.DidCatch | src/components/ErrorBoundary.tsx:68-74 | `onError`, when given, is the first call made; the page is reloaded once iff the error is a chunk error and the guard grants, otherwise never; the guard is consulted, and may write, only for a chunk error |
| Boundary.DidCatchMakesNoOtherCalls | src/components/ErrorBoundary.tsx:68-74 | the calls made are exactly the optional `onError` followed by at most one reload, and nothing else |
| Boundary.ReloadAtMostOncePerSession | src/components/ErrorBoundary.tsx:68-74 | any stream of caught errors in one session reloads at most once; none, and no write, in a marked session; exactly once from a usable unmarked session when the stream holds a chunk error |
| Boundary.CatchInFreshSession | src/components/ErrorBoundary.tsx:68-74 | a chunk error in a usable unmarked session calls `onError` and then reloads, marking the session |
| Boundary.CatchInMarkedSession | src/components/ErrorBoundary.tsx:68-74 | in a marked session any error only calls `onError`, and the session is unchanged |
| Boundary.CatchAllCons | src/components/ErrorBoundary.tsx:68-74 | the unfolding of `CatchAll` on a non-empty stream: the calls of its first error, then those of the rest in the session the first left |
| Boundary.CatchTwo | src/components/ErrorBoundary.tsx:68-74 | the unfolding of `CatchAll` on two errors: the calls of the first, then those of the second in the session the first left |
| Boundary.TwoChunkErrorsReloadOnce | src/components/ErrorBoundary.tsx:68-74 | two chunk errors in a fresh session give exactly `onError`, reload, `onError`: one reload |
| Boundary.ErrorBoundary.constructor | src/components/ErrorBoundary.tsx:61-62 | a new boundary starts with `{ hasError: false, error: null }` |
| Boundary.ErrorBoundary.GetDerivedStateFromError | src/components/ErrorBoundary.tsx:64-66 | the derived state has `hasError` set and holds the thrown value itself |
| Boundary.ErrorBoundary.ReceiveError | src/components/ErrorBoundary.tsx:64-66 | applying a render failure sets the state to the derived state and changes nothing else of the boundary |
| Boundary.ErrorBoundary.ComponentDidCatch | src/components/ErrorBoundary.tsx:68-74 | the shared trace grows by the calls `DidCatch` states, the session becomes the one it states, and the reload count grows by one exactly when the error is a chunk error and the guard grants |
| Boundary.ErrorBoundary.ResetErrorBoundary | src/components/ErrorBoundary.tsx:82-85 | calls `onReset` when given, then the state is `{ hasError: false, error: null }`; the session is untouched |
| Boundary.ErrorBoundary.ComponentDidUpdate | src/components/ErrorBoundary.tsx:76-80 | a failed boundary whose reset keys changed is reset (with its `onReset` call); in every other case state and trace are unchanged |
| Boundary.ErrorBoundary.Rerender | src/components/ErrorBoundary.tsx:76-80 | a parent passing new `resetKeys` resets a failed boundary iff the keys changed, and otherwise changes only the keys |
| Boundary.ErrorBoundary.Render | src/components/ErrorBoundary.tsx:87-100 | the children iff no error is held; otherwise the fallback, called as a render function iff it is one, with the stored error or, when that is nullish, "Unknown error" |
| Boundary.ChunkErrorScenario | src/components/ErrorBoundary.tsx:61-100 | two chunk errors in a fresh session reload once, show the fallback with the latest error, and "try again" brings the children back |
| LazyRetry.LoadStep | src/utils/lazyWithRetry.ts:29-37 | the unfolding of the reference `load` by one invocation: a retryable chunk error invokes again with `attempt + 1`; a success settles with its module; any other rejection settles with that error |
| LazyRetry.LoadIsBounded | src/utils/lazyWithRetry.ts:29-39 | one load never lets `attempt` exceed the budget, makes one invocation plus one per retry, and so at most `retries + 1` invocations |
| LazyRetry.LoadRetriesUntilTerminal | src/utils/lazyWithRetry.ts:31-36 | every invocation before the last was a chunk error with `attempt < retries` at that point, each raising `attempt` by one; the last is not retryable |
| LazyRetry.LoadSettlesWithLastOutcome | src/utils/lazyWithRetry.ts:30-33 | a load settles with its last invocation: a success passes its module on unchanged, a rejection is rethrown as it is |
| LazyRetry.OtherErrorRethrownAtOnce | src/utils/lazyWithRetry.ts:30-33 | a failure that is not a chunk error is rethrown after one invocation without touching `attempt` |
| LazyRetry.ExhaustedLoaderNeverRetries | src/utils/lazyWithRetry.ts:26-33 | once `attempt >= retries`, a load makes one invocation, leaves `attempt` alone and rethrows any rejection |
| LazyRetry.LazyLoader.constructor | src/utils/lazyWithRetry.ts:21-26 | the options default to `retries = 1` and `retryDelayMs = 1200`, the loader classifies with `isChunkError`, `attempt` starts at 0 |
| LazyRetry.LazyLoader.Load | src/utils/lazyWithRetry.ts:28-39 | the loop returns what the reference `load` returns and leaves the counters where it leaves them; `attempt` never decreases and stays within the budget |
| LazyRetry.DefaultLoaderGivesUpAfterOneRetry | src/utils/lazyWithRetry.ts:25-39 | with the default options and an importer whose first three invocations fail with a chunk error, the first load retries once and rethrows, the second rethrows the third failure at once: three invocations |
| Creative.KeepPresent | src/components/sections/Creative.tsx:109 | filtering never lengthens the list |
| Creative.TextElements | src/components/sections/Creative.tsx:109 | a panel has at most four text elements |
| Creative.KeepPresentMembers | src/components/sections/Creative.tsx:109 | the filter keeps exactly the candidates that were found |
| Creative.KeepPresentOrdered | src/components/sections/Creative.tsx:109 | the filter keeps the candidates in their order |
| Creative.TextElementsInOrder | src/components/sections/Creative.tsx:109 | the text elements are exactly the present ones, in the order label, title, tagline, meta, without repeats |
| Creative.TextInRange | src/components/sections/Creative.tsx:138-139 | the fade-in range is on the top edge and, for indices 0..3, starts below where it ends (`80-5i > 35-3i`) inside the viewport |
| Creative.TextOutRange | src/components/sections/Creative.tsx:173-174 | the fade-out range is on the bottom edge and, for indices 0..3, `70-3i > 30-2i`, inside the viewport |
| Creative.TextOffsetsStagger | src/components/sections/Creative.tsx:131-169 | later elements enter from strictly further below (`30+8i`) and leave to strictly further above (`-25-6i`) |
| Creative.TextFadesIn | src/components/sections/Creative.tsx:129-144 | every fade-in tween is a scrub on its own panel, over a range passed through while the elements are within the first four |
| Creative.TextFadesOut | src/components/sections/Creative.tsx:164-179 | every fade-out tween is a scrub on its own panel, over a range passed through while the elements are within the first four |
| Creative.PanelTweens | src/components/sections/Creative.tsx:111-179 | every backdrop and text tween of a panel is the panel's own and runs over a non-empty range |
| Creative.PanelRegistrations | src/components/sections/Creative.tsx:77-180 | a panel with no background at its index registers nothing; everything else it registers is its own |
| Creative.PanelsRegistrationsBelong | src/components/sections/Creative.tsx:77-180 | each panel registration belongs to a panel that exists and has a background |
| Creative.CrossfadeInPanelsRegistrations | src/components/sections/Creative.tsx:77-106 | each panel with a background registers its crossfade trigger |
| Creative.CrossfadeRegisteredIff | src/components/sections/Creative.tsx:12-106 | panel `i`'s crossfade is registered iff motion is allowed and both panel `i` and background `i` exist |
| Creative.MasterRegisteredIff | src/components/sections/Creative.tsx:64-75 | the master trigger is registered iff motion is allowed and the backgrounds container exists |
| Creative.ShapeGuardRegisteredIff | src/components/sections/Creative.tsx:12-37 | the shape guard is registered iff motion is allowed |
| Creative.RegisteredTweensBelong | src/components/sections/Creative.tsx:77-180 | nothing per panel is registered under reduced motion or for a panel without a background; every registered scrub runs over a non-empty range |
| Creative.HideAll | src/components/sections/Creative.tsx:58-62 | `hideAllBackgrounds` sets every background target to 0 |
| Creative.PanelEnterShowsOnlyItself | src/components/sections/Creative.tsx:92-102 | panel `i`'s onEnter/onEnterBack leaves background `i` at 1 and every other at 0 |
| Creative.PanelLeaveHidesOnlyItself | src/components/sections/Creative.tsx:96-105 | panel `i`'s onLeave/onLeaveBack sets background `i` to 0 and leaves all others unchanged |
| Creative.SectionLeaveHidesAll | src/components/sections/Creative.tsx:66-75 | the master onLeave/onLeaveBack sets every background target to 0 |
| Creative.StepKeepsAtMostOneShown | src/components/sections/Creative.tsx:58-106 | any one event keeps the targets in {0, 1} with at most one at 1 |
| Creative.AtMostOneBackgroundShown | src/components/sections/Creative.tsx:58-106 | any sequence of section and panel events keeps at most one background at 1 |
| Creative.FromHiddenAtMostOneShown | src/components/sections/Creative.tsx:197-202 | from the initial `opacity-0` backgrounds, no sequence of events ever shows two |
| Creative.ShapeAfter | src/components/sections/Creative.tsx:23-35 | a shape is hidden iff the callback is onEnter or onEnterBack; its pointer events are off iff they already were or the callback is onEnter |
| Creative.SectionEventSetsShapes | src/components/sections/Creative.tsx:18-37 | with the guard registered, entering the section either way hides every shape and leaving either way shows every shape |
| Creative.PointerEventsStayOff | src/components/sections/Creative.tsx:23-35 | once a shape's pointer events are off, no event turns them back on |
| Creative.CreativeSection.constructor | src/components/sections/Creative.tsx:192-210 | every background starts at opacity 0, every shape at rest, nothing registered |
| Creative.CreativeSection.Setup | src/components/sections/Creative.tsx:11-180 | the `useGSAP` callback appends exactly `Registrations(...)` to the registry, which is empty under reduced motion, and keeps the section's invariant |
| Creative.CreativeSection.RegisterSectionTriggers | src/components/sections/Creative.tsx:18-75 | appends the shape guard, the header reveal and, iff the container exists, the master trigger |
| Creative.CreativeSection.RegisterPanels | src/components/sections/Creative.tsx:77-180 | the `panels.forEach` loop appends each panel's registrations in panel order |
| Creative.CreativeSection.RegisterPanel | src/components/sections/Creative.tsx:77-179 | one panel appends nothing without a background and otherwise its crossfade, then its tweens in source order |
| Creative.CreativeSection.RegisterTextFadesIn | src/components/sections/Creative.tsx:129-144 | the first `textElements.forEach` appends one fade-in per element, indexed by position |
| Creative.CreativeSection.RegisterTextFadesOut | src/components/sections/Creative.tsx:164-179 | the second `textElements.forEach` appends one fade-out per element, indexed by position |
| Creative.CreativeSection.HideAllBackgrounds | src/components/sections/Creative.tsx:58-62 | the loop leaves every background target at 0 |
| Creative.CreativeSection.ApplyShapeCallback | src/components/sections/Creative.tsx:23-35 | one shape-guard tween sets every shape of the list to the target its callback gives |
| Creative.CreativeSection.Dispatch | src/components/sections/Creative.tsx:18-106 | an event runs exactly the registered callbacks it concerns, as the step functions state, and keeps at most one background shown |

## Left out

- Timing and easing are not modelled: durations, eases, scrub smoothing,
  the header tween's motion and how ScrollTrigger resolves `start`/`end`
  against the layout. A tween is only the target value it sets, a scrub
  range only its two percentages, and a scroll event only which callback
  fires. The results about backgrounds, at most one shown among them, are about
  these targets. They are not about the opacities the engine renders: GSAP
  does not overwrite running tweens by default, so a 0.6 s fade to 1 can
  still be finishing after a later 0.4 s fade to 0.
- The opacities the shapes are restored to (`[0.015, 0.01, 0][i] || 0.015`
  and `[0.35, 0.35, 0.3, 0.3][i] || 0.35`) are floating-point decoration. A
  shape is only "hidden" or "at rest".
- Creative.ShapeAfter: the comment at `Creative.tsx:17` says the shapes are
  hidden "when in creative section". The code does that: it hides them
  whenever the section is entered. It never turns pointer events back on,
  and the model follows the code. Hiding them only while a panel with a
  light background is active is not what the code does and is not modelled.
- Creative.CreativeSection.Setup: the DOM is not modelled.
  - The result of the `prefers-reduced-motion` media query is a parameter.
  - Each `querySelector` is a flag on `Panel`.
  - The backgrounds container is a flag.
  - The number of backgrounds is fixed by the constructor.
- The header reveal (`Creative.tsx:40-50`) is only a registration. It touches
  neither the backgrounds nor the shapes.
- Cleanup when the section unmounts is not modelled. That is GSAP's context
  revert.
- The 1200 ms delay is not modelled: `retryDelayMs` is kept but never waited
  on. Nor are the promises or React's `lazy` wrapper.
- LazyRetry.LazyLoader.Load: React calls the `lazy` factory once per
  component, so a second `Load` stands for a second call of that factory. The
  model shows that `attempt` carries over into such a call. It does not claim
  React makes that call.
- LazyRetry.LazyLoader.constructor: `retries` is an integer. A fractional,
  `NaN` or `null` option, which JavaScript's comparison would accept, is not
  modelled. A negative `retries` allows no retry.
- Boundary.HaveResetKeysChanged: keys are compared with the equality of the
  key type. The two places where `Object.is` departs from `===` (`NaN` and
  signed zero) are not represented. Holes in sparse arrays are not
  represented either.
- Boundary.ErrorBoundary.ComponentDidCatch: the `onError` and `onReset`
  callbacks are calls recorded in a trace, not code that runs.
  `window.location.reload()` is also a trace entry, and the model goes on
  after it where a browser would unload the page. React's batching of
  `setState` is not represented.
- The intended behaviour is sometimes described with only the chunk-load
  and dynamic-import signatures. `isChunkError` has four patterns, and the
  model follows the code.
- `src/components/ErrorBoundary.tsx:102-208` repeats lines 1-101. Only the
  first copy is modelled. `isChunkError` in `src/utils/lazyWithRetry.ts:4-14`
  is the same predicate, and both files use `ChunkErrors.IsChunkError`.
- The fallback UI with its "reload" and "try again" buttons is
  `src/components/ErrorFallback.tsx`. That file is not part of this model.
  The boundary only hands it the error and `resetErrorBoundary`.
