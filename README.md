# Header scroll controller

A model of the blog's header-shrink controller (`initHeaderScrollController`).
The controller watches the page's vertical scroll offset. Whenever the viewport
is at least as wide as the desktop breakpoint, it toggles the `shrink` class
on two header elements, an outer wrapper and an inner container. On narrower
viewports it clears that class. Scroll events are throttled through
`requestAnimationFrame`, so scroll events and frames alone never leave more
than one update scheduled; a teardown does not cancel one already queued. `init`
and `cleanup` start and tear down the controller around page transitions.

Files:

- `header_model.dfy` (module `HeaderModel`): the state as a value, plus one step function per operation.
  - The `Snapshot` value holds the controller record (`ticking`, `lastScrollY`, and `cached` for the element references `init` stores).
  - It also holds the browser facts the controller changes: `listening` says whether the scroll listener is registered, and `pending` counts the queued animation-frame callbacks.
  - The two elements are `Option<bool>`. `None` means the id does not resolve; `Some(b)` means it does, with `b` telling whether the element has `shrink`.
- `header_controller.dfy` (module `HeaderScrollController`): the class `HeaderController`. Its fields are the same state, and its methods update them in place. Each method is proved to produce the step function of `HeaderModel` applied to its old state. `DesktopScenario` drives one desktop session through the object.
- `header_traces.dfy` (module `HeaderTraces`): runs over sequences of events (scroll, frame, init, cleanup, document swap) and the lemmas about whole runs.

Inputs the browser supplies become parameters:
- `window.scrollY` and `window.innerWidth` are the integer arguments of the update, the frame and `init`.
- Whether `document.getElementById` finds each id is the `None`/`Some` of each element.
- `requestAnimationFrame` adds one to `pending`. `FireFrame` and `FrameStep` run one queued callback.
- `addEventListener` and `removeEventListener` set and clear `listening`. A scroll event reaches `handleScroll` only while `listening` is set (`OnScroll`, `DispatchScroll`).

The desktop logic reacts to *crossings* of the threshold: it compares the current offset with `lastScrollY`. It does not look at the level of the offset. `init` records the current offset before its first update, and so does a narrow-viewport update. So a page opened past the threshold, or widened while past it, stays unshrunk until the offset goes back to or below the threshold and crosses it again. The model follows the code here, not the level-based reading (shrunk exactly when the offset is past the threshold). `OpenedPastThresholdStaysUnshrunk` and `WidenedPastThresholdStaysUnshrunk` prove the code's behaviour. `DesktopKeepsLevel` proves the level reading on desktop, but only for a header that already shows the level when the run starts.

The throttle keeps at most one update queued only while the events are scroll events and frames (`ThrottleKeepsOnePending`). `cleanup` and `init` clear `ticking` but do not cancel a callback that is already queued. So after a teardown and a re-init, a scroll can queue a second update (`QueuedUpdateSurvivesTeardown`). What always holds is that `ticking` implies a queued update (`TickingHasPendingUpdate`). An update still queued at teardown runs like any other once its frame comes, so it can add `shrink` after `cleanup` has cleared it (`StaleUpdateShrinksAfterCleanup`).

## Model

| member | source | states |
|---|---|---|
| HeaderModel.UpdateStep | src/scripts/header-scroll-controller.ts:47-101 | If either element is missing, only `ticking` is cleared. With both elements: on a narrow viewport (width below the breakpoint) both lose `shrink`; on desktop both gain it exactly on an upward crossing of the strict threshold, both lose it exactly on a downward crossing, and otherwise stay unchanged. On both branches the offset is recorded and `ticking` ends false. Presence, listener and queue never change, and the two elements stay paired. |
| HeaderScrollController.HeaderController.UpdateHeaderState | src/scripts/header-scroll-controller.ts:69-101 | The in-place update leaves the object in exactly the state `UpdateStep` gives for the old state. |
| HeaderModel.ScrollStep | src/scripts/header-scroll-controller.ts:106-111 | If `ticking` is set, nothing changes. Otherwise `ticking` becomes true and exactly one update is queued. Nothing else changes. From a throttled state it stays throttled with a single update queued. |
| HeaderScrollController.HeaderController.HandleScroll | src/scripts/header-scroll-controller.ts:106-111 | The object changes as `ScrollStep` says: unchanged while ticking; otherwise ticking with one more queued callback. |
| HeaderModel.DispatchScroll | src/scripts/header-scroll-controller.ts:127 | A scroll event changes nothing unless the listener is registered. When it is, the event is `handleScroll`. The throttle invariant is kept. |
| HeaderScrollController.HeaderController.OnScroll | src/scripts/header-scroll-controller.ts:127 | The object changes as `DispatchScroll` says. |
| HeaderModel.FrameStep | src/scripts/header-scroll-controller.ts:108 | With an empty queue nothing happens. Otherwise one callback leaves the queue and runs `updateHeaderState` with that frame's offset and width, so `ticking` ends false. From a throttled state it stays throttled, and the queue ends empty. |
| HeaderScrollController.HeaderController.FireFrame | src/scripts/header-scroll-controller.ts:108 | The object changes as `FrameStep` says. |
| HeaderModel.InitStep | src/scripts/header-scroll-controller.ts:116-128 | Afterwards the listener is registered, `ticking` is false and `lastScrollY` is the current offset. The element references are cached exactly when both resolve. The first update never adds `shrink`: on desktop it leaves the classes unchanged, and on a narrow viewport it clears them on both elements. The queue and pairing are kept. |
| HeaderScrollController.HeaderController.Init | src/scripts/header-scroll-controller.ts:116-128 | The object changes as `InitStep` says. |
| HeaderModel.CleanupStep | src/scripts/header-scroll-controller.ts:133-148 | Afterwards the listener is removed, `ticking` is false, `lastScrollY` is 0 and the cached references are null. `shrink` is cleared on both elements when both resolve; otherwise the classes are untouched. The queued callbacks stay, and the elements end paired. |
| HeaderScrollController.HeaderController.Cleanup | src/scripts/header-scroll-controller.ts:133-148 | The object changes as `CleanupStep` says. |
| HeaderModel.CleanupIdempotent | src/scripts/header-scroll-controller.ts:133-148 | Two cleanups leave the same state as one. |
| HeaderModel.CleanupResetsRecord | src/scripts/header-scroll-controller.ts:133-148 | After cleanup, the record and the listener flag equal their values before the first init (lines 34-41). Only the queue and the classes can differ. |
| HeaderScrollController.HeaderController.constructor | src/scripts/header-scroll-controller.ts:34-41 | The record starts cleared: not ticking, offset 0, no cached references, no listener and an empty queue, over the given elements. |
| HeaderTraces.Run | src/scripts/header-scroll-controller.ts:106-111 | Over any run, the queue grows by at most one per event. |
| HeaderTraces.ThrottleKeepsOnePending | src/scripts/header-scroll-controller.ts:106-111 | Over scroll events and frames alone, starting throttled: an update is queued exactly while `ticking` is set, and never more than one. |
| HeaderTraces.TickingHasPendingUpdate | src/scripts/header-scroll-controller.ts:106-111 | Over any run, including init, cleanup and document swaps, `ticking` is set only while an update is queued. |
| HeaderTraces.QueuedUpdateSurvivesTeardown | src/scripts/header-scroll-controller.ts:116-148 | The run init, scroll, cleanup, init, scroll ends with two updates queued, so the one-pending bound needs its premise. |
| HeaderTraces.StaleUpdateShrinksAfterCleanup | src/scripts/header-scroll-controller.ts:106-148 | With threshold 50 and breakpoint 1024, the run init at 0, scroll, cleanup, then a frame at offset 80 on a 1280-wide viewport ends with the listener removed and both elements shrunk. |
| HeaderTraces.ShrinkStaysPaired | src/scripts/header-scroll-controller.ts:83-96 | Over any run in which each new document's elements agree, `shrink` is never on one element without the other. |
| HeaderTraces.DesktopKeepsLevel | src/scripts/header-scroll-controller.ts:78-99 | Over scroll events and desktop frames, a header that shows the level of the last offset (shrunk exactly when it is past the threshold) keeps showing it. |
| HeaderTraces.OpenedAtLevelFollowsScroll | src/scripts/header-scroll-controller.ts:116-128 | A desktop init whose header already matches the current level is followed by level-tracking over later desktop frames. |
| HeaderTraces.DesktopFrameShowsLevel | src/scripts/header-scroll-controller.ts:78-99 | From a level-tracking state, a desktop frame leaves both elements shrunk exactly when the current offset is past the threshold. |
| HeaderTraces.StuckWhileScrolled | src/scripts/header-scroll-controller.ts:78-99 | An unshrunk header whose recorded offset is past the threshold stays unshrunk while every frame's offset stays past it, whatever the widths. |
| HeaderTraces.OpenedPastThresholdStaysUnshrunk | src/scripts/header-scroll-controller.ts:116-124 | A page opened past the threshold with an unshrunk header is not shrunk by init nor by any later frame while it stays past the threshold, even on desktop. |
| HeaderTraces.WidenedPastThresholdStaysUnshrunk | src/scripts/header-scroll-controller.ts:82-88 | A narrow frame past the threshold clears `shrink`. Widening later while still past the threshold does not bring it back. |
| HeaderTraces.MissingElementsAreHarmless | src/scripts/header-scroll-controller.ts:70-74 | Starting with an empty queue and an element missing, init, a scroll and a frame change no class and leave the listener registered, `ticking` false and the queue empty. |

## Left out

- The page-transition wiring (src/scripts/header-scroll-controller.ts:150-166) is left out. This covers the `astro:page-load`, `astro:after-swap` (with its double animation-frame deferral) and `astro:before-swap` listeners, and the `document.readyState` / `DOMContentLoaded` choice. It is event-loop plumbing. `init` and `cleanup` are methods (and `PageLoad` / `BeforeSwap` events) that a driver calls in any order.
- The `typeof window === 'undefined'` guard (line 29) is left out. It is an environment check with no logic.
- The element ids and `getElements` are left out. The lookup becomes the presence of each element in the state. Replacing the document is an environment step (`SwapDocument`, the `Swap` event), not part of the source.
- The real scheduler is left out. A queued callback runs with whatever offset and width are passed to the frame step, one callback per step. A browser runs all callbacks of one frame together; the model allows that order and others.
- Fractional `scrollY` and `innerWidth` values are modelled as `int`. Only ordering comparisons are made on them.
- `src/consts.ts`, `src/types.ts` and `src/env.d.ts` are not part of this model. They hold static site metadata, type aliases and global declarations with no behaviour.
