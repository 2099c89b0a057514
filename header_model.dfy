/**
 * The header-shrink controller as values: one Snapshot holds the controller's
 * own state record, the browser bookkeeping it relies on (the registered scroll
 * listener, the queue of animation-frame callbacks) and the two header
 * elements. Each operation of the controller is a step function on snapshots;
 * the class in HeaderScrollController is proved against these functions.
 */
module HeaderModel {

  datatype Option<T> = None | Some(value: T)

  /** The caller-supplied configuration. The element ids are not modelled:
      whether each id resolves is part of the snapshot. */
  datatype Config = Config(scrollThreshold: int, desktopBreakpoint: int)

  /** A header element looked up by id: None when the id does not resolve,
      Some(b) when it does, b telling whether the element carries `shrink`. */
  type Element = Option<bool>

  datatype Snapshot = Snapshot(
    ticking: bool,       // an animation-frame update is scheduled
    lastScrollY: int,    // the scroll offset seen by the last update
    cached: bool,        // the element references kept by init are non-null
    listening: bool,     // the passive scroll listener is registered
    pending: nat,        // queued animation-frame update callbacks
    wrapper: Element,
    inner: Element)

  /** The state before the first init: nothing scheduled, nothing registered. */
  function Initial(wrapper: Element, inner: Element): (s: Snapshot)
  {
    Snapshot(false, 0, false, false, 0, wrapper, inner)
  }

  /** Widths at or above the breakpoint count as desktop. */
  predicate IsDesktop(config: Config, width: int)
  {
    width >= config.desktopBreakpoint
  }

  /** The threshold comparison is strict. */
  predicate IsScrolled(config: Config, scrollY: int)
  {
    scrollY > config.scrollThreshold
  }

  /** Both ids resolve, so class changes are applied. */
  predicate BothPresent(s: Snapshot)
  {
    s.wrapper.Some? && s.inner.Some?
  }

  /** The two elements agree on `shrink` whenever both exist. */
  predicate Paired(s: Snapshot)
  {
    BothPresent(s) ==> s.wrapper == s.inner
  }

  /** The throttle's bookkeeping: a scheduled update exists exactly when
      `ticking` is set, and there is never more than one. */
  predicate Throttled(s: Snapshot)
  {
    s.pending == if s.ticking then 1 else 0
  }

  /** On desktop the class change depends on the crossing of the threshold
      between the last and the current offset, not on the current level. */
  datatype Transition = Add | Remove | Keep

  function DesktopTransition(config: Config, lastScrollY: int, scrollY: int): (t: Transition)
  {
    if IsScrolled(config, scrollY) && !IsScrolled(config, lastScrollY) then Add
    else if !IsScrolled(config, scrollY) && IsScrolled(config, lastScrollY) then Remove
    else Keep
  }

  /** classList.add / classList.remove / nothing, on a resolved element. */
  function Apply(t: Transition, e: Element): (r: Element)
  {
    match t
    case Add => Some(true)
    case Remove => Some(false)
    case Keep => e
  }

  /** One run of updateHeaderState with the given scroll offset and viewport
      width. */
  function UpdateStep(config: Config, s: Snapshot, scrollY: int, width: int): (r: Snapshot)
    // Only the controller record and the classes may change; an element's
    // presence never does.
    ensures !r.ticking
    ensures r.listening == s.listening && r.pending == s.pending && r.cached == s.cached
    ensures r.wrapper.Some? == s.wrapper.Some? && r.inner.Some? == s.inner.Some?
    // A missing element aborts the update after clearing `ticking`.
    ensures !BothPresent(s) ==> r == s.(ticking := false)
    // With both elements, the offset is always recorded.
    ensures BothPresent(s) ==> r.lastScrollY == scrollY
    // Narrow viewport: `shrink` is cleared whatever the offset.
    ensures BothPresent(s) && !IsDesktop(config, width) ==> r.wrapper == r.inner == Some(false)
    // Desktop: add on crossing upwards, remove on crossing downwards, else keep.
    ensures BothPresent(s) && IsDesktop(config, width) ==>
      && (IsScrolled(config, scrollY) && !IsScrolled(config, s.lastScrollY) ==>
            r.wrapper == r.inner == Some(true))
      && (!IsScrolled(config, scrollY) && IsScrolled(config, s.lastScrollY) ==>
            r.wrapper == r.inner == Some(false))
      && (IsScrolled(config, scrollY) == IsScrolled(config, s.lastScrollY) ==>
            r.wrapper == s.wrapper && r.inner == s.inner)
    // Each add and each remove touches both elements.
    ensures Paired(s) ==> Paired(r)
  {
    if !BothPresent(s) then
      s.(ticking := false)
    else if !IsDesktop(config, width) then
      s.(wrapper := Some(false), inner := Some(false), ticking := false, lastScrollY := scrollY)
    else
      var t := DesktopTransition(config, s.lastScrollY, scrollY);
      s.(wrapper := Apply(t, s.wrapper), inner := Apply(t, s.inner),
         lastScrollY := scrollY, ticking := false)
  }

  /** handleScroll: schedule one update unless one is already scheduled. */
  function ScrollStep(s: Snapshot): (r: Snapshot)
    ensures s.ticking ==> r == s
    ensures !s.ticking ==> r.ticking && r.pending == s.pending + 1
    ensures r.lastScrollY == s.lastScrollY && r.cached == s.cached && r.listening == s.listening
    ensures r.wrapper == s.wrapper && r.inner == s.inner
    ensures Throttled(s) ==> Throttled(r) && r.pending == 1
  {
    if s.ticking then s else s.(pending := s.pending + 1, ticking := true)
  }

  /** A scroll event reaches handleScroll only while the listener is registered. */
  function DispatchScroll(s: Snapshot): (r: Snapshot)
    ensures !s.listening ==> r == s
    ensures s.listening ==> r == ScrollStep(s)
    ensures Throttled(s) ==> Throttled(r)
  {
    if s.listening then ScrollStep(s) else s
  }

  /** The browser runs one queued animation-frame callback, if there is one. */
  function FrameStep(config: Config, s: Snapshot, scrollY: int, width: int): (r: Snapshot)
    ensures s.pending == 0 ==> r == s
    ensures s.pending > 0 ==> r.pending == s.pending - 1 && !r.ticking
    ensures s.pending > 0 ==> r == UpdateStep(config, s.(pending := s.pending - 1), scrollY, width)
    ensures Throttled(s) ==> Throttled(r) && r.pending == 0
  {
    if s.pending == 0 then s else UpdateStep(config, s.(pending := s.pending - 1), scrollY, width)
  }

  /** init: reset the record, record the current offset, cache the elements,
      run one update directly, then register the listener. */
  function InitStep(config: Config, s: Snapshot, scrollY: int, width: int): (r: Snapshot)
    ensures r.listening && !r.ticking && r.lastScrollY == scrollY
    ensures r.pending == s.pending && r.cached == BothPresent(s)
    ensures r.wrapper.Some? == s.wrapper.Some? && r.inner.Some? == s.inner.Some?
    // The first update sees no crossing, so it never adds `shrink`: on
    // desktop it leaves the classes alone, on a narrow viewport it clears them.
    ensures BothPresent(s) && IsDesktop(config, width) ==> r.wrapper == s.wrapper && r.inner == s.inner
    ensures BothPresent(s) && !IsDesktop(config, width) ==> r.wrapper == r.inner == Some(false)
    ensures !BothPresent(s) ==> r.wrapper == s.wrapper && r.inner == s.inner
    ensures Paired(s) ==> Paired(r)
  {
    var reset := s.(ticking := false, lastScrollY := scrollY, cached := BothPresent(s));
    UpdateStep(config, reset, scrollY, width).(listening := true)
  }

  /** cleanup: unregister, clear `shrink` when both elements resolve, reset the
      record. A callback already queued stays queued. */
  function CleanupStep(s: Snapshot): (r: Snapshot)
    ensures !r.listening && !r.ticking && r.lastScrollY == 0 && !r.cached
    ensures r.pending == s.pending
    ensures BothPresent(s) ==> r.wrapper == r.inner == Some(false)
    ensures !BothPresent(s) ==> r.wrapper == s.wrapper && r.inner == s.inner
    ensures Paired(r)
  {
    var cleared := if BothPresent(s) then s.(wrapper := Some(false), inner := Some(false)) else s;
    cleared.(listening := false, ticking := false, lastScrollY := 0, cached := false)
  }

  /** The page-transition system replaces the document, so the ids may now
      resolve to other elements (or to none). */
  function SwapStep(s: Snapshot, wrapper: Element, inner: Element): (r: Snapshot)
  {
    s.(wrapper := wrapper, inner := inner)
  }

  /** Teardown is idempotent: a second cleanup changes nothing. */
  lemma CleanupIdempotent(s: Snapshot)
    ensures CleanupStep(CleanupStep(s)) == CleanupStep(s)
  {
  }

  /** Cleanup puts the record and the listener back as they were before the
      first init; only the queue of callbacks and the classes differ. */
  lemma CleanupResetsRecord(s: Snapshot)
    ensures var r := CleanupStep(s); r == Initial(r.wrapper, r.inner).(pending := s.pending)
  {
  }
}
