/**
 * The controller object built by initHeaderScrollController: its state record
 * (ticking, lastScrollY, the cached element references), the browser facts it
 * depends on (the registered listener, the animation-frame queue) and the
 * `shrink` class of the two header elements are fields, and every operation
 * updates them in place. Each method's new state is the matching step
 * function of HeaderModel applied to the old state.
 */
module HeaderScrollController {
  import opened HeaderModel

  class HeaderController {
    const config: Config

    // The controller's own state record.
    var ticking: bool
    var lastScrollY: int
    var cached: bool

    // What the controller changes in the browser.
    var listening: bool
    var pending: nat
    var wrapper: Element
    var inner: Element

    /** The abstract value of the object. */
    function State(): Snapshot
      reads this
    {
      Snapshot(ticking, lastScrollY, cached, listening, pending, wrapper, inner)
    }

    /** initHeaderScrollController: the record starts cleared; nothing is
        registered until init runs. */
    constructor (config: Config, wrapper: Element, inner: Element)
      ensures this.config == config
      ensures State() == Initial(wrapper, inner)
    {
      this.config := config;
      ticking := false;
      lastScrollY := 0;
      cached := false;
      listening := false;
      pending := 0;
      this.wrapper := wrapper;
      this.inner := inner;
    }

    /** updateHeaderState, reading the scroll offset and the viewport width
        of the moment it runs. */
    method UpdateHeaderState(scrollY: int, width: int)
      modifies this
      ensures State() == UpdateStep(config, old(State()), scrollY, width)
    {
      if wrapper.None? || inner.None? {
        ticking := false;
        return;
      }
      var isScrolled := scrollY > config.scrollThreshold;
      var wasScrolled := lastScrollY > config.scrollThreshold;

      if !IsDesktop(config, width) {
        wrapper := Some(false);
        inner := Some(false);
        ticking := false;
        lastScrollY := scrollY;
        return;
      }

      if isScrolled && !wasScrolled {
        wrapper := Some(true);
        inner := Some(true);
      } else if !isScrolled && wasScrolled {
        wrapper := Some(false);
        inner := Some(false);
      }
      lastScrollY := scrollY;
      ticking := false;
    }

    /** handleScroll: the throttle. */
    method HandleScroll()
      modifies this
      ensures State() == ScrollStep(old(State()))
      ensures old(ticking) ==> unchanged(this)
      ensures !old(ticking) ==> ticking && pending == old(pending) + 1
    {
      if !ticking {
        pending := pending + 1;  // requestAnimationFrame(updateHeaderState)
        ticking := true;
      }
    }

    /** The browser delivers a scroll event to the registered listener. */
    method OnScroll()
      modifies this
      ensures State() == DispatchScroll(old(State()))
    {
      if listening {
        HandleScroll();
      }
    }

    /** The browser runs the oldest queued animation-frame callback. */
    method FireFrame(scrollY: int, width: int)
      modifies this
      ensures State() == FrameStep(config, old(State()), scrollY, width)
    {
      if pending > 0 {
        pending := pending - 1;
        UpdateHeaderState(scrollY, width);
      }
    }

    /** init: reset, first update, register the listener. */
    method Init(scrollY: int, width: int)
      modifies this
      ensures State() == InitStep(config, old(State()), scrollY, width)
    {
      ticking := false;
      lastScrollY := scrollY;
      cached := wrapper.Some? && inner.Some?;
      UpdateHeaderState(scrollY, width);
      listening := true;  // addEventListener is a no-op when already registered
    }

    /** cleanup: unregister, clear `shrink` if both elements resolve, reset. */
    method Cleanup()
      modifies this
      ensures State() == CleanupStep(old(State()))
    {
      listening := false;
      if wrapper.Some? && inner.Some? {
        wrapper := Some(false);
        inner := Some(false);
      }
      ticking := false;
      lastScrollY := 0;
      cached := false;
    }

    /** The page-transition system replaces the document. */
    method SwapDocument(newWrapper: Element, newInner: Element)
      modifies this`wrapper, this`inner
      ensures State() == SwapStep(old(State()), newWrapper, newInner)
    {
      wrapper := newWrapper;
      inner := newInner;
    }
  }

  /** A desktop session driven through the object alone: threshold 50,
      breakpoint 1024. What each step leaves behind follows from the
      methods' contracts and the step functions' contracts. */
  method DesktopScenario()
  {
    var c := new HeaderController(Config(50, 1024), Some(false), Some(false));
    c.Init(0, 1280);
    assert c.wrapper == c.inner == Some(false);

    c.OnScroll();
    c.OnScroll();  // dropped: an update is already scheduled
    assert c.pending == 1;
    c.FireFrame(80, 1280);
    assert c.wrapper == c.inner == Some(true) && !c.ticking;

    c.OnScroll();
    c.FireFrame(10, 1280);
    assert c.wrapper == c.inner == Some(false);

    c.OnScroll();
    c.FireFrame(10, 800);
    assert c.wrapper == c.inner == Some(false);
    c.OnScroll();
    c.FireFrame(80, 800);
    assert c.wrapper == c.inner == Some(false) && c.lastScrollY == 80;

    c.Cleanup();
    c.Cleanup();
    assert !c.listening && c.lastScrollY == 0 && c.pending == 0;
  }
}
