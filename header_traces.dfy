/**
 * Runs of the controller: a sequence of events the browser and the
 * page-transition system deliver, each applied by the matching step function.
 * The lemmas here are about whole runs: what the throttle, the paired class
 * updates and the transition-based desktop logic guarantee, and where the
 * level-based reading of the header ("shrunk iff scrolled past the threshold")
 * does not hold.
 */
module HeaderTraces {
  import opened HeaderModel

  datatype Event =
    | Scroll                                   // a raw scroll event
    | Frame(scrollY: int, width: int)          // an animation frame runs one queued update
    | PageLoad(scrollY: int, width: int)       // init
    | BeforeSwap                               // cleanup
    | Swap(wrapper: Element, inner: Element)   // the document is replaced

  function Step(config: Config, s: Snapshot, e: Event): (r: Snapshot)
  {
    match e
    case Scroll => DispatchScroll(s)
    case Frame(y, w) => FrameStep(config, s, y, w)
    case PageLoad(y, w) => InitStep(config, s, y, w)
    case BeforeSwap => CleanupStep(s)
    case Swap(wr, inn) => SwapStep(s, wr, inn)
  }

  /** The state after the events, applied first to last. Each event queues at
      most one update callback. */
  function Run(config: Config, s: Snapshot, events: seq<Event>): (r: Snapshot)
    ensures r.pending <= s.pending + |events|
    decreases |events|
  {
    if events == [] then s else Run(config, Step(config, s, events[0]), events[1..])
  }

  predicate ScrollsAndFrames(events: seq<Event>)
  {
    forall i :: 0 <= i < |events| ==> events[i].Scroll? || events[i].Frame?
  }

  /** Over scroll events and frames alone the throttle holds: an update is
      queued exactly while `ticking` is set, and never more than one. */
  lemma {:induction false} ThrottleKeepsOnePending(config: Config, s: Snapshot, events: seq<Event>)
    requires Throttled(s)
    requires ScrollsAndFrames(events)
    ensures Throttled(Run(config, s, events))
    ensures Run(config, s, events).pending <= 1
    decreases |events|
  {
    if events != [] {
      assert events[0].Scroll? || events[0].Frame?;
      ThrottleKeepsOnePending(config, Step(config, s, events[0]), events[1..]);
    }
  }

  /** Whatever the events, `ticking` is only ever set with an update queued. */
  lemma {:induction false} TickingHasPendingUpdate(config: Config, s: Snapshot, events: seq<Event>)
    requires s.ticking ==> s.pending >= 1
    ensures var r := Run(config, s, events); r.ticking ==> r.pending >= 1
    decreases |events|
  {
    if events != [] {
      TickingHasPendingUpdate(config, Step(config, s, events[0]), events[1..]);
    }
  }

  /** Teardown does not cancel a queued update, and init clears `ticking`, so
      after navigating away and back the next scroll queues a second update. */
  lemma QueuedUpdateSurvivesTeardown(config: Config)
    ensures var r := Run(config, Initial(Some(false), Some(false)),
                         [PageLoad(0, 1280), Scroll, BeforeSwap, PageLoad(0, 1280), Scroll]);
            r.pending == 2 && !Throttled(r)
  {
  }

  /** An update queued before teardown still runs at its frame and can add
      `shrink` after cleanup has cleared it. */
  lemma StaleUpdateShrinksAfterCleanup()
    ensures var r := Run(Config(50, 1024), Initial(Some(false), Some(false)),
                         [PageLoad(0, 1280), Scroll, BeforeSwap, Frame(80, 1280)]);
            !r.listening && r.wrapper == r.inner == Some(true)
  {
  }

  /** Any new document whose elements both resolve agrees on `shrink`. */
  predicate SwapsPaired(events: seq<Event>)
  {
    forall i :: 0 <= i < |events| && events[i].Swap? && events[i].wrapper.Some? && events[i].inner.Some? ==>
      events[i].wrapper == events[i].inner
  }

  /** `shrink` is never on one header element without the other. */
  lemma {:induction false} ShrinkStaysPaired(config: Config, s: Snapshot, events: seq<Event>)
    requires Paired(s)
    requires SwapsPaired(events)
    ensures Paired(Run(config, s, events))
    decreases |events|
  {
    if events != [] {
      assert SwapsPaired(events[1..]) by {
        forall i | 0 <= i < |events[1..]| && events[1..][i].Swap? && events[1..][i].wrapper.Some? && events[1..][i].inner.Some?
          ensures events[1..][i].wrapper == events[1..][i].inner
        {
          assert events[1..][i] == events[i + 1];
        }
      }
      ShrinkStaysPaired(config, Step(config, s, events[0]), events[1..]);
    }
  }

  /** The header shows the level of the offset last seen: shrunk exactly when
      that offset is past the threshold. */
  predicate TracksLevel(config: Config, s: Snapshot)
  {
    BothPresent(s) ==> s.wrapper == s.inner == Some(IsScrolled(config, s.lastScrollY))
  }

  predicate ScrollsAndDesktopFrames(config: Config, events: seq<Event>)
  {
    forall i :: 0 <= i < |events| ==>
      events[i].Scroll? || (events[i].Frame? && IsDesktop(config, events[i].width))
  }

  /** Transition-based updates keep the header at the level of the last
      offset, provided it was there to begin with: on desktop, crossing
      detection is then equivalent to "shrunk iff scrolled past". */
  lemma {:induction false} DesktopKeepsLevel(config: Config, s: Snapshot, events: seq<Event>)
    requires TracksLevel(config, s)
    requires ScrollsAndDesktopFrames(config, events)
    ensures TracksLevel(config, Run(config, s, events))
    decreases |events|
  {
    if events != [] {
      assert events[0].Scroll? || (events[0].Frame? && IsDesktop(config, events[0].width));
      assert ScrollsAndDesktopFrames(config, events[1..]) by {
        forall i | 0 <= i < |events[1..]|
          ensures events[1..][i].Scroll? || (events[1..][i].Frame? && IsDesktop(config, events[1..][i].width))
        {
          assert events[1..][i] == events[i + 1];
        }
      }
      DesktopKeepsLevel(config, Step(config, s, events[0]), events[1..]);
    }
  }

  /** A page opened on desktop whose header already shows the level of the
      current offset (for instance unshrunk below the threshold) then follows
      the offset over later desktop frames. */
  lemma OpenedAtLevelFollowsScroll(config: Config, s: Snapshot, scrollY: int, width: int, events: seq<Event>)
    requires BothPresent(s) && s.wrapper == s.inner == Some(IsScrolled(config, scrollY))
    requires IsDesktop(config, width)
    requires ScrollsAndDesktopFrames(config, events)
    ensures TracksLevel(config, Run(config, InitStep(config, s, scrollY, width), events))
  {
    DesktopKeepsLevel(config, InitStep(config, s, scrollY, width), events);
  }

  /** In such a state, a desktop frame leaves the header shrunk exactly when
      the current offset is past the threshold. */
  lemma DesktopFrameShowsLevel(config: Config, s: Snapshot, scrollY: int, width: int)
    requires TracksLevel(config, s) && BothPresent(s) && s.pending > 0
    requires IsDesktop(config, width)
    ensures var r := FrameStep(config, s, scrollY, width);
            r.wrapper == r.inner == Some(IsScrolled(config, scrollY))
  {
  }

  /** Both elements resolve, neither is shrunk, and the offset last recorded
      is past the threshold: no later update sees an upward crossing. */
  predicate StuckUnshrunk(config: Config, s: Snapshot)
  {
    BothPresent(s) && s.wrapper == s.inner == Some(false) && IsScrolled(config, s.lastScrollY)
  }

  predicate StaysPastThreshold(config: Config, events: seq<Event>)
  {
    forall i :: 0 <= i < |events| ==>
      events[i].Scroll? || (events[i].Frame? && IsScrolled(config, events[i].scrollY))
  }

  /** While the page stays scrolled past the threshold, a header that is
      unshrunk with a past-threshold offset recorded stays unshrunk, on any
      viewport width. */
  lemma {:induction false} StuckWhileScrolled(config: Config, s: Snapshot, events: seq<Event>)
    requires StuckUnshrunk(config, s)
    requires StaysPastThreshold(config, events)
    ensures StuckUnshrunk(config, Run(config, s, events))
    decreases |events|
  {
    if events != [] {
      assert events[0].Scroll? || (events[0].Frame? && IsScrolled(config, events[0].scrollY));
      assert StaysPastThreshold(config, events[1..]) by {
        forall i | 0 <= i < |events[1..]|
          ensures events[1..][i].Scroll? || (events[1..][i].Frame? && IsScrolled(config, events[1..][i].scrollY))
        {
          assert events[1..][i] == events[i + 1];
        }
      }
      StuckWhileScrolled(config, Step(config, s, events[0]), events[1..]);
    }
  }

  /** A page opened past the threshold is not shrunk by init, and is not
      shrunk later as long as it stays past the threshold, even on desktop. */
  lemma OpenedPastThresholdStaysUnshrunk(config: Config, s: Snapshot, scrollY: int, width: int, events: seq<Event>)
    requires BothPresent(s) && s.wrapper == s.inner == Some(false)
    requires IsScrolled(config, scrollY)
    requires StaysPastThreshold(config, events)
    ensures var r := Run(config, InitStep(config, s, scrollY, width), events);
            r.wrapper == r.inner == Some(false)
  {
    StuckWhileScrolled(config, InitStep(config, s, scrollY, width), events);
  }

  /** A narrow frame past the threshold clears `shrink` and records the
      offset; widening the viewport while still past the threshold does not
      bring `shrink` back. */
  lemma WidenedPastThresholdStaysUnshrunk(config: Config, s: Snapshot, scrollY: int, width: int, events: seq<Event>)
    requires BothPresent(s) && s.pending > 0
    requires !IsDesktop(config, width) && IsScrolled(config, scrollY)
    requires StaysPastThreshold(config, events)
    ensures var r := Run(config, FrameStep(config, s, scrollY, width), events);
            r.wrapper == r.inner == Some(false)
  {
    StuckWhileScrolled(config, FrameStep(config, s, scrollY, width), events);
  }

  /** When the ids do not resolve, init, scrolling and frames change no class
      and leave nothing ticking. */
  lemma MissingElementsAreHarmless(config: Config, s: Snapshot, y0: int, w0: int, y1: int, w1: int)
    requires !BothPresent(s) && s.pending == 0
    ensures var r := Run(config, s, [PageLoad(y0, w0), Scroll, Frame(y1, w1)]);
            !r.ticking && r.pending == 0 && r.listening && r.wrapper == s.wrapper && r.inner == s.inner
  {
    var events := [PageLoad(y0, w0), Scroll, Frame(y1, w1)];
    assert events[1..] == [Scroll, Frame(y1, w1)];
    assert events[2..] == [Frame(y1, w1)];
    var s1 := Step(config, s, PageLoad(y0, w0));
    var s2 := Step(config, s1, Scroll);
    var s3 := Step(config, s2, Frame(y1, w1));
    assert Run(config, s, events) == Run(config, s1, events[1..]);
    assert Run(config, s1, events[1..]) == Run(config, s2, events[2..]);
    assert Run(config, s2, events[2..]) == Run(config, s3, []) == s3;
  }
}
